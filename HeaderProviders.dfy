/**
 * Header providers: a composite provider whose `and` appends to its list of
 * providers in place, the simple provider that adds its own headers after the
 * chained ones, and the fixed content-type providers.
 */
module HeaderProviders {
  import opened Foundation

  type HeaderList = seq<Header>

  /**
   * `CompositeHeaderProvider`, and its subclass `SimpleHeaderProvider` when
   * `provide` is present. `Value` is the list `headers()` returns; `Repr` is
   * the set of providers reachable from this one.
   */
  class HeaderProvider {
    var providers: seq<HeaderProvider>
    const provide: Option<() -> HeaderList>
    ghost var Value: HeaderList
    ghost var Repr: set<object>

    /** What a provider adds after the chained providers: its closure's headers, if any. */
    function Own(): HeaderList {
      match provide
      case Some(f) => f()
      case None => []
    }

    ghost predicate Valid()
      reads this, Repr
      ensures Valid() ==> this in Repr
      decreases Repr
    {
      && this in Repr
      && (forall q :: q in providers ==>
            && q in Repr
            && q.Repr <= Repr
            && this !in q.Repr
            && q.Valid())
      && Value == Chained(providers) + Own()
    }

    /** A fresh `CompositeHeaderProvider()`: no providers, so no headers. */
    constructor Composite()
      ensures Valid() && fresh(Repr) && Repr == {this}
      ensures providers == [] && provide == None && Value == []
    {
      providers := [];
      provide := None;
      Value := [];
      Repr := {this};
    }

    /** `SimpleHeaderProvider(provide:)`: no chained providers yet, its closure's headers. */
    constructor Simple(f: () -> HeaderList)
      ensures Valid() && fresh(Repr) && Repr == {this}
      ensures providers == [] && provide == Some(f) && Value == f()
    {
      providers := [];
      provide := Some(f);
      Value := f();
      Repr := {this};
    }

    /** `and(_:)`: appends `p` to the providers in place and returns this same provider. */
    method And(p: HeaderProvider) returns (r: HeaderProvider)
      requires Valid() && p.Valid() && this !in p.Repr
      modifies this
      ensures r == this && Valid()
      ensures providers == old(providers) + [p]
      ensures Value == old(Chained(providers)) + p.Value + Own()
      ensures Repr == old(Repr) + p.Repr
    {
      ghost var before := providers;
      providers := providers + [p];
      Repr := Repr + p.Repr;
      ChainedAppend(before, p);
      Value := Chained(providers) + Own();
      r := this;
    }

    /**
     * `headers()`: the chained providers' headers in order, then the provider's
     * own (for the simple provider).
     */
    method Headers() returns (h: HeaderList)
      requires Valid()
      ensures h == Value
      decreases Repr
    {
      h := [];
      for i := 0 to |providers|
        invariant h == Chained(providers[..i])
      {
        var next := providers[i].Headers();
        assert providers[..i + 1][..i] == providers[..i];
        h := h + next;
      }
      assert providers[..|providers|] == providers;
      h := h + Own();
    }
  }

  /** The providers' header lists, concatenated in list order. */
  ghost function Chained(ps: seq<HeaderProvider>): HeaderList
    reads ps
  {
    if ps == [] then [] else Chained(ps[..|ps| - 1]) + ps[|ps| - 1].Value
  }

  lemma ChainedAppend(ps: seq<HeaderProvider>, p: HeaderProvider)
    ensures Chained(ps + [p]) == Chained(ps) + p.Value
  {
    assert (ps + [p])[..|ps|] == ps;
  }

  /** `HTTPHeaders.jsonContent`. */
  method JsonContent() returns (p: HeaderProvider)
    ensures fresh(p.Repr) && p.Valid()
    ensures p.Value == [("Content-Type", "application/json; charset=utf-8")]
  {
    p := new HeaderProvider.Simple(() => [("Content-Type", "application/json; charset=utf-8")]);
  }

  /** `HTTPHeaders.formContent`. */
  method FormContent() returns (p: HeaderProvider)
    ensures fresh(p.Repr) && p.Valid()
    ensures p.Value == [("Content-Type", "application/x-www-form-urlencoded")]
  {
    p := new HeaderProvider.Simple(() => [("Content-Type", "application/x-www-form-urlencoded")]);
  }

  /** `HTTPHeaders.plainTextContent`. */
  method PlainTextContent() returns (p: HeaderProvider)
    ensures fresh(p.Repr) && p.Valid()
    ensures p.Value == [("Content-Type", "plain/text")]
  {
    p := new HeaderProvider.Simple(() => [("Content-Type", "plain/text")]);
  }
}
