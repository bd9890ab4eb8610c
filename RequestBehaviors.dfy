/**
 * Request behaviours: the protocol's default members, the empty behaviour, and
 * the composite that concatenates its members' headers and fans each hook out
 * to its members in list order.
 */
module RequestBehaviors {
  import opened Foundation
  import opened Errors
  import opened HeaderProviders

  /** Names a behaviour supplied by the application. */
  type BehaviorId = string

  /**
   * `RequestBehavior`. `Empty` keeps every protocol default; `Custom` is an
   * application behaviour with its own headers whose hooks take effect.
   */
  datatype RequestBehavior =
    | Empty
    | Composite(behaviors: seq<RequestBehavior>)
    | Custom(id: BehaviorId, headers: HeaderList)

  /** The hooks of the protocol. */
  datatype Call = BeforeSend | AfterComplete | AfterFailure(error: Option<Error>)

  /** One hook of one application behaviour taking effect. */
  datatype Effect = Effect(behavior: BehaviorId, call: Call)

  /** `additionalHeaders`; empty by default. */
  function AdditionalHeaders(b: RequestBehavior): HeaderList
    decreases b
  {
    match b
    case Empty => []
    case Custom(_, headers) => headers
    case Composite(members) => SumHeaders(members)
  }

  /** The composite's `reduce`: each member's headers appended in list order. */
  function SumHeaders(members: seq<RequestBehavior>): HeaderList
    decreases members
  {
    if members == [] then []
    else SumHeaders(members[..|members| - 1]) + AdditionalHeaders(members[|members| - 1])
  }

  /** The behaviours whose hooks take effect, in the order a hook reaches them. */
  function Observers(b: RequestBehavior): seq<BehaviorId>
    decreases b
  {
    match b
    case Empty => []
    case Custom(id, _) => [id]
    case Composite(members) => ObserversOf(members)
  }

  function ObserversOf(members: seq<RequestBehavior>): seq<BehaviorId>
    decreases members
  {
    if members == [] then []
    else ObserversOf(members[..|members| - 1]) + Observers(members[|members| - 1])
  }

  /**
   * `beforeSend()`, `afterComplete()` and `afterFailure(error:)`: the hook is
   * called on each member in list order, each exactly once, all with the same
   * arguments; the empty behaviour's default hooks do nothing.
   */
  method Notify(b: RequestBehavior, call: Call) returns (effects: seq<Effect>)
    ensures |effects| == |Observers(b)|
    ensures forall i :: 0 <= i < |effects| ==> effects[i] == Effect(Observers(b)[i], call)
    decreases b
  {
    match b
    case Empty =>
      effects := [];
    case Custom(id, _) =>
      effects := [Effect(id, call)];
    case Composite(members) =>
      effects := [];
      for i := 0 to |members|
        invariant |effects| == |ObserversOf(members[..i])|
        invariant forall k :: 0 <= k < |effects| ==> effects[k] == Effect(ObserversOf(members[..i])[k], call)
      {
        var next := Notify(members[i], call);
        assert members[..i + 1][..i] == members[..i];
        effects := effects + next;
      }
      assert members[..|members|] == members;
  }

  /** Composing two member lists concatenates their headers. */
  lemma {:induction false} SumHeadersAppend(xs: seq<RequestBehavior>, ys: seq<RequestBehavior>)
    ensures SumHeaders(xs + ys) == SumHeaders(xs) + SumHeaders(ys)
    decreases |ys|
  {
    if ys == [] {
      assert xs + ys == xs;
    } else {
      var init := ys[..|ys| - 1];
      assert (xs + ys)[..|xs + ys| - 1] == xs + init;
      SumHeadersAppend(xs, init);
    }
  }

  /** Composing two member lists concatenates their observers. */
  lemma {:induction false} ObserversAppend(xs: seq<RequestBehavior>, ys: seq<RequestBehavior>)
    ensures ObserversOf(xs + ys) == ObserversOf(xs) + ObserversOf(ys)
    decreases |ys|
  {
    if ys == [] {
      assert xs + ys == xs;
    } else {
      var init := ys[..|ys| - 1];
      assert (xs + ys)[..|xs + ys| - 1] == xs + init;
      ObserversAppend(xs, init);
    }
  }

  /**
   * An empty behaviour placed anywhere in a composite changes neither its
   * headers nor which hooks take effect.
   */
  lemma EmptyContributesNothing(members: seq<RequestBehavior>, i: nat)
    requires i <= |members|
    ensures AdditionalHeaders(Composite(members[..i] + [Empty] + members[i..])) == AdditionalHeaders(Composite(members))
    ensures Observers(Composite(members[..i] + [Empty] + members[i..])) == Observers(Composite(members))
  {
    SumHeadersAppend(members[..i] + [Empty], members[i..]);
    SumHeadersAppend(members[..i], [Empty]);
    ObserversAppend(members[..i] + [Empty], members[i..]);
    ObserversAppend(members[..i], [Empty]);
    assert members[..i] + members[i..] == members;
    SumHeadersAppend(members[..i], members[i..]);
    ObserversAppend(members[..i], members[i..]);
  }

  /** A two-member composite: the first member's headers and hooks come first. */
  lemma PairOrder(first: RequestBehavior, second: RequestBehavior)
    ensures AdditionalHeaders(Composite([first, second])) == AdditionalHeaders(first) + AdditionalHeaders(second)
    ensures Observers(Composite([first, second])) == Observers(first) + Observers(second)
  {
    assert [first] + [second] == [first, second];
    SumHeadersAppend([first], [second]);
    ObserversAppend([first], [second]);
    assert [first][..0] == [] && [second][..0] == [];
  }
}
