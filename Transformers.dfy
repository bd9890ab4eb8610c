/**
 * Builders over URL components and requests: each modifier overwrites the
 * stored value in place and returns the same builder, so calls chain.
 */
module Transformers {
  import opened Foundation
  import opened Errors

  /** A call that returns a value or throws. */
  datatype Thrown<T> = Returned(value: T) | Threw(error: Error)

  /** The query after `appending(queryItems:)`: the existing items (none when nil) followed by the new ones. */
  function AppendedQuery(c: URLComponents, items: seq<QueryItem>): (r: URLComponents)
    ensures r.queryItems.Some? && |r.queryItems.value| == |c.queryItems.GetOr([])| + |items|
    ensures c.queryItems.None? ==> r.queryItems.value == items
    ensures c.queryItems.Some? ==> r.queryItems.value[..|c.queryItems.value|] == c.queryItems.value
    ensures r.queryItems.value[|r.queryItems.value| - |items|..] == items
    ensures r == c.(queryItems := r.queryItems)
  {
    c.(queryItems := Some(c.queryItems.GetOr([]) + items))
  }

  /** Appending twice is appending once the two lists joined. */
  lemma AppendedQueryTwice(c: URLComponents, first: seq<QueryItem>, second: seq<QueryItem>)
    ensures AppendedQuery(AppendedQuery(c, first), second) == AppendedQuery(c, first + second)
  {
    assert c.queryItems.GetOr([]) + first + second == c.queryItems.GetOr([]) + (first + second);
  }

  /** Appending nothing to nil items turns them into an empty list; to a list, leaves it as it is. */
  lemma AppendingNothing(c: URLComponents)
    ensures c.queryItems.None? ==> AppendedQuery(c, []).queryItems == Some([])
    ensures c.queryItems.Some? ==> AppendedQuery(c, []) == c
  {
    if c.queryItems.Some? {
      assert c.queryItems.value + [] == c.queryItems.value;
    }
  }

  /** `URLComponentsTransformer`. */
  class URLComponentsTransformer {
    var stored: URLComponents

    /** `init(_:)`, also reached as `URLComponents.transformer()`. */
    constructor (components: URLComponents)
      ensures stored == components
    {
      stored := components;
    }

    /** `request()`: a fresh request for the stored components' URL, or `badComponents` when they form none. */
    method Request(platform: Platform) returns (r: Thrown<URLRequest>)
      ensures r.Threw? <==> !platform.formsURL(stored)
      ensures r.Threw? ==> r.error == BadComponents
      ensures r.Returned? ==> r.value == NewRequest(stored)
    {
      if !platform.formsURL(stored) {
        return Threw(BadComponents);
      }
      r := Returned(NewRequest(stored));
    }

    /** `components()`. */
    method Components() returns (c: URLComponents)
      ensures c == stored
    {
      c := stored;
    }

    /** `replacing(queryItems:)`: exactly the given items, nil included. */
    method Replacing(queryItems: Option<seq<QueryItem>>) returns (r: URLComponentsTransformer)
      modifies this
      ensures r == this
      ensures stored == old(stored).(queryItems := queryItems)
    {
      stored := stored.(queryItems := queryItems);
      r := this;
    }

    /** `appending(queryItems:)`. */
    method Appending(queryItems: seq<QueryItem>) returns (r: URLComponentsTransformer)
      modifies this
      ensures r == this
      ensures stored == AppendedQuery(old(stored), queryItems)
    {
      var existing := stored.queryItems.GetOr([]);
      stored := stored.(queryItems := Some(existing + queryItems));
      r := this;
    }

    /** `modifying(scheme:)`. */
    method ModifyingScheme(scheme: Option<string>) returns (r: URLComponentsTransformer)
      modifies this
      ensures r == this
      ensures stored == old(stored).(scheme := scheme)
    {
      stored := stored.(scheme := scheme);
      r := this;
    }

    /** `modifying(port:)`. */
    method ModifyingPort(port: Option<int>) returns (r: URLComponentsTransformer)
      modifies this
      ensures r == this
      ensures stored == old(stored).(port := port)
    {
      stored := stored.(port := port);
      r := this;
    }

    /** `modifying(path:)`. */
    method ModifyingPath(path: string) returns (r: URLComponentsTransformer)
      modifies this
      ensures r == this
      ensures stored == old(stored).(path := path)
    {
      stored := stored.(path := path);
      r := this;
    }

    /** `modifying(host:)`. */
    method ModifyingHost(host: Option<string>) returns (r: URLComponentsTransformer)
      modifies this
      ensures r == this
      ensures stored == old(stored).(host := host)
    {
      stored := stored.(host := host);
      r := this;
    }
  }

  /** `URLRequestTransformer`. */
  class URLRequestTransformer {
    var stored: URLRequest

    /** `init(_:)`, also reached as `URLRequest.transformer()`. */
    constructor (request: URLRequest)
      ensures stored == request
    {
      stored := request;
    }

    /** `request()`. */
    method Request() returns (r: URLRequest)
      ensures r == stored
    {
      r := stored;
    }

    /** `appending(headers:)`: each pair added in order; nothing else in the request changes. */
    method AppendingHeaders(headers: seq<Header>) returns (r: URLRequestTransformer)
      modifies this
      ensures r == this
      ensures stored == old(stored).(headers := old(stored).headers + headers)
    {
      var request := stored;
      for i := 0 to |headers|
        invariant request == old(stored).(headers := old(stored).headers + headers[..i])
      {
        var (header, value) := headers[i];
        request := AddValue(request, value, header);
        assert headers[..i + 1] == headers[..i] + [headers[i]];
      }
      assert headers[..|headers|] == headers;
      stored := request;
      r := this;
    }

    /** `modifying(cachePolicy:)`. */
    method ModifyingCachePolicy(cachePolicy: CachePolicy) returns (r: URLRequestTransformer)
      modifies this
      ensures r == this
      ensures stored == old(stored).(cachePolicy := cachePolicy)
    {
      stored := stored.(cachePolicy := cachePolicy);
      r := this;
    }
  }
}
