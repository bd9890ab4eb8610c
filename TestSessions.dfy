/**
 * The stub session used by tests: URL keys with a normalised query, the rule
 * that picks the stub for a request's URL, and the environment representation
 * that carries a configuration into a test process.
 */
module TestSessions {
  import opened Foundation

  // ---------------------------------------------------------------------
  // Ordering query items by name

  /** `String <`, taken as the lexicographic order on characters. */
  predicate Below(a: string, b: string)
    decreases |a|
  {
    if a == [] then b != []
    else if b == [] then false
    else if a[0] != b[0] then a[0] < b[0]
    else Below(a[1..], b[1..])
  }

  lemma {:induction false} BelowAsymmetric(a: string, b: string)
    ensures !(Below(a, b) && Below(b, a))
    decreases |a|
  {
    if a != [] && b != [] && a[0] == b[0] {
      BelowAsymmetric(a[1..], b[1..]);
    }
  }

  lemma {:induction false} BelowTotal(a: string, b: string)
    ensures a == b || Below(a, b) || Below(b, a)
    decreases |a|
  {
    if a != [] && b != [] && a[0] == b[0] {
      BelowTotal(a[1..], b[1..]);
      if a[1..] == b[1..] {
        assert a == [a[0]] + a[1..] && b == [b[0]] + b[1..];
      }
    }
  }

  lemma {:induction false} BelowTransitive(a: string, b: string, c: string)
    requires Below(a, b) && Below(b, c)
    ensures Below(a, c)
    decreases |a|
  {
    if a != [] && a[0] == b[0] && b[0] == c[0] {
      BelowTransitive(a[1..], b[1..], c[1..]);
    }
  }

  /** "Not below" is transitive: the order is total. */
  lemma NotBelowTransitive(a: string, b: string, c: string)
    requires !Below(a, b) && !Below(b, c)
    ensures !Below(a, c)
  {
    BelowTotal(a, b);
    BelowTotal(b, c);
    if a != b && b != c {
      BelowTransitive(c, b, a);
    }
    BelowAsymmetric(a, c);
  }

  /** Items in order of their names; items with equal names may come in any order. */
  predicate Sorted(q: seq<QueryItem>) {
    forall i, j :: 0 <= i < j < |q| ==> !Below(q[j].name, q[i].name)
  }

  /** `x` inserted before the first item whose name is not below its own. */
  function Insert(x: QueryItem, s: seq<QueryItem>): (r: seq<QueryItem>)
    ensures multiset(r) == multiset(s) + multiset{x}
  {
    if s == [] then [x]
    else if Below(s[0].name, x.name) then
      assert s == [s[0]] + s[1..];
      [s[0]] + Insert(x, s[1..])
    else [x] + s
  }

  lemma {:induction false} InsertSorted(x: QueryItem, s: seq<QueryItem>)
    requires Sorted(s)
    ensures Sorted(Insert(x, s))
    decreases |s|
  {
    if s == [] {
    } else if Below(s[0].name, x.name) {
      var rest := Insert(x, s[1..]);
      InsertSorted(x, s[1..]);
      var r := [s[0]] + rest;
      forall j | 1 <= j < |r|
        ensures !Below(r[j].name, s[0].name)
      {
        var e := r[j];
        assert e == rest[j - 1];
        assert e in multiset(rest);
        if e == x {
          BelowAsymmetric(s[0].name, x.name);
        } else {
          assert e in multiset(s[1..]);
          var k :| 0 <= k < |s[1..]| && s[1..][k] == e;
          assert s[k + 1] == e;
        }
      }
      assert Insert(x, s) == r;
    } else {
      forall j | 0 <= j < |s|
        ensures !Below(s[j].name, x.name)
      {
        if j > 0 {
          NotBelowTransitive(s[j].name, s[0].name, x.name);
        }
      }
    }
  }

  /** The query as `sorted(by: { $0.name < $1.name })` leaves it: sorted by name, the same items. */
  function SortByName(q: seq<QueryItem>): (r: seq<QueryItem>)
    ensures Sorted(r) && multiset(r) == multiset(q)
    decreases |q|
  {
    if q == [] then []
    else
      var rest := SortByName(q[1..]);
      InsertSorted(q[0], rest);
      assert q == [q[0]] + q[1..];
      Insert(q[0], rest)
  }

  /** Sorting a sorted query changes nothing. */
  lemma {:induction false} SortSorted(q: seq<QueryItem>)
    requires Sorted(q)
    ensures SortByName(q) == q
    decreases |q|
  {
    if q != [] {
      SortSorted(q[1..]);
      assert q == [q[0]] + q[1..];
    }
  }

  /** No two different items share a name. */
  predicate NamesIdentify(q: seq<QueryItem>) {
    forall x, y :: x in q && y in q && x.name == y.name ==> x == y
  }

  /** The rest of a sorted query is sorted. */
  lemma SortedTail(q: seq<QueryItem>)
    requires Sorted(q) && q != []
    ensures Sorted(q[1..])
  {
    forall i, j | 0 <= i < j < |q[1..]|
      ensures !Below(q[1..][j].name, q[1..][i].name)
    {
      assert q[1..][j] == q[j + 1] && q[1..][i] == q[i + 1];
    }
  }

  /** Two sorted arrangements of the same items whose names identify them start with the same item. */
  lemma SortedHeadsAgree(a: seq<QueryItem>, b: seq<QueryItem>)
    requires Sorted(a) && Sorted(b) && a != [] && multiset(a) == multiset(b) && NamesIdentify(a)
    ensures b != [] && a[0] == b[0]
  {
    assert a[0] in multiset(b);
    var k :| 0 <= k < |b| && b[k] == a[0];
    assert b[0] in multiset(a);
    var m :| 0 <= m < |a| && a[m] == b[0];
    BelowAsymmetric(a[0].name, a[0].name);
    assert !Below(a[0].name, b[0].name) by {
      if k > 0 {
        assert !Below(b[k].name, b[0].name);
      }
    }
    assert !Below(b[0].name, a[0].name) by {
      if m > 0 {
        assert !Below(a[m].name, a[0].name);
      }
    }
    BelowTotal(a[0].name, b[0].name);
    assert a[0] in a && b[0] in a;
  }

  /** Two sorted arrangements of the same items whose names identify them are the same sequence. */
  lemma {:induction false} SortedUnique(a: seq<QueryItem>, b: seq<QueryItem>)
    requires Sorted(a) && Sorted(b) && multiset(a) == multiset(b) && NamesIdentify(a)
    ensures a == b
    decreases |a|
  {
    if a == [] {
      assert |b| == |multiset(b)| == 0;
    } else {
      SortedHeadsAgree(a, b);
      assert a == [a[0]] + a[1..] && b == [b[0]] + b[1..];
      assert multiset(a) == multiset{a[0]} + multiset(a[1..]);
      assert multiset(b) == multiset{b[0]} + multiset(b[1..]);
      forall x
        ensures multiset(a[1..])[x] == multiset(b[1..])[x]
      {
        assert multiset(a)[x] == multiset{a[0]}[x] + multiset(a[1..])[x];
        assert multiset(b)[x] == multiset{b[0]}[x] + multiset(b[1..])[x];
      }
      assert multiset(a[1..]) == multiset(b[1..]);
      SortedTail(a);
      SortedTail(b);
      forall x, y | x in a[1..] && y in a[1..] && x.name == y.name
        ensures x == y
      {
        assert x in a && y in a;
      }
      SortedUnique(a[1..], b[1..]);
    }
  }

  // ---------------------------------------------------------------------
  // URL keys

  /** `URLMatch`. */
  datatype URLMatch = URLMatch(host: string, path: string, query: seq<QueryItem>)

  /** The memberwise `init`: the query is stored sorted by name. */
  function NewURLMatch(host: string, path: string, query: seq<QueryItem>): (m: URLMatch)
    ensures m.host == host && m.path == path
    ensures Sorted(m.query) && multiset(m.query) == multiset(query)
  {
    URLMatch(host, path, SortByName(query))
  }

  /** Re-initialising from a key's own fields gives the same key. */
  lemma NewURLMatchIdempotent(host: string, path: string, query: seq<QueryItem>)
    ensures var m := NewURLMatch(host, path, query); NewURLMatch(m.host, m.path, m.query) == m
  {
    SortSorted(NewURLMatch(host, path, query).query);
  }

  /** The order in which the query items are given does not matter, when their names identify them. */
  lemma QueryOrderIrrelevant(host: string, path: string, q1: seq<QueryItem>, q2: seq<QueryItem>)
    requires multiset(q1) == multiset(q2) && NamesIdentify(q1)
    ensures NewURLMatch(host, path, q1) == NewURLMatch(host, path, q2)
  {
    var a, b := NewURLMatch(host, path, q1).query, NewURLMatch(host, path, q2).query;
    forall x, y | x in a && y in a && x.name == y.name
      ensures x == y
    {
      assert x in multiset(q1) && y in multiset(q1);
    }
    SortedUnique(a, b);
  }

  /** `==`: host, path and query all equal. */
  function Same(lhs: URLMatch, rhs: URLMatch): (r: bool)
    ensures r <==> lhs == rhs
  {
    lhs.host == rhs.host && lhs.path == rhs.path && lhs.query == rhs.query
  }

  /** `hashValue`: the host's hash exclusive-or the path's, with the string hash as a parameter. */
  function HashValue(m: URLMatch, hash: string -> bv64): bv64 {
    hash(m.host) ^ hash(m.path)
  }

  /** Equal keys hash equally; the hash ignores the query and the order of host and path. */
  lemma HashConsistent(a: URLMatch, b: URLMatch, hash: string -> bv64)
    ensures Same(a, b) ==> HashValue(a, hash) == HashValue(b, hash)
    ensures a.host == b.host && a.path == b.path ==> HashValue(a, hash) == HashValue(b, hash)
    ensures a.host == b.path && a.path == b.host ==> HashValue(a, hash) == HashValue(b, hash)
  {
  }

  // ---------------------------------------------------------------------
  // Picking the stub for a URL

  /** `URLResponseStub`. */
  datatype URLResponseStub = URLResponseStub(statusCode: int, headers: Option<map<string, string>>, payloadFileName: Option<string>)

  /** `TestURLSessionConfiguration.matchingConfig`. */
  type Config = map<URLMatch, URLResponseStub>

  /**
   * The key test of `config(matchingURL:)` as the source writes it: comparing
   * the key's query count with the URL's optional count fails whenever the
   * URL has no query items at all.
   */
  predicate KeyMatchesAsWritten(key: URLMatch, url: URLComponents) {
    && url.host == Some(key.host)
    && url.path == key.path
    && url.queryItems.Some?
    && |url.queryItems.value| == |key.query|
    && forall item :: item in key.query ==> item in url.queryItems.value
  }

  /** The key test, with a URL without query items read as one with none. */
  predicate KeyMatches(key: URLMatch, url: URLComponents) {
    && url.host == Some(key.host)
    && url.path == key.path
    && |url.queryItems.GetOr([])| == |key.query|
    && forall item :: item in key.query ==> item in url.queryItems.GetOr([])
  }

  /** A URL with no query items matches no key as written, not even a key with an empty query. */
  lemma NoQueryNeverMatchesAsWritten(key: URLMatch, url: URLComponents)
    requires url.queryItems.None?
    ensures !KeyMatchesAsWritten(key, url)
  {
  }

  /** A concrete instance: a key for `http://h/p` and the URL `http://h/p` itself. */
  lemma NoQueryCounterexample()
    ensures var key := URLMatch("h", "/p", []);
      var url := EmptyComponents.(scheme := Some("http"), host := Some("h"), path := "/p");
      !KeyMatchesAsWritten(key, url) && KeyMatches(key, url)
  {
  }

  /** The corrected test agrees with the written one whenever the URL has query items, and accepts more otherwise. */
  lemma KeyMatchesExtendsAsWritten(key: URLMatch, url: URLComponents)
    ensures KeyMatchesAsWritten(key, url) ==> KeyMatches(key, url)
    ensures url.queryItems.Some? ==> (KeyMatches(key, url) <==> KeyMatchesAsWritten(key, url))
    ensures url.queryItems.None? ==> (KeyMatches(key, url) <==> url.host == Some(key.host) && url.path == key.path && key.query == [])
  {
  }

  /**
   * `config(matchingURL:)`: the stub of some key whose host and path are the
   * URL's, whose query has as many items as the URL's, each of them among the
   * URL's. The dictionary's iteration order is not specified, so neither is
   * which matching key wins. Finding none is an assertion failure.
   */
  method ConfigMatching(config: Config, url: URLComponents) returns (stub: URLResponseStub)
    requires exists key :: key in config && KeyMatchesAsWritten(key, url)
    ensures exists key :: key in config && KeyMatchesAsWritten(key, url) && config[key] == stub
  {
    var remaining := config.Keys;
    while true
      invariant remaining <= config.Keys
      invariant exists key :: key in remaining && KeyMatchesAsWritten(key, url)
      decreases remaining
    {
      var key :| key in remaining;
      if url.host == Some(key.host) && key.path == url.path
         && url.queryItems.Some? && |key.query| == |url.queryItems.value| {
        var fullMatch := true;
        if key.query != [] {
          var matchQuery := url.queryItems.value;
          for i := 0 to |key.query|
            invariant fullMatch <==> forall j :: 0 <= j < i ==> key.query[j] in matchQuery
          {
            fullMatch := fullMatch && key.query[i] in matchQuery;
          }
        }
        if fullMatch {
          return config[key];
        }
      }
      remaining := remaining - {key};
    }
  }

  // ---------------------------------------------------------------------
  // Environment representations

  /** Every query item has a value, as `$0.value!` demands. */
  predicate HasValues(q: seq<QueryItem>) {
    forall i :: 0 <= i < |q| ==> q[i].value.Some?
  }

  /** `URLMatch.environmentRepresentation()`: host, path, and the query as `[name, value]` pairs. */
  function MatchRepresentation(m: URLMatch): (rep: map<string, Json>)
    requires HasValues(m.query)
    ensures rep.Keys == {"host", "path", "query"}
  {
    map["host" := JString(m.host), "path" := JString(m.path),
        "query" := JArray(seq(|m.query|, i requires 0 <= i < |m.query| =>
                            JArray([JString(m.query[i].name), JString(m.query[i].value.value)])))]
  }

  /** A pair in the query: an array of strings with at least a name and a value. */
  predicate WellFormedPair(j: Json) {
    j.JArray? && |j.items| >= 2 && forall k :: 0 <= k < |j.items| ==> j.items[k].JString?
  }

  /** What the forced casts of `init(environmentRepresentation:)` demand. */
  predicate WellFormedMatch(rep: map<string, Json>) {
    && "host" in rep && rep["host"].JString?
    && "path" in rep && rep["path"].JString?
    && "query" in rep && rep["query"].JArray?
    && forall i :: 0 <= i < |rep["query"].items| ==> WellFormedPair(rep["query"].items[i])
  }

  /** `URLMatch(environmentRepresentation:)`; the query is taken in the order given, not sorted. */
  function MatchFromRepresentation(rep: map<string, Json>): (m: URLMatch)
    requires WellFormedMatch(rep)
    ensures m.host == rep["host"].s && m.path == rep["path"].s
    ensures |m.query| == |rep["query"].items|
    ensures HasValues(m.query)
  {
    var pairs := rep["query"].items;
    URLMatch(rep["host"].s, rep["path"].s,
             seq(|pairs|, i requires 0 <= i < |pairs| && WellFormedPair(pairs[i]) =>
                   QueryItem(pairs[i].items[0].s, Some(pairs[i].items[1].s))))
  }

  /** A key's representation decodes to the same host, path and query: names, values and order. */
  lemma MatchRoundTrip(m: URLMatch)
    requires HasValues(m.query)
    ensures WellFormedMatch(MatchRepresentation(m))
    ensures MatchFromRepresentation(MatchRepresentation(m)) == m
  {
    var back := MatchFromRepresentation(MatchRepresentation(m));
    assert back.query == m.query;
  }

  /** The stub's headers as JSON. */
  function HeadersJson(h: map<string, string>): Json {
    JObject(map k | k in h :: JString(h[k]))
  }

  /** `as? [String: String]`: a string dictionary, or nil when the value is anything else. */
  function HeadersFromJson(j: Json): (r: Option<map<string, string>>)
    ensures r.Some? <==> j.JObject? && forall k :: k in j.fields ==> j.fields[k].JString?
    ensures r.Some? ==> r.value.Keys == j.fields.Keys
  {
    if j.JObject? && forall k :: k in j.fields ==> j.fields[k].JString? then
      Some(map k | k in j.fields :: j.fields[k].s)
    else None
  }

  /** A header dictionary survives the trip through JSON. */
  lemma HeadersRoundTrip(h: map<string, string>)
    ensures HeadersFromJson(HeadersJson(h)) == Some(h)
  {
    var j := HeadersJson(h);
    assert forall k :: k in j.fields ==> j.fields[k] == JString(h[k]);
    var back := map k | k in j.fields :: j.fields[k].s;
    assert back == h;
  }

  /** What the forced cast of the status code demands. */
  predicate WellFormedStub(rep: map<string, Json>) {
    "statusCode" in rep && rep["statusCode"].JNumber?
  }

  /** `URLResponseStub(environmentRepresentation:)`: the optional fields are nil when absent or of another type. */
  function StubFromRepresentation(rep: map<string, Json>): (stub: URLResponseStub)
    requires WellFormedStub(rep)
    ensures stub.statusCode == rep["statusCode"].n
    ensures "headers" !in rep ==> stub.headers.None?
    ensures "payloadFileName" !in rep || !rep["payloadFileName"].JString? ==> stub.payloadFileName.None?
  {
    var headers := if "headers" in rep then HeadersFromJson(rep["headers"]) else None;
    var payload := if "payloadFileName" in rep && rep["payloadFileName"].JString?
                   then Some(rep["payloadFileName"].s) else None;
    URLResponseStub(rep["statusCode"].n, headers, payload)
  }

  /**
   * `URLResponseStub.environmentRepresentation()`: the status code, then each
   * optional field only when present; it decodes to the same stub.
   */
  method StubRepresentation(stub: URLResponseStub) returns (rep: map<string, Json>)
    ensures "statusCode" in rep && rep["statusCode"] == JNumber(stub.statusCode)
    ensures "headers" in rep <==> stub.headers.Some?
    ensures "payloadFileName" in rep <==> stub.payloadFileName.Some?
    ensures rep.Keys <= {"statusCode", "headers", "payloadFileName"}
    ensures WellFormedStub(rep) && StubFromRepresentation(rep) == stub
  {
    rep := map["statusCode" := JNumber(stub.statusCode)];
    if stub.headers.Some? {
      var headers := stub.headers.value;
      rep := rep["headers" := HeadersJson(headers)];
      HeadersRoundTrip(headers);
    }
    if stub.payloadFileName.Some? {
      rep := rep["payloadFileName" := JString(stub.payloadFileName.value)];
    }
  }

  // ---------------------------------------------------------------------
  // Configurations from and to the environment

  /** One `{"match": …, "stub": …}` item that the forced casts accept: every field a dictionary. */
  predicate WellFormedItem(item: Json) {
    && item.JObject?
    && "match" in item.fields && item.fields["match"].JObject? && WellFormedMatch(item.fields["match"].fields)
    && "stub" in item.fields && item.fields["stub"].JObject? && WellFormedStub(item.fields["stub"].fields)
    && forall key :: key in item.fields ==> item.fields[key].JObject?
  }

  predicate WellFormedItems(items: seq<Json>) {
    forall i :: 0 <= i < |items| ==> WellFormedItem(items[i])
  }

  function ItemMatch(item: Json): URLMatch
    requires WellFormedItem(item)
  {
    MatchFromRepresentation(item.fields["match"].fields)
  }

  function ItemStub(item: Json): URLResponseStub
    requires WellFormedItem(item)
  {
    StubFromRepresentation(item.fields["stub"].fields)
  }

  /** The items' keys, in order. */
  function ItemKeys(items: seq<Json>): (keys: seq<URLMatch>)
    requires WellFormedItems(items)
    ensures |keys| == |items|
  {
    seq(|items|, i requires 0 <= i < |items| && WellFormedItem(items[i]) => ItemMatch(items[i]))
  }

  /** The items' stubs, in order. */
  function ItemStubs(items: seq<Json>): (stubs: seq<URLResponseStub>)
    requires WellFormedItems(items)
    ensures |stubs| == |items|
  {
    seq(|items|, i requires 0 <= i < |items| && WellFormedItem(items[i]) => ItemStub(items[i]))
  }

  /** The configuration the items describe: each item stored under its key in turn. */
  function ConfigOf(items: seq<Json>): Config
    requires WellFormedItems(items)
  {
    StoreEach(map[], ItemKeys(items), ItemStubs(items))
  }

  /** The configuration's keys are exactly the items' keys. */
  lemma ConfigOfKeys(items: seq<Json>)
    requires WellFormedItems(items)
    ensures forall key :: key in ConfigOf(items) <==> key in ItemKeys(items)
  {
    StoreEachKeys(map[], ItemKeys(items), ItemStubs(items));
  }

  /** Adding one item to the end stores it under its key. */
  lemma ConfigOfSnoc(items: seq<Json>, item: Json)
    requires WellFormedItems(items) && WellFormedItem(item)
    ensures WellFormedItems(items + [item])
    ensures ConfigOf(items + [item]) == ConfigOf(items)[ItemMatch(item) := ItemStub(item)]
  {
    var all := items + [item];
    assert ItemKeys(all)[..|items|] == ItemKeys(items);
    assert ItemStubs(all)[..|items|] == ItemStubs(items);
  }

  /** An item whose key no later item repeats has its own stub in the configuration. */
  lemma LastWins(items: seq<Json>, i: nat)
    requires WellFormedItems(items) && i < |items|
    requires forall j :: i < j < |items| ==> ItemMatch(items[j]) != ItemMatch(items[i])
    ensures ItemMatch(items[i]) in ConfigOf(items) && ConfigOf(items)[ItemMatch(items[i])] == ItemStub(items[i])
  {
    var keys := ItemKeys(items);
    assert keys[i] !in keys[i + 1..] by {
      forall j | i < j < |items|
        ensures keys[j] != keys[i]
      {
      }
    }
    StoreEachLastWins(map[], keys, ItemStubs(items), i);
  }

  /**
   * `init(environmentVariable:)` after the JSON text is decoded: one entry per
   * item, in order, each later item with an equal key overwriting the earlier.
   */
  method FromEnvironment(representation: seq<Json>) returns (config: Config)
    requires WellFormedItems(representation)
    ensures config == ConfigOf(representation)
  {
    config := map[];
    for i := 0 to |representation|
      invariant config == ConfigOf(representation[..i])
    {
      var key := ItemMatch(representation[i]);
      var stub := ItemStub(representation[i]);
      config := config[key := stub];
      assert representation[..i + 1] == representation[..i] + [representation[i]];
      ConfigOfSnoc(representation[..i], representation[i]);
    }
    assert representation[..|representation|] == representation;
  }

  /** The configuration restricted to the given keys. */
  function Restrict(config: Config, keys: set<URLMatch>): (r: Config)
    requires keys <= config.Keys
    ensures r.Keys == keys
    ensures forall key :: key in keys ==> r[key] == config[key]
  {
    map key | key in keys :: config[key]
  }

  lemma RestrictAdd(config: Config, keys: set<URLMatch>, key: URLMatch)
    requires keys <= config.Keys && key in config
    ensures Restrict(config, keys)[key := config[key]] == Restrict(config, keys + {key})
  {
    var left, right := Restrict(config, keys)[key := config[key]], Restrict(config, keys + {key});
    assert left.Keys == right.Keys;
    forall k | k in left.Keys
      ensures left[k] == right[k]
    {
    }
  }

  /** One `{"match": …, "stub": …}` item of the configuration's representation. */
  function ItemFor(key: URLMatch, stubRep: map<string, Json>): Json
    requires HasValues(key.query)
  {
    JObject(map["match" := JObject(MatchRepresentation(key)), "stub" := JObject(stubRep)])
  }

  /** An item decodes to the key and stub it was made from. */
  lemma ItemForDecodes(key: URLMatch, stub: URLResponseStub, stubRep: map<string, Json>)
    requires HasValues(key.query) && WellFormedStub(stubRep) && StubFromRepresentation(stubRep) == stub
    ensures WellFormedItem(ItemFor(key, stubRep))
    ensures ItemMatch(ItemFor(key, stubRep)) == key && ItemStub(ItemFor(key, stubRep)) == stub
  {
    MatchRoundTrip(key);
  }

  /** `items` represent exactly the entries of `config` under the keys `done`. */
  predicate Represents(config: Config, items: seq<Json>, done: set<URLMatch>) {
    && done <= config.Keys
    && WellFormedItems(items)
    && |items| == |done|
    && ConfigOf(items) == Restrict(config, done)
  }

  /** Representing one more entry. */
  lemma RepresentsStep(config: Config, items: seq<Json>, done: set<URLMatch>, key: URLMatch, stubRep: map<string, Json>)
    requires Represents(config, items, done) && key in config && key !in done
    requires HasValues(key.query) && WellFormedStub(stubRep) && StubFromRepresentation(stubRep) == config[key]
    ensures Represents(config, items + [ItemFor(key, stubRep)], done + {key})
  {
    var item := ItemFor(key, stubRep);
    ItemForDecodes(key, config[key], stubRep);
    ConfigOfSnoc(items, item);
    RestrictAdd(config, done, key);
  }

  /** Once every key is represented, the items decode to the whole configuration. */
  lemma RepresentsAll(config: Config, items: seq<Json>, done: set<URLMatch>)
    requires Represents(config, items, done) && config.Keys - done == {}
    ensures |items| == |config| && WellFormedItems(items) && ConfigOf(items) == config
  {
    forall k | k in config.Keys
      ensures k in done
    {
      assert k !in config.Keys - done;
    }
    assert done == config.Keys;
  }

  /**
   * `environmentRepresentation()` before the JSON text is encoded: one item
   * per entry, in the dictionary's unspecified order; decoding the items gives
   * the configuration back.
   */
  method ConfigRepresentation(config: Config) returns (items: seq<Json>)
    requires forall key :: key in config ==> HasValues(key.query)
    ensures |items| == |config|
    ensures WellFormedItems(items)
    ensures ConfigOf(items) == config
  {
    items := [];
    ghost var done: set<URLMatch> := {};
    var remaining := config.Keys;
    while remaining != {}
      invariant remaining == config.Keys - done
      invariant Represents(config, items, done)
      decreases remaining
    {
      var key :| key in remaining;
      var stubRep := StubRepresentation(config[key]);
      RepresentsStep(config, items, done, key, stubRep);
      items := items + [ItemFor(key, stubRep)];
      done := done + {key};
      remaining := remaining - {key};
    }
    RepresentsAll(config, items, done);
  }
}
