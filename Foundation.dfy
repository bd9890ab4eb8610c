/**
 * The slice of Apple's Foundation framework that the networking core touches:
 * optional values, bytes, query items, URL components, URL requests, JSON-like
 * values, decimal rendering of integers (Swift string interpolation), and the
 * calls into Foundation whose behaviour is not part of this model.
 */
module Foundation {

  datatype Option<+T> = None | Some(value: T) {
    function GetOr(default: T): T {
      match this
      case Some(v) => v
      case None => default
    }
  }

  newtype byte = x: int | 0 <= x < 256

  /** Foundation's `Data`: a byte string. */
  type Data = seq<byte>

  /** One `(name, value)` header pair, in the order the source keeps them. */
  type Header = (string, string)

  /** `URLQueryItem`: a name with an optional value. */
  datatype QueryItem = QueryItem(name: string, value: Option<string>)

  /** `URLComponents`: every part is optional except the path, which may be empty. */
  datatype URLComponents = URLComponents(
    scheme: Option<string>,
    host: Option<string>,
    port: Option<int>,
    path: string,
    queryItems: Option<seq<QueryItem>>,
    fragment: Option<string>)

  /** `URLComponents()`: nothing set. */
  const EmptyComponents := URLComponents(None, None, None, "", None, None)

  /**
   * A URL is represented by the components it was built from; reading
   * `url.host` or `URLComponents(url:)` gives those components back, and
   * `url.path` gives the path as `URLPath` reads it.
   */
  type URL = URLComponents

  /**
   * `URL.path`: the path without its trailing slash, unless the path is the
   * root "/" (`URLComponents.path` keeps the slash).
   */
  function URLPath(u: URL): (p: string)
    ensures u.path == p || u.path == p + "/"
    ensures u.path == p <==> |u.path| <= 1 || u.path[|u.path| - 1] != '/'
  {
    if |u.path| > 1 && u.path[|u.path| - 1] == '/' then u.path[..|u.path| - 1] else u.path
  }

  /** `NSURLRequest.CachePolicy`. */
  datatype CachePolicy =
    | UseProtocolCachePolicy
    | ReloadIgnoringLocalCacheData
    | ReloadIgnoringLocalAndRemoteCacheData
    | ReturnCacheDataElseLoad
    | ReturnCacheDataDontLoad
    | ReloadRevalidatingCacheData

  /**
   * `URLRequest`. `headers` is the ordered log of `addValue(_:forHTTPHeaderField:)`
   * calls; how Foundation folds repeated fields into one comma-separated value is
   * not modelled.
   */
  datatype URLRequest = URLRequest(
    url: URL,
    httpMethod: string,
    httpBody: Option<Data>,
    headers: seq<Header>,
    cachePolicy: CachePolicy)

  /** `URLRequest(url:)`: a GET with no body, no headers and the protocol cache policy. */
  function NewRequest(url: URL): (r: URLRequest)
    ensures r.url == url && r.httpMethod == "GET" && r.httpBody == None
    ensures r.headers == [] && r.cachePolicy == UseProtocolCachePolicy
  {
    URLRequest(url, "GET", None, [], UseProtocolCachePolicy)
  }

  /** `request.addValue(value, forHTTPHeaderField: field)`. */
  function AddValue(r: URLRequest, value: string, field: string): (r': URLRequest)
    ensures r'.headers == r.headers + [(field, value)]
    ensures r' == r.(headers := r'.headers)
  {
    r.(headers := r.headers + [(field, value)])
  }

  /** The values `JSONSerialization` reads and writes (`[String: Any]` and friends). */
  datatype Json =
    | JNull
    | JBool(b: bool)
    | JNumber(n: int)
    | JString(s: string)
    | JArray(items: seq<Json>)
    | JObject(fields: map<string, Json>)

  /**
   * Calls into Foundation whose behaviour this model does not define; every
   * operation that needs one takes the platform as a parameter.
   */
  datatype Platform = Platform(
    // `URLComponents.url != nil`: whether the components form a URL
    formsURL: URLComponents -> bool,
    // `url.absoluteString.range(of: pattern, options: .regularExpression)` is non-empty
    regexFinds: (string, URL) -> bool,
    // `JSONSerialization.data(withJSONObject:)`
    serialize: Json -> Data,
    // `URL(string:)`
    parseURL: string -> Option<URL>,
    // `NSLocalizedString(key, comment:)`: the key's entry in the main bundle's strings table
    localizedString: string -> string)

  // Decimal rendering, as Swift string interpolation writes an `Int`.

  predicate IsDigit(c: char) {
    '0' <= c <= '9'
  }

  function DigitChar(d: nat): (c: char)
    requires d < 10
    ensures IsDigit(c)
  {
    (d + '0' as int) as char
  }

  function DigitValue(c: char): (d: nat)
    requires IsDigit(c)
    ensures d < 10 && DigitChar(d) == c
  {
    c as int - '0' as int
  }

  /** Digits of `n`, most significant first, without leading zeros. */
  function NatToString(n: nat): (s: string)
    ensures |s| > 0
    ensures forall i :: 0 <= i < |s| ==> IsDigit(s[i])
  {
    if n < 10 then [DigitChar(n)] else NatToString(n / 10) + [DigitChar(n % 10)]
  }

  /** `"\(i)"`: a minus sign for negative values, then the digits of the magnitude. */
  function IntToString(i: int): (s: string)
    ensures |s| > 0
    ensures (s[0] == '-') == (i < 0)
  {
    if i < 0 then "-" + NatToString(-i) else NatToString(i)
  }

  /** Reads back a string of digits. */
  function DigitsValue(s: string): nat
    requires forall i :: 0 <= i < |s| ==> IsDigit(s[i])
  {
    if s == [] then 0 else DigitsValue(s[..|s| - 1]) * 10 + DigitValue(s[|s| - 1])
  }

  /** Reads back an optionally negative decimal. */
  function ParseInt(s: string): (i: int)
    requires |s| > 0
    requires forall i :: 0 < i < |s| ==> IsDigit(s[i])
    requires s[0] == '-' || IsDigit(s[0])
  {
    if s[0] == '-' then 0 - DigitsValue(s[1..]) else DigitsValue(s) as int
  }

  lemma {:induction false} NatToStringRoundTrip(n: nat)
    ensures DigitsValue(NatToString(n)) == n
  {
    if n >= 10 {
      var s := NatToString(n);
      NatToStringRoundTrip(n / 10);
      assert s[..|s| - 1] == NatToString(n / 10);
    }
  }

  /** Rendering an integer and reading it back gives the integer. */
  lemma IntToStringRoundTrip(i: int)
    ensures var s := IntToString(i);
      (forall k :: 0 < k < |s| ==> IsDigit(s[k])) && (s[0] == '-' || IsDigit(s[0])) &&
      ParseInt(s) == i
  {
    var s := IntToString(i);
    if i < 0 {
      var digits := NatToString(-i);
      NatToStringRoundTrip(-i);
      assert s == "-" + digits;
      assert s[1..] == digits;
      assert forall k :: 0 < k < |s| ==> s[k] == digits[k - 1];
    } else {
      NatToStringRoundTrip(i);
      assert s == NatToString(i);
    }
  }

  // Storing entries one after another

  /**
   * The table after `table[key] = value` for each key and value in turn: a
   * later key overwrites an earlier one.
   */
  function StoreEach<K, V>(table: map<K, V>, keys: seq<K>, values: seq<V>): map<K, V>
    requires |keys| == |values|
    decreases |keys|
  {
    if keys == [] then table
    else StoreEach(table, keys[..|keys| - 1], values[..|values| - 1])[keys[|keys| - 1] := values[|values| - 1]]
  }

  /** Storing adds exactly the given keys. */
  lemma {:induction false} StoreEachKeys<K, V>(table: map<K, V>, keys: seq<K>, values: seq<V>)
    requires |keys| == |values|
    ensures forall key :: key in StoreEach(table, keys, values) <==> key in table || key in keys
    decreases |keys|
  {
    if keys != [] {
      var init := keys[..|keys| - 1];
      StoreEachKeys(table, init, values[..|values| - 1]);
      assert keys == init + [keys[|keys| - 1]];
    }
  }

  /** A key not stored keeps its entry. */
  lemma {:induction false} StoreEachKeepsOthers<K, V>(table: map<K, V>, keys: seq<K>, values: seq<V>, key: K)
    requires |keys| == |values| && key in table && key !in keys
    ensures key in StoreEach(table, keys, values) && StoreEach(table, keys, values)[key] == table[key]
    decreases |keys|
  {
    if keys != [] {
      var init := keys[..|keys| - 1];
      assert forall k :: k in init ==> k in keys;
      StoreEachKeepsOthers(table, init, values[..|values| - 1], key);
    }
  }

  /** A key that does not occur again later holds its own value. */
  lemma {:induction false} StoreEachLastWins<K, V>(table: map<K, V>, keys: seq<K>, values: seq<V>, i: nat)
    requires |keys| == |values| && i < |keys| && keys[i] !in keys[i + 1..]
    ensures keys[i] in StoreEach(table, keys, values) && StoreEach(table, keys, values)[keys[i]] == values[i]
    decreases |keys|
  {
    var n := |keys| - 1;
    if i < n {
      var init, vals := keys[..n], values[..n];
      assert keys[n] in keys[i + 1..];
      assert init[i + 1..] == keys[i + 1..n];
      assert keys[i + 1..] == keys[i + 1..n] + [keys[n]];
      StoreEachLastWins(table, init, vals, i);
    }
  }
}
