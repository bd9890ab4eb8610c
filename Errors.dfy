/**
 * The error taxonomy: the two `ErrorType` enums with their domain, code and
 * description, the `NAError` wrapper, and the other errors the pipeline hands
 * to its callers.
 */
module Errors {
  import opened Foundation

  /** `DataError`, an `Int`-backed enum. */
  datatype DataError = InvalidJSON

  /** `NetworkError`. */
  datatype NetworkError =
    | HttpError(status: int)
    | AuthenticationError
    | NoConnection(code: int, url: string)

  /** The types that conform to `ErrorType`. */
  datatype ErrorType = DataKind(data: DataError) | NetworkKind(network: NetworkError)

  /** `NSError` as the transport reports it: a domain, a code and the failing URL from `userInfo`. */
  datatype TransportError = TransportError(domain: string, code: int, failingURL: Option<string>)

  /** `NAError<T>`: an error kind with an optional underlying error. */
  datatype NAError = NAError(kind: ErrorType, internalError: Option<Error>)

  /** The values of Swift's `Error` that reach a caller of the pipeline. */
  datatype Error =
    | Wrapped(na: NAError)
    // an error reported by the transport, passed on as it is
    | Transport(transport: TransportError)
    // `URLComponentsTransformerError.badComponents`
    | BadComponents
    // `DataError.parse`, which the `DataError` enum does not declare
    | UndefinedParse
    // an error produced by a resource's own error-response handler or parser
    | Custom(name: string)

  /** `DataError.rawValue`. */
  function RawValue(e: DataError): int {
    match e
    case InvalidJSON => 13001
  }

  /** The default `domain`: the name of the conforming type. */
  function Domain(t: ErrorType): (d: string)
    ensures t.DataKind? ==> d == "DataError"
    ensures t.NetworkKind? ==> d == "NetworkError"
  {
    match t
    case DataKind(_) => "DataError"
    case NetworkKind(_) => "NetworkError"
  }

  /** `code`: the raw value for `DataError`, the status or the stated code for `NetworkError`. */
  function Code(t: ErrorType): int {
    match t
    case DataKind(e) => RawValue(e)
    case NetworkKind(e) =>
      match e
      case HttpError(status) => status
      case AuthenticationError => 401
      case NoConnection(code, _) => code
  }

  /** `description`: a localized string for `DataError`, fixed texts for `NetworkError`. */
  function Description(t: ErrorType, platform: Platform): string {
    match t
    case DataKind(e) => (
      match e
      case InvalidJSON => platform.localizedString("error.data.invalid json"))
    case NetworkKind(e) =>
      match e
      case HttpError(status) => "Request failed with HTTP status: " + IntToString(status)
      case AuthenticationError => "Authentication details were rejected"
      case NoConnection(_, url) => "No connection available for request to " + url
  }

  /** The codes the source states for each kind. */
  lemma CodeOfEachKind(status: int, code: int, url: string)
    ensures Code(NetworkKind(HttpError(status))) == status
    ensures Code(NetworkKind(AuthenticationError)) == 401
    ensures Code(NetworkKind(NoConnection(code, url))) == code
    ensures Code(DataKind(InvalidJSON)) == RawValue(InvalidJSON) == 13001
  {
  }

  /** `NAError(type:internalError:)`, the internal error defaulting to none. */
  function NewNAError(kind: ErrorType, internalError: Option<Error> := None): (e: NAError)
    ensures e.kind == kind && e.internalError == internalError
  {
    NAError(kind, internalError)
  }

  /** The common case: a kind wrapped with no internal error, as an `Error`. */
  function Wrap(kind: ErrorType): (e: Error)
    ensures e.Wrapped? && e.na == NewNAError(kind)
  {
    Wrapped(NewNAError(kind))
  }

  /** `"<domain> - <description> (<code>)"`. */
  function LocalizedDescription(e: NAError, platform: Platform): string {
    Domain(e.kind) + " - " + Description(e.kind, platform) + " (" + IntToString(Code(e.kind)) + ")"
  }

  /**
   * The description is the domain, a dash, the description, and the code in
   * parentheses at the end, from which the code can be read back.
   */
  lemma {:induction false} LocalizedDescriptionParts(e: NAError, platform: Platform)
    ensures var s := LocalizedDescription(e, platform);
      var prefix := Domain(e.kind) + " - " + Description(e.kind, platform) + " (";
      var digits := IntToString(Code(e.kind));
      && s[..|prefix|] == prefix
      && s[|s| - 1] == ')'
      && s[|prefix|..|s| - 1] == digits
      && ParseInt(s[|prefix|..|s| - 1]) == Code(e.kind)
  {
    var prefix := Domain(e.kind) + " - " + Description(e.kind, platform) + " (";
    var digits := IntToString(Code(e.kind));
    var s := LocalizedDescription(e, platform);
    assert s == prefix + digits + ")";
    assert s[|prefix|..|s| - 1] == digits;
    IntToStringRoundTrip(Code(e.kind));
  }

  /** Each network description starts with its own capital letter. */
  lemma DescriptionFirstChar(e: NetworkError, platform: Platform)
    ensures var d := Description(NetworkKind(e), platform);
      |d| > 0 && d[0] == (match e case HttpError(_) => 'R' case AuthenticationError => 'A' case NoConnection(_, _) => 'N')
  {
  }

  /**
   * A network error's description gives back its kind, the status of an HTTP
   * error and the URL of a missing connection; only the code of a missing
   * connection is not in the text.
   */
  lemma {:induction false} NetworkDescriptionDistinguishes(a: NetworkError, b: NetworkError, platform: Platform)
    requires Description(NetworkKind(a), platform) == Description(NetworkKind(b), platform)
    ensures !a.NoConnection? ==> a == b
    ensures a.NoConnection? ==> b.NoConnection? && a.url == b.url
    ensures Code(NetworkKind(a)) == Code(NetworkKind(b)) ==> a == b
  {
    var http := "Request failed with HTTP status: ";
    var none := "No connection available for request to ";
    var da, db := Description(NetworkKind(a), platform), Description(NetworkKind(b), platform);
    DescriptionFirstChar(a, platform);
    DescriptionFirstChar(b, platform);
    if a.HttpError? && b.HttpError? {
      assert da[|http|..] == IntToString(a.status);
      assert db[|http|..] == IntToString(b.status);
      IntToStringRoundTrip(a.status);
      IntToStringRoundTrip(b.status);
    }
    if a.NoConnection? && b.NoConnection? {
      assert da[|none|..] == a.url;
      assert db[|none|..] == b.url;
    }
  }
}
