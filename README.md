# Base networking core, modelled in Dafny

This project models the networking core of the Base iOS foundation library. The core has these parts:

- **`Resource`** is a typed description of one endpoint:
  - a verb with an optional body;
  - a query;
  - a header provider;
  - a parser;
  - an error-response handler;
  - a cancellation policy.
- **Header providers** come in two kinds:
  - composite providers, chained in place with `and`;
  - simple providers, which add their own headers after the chained ones.
- **Request behaviours** are the empty behaviour and the composite. The composite concatenates its members' headers and sends each hook to its members in order.
- **The error taxonomy:**
  - `DataError` and `NetworkError`, each with a domain, a code and a description;
  - the `NAError` wrapper and its `"<domain> - <description> (<code>)"` text.
- **`Webservice`** handles one request:
  - it builds the URL and the request;
  - it cancels running tasks that the resource's policy matches;
  - it calls `beforeSend`;
  - it sorts the transport's answer into one outcome for the caller, with the matching behaviour hook and, for a 401, the unauthorized handler.
- **The URL and request builders** (`URLComponentsTransformer`, `URLRequestTransformer`) overwrite a stored value and return themselves.
- **The stub session used by tests:**
  - `URLMatch` keys, whose query is sorted by name;
  - the rule that picks a stub for a URL;
  - the environment representation of a configuration, in both directions.
- **`Network.Webservices`** is the registry of web services, keyed by base-URL string.

There is one module per Swift file, plus `Foundation`. `Foundation` holds:

- URL components;
- requests;
- query items;
- JSON values;
- decimal rendering of integers;
- the `Platform` record.

`Platform` bundles the Foundation calls whose behaviour is not modelled, as function-valued parameters:

- whether components form a URL;
- regular-expression search;
- JSON serialisation;
- `URL(string:)`;
- `NSLocalizedString`, the strings-table lookup.

A URL is represented by the components it was built from. `URL.path` is modelled by `URLPath`, which drops a trailing slash as Foundation does.

Form follows the source:

- **Classes** model what the source updates in place:
  - header providers;
  - the web service's behaviour;
  - the two builders;
  - the registry.
- **Loops** become methods whose loop invariants are proved:
  - the header loops of `URLRequest.init`;
  - the cancellation sweep over the session's tasks (an array);
  - the composite hooks;
  - `config(matchingURL:)`;
  - the configuration loops;
  - `add(baseURLs:)`.
- **Switches and formatting** become functions with lemmas.

The completion handler is a function that returns the trace of what it does, in order:

- the caller's completion;
- the behaviour hook;
- the unauthorized handler.

Some source text disagrees with the code. In each case the model follows the code:

- **`ParseResult`:** `Resource.swift` declares it as a two-case enum, but `WebService.swift:132-140` reads it as a `(value?, error?)` pair.
  - The model reads the enum into a three-way outcome.
  - `WebService.swift:139` falls back to `DataError.parse` when there is neither a value nor an error. `Errors.swift` does not declare `DataError.parse`, so it becomes its own error, `UndefinedParse`.
  - `ReadingNeverNeither` proves that the fallback cannot be reached.
- **`defaultHeaders`:** `Network.swift:34-37` passes this argument, but the initialiser at `WebService.swift:28` takes no such argument. The registry's `Add` accepts it and drops it.
- **Retry:** a commented-out hook at `UIRequestBehavior.swift:31` takes a retry closure. The live `afterFailure` and the unauthorized handler receive none (`RequestBehavior.swift:18`, `WebService.swift:12`).

The code also does the following, which the model keeps:

- **Verbs:** `HttpMethod` has four verbs, GET, POST, PUT and DELETE (`Resource.swift:11-16`).
- **Unauthorized handler:** a 401 first delivers the failure and `afterFailure`, then calls the handler with the request and the response (`WebService.swift:117-123`).
- **Connectivity:** only `NSURLErrorNotConnectedToInternet` counts as a lost connection (`WebService.swift:89`), reported through the ordinary failure path.

## Model

| member | source | states |
|---|---|---|
| Foundation.NewRequest | Base/WebService.swift:239 | a request for a URL starts as GET with no body, no headers and the protocol cache policy |
| Foundation.AddValue | Base/NetworkTransformers.swift:101-103 | adding a header appends the pair and changes nothing else in the request |
| Foundation.IntToString | Base/Errors.swift:70 | an integer's interpolation is non-empty and starts with '-' exactly when the integer is negative |
| Foundation.IntToStringRoundTrip | Base/Errors.swift:33 | reading back the decimal text of any integer gives the integer |
| Errors.Domain | Base/Errors.swift:18-20 | the default domain is the name of the error's type, "DataError" or "NetworkError" |
| Errors.Code | Base/Errors.swift:39-65 | the code per kind, as `CodeOfEachKind` states |
| Errors.Description | Base/Errors.swift:43-76 | the description per kind: the localized string for invalid JSON, and for network errors the texts `DescriptionFirstChar` and `NetworkDescriptionDistinguishes` characterise |
| Errors.LocalizedDescription | Base/Errors.swift:32-34 | the format `LocalizedDescriptionParts` states |
| Errors.CodeOfEachKind | Base/Errors.swift:56-65 | the code of `httpError(s)` is s, of `authenticationError` 401, of `noConnection(c, _)` c; `invalidJSON`'s code is its raw value 13001 |
| Errors.DescriptionFirstChar | Base/Errors.swift:67-76 | each network description is its own fixed text, told apart by its first letter |
| Errors.NetworkDescriptionDistinguishes | Base/Errors.swift:67-76 | a network error's description gives back its kind, the status of an HTTP error and the URL of a missing connection; with the code as well, the error is determined |
| Errors.NewNAError | Base/Errors.swift:27-30 | the wrapper stores its type and internal error; the internal error defaults to none |
| Errors.Wrap | Base/WebService.swift:107 | wrapping a kind gives an `NAError` of that kind with no internal error |
| Errors.LocalizedDescriptionParts | Base/Errors.swift:32-34 | the localized description is domain, " - ", description, " (", the code, ")", and the code inside the parentheses reads back as the code |
| HeaderProviders.HeaderProvider.Composite | Base/HeaderProvider.swift:16-17 | a new composite provider has no providers and yields no headers |
| HeaderProviders.HeaderProvider.Simple | Base/HeaderProvider.swift:33-35 | a new simple provider has no chained providers and yields its closure's headers |
| HeaderProviders.HeaderProvider.And | Base/HeaderProvider.swift:19-23 | `and` appends the provider at the end, keeps the earlier providers, returns the same object, and the headers become the old chained headers, the new provider's, then its own |
| HeaderProviders.HeaderProvider.Headers | Base/HeaderProvider.swift:25-42 | `headers()` is each chained provider's headers in order, followed by a simple provider's own |
| HeaderProviders.ChainedAppend | Base/HeaderProvider.swift:26 | the chained headers of a list extended by one provider are the old ones followed by that provider's |
| HeaderProviders.JsonContent | Base/HeaderProvider.swift:47-51 | yields exactly one Content-Type pair, "application/json; charset=utf-8" |
| HeaderProviders.FormContent | Base/HeaderProvider.swift:53-57 | yields exactly one Content-Type pair, "application/x-www-form-urlencoded" |
| HeaderProviders.PlainTextContent | Base/HeaderProvider.swift:59-63 | yields exactly one Content-Type pair, "plain/text" |
| Resources.NewResource | Base/Resource.swift:39-54 | the initialiser stores every argument unchanged in the field of the same name |
| Resources.ResourceDefaults | Base/Resource.swift:39-45 | the defaults are GET with no body, no query, no header provider, no cancellation and no error handler |
| RequestBehaviors.Notify | Base/RequestBehavior.swift:50-60 | a hook reaches every member behaviour exactly once, in list order, each with the same call and error |
| RequestBehaviors.AdditionalHeaders | Base/RequestBehavior.swift:22-48 | empty by default, a custom behaviour's own, a composite's summed, as `EmptyContributesNothing` and `PairOrder` state |
| RequestBehaviors.SumHeaders | Base/RequestBehavior.swift:44-48 | the `reduce` over members, which `SumHeadersAppend` shows distributes over concatenation |
| RequestBehaviors.SumHeadersAppend | Base/RequestBehavior.swift:44-48 | the composite's headers over two joined lists are the first list's followed by the second's |
| RequestBehaviors.ObserversAppend | Base/RequestBehavior.swift:50-60 | the behaviours a hook reaches over two joined lists are the first list's followed by the second's |
| RequestBehaviors.EmptyContributesNothing | Base/RequestBehavior.swift:21-34 | an empty behaviour inserted anywhere into a composite changes neither its headers nor which hooks take effect |
| RequestBehaviors.PairOrder | Base/WebService.swift:40-42 | composing the instance behaviour with the call's puts the instance's headers and hooks first |
| Foundation.URLPath | Base/WebService.swift:160 | `URL.path` is the components' path, less one trailing slash unless the path is "/" |
| WebServices.ComponentsFor | Base/WebService.swift:155-164 | scheme, host and port come from the base URL, the path is the base URL's `URL.path` (trailing slash dropped) followed by the endpoint, the query is set exactly when it is present and non-empty, and there is no fragment |
| WebServices.BaseTrailingSlashDropped | Base/WebService.swift:160 | a base URL path "p/" gives "p" followed by the endpoint, so `https://h/v1/` with `users` gives `/v1users` |
| WebServices.URLFor | Base/WebService.swift:155-167 | the URL for a resource is the components built for it, which form a URL |
| WebServices.MapMethod | Base/WebService.swift:180-203 | `map` keeps the verb, keeps an absent body absent, and applies the function to a present body |
| WebServices.NamePreservedByMap | Base/WebService.swift:171-203 | mapping the body does not change the verb's name |
| WebServices.Name | Base/WebService.swift:171-178 | one name per verb, as `NamesOfVerbs` and `NamePreservedByMap` state |
| WebServices.NamesOfVerbs | Base/WebService.swift:171-178 | the names are GET, POST, PUT and DELETE, by verb |
| WebServices.BodyData | Base/WebService.swift:241-247 | a data body passes through unchanged; a JSON body, which must be an array or an object at the top level, is serialised |
| WebServices.BuildRequest | Base/WebService.swift:238-271 | the request has the resource's URL and verb name, the mapped body, the provider's headers followed by the additional headers each added in order, and the protocol cache policy |
| WebServices.Matches | Base/WebService.swift:207-234 | the per-policy comparison `MatchesByPolicy`, `UriIgnoresFragment`, `PathAndUriOnQueries` and `TrailingSlashSplitsPolicies` state |
| WebServices.TrailingSlashSplitsPolicies | Base/WebService.swift:214-224 | for a path p not ending in a slash, `path` treats "p/" and "p" as the same URL and `uri` does not |
| WebServices.MatchesByPolicy | Base/WebService.swift:207-234 | `none` never matches; `path` matches exactly when the `URL.path` readings are equal; `uri` exactly when path and query are equal; `pattern` depends only on the running URL |
| WebServices.UriIgnoresFragment | Base/WebService.swift:219-225 | the `uri` policy ignores fragments |
| WebServices.PathAndUriOnQueries | Base/WebService.swift:215-225 | two requests for one endpoint that differ only in their queries are matched by `path` but by `uri` only when the queries are equal |
| WebServices.Swept | Base/WebService.swift:51-60 | the sweep keeps the number of tasks |
| WebServices.Sweep | Base/WebService.swift:51-60 | after the loop the session's tasks are the swept tasks of the old ones |
| WebServices.SweptCancelsExactly | Base/WebService.swift:52-58 | a task becomes canceling exactly when the policy matches it and it was neither completed nor canceling; every other task is unchanged |
| WebServices.SweptSettles | Base/WebService.swift:51-60 | after a sweep no matching task is still in progress, and sweeping again changes nothing |
| WebServices.NoPolicySweepsNothing | Base/WebService.swift:211-214 | with no cancellation policy no task is cancelled |
| WebServices.Reading | Base/WebService.swift:132-140 | the tuple reading of a parse result, which `ReadingNeverNeither` shows never yields neither a value nor an error |
| WebServices.ReadingNeverNeither | Base/WebService.swift:132-140 | a declared parse result always has a value or an error, so the `DataError.parse` fallback is unreachable, and a value is read exactly from a success |
| WebServices.StatusError | Base/WebService.swift:104-115 | the error for a bad status is the resource handler's when it gives one, and `httpError(status)` otherwise |
| WebServices.Classify | Base/WebService.swift:77-146 | a cancelled task only calls `afterComplete`; otherwise the caller gets exactly one outcome, followed by `afterComplete` for a success or `afterFailure` with the same error for a failure, and a third step, the unauthorized handler with the request and 401, happens exactly when the status is 401, a handler is set and connectivity was not lost |
| WebServices.CancelledIsSilent | Base/WebService.swift:80-87 | a cancelled task reaches no completion |
| WebServices.NoConnectivityFails | Base/WebService.swift:89-98 | no connectivity fails with `noConnection(code, failingURL)` whatever the response |
| WebServices.InvalidStatusFails | Base/WebService.swift:101-126 | a status outside 200, 201 and 204 fails with the status error whatever the body, then notifies the unauthorized handler only for 401 with a handler set |
| WebServices.BodyIsParsed | Base/WebService.swift:129-140 | with an acceptable response and a body, the request succeeds with the parsed value when parsing succeeds and fails with the parser's error otherwise |
| WebServices.MissingBodyFails | Base/WebService.swift:141-145 | with an acceptable response and no body, the request fails with the transport's error, or `httpError(-1)` when there is none |
| WebServices.Webservice.constructor | Base/WebService.swift:26-32 | a new web service keeps its base URL and handler, and its behaviour is the empty one |
| WebServices.Webservice.Request | Base/WebService.swift:36-76 | the request has the resource's URL, verb name and serialised body (none when absent) and the protocol cache policy, and carries the provider's headers, then the instance behaviour's, then the call behaviour's; the sweep uses the request's URL; `beforeSend` reaches the instance behaviour's observers before the call behaviour's; the outcome is the classification of the transport's answer |
| Transformers.AppendedQuery | Base/NetworkTransformers.swift:59-63 | appending gives the existing items (none when nil) followed by the new ones, and changes nothing else |
| Transformers.AppendedQueryTwice | Base/NetworkTransformers.swift:59-63 | appending twice is appending the joined lists once |
| Transformers.AppendingNothing | Base/NetworkTransformers.swift:59-63 | appending nothing turns nil items into an empty list and leaves a list as it is |
| Transformers.URLComponentsTransformer.constructor | Base/NetworkTransformers.swift:30-32 | the builder stores the components it is given |
| Transformers.URLComponentsTransformer.Request | Base/NetworkTransformers.swift:34-40 | throws `badComponents` exactly when the stored components form no URL, and otherwise returns a fresh request for that URL |
| Transformers.URLComponentsTransformer.Components | Base/NetworkTransformers.swift:50-52 | returns the stored components unchanged |
| Transformers.URLComponentsTransformer.Replacing | Base/NetworkTransformers.swift:54-57 | sets the query items to exactly the argument, nil included, changes nothing else and returns the same builder |
| Transformers.URLComponentsTransformer.Appending | Base/NetworkTransformers.swift:59-63 | the stored components become the appended ones and the same builder is returned |
| Transformers.URLComponentsTransformer.ModifyingScheme | Base/NetworkTransformers.swift:65-68 | changes only the scheme and returns the same builder |
| Transformers.URLComponentsTransformer.ModifyingPort | Base/NetworkTransformers.swift:70-73 | changes only the port and returns the same builder |
| Transformers.URLComponentsTransformer.ModifyingPath | Base/NetworkTransformers.swift:75-78 | changes only the path and returns the same builder |
| Transformers.URLComponentsTransformer.ModifyingHost | Base/NetworkTransformers.swift:80-83 | changes only the host and returns the same builder |
| Transformers.URLRequestTransformer.constructor | Base/NetworkTransformers.swift:89-91 | the builder stores the request it is given |
| Transformers.URLRequestTransformer.Request | Base/NetworkTransformers.swift:93-95 | returns the stored request unchanged |
| Transformers.URLRequestTransformer.AppendingHeaders | Base/NetworkTransformers.swift:97-108 | every pair is added in order after the existing headers, nothing else changes, and the same builder is returned |
| Transformers.URLRequestTransformer.ModifyingCachePolicy | Base/NetworkTransformers.swift:110-117 | changes only the cache policy and returns the same builder |
| TestSessions.BelowAsymmetric | Base/TestURLSession.swift:21 | no two names are each below the other |
| TestSessions.BelowTotal | Base/TestURLSession.swift:21 | of two different names one is below the other |
| TestSessions.BelowTransitive | Base/TestURLSession.swift:21 | the name order is transitive |
| TestSessions.NotBelowTransitive | Base/TestURLSession.swift:21 | "not below" is transitive as well |
| TestSessions.InsertSorted | Base/TestURLSession.swift:21 | inserting an item into a sorted query keeps it sorted |
| TestSessions.SortByName | Base/TestURLSession.swift:21 | the sorted query is ordered by name and holds the same items |
| TestSessions.SortSorted | Base/TestURLSession.swift:21 | sorting an already sorted query changes nothing |
| TestSessions.SortedUnique | Base/TestURLSession.swift:21 | two sorted arrangements of the same items, when names identify items, are identical |
| TestSessions.NewURLMatch | Base/TestURLSession.swift:18-22 | the key keeps host and path and stores the query sorted by name, with the same items |
| TestSessions.NewURLMatchIdempotent | Base/TestURLSession.swift:18-22 | rebuilding a key from its own fields gives the same key |
| TestSessions.QueryOrderIrrelevant | Base/TestURLSession.swift:18-22 | keys built from the same items in any order are equal when names identify items |
| TestSessions.Same | Base/TestURLSession.swift:155-159 | two keys are equal exactly when host, path and query are all equal |
| TestSessions.HashValue | Base/TestURLSession.swift:151-153 | the host's hash exclusive-or the path's, which `HashConsistent` shows respects `==` |
| TestSessions.HashConsistent | Base/TestURLSession.swift:150-160 | equal keys hash equally; the hash ignores the query and the order of host and path |
| TestSessions.KeyMatchesAsWritten | Base/TestURLSession.swift:74-84 | the key test as written, which `NoQueryNeverMatchesAsWritten` shows fails for every URL without query items |
| TestSessions.KeyMatches | Base/TestURLSession.swift:74-84 | the corrected key test, related to the written one by `KeyMatchesExtendsAsWritten` |
| TestSessions.NoQueryNeverMatchesAsWritten | Base/TestURLSession.swift:76 | as written, a URL with no query items matches no key at all |
| TestSessions.NoQueryCounterexample | Base/TestURLSession.swift:74-76 | the key for host h, path /p and no query does not match the URL http://h/p as written, but does under the corrected test |
| TestSessions.KeyMatchesExtendsAsWritten | Base/TestURLSession.swift:74-84 | the corrected test accepts everything the written one does, agrees with it when the URL has query items, and otherwise accepts exactly the keys with the URL's host and path and an empty query |
| TestSessions.ConfigMatching | Base/TestURLSession.swift:70-94 | returns the stub of a key with the URL's host and path, as many query items as the URL, each among the URL's items; finding none is excluded |
| TestSessions.MatchRepresentation | Base/TestURLSession.swift:179-187 | a key is represented by exactly the host, path and query entries |
| TestSessions.MatchFromRepresentation | Base/TestURLSession.swift:170-177 | decoding keeps host and path and one query item per pair, each with a value |
| TestSessions.MatchRoundTrip | Base/TestURLSession.swift:170-187 | a key whose query items all have values decodes from its representation to itself: names, values and order |
| TestSessions.HeadersFromJson | Base/TestURLSession.swift:193 | the header cast succeeds exactly on an object whose values are all strings, and keeps its keys |
| TestSessions.HeadersRoundTrip | Base/TestURLSession.swift:193-204 | a header dictionary decodes from its representation to itself |
| TestSessions.StubFromRepresentation | Base/TestURLSession.swift:191-195 | decoding takes the status code, and the optional fields are nil when their keys are absent |
| TestSessions.StubRepresentation | Base/TestURLSession.swift:197-211 | the representation holds the status code and a key for each optional field exactly when it is present, and decodes to the same stub |
| TestSessions.ConfigOf | Base/TestURLSession.swift:41-49 | each item stored under its key in turn, as `ConfigOfKeys`, `ConfigOfSnoc` and `LastWins` state |
| TestSessions.ConfigOfKeys | Base/TestURLSession.swift:41-49 | the configuration's keys are exactly the items' keys |
| TestSessions.ConfigOfSnoc | Base/TestURLSession.swift:41-49 | one more item overwrites the entry under its key with its stub and leaves the rest of the configuration as it was |
| TestSessions.LastWins | Base/TestURLSession.swift:48 | an item whose key no later item repeats has its own stub in the configuration |
| TestSessions.FromEnvironment | Base/TestURLSession.swift:37-52 | the loop builds the configuration the items describe |
| TestSessions.ItemForDecodes | Base/TestURLSession.swift:58-61 | one item of the representation decodes to the key and stub it was made from |
| TestSessions.ConfigRepresentation | Base/TestURLSession.swift:54-69 | one item per entry, and decoding the items gives the configuration back |
| Foundation.StoreEachKeys | Base/Network.swift:19-24 | registering adds exactly the given strings as keys |
| Foundation.StoreEachKeepsOthers | Base/Network.swift:22 | a key not registered again keeps its web service |
| Foundation.StoreEachLastWins | Base/Network.swift:19-24 | a string not repeated later maps to the web service created for it, so for repeated strings the last one stays |
| Network.Registry.constructor | Base/Network.swift:14 | the registry starts empty |
| Network.Registry.AddAll | Base/Network.swift:16-27 | returns one new, distinct web service per string in input order, each for its parsed URL with the empty behaviour, and the table is the old one with each registered in turn |
| Network.Registry.Add | Base/Network.swift:29-42 | returns a new web service for the parsed URL with the given handler, stored under its string, replacing any earlier entry; other keys are unchanged |
| Network.Registry.BaseURL | Base/Network.swift:44-46 | returns the web service registered under the string |

## Left out

- I/O and time are not modelled:
  - `StubURLSessionDataTask.resume` reads a bundle file.
  - `TestURLSession.dataTask` only wraps that task.
  - `BaseLog` calls are dropped everywhere.
  - `URLSession` itself is not modelled. `data`, the HTTP status and the transport error are inputs to the completion handler, and the session's tasks are an array.
- Asynchrony is left out. `getAllTasks` and `DispatchQueue.main.async` run in sequence in the model. It claims nothing about interleaving between requests, or about when the sweep happens relative to `beforeSend`.
- Foundation behaviour is a parameter, not a definition:
  - whether components form a URL;
  - regular-expression search for `pattern`;
  - JSON serialisation and parsing;
  - `URL(string:)`;
  - `NSLocalizedString`, the lookup of the invalid-JSON description in the main bundle's strings table;
  - `String.hashValue`.
- The JSON text of the test configuration is not modelled. `init(environmentVariable:)` and `environmentRepresentation()` work on the decoded JSON value, not on the string.
- URLs are their components:
  - `URL.path` is read through `URLPath`, which drops one trailing slash. Its other normalisations (percent-decoding, resolving against a base URL) are not modelled.
  - The `uri` policy compares the percent-decoded query strings (`URLComponents.query`). The model compares the query-item lists.
- `addValue(_:forHTTPHeaderField:)` appends a pair. Folding repeated fields and case-insensitive names are not modelled.
- Swift's `String` compares by Unicode canonical equivalence: `<`, `==`, and hashing as a dictionary key all treat "/caf\u{E9}" and "/cafe\u{301}" as the same string. The model compares strings as character sequences, both in ordering and in equality. Those two strings are therefore different to `Same` and `KeyMatchesAsWritten` (host and path), to the `path` policy of `Matches`, and as registry and configuration keys.
- `sorted(by:)` does not promise stability. The model sorts with one stable insertion sort. Items with equal names therefore come in that sort's order, which the source leaves open.
- `URLComponentsTransformer.requestTransformer()` calls itself unconditionally and never terminates.
- Hook side effects are abstracted:
  - `RequestBehavior`'s application-defined behaviours are `Custom` values with their own headers.
  - A hook taking effect is recorded as an effect, not run.
  - The unauthorized handler is an identifier.
  - The completion's steps stand for the composed behaviour's calls, whose fan-out `Notify` states.
- HeaderProviders.HeaderProvider.And: extending a provider that another provider already chains is not modelled. In the source that other provider sees the new headers on its next `headers()` call; in the model its recorded headers go stale and it is no longer valid, so it cannot be asked for headers or used to build a request.
- Header-provider cycles are excluded. `headers()` would not terminate on a cycle, so `HeaderProvider.And` requires that the added provider does not reach back to the receiver. A provider's closure is a pure function.
- Bodies are narrowed:
  - `HttpMethod<Any>` bodies are data or JSON values; other Swift values are not modelled.
  - A JSON body whose top level is not an array or an object makes `JSONSerialization` raise an Objective-C exception, which `try!` does not catch, and the process crashes. `BodyData`, `BuildRequest` and `Request` require a body that `SerialisableBody` accepts, so this crash is a precondition, not a modelled outcome.
- Forced unwraps and forced casts are preconditions, not modelled crashes:
  - the base URL's scheme;
  - `urlComponents.url!`;
  - the failing URL of a no-connectivity error;
  - `URL(string:)!`;
  - the registry lookup;
  - `value!` in a key's representation;
  - the `as!` casts of the environment representations;
  - the assertion failure of `config(matchingURL:)`.
- Swift's `Int` is 64 bits wide. Status codes and error codes are unbounded integers here; only the hash is a 64-bit value.
- The registry is a static dictionary in the source and an object here. The `session` parameters of `Webservice.init` and of `add(baseURL:…)` are dropped.
- `add(baseURL:…)` cannot pass `defaultHeaders` on to `Webservice.init`, which has no such parameter. The argument is accepted and dropped.

## Findings

| source | as written | input that shows it | evidently intended | confidence | as-written member | corrected member |
|---|---|---|---|---|---|---|
| Base/TestURLSession.swift:76 | the key's query count is compared with the URL's optional query count, so a URL with no query items matches no key | a key with host "h", path "/p" and an empty query, and the URL http://h/p, which has no query items: no key matches and `assertionFailure()` is reached | a URL without query items matches a key with the same host and path and an empty query | likely; not executed | TestSessions.NoQueryCounterexample | TestSessions.KeyMatchesExtendsAsWritten |
