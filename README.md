# Mock dispatch engine — a Dafny model

This project models the request-dispatch core of a FastAPI mock service. Users register fake
HTTP and SOAP endpoints. Each endpoint answers with a canned body (static strategy), forwards
to a real backend (proxy strategy), or picks its answer by running an operator script
(conditional strategy). Every transaction is written to a request log and pushed to live
WebSocket observers. The model covers:

- **PathParser** (`path_parser.dfy`): `{name}` path templates, the trailing `{*}` wildcard,
  parameter-name extraction and template validation. The regex built from a template is
  modelled by a token matcher with the same greedy backtracking. `PathsMatch` is by
  definition `ExtractParameters(...).Some?`.
- **MockServiceStore** (`mock_service.dfy`): the first-match route scan over the active
  services in listing order, with the SOAP-name check and the SOAP fallback. It also covers
  the fuzzy SOAP name match and the path guard run on create and update.
- **MockProcessor** (`mock_processor.dfy`): strategy dispatch and the static reply. For the
  proxy strategy it covers target-URL construction (placeholder substitution, or the extra
  path plus the query string), the two header filters and the 502/500 failure policy. For the
  conditional strategy it covers the ordered, short-circuit branch scan and the branch proxy.
- **SoapParser** (`soap_parser.dfy`): SOAP method detection from the `action` parameter of
  `application/soap+xml` (section 6.5 of SOAP 1.2 Part 2) and from the `SOAPAction` header
  (section 6.1.1 of SOAP 1.1). It covers method-name normalisation, the body fallback, and
  SOAP request detection.
- **LiveLog** (`websocket.dfy`): the `ConnectionManager` class. Its open-socket list and its
  per-service follower lists are mutated in place, and it keeps the invariant that no
  follower list is empty. It also models the recipients of each broadcast.
- **RequestLog** (`file_logger.dfy`): `parse_size`, log-file ordering, entry construction,
  and `get_logs` (filter, then a stable newest-first sort, then a slice).
- **Schemas** (`schemas.dfy`): the pydantic validators and field bounds of the mock-service
  create and update schemas and of the conditional branches.
- **Swagger** (`swagger_service.dfy`): the structural checks of an OpenAPI/Swagger document,
  endpoint extraction, operation parsing, and local `$ref` resolution. References follow
  JSON Pointer (section 4 of RFC 6901) without `~0`/`~1` unescaping. It also covers the
  generation of one static mock per endpoint.
- **WsdlService** (`wsdl_service.dfy`): the SOAP request and response envelope text, message
  name cleaning, sample values, and the mapping from WSDL message parts to elements.
- **WsdlApi** (`wsdl_api.dfy`): WSDL URL cleaning, the import request validators, and the
  construction of service names, previews and import records.

Shared helpers: `wrappers.dfy` (Option/Result), `text.dfy` (the Python string operations
used), `pydict.dfy` (an insertion-ordered dict as a sequence of pairs), `json_value.dfy`
(parsed JSON) and `models.dfy` (the stored mock-service record).

Loops in the source are modelled as Dafny methods with invariants, each proved equal to a
specification function. Properties of those functions are proved as lemmas. External
effects are parameters:

- the upstream HTTP answer (`Upstream`);
- the outcome of the operator script and of each condition (`Sandbox`);
- the template renderer;
- the store's id assignment;
- the files on disk and their lines;
- JSON/YAML loading, `json.dumps`, and the sample generator;
- the WSDL schema lookup, and the method read from a SOAP body.

### Behaviour worth noting
The model follows the code in each of these cases:

- Route selection is a first-match scan in listing order
  (`backend/app/services/mock_service.py:92-122`). No template is ranked by specificity or id.
- A `{*}` template binds its remainder under the key `*`
  (`backend/app/utils/path_parser.py:21-27`). The part before `{*}` is compared literally,
  and any `{name}` in it is not expanded.
- A failing preparation script gives a 500 reply rather than the default response
  (`backend/app/services/mock_processor.py:517-518`). A condition that raises only skips its
  branch (`backend/app/services/mock_processor.py:504-506`).
- The pydantic validators run only on supplied fields (`backend/app/schemas/mock_service.py:16-26`
  and `:80-96`). So a static branch without a `response` field, and a proxy service without a
  `proxy_url` field, are accepted.
- The 1..1000 path bound (`backend/app/schemas/mock_service.py:41`) is checked before the
  validator adds the leading `/` (`:55-59`). A stored path can therefore be 1001 characters
  long.

## Model

| member | source | states |
|---|---|---|
| PathParser.Tokens | backend/app/utils/path_parser.py:79 | the scan finds `{name}` slots whose names are non-empty and free of `}` |
| PathParser.TokensUnparse | backend/app/utils/path_parser.py:54-63 | the slots and literals read from a template spell the template again, so nothing is lost before substitution |
| PathParser.ExtractedNamesOccur | backend/app/utils/path_parser.py:68-79 | every name `extract_parameter_names` returns is non-empty, has no `}` and occurs as `{name}` in the template |
| PathParser.ExtractParameterNames | backend/app/utils/path_parser.py:69-79 | the slot names in template order, duplicates kept (what `validate_path_pattern` checks for repeats) |
| PathParser.SegmentRun | backend/app/utils/path_parser.py:63 | the longest run a `[^/]+` group can take: no `/` inside, and it stops at a `/` or the end |
| PathParser.MatchSound | backend/app/utils/path_parser.py:36-38 | a successful match captures one value per slot, keyed by the slot names in order, each a non-empty run without `/`, and substituting them back gives the request path |
| PathParser.MatchComplete | backend/app/utils/path_parser.py:36-38 | whenever some non-empty `/`-free values for the slots render the path, the anchored match succeeds |
| PathParser.LeadingSlotGreedy | backend/app/utils/path_parser.py:63 | the first slot takes the longest run that still lets the rest match (the greedy backtracking of `[^/]+`) |
| PathParser.ExtractParameters | backend/app/utils/path_parser.py:9-40 | a `{*}` template captures the remainder after its literal prefix; any other template matches by the anchored slot regex; `None` when the path does not match |
| PathParser.PathsMatch | backend/app/utils/path_parser.py:131-142 | a path matches a template iff `extract_parameters` returns a dict |
| PathParser.WildcardCapture | backend/app/utils/path_parser.py:21-27 | a template ending in `{*}` matches exactly the paths starting with the template minus those three characters, compared literally, and returns only `{"*": remainder}`, where the remainder may be empty |
| PathParser.SlotTemplateMatch | backend/app/utils/path_parser.py:29-40 | without `{*}`, a path matches iff it is the template with each slot filled by a non-empty `/`-free run; the keys are the template's parameter names and the values re-render the path |
| PathParser.BraceFreeExact | backend/app/utils/path_parser.py:32-34 | a template without braces matches only the identical path and then yields the empty map |
| PathParser.ValidatePathPattern | backend/app/utils/path_parser.py:82-128 | the ordered checks: empty, no leading `/`, repeated names, then each name: blank, `*` not at the end, or not an identifier (corrected name test, see Findings) |
| PathParser.CheckNamesOk | backend/app/utils/path_parser.py:107-120 | the per-name loop accepts iff every name is non-blank and is either `*` at the end of the template or an identifier |
| PathParser.ValidateCharacterised | backend/app/utils/path_parser.py:92-125 | a template is accepted iff it is non-empty, starts with `/`, has distinct parameter names and every name is allowed |
| PathParser.ValidCompiles | backend/app/utils/path_parser.py:122-125 | every accepted template compiles to a regular expression, so matching against it cannot raise |
| PathParser.ValidatePathPatternAsWritten | backend/app/utils/path_parser.py:82-128 | the validator with the name test as written, where `$` also matches before a final newline |
| PathParser.NewlineNameSlipsThrough | backend/app/utils/path_parser.py:119 | `/a/{id\n}` passes the validator as written although its group name is not an identifier, so its regex does not compile; the corrected validator refuses it as an invalid parameter name |
| MockServiceStore.MatchesSoapService | backend/app/services/mock_service.py:130-192 | `_matches_soap_service`: exact, case-insensitive, prefix/suffix and contains tests in the source's order |
| MockServiceStore.MatchesCharacterised | backend/app/services/mock_service.py:142-192 | `_matches_soap_service` is false on an empty input, and otherwise holds iff one lower-cased stripped name contains the other or they share a `[._-]` part longer than two characters that contains or is contained in the other |
| MockServiceStore.MatchesSymmetric | backend/app/services/mock_service.py:142-192 | the fuzzy name match does not depend on the order of its arguments |
| MockServiceStore.ListsMethod | backend/app/services/mock_service.py:94 | the method loop finds the request method among the service's methods, ignoring case |
| MockServiceStore.Examine | backend/app/services/mock_service.py:93-122 | one scan step: the service answers at once iff it lists the method, its template matches and it is REST or a SOAP service whose detected method fits its name; it is reserved as fallback iff it is a SOAP candidate for which no method was detected; in both cases the captured parameters are `extract_parameters`' result |
| MockServiceStore.FindMockService | backend/app/services/mock_service.py:87-128 | the scan returns the first service in listing order that answers, else the last reserved fallback, else `(None, {})`, with the template's captures as parameters |
| MockServiceStore.Selected | backend/app/services/mock_service.py:69-128 | the position of the service that answers: the first REST candidate or matching SOAP candidate, else the last SOAP fallback; always a valid position |
| MockServiceStore.ScannedAll | backend/app/services/mock_service.py:124-128 | once the whole list is scanned undecided, the remembered fallback (or nothing) is the answer |
| MockServiceStore.SelectedIsCandidate | backend/app/services/mock_service.py:94-100 | any returned service lists the request method (ignoring case) and has a template matching the path |
| MockServiceStore.NoCandidateNoService | backend/app/services/mock_service.py:128 | with no candidate the lookup returns nothing |
| MockServiceStore.NoHeadersNoSoap | backend/app/services/mock_service.py:103 | without request headers a SOAP service is never selected |
| MockServiceStore.FirstRestCandidateWins | backend/app/services/mock_service.py:92-122 | a REST candidate is chosen as soon as no earlier service decided: listing order, not specificity or id, decides |
| MockServiceStore.FallbackOnlyWhenUndecided | backend/app/services/mock_service.py:113-126 | a SOAP service that did not decide is returned only if no service decides, and then it is the last fallback |
| MockServiceStore.CreateMockService | backend/app/services/mock_service.py:16-44 | creation fails with the path-template message iff the template is rejected; otherwise the record carries every field of the request (name, path, methods, strategy, proxy, static and conditional settings, delays, status codes and headers), the store's id, and `None` for an empty branch list |
| MockServiceStore.CreatedIsRoutable | backend/app/services/mock_service.py:18-21 | every created service has a compiling template, so it can join route selection |
| MockServiceStore.CheckUpdatePath | backend/app/services/mock_service.py:203-208 | an update fails iff it supplies a non-null path that the validator rejects |
| MockServiceStore.UpdatedPathRoutable | backend/app/services/mock_service.py:205-208 | a path accepted by the update guard compiles |
| MockProcessor.FilterHeaders | backend/app/services/mock_processor.py:101-111 | the header-copy loop builds exactly the dict of the headers whose lower-cased name is not dropped |
| MockProcessor.FilteredGet | backend/app/services/mock_processor.py:104-111 | in the filtered headers a dropped name (in any letter case) is absent, and any other name keeps the value of its last occurrence |
| MockProcessor.KeptLastValue | backend/app/services/mock_processor.py:109-111 | dropping headers by name does not change the last value of a name that is kept |
| MockProcessor.BuildProxyUrl | backend/app/services/mock_processor.py:228-260 | the target URL: placeholders substituted when the proxy URL names a parameter, otherwise the proxy URL without trailing `/` plus the extra path when the request path differs from the service path; then `?query` when the query is non-empty |
| MockProcessor.ProxyUrl | backend/app/services/mock_processor.py:210-265 | the target URL: placeholders substituted when the proxy URL has any, else the proxy URL plus the extra path, then `?query` when a query string is present |
| MockProcessor.Substitute | backend/app/services/mock_processor.py:232-239 | the replacement loop substitutes each parameter's `{name}` in order wherever it occurs at that point |
| MockProcessor.SubstituteNothing | backend/app/services/mock_processor.py:235-238 | placeholders that do not occur leave the proxy URL unchanged |
| MockProcessor.AdditionalPath | backend/app/services/mock_processor.py:267-297 | the request path beyond the service path, empty when they agree, the whole request path when it does not extend the service path |
| MockProcessor.AdditionalPathShape | backend/app/services/mock_processor.py:267-293 | after trimming trailing `/`, the extra path is empty iff the two paths are equal (or the request path is all slashes), and for a request path starting with `/` it is empty or starts with `/` |
| MockProcessor.AdditionalPathCompletes | backend/app/services/mock_processor.py:287-290 | when the request path extends the service path by whole segments, the service path followed by the extra path is the request path |
| MockProcessor.BranchUrlAppendsNothing | backend/app/services/mock_processor.py:643-649 | a conditional branch passes the request path as both paths, so its target URL only substitutes placeholders (or trims the trailing `/`) and appends the query |
| MockProcessor.ProcessProxy | backend/app/services/mock_processor.py:64-208 | no proxy URL gives 500 without proxy info; otherwise the target URL and the filtered outbound headers are recorded; an answer relays the upstream status and body with no error; a transport error gives 502 with no upstream status and empty headers; any other error gives 500 |
| MockProcessor.ProcessStatic | backend/app/services/mock_processor.py:329-343 | the stored status, the stored body or `""`, the stored headers or none, and no proxy info |
| MockProcessor.ExtendParams | backend/app/services/mock_processor.py:467-480 | the copy-and-update loop yields the path parameters overridden, in context order, by every script variable that is not reserved, not `_`-prefixed and not None, shown as text |
| MockProcessor.ReservedNamesKeepPathParams | backend/app/services/mock_processor.py:471-477 | a reserved or `_`-prefixed name keeps its path-parameter value whatever the script assigned |
| MockProcessor.ScriptVariableOverrides | backend/app/services/mock_processor.py:476-480 | a script variable that is not reserved and not None overrides the path parameter of the same name |
| MockProcessor.ProxyConditionalRequest | backend/app/services/mock_processor.py:608-739 | the branch proxy always records proxy info; an answer relays the upstream status and body, and every failure gives 500 with empty headers and the failure text |
| MockProcessor.FirstFiring | backend/app/services/mock_processor.py:429-447 | the first branch that is present, has a condition, and whose condition evaluates truthy: every earlier branch is missing, has no condition, or its condition is falsy or raises |
| MockProcessor.AnswerBranch | backend/app/services/mock_processor.py:453-503 | the winning branch answers: a proxy branch with a URL proxies with the extended parameters, a proxy branch without one gives 500, any other branch gives its status, rendered body and headers |
| MockProcessor.ProcessConditional | backend/app/services/mock_processor.py:345-528 | without script or branches the default status and "no conditions" body; a failing script gives 500; otherwise the branches are scanned in order and the scan stops at the first that fires |
| MockProcessor.FirstFiringBranchAnswers | backend/app/services/mock_processor.py:429-503 | when branch k fires and no earlier one does, branch k's reply is the answer and exactly the conditions of branches 0..k were evaluated |
| MockProcessor.NoBranchFires | backend/app/services/mock_processor.py:508-515 | when no branch fires, the answer is the default status with the "no condition met" body and the service's default headers |
| MockProcessor.WinnerEvaluatedLast | backend/app/services/mock_processor.py:429-447 | the winner's condition is the last one evaluated, and the evaluated conditions are a prefix of those a full scan evaluates: nothing after the winner is evaluated |
| MockProcessor.EvaluatedPrefix | backend/app/services/mock_processor.py:429-447 | stopping the scan earlier evaluates a prefix of the conditions |
| MockProcessor.EvaluatedCount | backend/app/services/mock_processor.py:437-444 | a full scan evaluates exactly one condition per branch that has one |
| MockProcessor.ProcessRequest | backend/app/services/mock_processor.py:21-58 | dispatch on the strategy: proxy, static and conditional replies as above, and 500 with "unknown strategy" for anything else |
| SoapParser.NormalizeMethodName | backend/app/utils/soap_parser.py:119-143 | trims spaces and quotes, drops a query after the first `?`, keeps the text after the last `#` |
| SoapParser.NormalizeClean | backend/app/utils/soap_parser.py:129-143 | a normalised method name contains neither `?` nor `#` |
| SoapParser.NormalizePlain | backend/app/utils/soap_parser.py:129-143 | a name without whitespace, quotes, `?` or `#` is already normalised |
| SoapParser.ExtractMethodFromAction | backend/app/utils/soap_parser.py:72-116 | the last `#` piece, else the last `/` piece unless it names a `.wsdl` file, else the last `:` piece unless `urn`, else the whole value; `None` only for a blank value |
| SoapParser.ActionResult | backend/app/utils/soap_parser.py:82-116 | an action value yields no name iff it is empty or blank, and any name it yields is normalised |
| SoapParser.ActionPlainName | backend/app/utils/soap_parser.py:115-116 | an action with no separator, quote or space is returned as it is |
| SoapParser.ActionAfterHash | backend/app/utils/soap_parser.py:95-98 | an action such as `urn:#getInfo` names the text after the last `#` |
| SoapParser.ActionAfterSlash | backend/app/utils/soap_parser.py:101-104 | without `#`, an action such as `/service/getInfo` names its last `/` segment unless that segment ends in `.wsdl` (ignoring case) |
| SoapParser.ActionAfterColon | backend/app/utils/soap_parser.py:107-113 | without `#` or `/`, an action such as `urn:ns:getInfo` names the part after the last `:` unless that part is `urn` |
| SoapParser.SoapActionVariantClean | backend/app/utils/soap_parser.py:54-62 | the scan over other-cased `SOAPAction` keys yields nothing or a non-empty normalised name |
| SoapParser.ExtractSoapMethodFromHeaders | backend/app/utils/soap_parser.py:13-70 | the `action` of a SOAP 1.2 content type, else the `SOAPAction` header, else another-cased variant of it |
| SoapParser.HeaderMethodShape | backend/app/utils/soap_parser.py:27-65 | the header search yields nothing or a non-empty normalised name, and a name from the content type's `action` parameter takes precedence over every `SOAPAction` header |
| SoapParser.ExtractSoapMethod | backend/app/utils/soap_parser.py:223-277 | a header method longer than one character wins, else the body method of a non-empty body, else the header result |
| SoapParser.SoapMethodClean | backend/app/utils/soap_parser.py:241-277 | the detected method is always a non-empty normalised name |
| SoapParser.HeaderMethodWins | backend/app/utils/soap_parser.py:244-249 | a header method whose stripped and normalised forms are longer than one character decides the result, in its normalised form, whatever the body holds |
| SoapParser.PlainHeaderMethodWins | backend/app/utils/soap_parser.py:244-249 | a header method of at least two characters without spaces, quotes, `?` or `#` is returned exactly as the header gave it |
| SoapParser.BodyFallback | backend/app/utils/soap_parser.py:251-277 | with no method in the headers, the body's method, normalised and non-empty, decides alone, and an empty body gives nothing |
| SoapParser.IsSoapRequest | backend/app/utils/soap_parser.py:324-365 | a request is SOAP when the content type or `soapaction` holds an indicator, or the lower-cased body holds an envelope marker |
| SoapParser.ContentTypeActionIsSoap | backend/app/utils/soap_parser.py:336-349 | a content type carrying `action=` always marks the request as SOAP |
| SoapParser.PlainHeadersNeedEnvelope | backend/app/utils/soap_parser.py:351-365 | without content type or `soapaction` header and without a body, the request is not SOAP |
| SoapParser.BodyDecidesWithoutHeaderHint | backend/app/utils/soap_parser.py:351-365 | with no indicator in the content type or `soapaction`, a request is SOAP iff its lower-cased body holds an envelope marker (both directions) |
| LiveLog.RemoveFirst | backend/app/api/websocket.py:32-37 | `list.remove` guarded by membership: an absent socket leaves the list unchanged, a present one shortens it by one |
| LiveLog.RemoveFirstAt | backend/app/api/websocket.py:33 | the removed occurrence is the first one, and the sockets before and after it keep their order |
| LiveLog.RemoveFirstMultiset | backend/app/api/websocket.py:33 | exactly one copy of a present socket leaves the list |
| LiveLog.UnfollowKeeps | backend/app/api/websocket.py:35-41 | unfollowing keeps every remaining follower list non-empty (an emptied list is deleted) and leaves every other service's list untouched |
| LiveLog.UnfollowUnregistered | backend/app/api/websocket.py:35-41 | a socket that does not follow the service leaves the follower lists as they were |
| LiveLog.ConnectionManager.constructor | backend/app/api/websocket.py:18-20 | the registry starts with no open sockets and no follower lists |
| LiveLog.ConnectionManager.Connect | backend/app/api/websocket.py:22-29 | the socket is appended to the open sockets; with a truthy service id it is also appended to that service's list, created when absent; with None or 0 the follower lists are unchanged; no list becomes empty |
| LiveLog.ConnectionManager.Disconnect | backend/app/api/websocket.py:31-41 | the first occurrence of the socket leaves the open sockets and the service's list, each only if present; an emptied list is deleted and other services are untouched |
| LiveLog.ConnectionManager.BroadcastToAll | backend/app/api/websocket.py:49-58 | a send is attempted to a snapshot of every open socket; the delivered sockets are the non-failing ones in order, failures are skipped without raising and nothing is unregistered |
| LiveLog.ConnectionManager.BroadcastToService | backend/app/api/websocket.py:60-69 | a send is attempted to a snapshot of the service's followers, none when it has no list; the delivered sockets are the non-failing ones in order |
| LiveLog.ConnectionManager.BroadcastLogMessage | backend/app/api/websocket.py:107-120 | a log record goes to every open socket, then to the followers of its service when the id is truthy |
| LiveLog.SendEach | backend/app/api/websocket.py:43-47 | one send per socket in order; a failing send is swallowed; the delivered list is `Delivered`: the attempted sockets that did not fail, in the order tried, with their repetitions |
| LiveLog.Delivered | backend/app/api/websocket.py:43-47 | the sockets a send loop reaches, in the order tried and with their repetitions |
| LiveLog.DeliveredSound | backend/app/api/websocket.py:43-47 | the delivered sockets are a sub-multiset of the attempted ones, and a socket is delivered iff it was attempted and does not fail |
| LiveLog.FollowerReceivesTwice | backend/app/api/websocket.py:116-120 | a socket that follows a service receives each of that service's log records twice: once as an open socket, once as a follower |
| LiveLog.UnroutedReachesAll | backend/app/api/websocket.py:119 | a record without a truthy service id reaches exactly the open sockets |
| RequestLog.ParseSize | backend/app/services/file_logger.py:35-45 | a byte count with an optional KB, MB or GB suffix, `None` where `int` raises |
| RequestLog.ParseIntOfNat | backend/app/services/file_logger.py:45 | `int` reads back the decimal text of every natural number |
| RequestLog.ParseSizeUnits | backend/app/services/file_logger.py:35-45 | a number followed by KB, MB or GB counts N·1024, N·1024² or N·1024³ bytes; a bare number counts N bytes |
| RequestLog.ParseSizeSuffix | backend/app/services/file_logger.py:38-43 | each unit suffix multiplies the number before it by its factor |
| RequestLog.BareNumber | backend/app/services/file_logger.py:44-45 | a setting without unit is a byte count |
| RequestLog.ParseSizeIgnoresCase | backend/app/services/file_logger.py:37 | letter case of the setting does not change the size |
| RequestLog.ParseSizeIgnoresPadding | backend/app/services/file_logger.py:37 | whitespace around the setting does not change the size |
| RequestLog.LogRequest | backend/app/services/file_logger.py:127-173 | the returned entry carries every argument in its field, with the clock's id and timestamp |
| RequestLog.LogFiles | backend/app/services/file_logger.py:220-235 | the file loop lists the main file and then `.1` … `.backup_count`, keeping those that exist |
| RequestLog.PresentIndicesBound | backend/app/services/file_logger.py:230 | only the main file and archives numbered up to `backup_count` are listed |
| RequestLog.PresentIndicesIncrease | backend/app/services/file_logger.py:224-233 | the main file comes first, then the archives in increasing number |
| RequestLog.PresentIndicesExact | backend/app/services/file_logger.py:224-233 | a file is listed iff it exists and is the main file or an archive numbered up to `backup_count` |
| RequestLog.ReadLines | backend/app/services/file_logger.py:196-209 | the line loop appends, in order, the entries of the non-blank lines that decode, of the requested service (or all when none is given) |
| RequestLog.FileEntriesOfService | backend/app/services/file_logger.py:204-206 | reading one file for a service keeps exactly that service's entries from reading it unfiltered |
| RequestLog.CollectedOfService | backend/app/services/file_logger.py:193-212 | reading all files for a service keeps exactly that service's entries of the unfiltered read, in order |
| RequestLog.CollectedMatches | backend/app/services/file_logger.py:205 | every entry read for a service belongs to that service |
| RequestLog.SortNewestFirst | backend/app/services/file_logger.py:215 | `sorted(..., key=timestamp, reverse=True)`, specified by `SortNewestFirstCorrect` |
| RequestLog.InsertPos | backend/app/services/file_logger.py:215 | where a stable descending sort puts an entry: after every entry not older than it, before the first older one |
| RequestLog.InsertKeepsOrder | backend/app/services/file_logger.py:215 | inserting into a newest-first list keeps it newest first |
| RequestLog.SortNewestFirstCorrect | backend/app/services/file_logger.py:215 | the sort is newest first, a permutation of its input, and keeps entries with equal timestamps in their original order |
| RequestLog.GetLogs | backend/app/services/file_logger.py:175-218 | the page is the accepted entries of every file, sorted newest first, sliced `[skip:skip+limit]` |
| RequestLog.LogsPage | backend/app/services/file_logger.py:175-218 | the entries of every file, filtered by service, sorted newest first, sliced by `skip` and `limit` |
| RequestLog.LogsPageShape | backend/app/services/file_logger.py:215-218 | with non-negative `skip` and `limit` a page holds at most `limit` entries, newest first, each of the requested service, starting `skip` entries into the sorted log |
| RequestLog.PageOfSlice | backend/app/services/file_logger.py:218 | a slice with non-negative bounds is at most `limit` long, in order, drawn from the list |
| Schemas.ValidateMethods | backend/app/schemas/mock_service.py:47-53 | the verbs are accepted iff each upper-cases to GET, POST, PUT, DELETE, PATCH, HEAD or OPTIONS; the stored list is the upper-cased verbs in the same order and length; a refusal names the first verb that is not allowed |
| Schemas.ValidateMethodsIdempotent | backend/app/schemas/mock_service.py:47-53 | validating an already validated verb list changes nothing |
| Schemas.NormalizePath | backend/app/schemas/mock_service.py:55-59 | the path gets `/` prepended when it lacks one and is otherwise unchanged |
| Schemas.NormalizePathIdempotent | backend/app/schemas/mock_service.py:55-59 | path normalisation is idempotent |
| Schemas.ValidateBranch | backend/app/schemas/mock_service.py:7-36 | a branch is accepted iff its status is in 100..599, its delay is non-negative, a static branch's supplied response is non-empty and a proxy branch's supplied URL is non-empty; an accepted branch stores the given condition, response type, response, proxy URL, status, headers (kept even on a proxy branch) and delay |
| Schemas.StaticBranchResponseChecked | backend/app/schemas/mock_service.py:16-20 | a static branch with `response` omitted passes, because the check runs only on a supplied value; an explicit null or empty response is refused |
| Schemas.BranchesProblems | backend/app/schemas/mock_service.py:75 | a branch list has no problems iff every branch is acceptable |
| Schemas.ConvertBranches | backend/app/schemas/mock_service.py:75 | the validated branch list has one validated record per input branch, in order |
| Schemas.ValidateCreate | backend/app/schemas/mock_service.py:47-96 | a refused create request carries at least one problem; an accepted one has the path with `/` prepended only when missing, the verbs upper-cased in order, every other scalar field passed through, empty optionals mapped to `None`, and each branch validated in place |
| Schemas.CreateProblemsExact | backend/app/schemas/mock_service.py:39-96 | the collected problems are empty iff the request meets every field rule |
| Schemas.CreateAccepted | backend/app/schemas/mock_service.py:39-96 | a create request is accepted iff it meets every rule: name 1..255, path 1..1000, at least one allowed verb, statuses in 100..599, non-negative delays, valid branches and, when supplied, the strategy's required field non-empty |
| Schemas.CreateDataShape | backend/app/schemas/mock_service.py:40-78 | accepted data has a name of 1..255 characters; its path is the input when that starts with `/` and `/` plus the input otherwise; verb i is the upper-cased input verb i, an allowed one; statuses are in 100..599 and delays non-negative |
| Schemas.ProxyUrlCheckedOnlyWhenSupplied | backend/app/schemas/mock_service.py:80-84 | a proxy service without a `proxy_url` field passes, because the validator runs only on supplied values; an explicit null or empty URL is refused |
| Schemas.PathBoundBeforeNormalising | backend/app/schemas/mock_service.py:41-59 | the length bound is checked before the normaliser runs, so a path without a leading `/` is stored one character longer |
| Schemas.ValidateUpdateMethods | backend/app/schemas/mock_service.py:123-131 | in an update, an omitted or null verb list passes through unchanged, and a supplied one is validated like the create schema's |
| Schemas.NormalizeUpdatePath | backend/app/schemas/mock_service.py:133-139 | in an update, an omitted or null path passes through; a supplied one is kept when it starts with `/` and gets exactly one `/` prepended otherwise |
| Schemas.UpdateAccepted | backend/app/schemas/mock_service.py:99-139 | an update's problems are empty iff it meets every rule on the fields it supplies |
| Schemas.ValidateUpdate | backend/app/schemas/mock_service.py:99-139 | an update is accepted iff every supplied field meets its rule (`UpdateAcceptable`); an accepted one normalises the path and the verbs and leaves every other field as supplied; a refused one carries at least one problem |
| Swagger.ParseSwaggerContent | backend/app/services/swagger_service.py:36-116 | the checks in source order, each with its own error: blank content, a load error, a non-dict (with its type name), no `openapi`/`swagger` key, missing or empty `paths`, a failed OpenAPI validation; a document passing them all gives the extraction result, or an "unexpected" error when extraction raises; a result without errors is always such an extraction |
| Swagger.ExtractEndpoints | backend/app/services/swagger_service.py:118-160 | the path loop visits the paths in order and collects each path item's endpoints and errors |
| Swagger.BaseUrl | backend/app/services/swagger_service.py:126-128 | `servers[0].get('url', '')` when `servers` is truthy, `None` otherwise; a non-list or a non-dict first entry raises |
| Swagger.HarvestPath | backend/app/services/swagger_service.py:140-151 | the operation loop over one path item skips `x-` keys, `parameters`, `summary`, `description` and non-dict operations, parses the rest with the upper-cased method, and records a failure as an error |
| Swagger.PathOperationsCount | backend/app/services/swagger_service.py:140-151 | each operation of a path item gives exactly one endpoint or one error |
| Swagger.HarvestedCount | backend/app/services/swagger_service.py:136-151 | over the whole document, endpoints plus errors number the operations of the dict path items |
| Swagger.PathOperationsSound | backend/app/services/swagger_service.py:140-149 | every endpoint of a path item was parsed from one of its operations, under that path |
| Swagger.HarvestedSound | backend/app/services/swagger_service.py:136-149 | every endpoint was parsed from an operation of a dict path item, under that path |
| Swagger.Operation | backend/app/services/swagger_service.py:162-217 | the endpoint record of one operation, or the exception it raises |
| Swagger.ParseOperation | backend/app/services/swagger_service.py:162-217 | the operation parser reads parameters, responses and request body in the source's order and stops at the first failure |
| Swagger.OperationParts | backend/app/services/swagger_service.py:209-217 | a parsed endpoint is assembled from the parameters, responses and request body read separately, under its path and method |
| Swagger.ReadParameters | backend/app/services/swagger_service.py:168-177 | the parameter loop yields one record per listed parameter |
| Swagger.ParamOf | backend/app/services/swagger_service.py:170-176 | one parameter entry: name, location, required flag, type and description with the source's defaults; a non-dict raises |
| Swagger.ParametersShape | backend/app/services/swagger_service.py:169-177 | every listed parameter becomes one record, in order, named by its `name` (default empty) and typed by `_get_param_type` |
| Swagger.ReadResponses | backend/app/services/swagger_service.py:180-187 | the response loop yields one documented response per status, in order |
| Swagger.FindRequestBody | backend/app/services/swagger_service.py:189-207 | the request body comes from `requestBody` when present, else from the first body parameter |
| Swagger.RequestBodySource | backend/app/services/swagger_service.py:189-207 | with `requestBody` present its description and `required` flag are used; otherwise the body is that of the first `in: body` parameter, or none |
| Swagger.FirstBodyParamSpec | backend/app/services/swagger_service.py:199-207 | the scan stops at the first body parameter; it finds none only when every parameter is a dict that is not a body parameter, and it fails at a non-dict met before any body parameter |
| Swagger.ParamType | backend/app/services/swagger_service.py:219-228 | the schema's `type` (default `string`) when there is a schema, else the parameter's `type`, else `string`; a schema that is not a dict raises |
| Swagger.Walk | backend/app/services/swagger_service.py:269-272 | walks the reference keys from the root: a missing key gives `{}`, a non-dict on the way raises |
| Swagger.FollowPointer | backend/app/services/swagger_service.py:269-272 | the loop walks the reference's keys one at a time, each missing key giving `{}` |
| Swagger.WalkErrSticks | backend/app/services/swagger_service.py:271-272 | once a step of the walk raises, the remaining keys do not matter |
| Swagger.Resolve | backend/app/services/swagger_service.py:263-290 | a local `$ref` is replaced by its resolved target, other dicts are rebuilt with resolved values; depth runs out as the recursion error |
| Swagger.ResolveRefFree | backend/app/services/swagger_service.py:278-288 | a schema without references comes back unchanged (dicts and dict items in lists rebuilt as they were) |
| Swagger.SelfReferenceDiverges | backend/app/services/swagger_service.py:265-274 | a local reference that resolves to itself never finishes: the resolver ends in a recursion error whatever the depth left |
| Swagger.StaticDocument | backend/app/services/swagger_service.py:401-420 | the first 2xx example unless it is `None`, else the default document |
| Swagger.FirstSuccess | backend/app/services/swagger_service.py:404-409 | the first documented response whose status starts with `2`, or none when no status does |
| Swagger.StaticDocumentSource | backend/app/services/swagger_service.py:401-413 | the static body is the first 2xx response's example unless that is None, else the default document |
| Swagger.NoSuccessDefault | backend/app/services/swagger_service.py:415-420 | without a 2xx response the static body is the default document |
| Swagger.MockRecord | backend/app/services/swagger_service.py:365-397 | a generated service is named "summary (METHOD)" when the endpoint has a non-empty summary and "METHOD path" otherwise; its path is the base path without trailing `/` followed by the endpoint path (then normalised), its methods the upper-cased verb; it is active, static, answers the dumped static document with a JSON content-type header, status 200 and no delay |
| Swagger.MockAccepted | backend/app/services/swagger_service.py:386-395 | a generated create request validates iff the name, path and verb fit their bounds and the body is non-empty |
| Swagger.GenerateMockServices | backend/app/services/swagger_service.py:365-399 | one validated static service per endpoint, in order; generation aborts with the first endpoint whose service does not validate |
| WsdlService.CleanMessageName | backend/app/services/wsdl_service.py:410-414 | the text after the last `:`, or the whole name when it has none |
| WsdlService.CleanMessageNameShape | backend/app/services/wsdl_service.py:410-414 | the cleaned name has no `:`; a name without `:` is unchanged, and one with `:` ends with `:` followed by the cleaned name (what follows the last colon) |
| WsdlService.CleanMessageNameIdempotent | backend/app/services/wsdl_service.py:410-414 | stripping the prefix twice is stripping it once |
| WsdlService.SampleValue | backend/app/services/wsdl_service.py:522-595 | name rules, then exact type rules, then type words, then `sample_<name>` |
| WsdlService.FirstFiring | backend/app/services/wsdl_service.py:528-592 | an `if`/`elif` chain picks the first rule whose test holds, and no rule before it holds; it picks none only when no rule holds |
| WsdlService.NameRulesPrecede | backend/app/services/wsdl_service.py:528-554 | once a field-name rule matches, the element's type does not affect the sample |
| WsdlService.SampleForIdentifiers | backend/app/services/wsdl_service.py:529-530 | any name containing `id` (case-insensitively) gives `12345`, whatever its type |
| WsdlService.SampleForStrings | backend/app/services/wsdl_service.py:556-558 | without a name rule, a type of exactly `xs:string`, `xsd:string` or `string` gives `sample_{name}` |
| WsdlService.ExactTypesPrecedeWords | backend/app/services/wsdl_service.py:556-578 | a type listed in an exact-type rule gets that rule's sample (the first such rule) and never falls through to the keyword rules |
| WsdlService.SampleFallback | backend/app/services/wsdl_service.py:580-595 | when no name, exact-type or keyword rule matches, the sample is `sample_{name}` |
| WsdlService.ValuesChoice | backend/app/services/wsdl_service.py:447 | an element's value is the supplied value for its name when there is one, otherwise its generated sample |
| WsdlService.AppendElements | backend/app/services/wsdl_service.py:445-454 | the element loop appends exactly the blocks of the elements, in order, to the lines already there |
| WsdlService.GenerateSoapEnvelope | backend/app/services/wsdl_service.py:416-464 | the request is the newline join of the envelope lines for the operation, the supplied data (none meaning `{}`) and the namespace |
| WsdlService.GenerateSoapResponse | backend/app/services/wsdl_service.py:466-520 | the response is the newline join of the response lines built the same way |
| WsdlService.ElementLinesCount | backend/app/services/wsdl_service.py:445-454 | each element writes one value line, plus one type comment exactly when its type is non-empty |
| WsdlService.ElementLinesPrefix | backend/app/services/wsdl_service.py:445-454 | the lines of the first n elements begin the lines of all of them: the loop only appends |
| WsdlService.ElementBlockAt | backend/app/services/wsdl_service.py:445-454 | element i's block sits right after the blocks of the elements before it |
| WsdlService.EnvelopeElementLines | backend/app/services/wsdl_service.py:434-454 | input element i is written at its place after the six header lines: a `<!-- name: type -->` comment exactly when its type is non-empty, then `<tns:name>value</tns:name>` |
| WsdlService.ResponseElementLines | backend/app/services/wsdl_service.py:485-504 | output element i is written the same way after the five header lines |
| WsdlService.EnvelopeShape | backend/app/services/wsdl_service.py:434-462 | the request has nine fixed lines plus the element lines (or the single `No input parameters` comment when there are no inputs), with `<tns:{operation}>` opening and closing the body |
| WsdlService.ResponseShape | backend/app/services/wsdl_service.py:481-518 | the response has eight fixed lines plus the element lines, wrapped in `<tns:{operation}Response>`; without outputs the body is the Result/Status/Timestamp block naming the operation |
| WsdlService.MessageElements | backend/app/services/wsdl_service.py:276-351 | the elements of the named message's parts: the schema elements of an element part, else a typed element, else a numbered one |
| WsdlService.ExtractMessageElements | backend/app/services/wsdl_service.py:276-351 | the message and part loops produce exactly the specified element list |
| WsdlService.AppendParts | backend/app/services/wsdl_service.py:293-331 | the part loop appends each part's elements, in order, to those gathered so far |
| WsdlService.GatherPartsGrows | backend/app/services/wsdl_service.py:293-331 | the part loop only appends, at least one element per part |
| WsdlService.GatheredNothing | backend/app/services/wsdl_service.py:289-331 | nothing is gathered exactly when every message of that name has no parts |
| WsdlService.MessageElementsShape | backend/app/services/wsdl_service.py:276-351 | an empty message name gives no elements; otherwise the result is never empty, and the `parameter1`/`parameter2` pair (the second not required) stands in exactly when nothing was gathered |
| WsdlService.UnnamedPartNumbering | backend/app/services/wsdl_service.py:323-331 | a part with no element, type or name becomes a required string element `param_{n}`, n being its 1-based position among all gathered elements |
| WsdlService.ElementPartWithoutSchema | backend/app/services/wsdl_service.py:298-311 | a part whose element the schema does not describe gives one required string element, named after the cleaned reference when that is non-empty |
| WsdlService.TypePart | backend/app/services/wsdl_service.py:313-321 | a part with only a type gives one required element named after the part (or `parameter`), with the cleaned type |
| WsdlApi.CleanWsdlUrlForProxy | backend/app/api/wsdl.py:14-30 | a trailing `?wsdl` is dropped, then a trailing `.wsdl` |
| WsdlApi.CleanWsdlUrlShape | backend/app/api/wsdl.py:14-30 | the proxy URL is a prefix of the WSDL URL, shorter by 0, 5 or 10 characters, and a URL ending in neither `?wsdl` nor `.wsdl` (ignoring case) is unchanged |
| WsdlApi.CleanWsdlFileUrl | backend/app/api/wsdl.py:27-28 | a URL ending in `.wsdl` loses exactly that suffix |
| WsdlApi.CleanWsdlQueryUrl | backend/app/api/wsdl.py:24-28 | a trailing `?wsdl` is dropped, and then a `.wsdl` left at the end goes too; otherwise the rest is kept as it was |
| WsdlApi.ValidateWsdlUrl | backend/app/api/wsdl.py:48-52 | a WSDL URL is accepted, unchanged, exactly when it starts with `http://` or `https://`; otherwise the scheme message is the error |
| WsdlApi.ValidateImportRequest | backend/app/api/wsdl.py:43-58 | an import request validates exactly when its URL does; the URL is kept, a supplied base path is normalised (a `/` prepended only when missing), a missing one is `/soap`, and a missing prefix is empty |
| WsdlApi.ServiceName | backend/app/api/wsdl.py:127-130 | the service name is exactly the owner (the prefix when given, else the parsed service name), `_` and the operation name: it starts with the owner and `_`, ends with `_` and the operation name, and has no other characters |
| WsdlApi.PreviewsOfEach | backend/app/api/wsdl.py:123-152 | there is one preview per operation, and the preview at i is that of operation i |
| WsdlApi.BuildPreviews | backend/app/api/wsdl.py:125-152 | the preview loop produces exactly the previews of the operations, in order |
| WsdlApi.PreviewImport | backend/app/api/wsdl.py:109-157 | parse errors give exactly a 400 whose detail joins them with `, `; otherwise the result is one preview per operation: name, base path, `POST`, operation, SOAP action, sample request and response, cleaned proxy URL |
| WsdlApi.ImportWsdlServices | backend/app/api/wsdl.py:165-238 | parse errors give exactly a 400 as for the preview; otherwise one entry per operation in order, each created or failed on its own without stopping the loop |
| WsdlApi.ImportOne | backend/app/api/wsdl.py:184-231 | one pass of the import loop: a created entry with the store's id, or a failed entry when the request does not validate or the insert raises |
| WsdlApi.CreatedEntry | backend/app/api/wsdl.py:184-218 | a created entry carries the operation's service name, the base path, the operation name and SOAP action, and the id the store gave the validated record |
| WsdlApi.ImportedRecord | backend/app/api/wsdl.py:197-206 | the stored record has the given name, the base path, methods `POST`, the proxy strategy, SOAP type, the cleaned WSDL URL as proxy, no delay, and is active |
| WsdlApi.ImportRequestAccepted | backend/app/api/wsdl.py:197-206 | an operation's create request validates exactly when its name is 1 to 255 characters, the base path 1 to 1000, and the cleaned URL non-empty |
| WsdlApi.AcceptedUrlCleansNonEmpty | backend/app/api/wsdl.py:14-30 | the cleaned form of an http or https URL is never empty |
| WsdlApi.ValidatedImportCreates | backend/app/api/wsdl.py:182-231 | after the import request validated, an operation's create request fails only for a name or base path beyond its length bound |

## Left out

- Python `exec`/`eval` of operator code and the eval-based response templating: the script outcome, each condition's verdict (holds, fails, raises) and the renderer are inputs (`Sandbox`). Script time limits are not modelled.
- Outbound `httpx` calls, redirects and content decoding: the upstream answer is an input (`Upstream`: a response, a transport error or another error). `asyncio.sleep` delays are no-ops. Delays appear only as values in the validators.
- Timing values (`time.time`, processing and proxy times) and disk-usage figures: these are floating-point wall-clock values.
- XML parsing with ElementTree and the regex fallbacks (`parse_wsdl_from_url`, `_extract_service_info`, `_extract_operations`, `_find_soap_action`): the parsed result (`WsdlApi.ParseResult`) is an input. `_extract_schema_elements` is a schema lookup function given as a parameter. `extract_soap_method_from_body` is the `bodyMethod` input of `SoapParser.ExtractSoapMethod`. `extract_soap_parameters` is not part of this model.
- JSON and YAML loading, `openapi_spec_validator`, `json.dumps` and the random/Faker sample generator: these are function parameters (`parseJson`, `parseYaml`, `validate`, `dump`, `sample`).
- `Swagger.ParseOperation`, `Swagger.ExtractEndpoints`: JSON object keys are strings in the model. A YAML document whose `responses` keys are integers (`200:`) is refused by the `Dict[str, Dict]` field of `SwaggerEndpoint` (`swagger_service.py:21`), which turns that operation into an error entry; this is not modelled.
- `Swagger.Operation`, `Swagger.ParseOperation`: the sample generator is a total function parameter. A generator call that raises, such as `random.randint(1, 0)` for `{"type": "integer", "maximum": 0}` (`swagger_service.py:351`), is not modelled.
- `Swagger.ParseSwaggerContent`: JSON numbers are integers in the model (`JsonValue.Json` has no float case). A document whose top level is a float is refused with the type name `float` (`swagger_service.py:55-61`), which the model's `TypeName` cannot produce.
- Python's recursion limit in `_resolve_schema_refs` is a `depth` bound. A cyclic reference ends in a recursion error (`Swagger.SelfReferenceDiverges`).
- SQLAlchemy persistence and the CRUD routes: creating a record takes the id from a store function, and route selection scans a given list of active services.
- WebSocket transport, the receive loops and the `asyncio.gather` concurrency: a send is a per-socket success or failure input, and broadcasts are sequential.
- Log-file rotation handlers and file reads: the existing files and their lines are inputs. The duplicate of `parse_size` in the logging setup of `main.py` is not modelled separately.
- `RequestLog.GetLogs`, `RequestLog.LogsPage`: `decode` yields only entries with a string timestamp. `RequestLogEntry` is a plain dataclass (`file_logger.py:10-29`) that checks no types, so a line such as `"timestamp": 5` or `"timestamp": null` is accepted (`:202`). The sort at `:215` then raises `TypeError` outside both `try` blocks, `get_logs` fails and the route answers 500. That failure is not modelled.
- `RequestLog.GetLogs`, `RequestLog.LogsPage`: a file that is not valid UTF-8 raises `UnicodeDecodeError` while its lines are read (`file_logger.py:196`). `except (IOError, OSError)` at `:210` does not catch it, so `get_logs` fails. The model treats the lines of a file as given and has no such failure.
- `RequestLog.ParseSize`: digits are ASCII `0`-`9` only. Python's `int` also reads other Unicode decimal digits (`parse_size("１０MB")` is 10485760), where the model gives `None`.
- Python regex corner cases: `$` also matching before a trailing newline, and `re.escape`. Template matching is exact and anchored. The parameter-name test of `validate_path_pattern` (`path_parser.py:119`) is modelled without the trailing-newline case; the as-written test is `PathParser.ValidatePathPatternAsWritten` (see Findings).
- `PathParser.ValidCompiles`, `PathParser.CheckNamesOk`, `PathParser.ValidateCharacterised`: these hold for the corrected validator `PathParser.ValidatePathPattern`. The source's validator also accepts a template such as `/a/{id\n}`, whose regex then fails to compile.
- `MockServiceStore.CreateMockService`, `MockServiceStore.CheckUpdatePath`, `WsdlApi.ImportOne`: these guard with the corrected validator, so a template such as `/a/{id\n}` is refused with an invalid-parameter-name error. The source stores it (`mock_service.py:19-21`, `:206`).
- `MockServiceStore.CreatedIsRoutable`, `MockServiceStore.UpdatedPathRoutable`, `MockServiceStore.FindMockService`: these rest on the corrected validator. In the source, once such a template is stored, `re.match` raises `re.error` (`path_parser.py:36`) whenever the route scan reaches a service with that template that lists the request's method. The scan has no `try` (`mock_service.py:98`), so the exception escapes it, and the catch-all of the mock route answers 500 (`mock_handler.py:119-140`). Every such request then fails, and no service after it in the listing is ever reached. The model's scan never raises.
- Letter case: `str.lower`/`str.upper` and `IGNORECASE` are modelled for ASCII letters only.
- `MockProcessor.ProcessRequest`: delays are never null in the model; each is a number. In the source an update may store a null delay; the `> 0` test at `mock_processor.py:71`, `:332` or `:354` then raises `TypeError`, and the catch-all at `:60-62` answers 500. That path is not modelled. Apart from it, every strategy handler in the model catches its own failures, so no exception reaches the catch-all. The 500 replies of the preview and import routes for unexpected exceptions are left out for the same reason.
- `WsdlService.GenerateSoapEnvelope`, `WsdlService.GenerateSoapResponse`: these take the `tns` namespace as a parameter. The parser always stores the document's target namespace under `tns`, so the `http://tempuri.org/` default is never used.
- `MockProcessor.ExtendParams`: a script variable is seen only as `None` or as its `str()` text, which is all the proxy parameters use. Python's rendering of values as text is not modelled.
- `MockProcessor.AnswerBranch`: a static branch stored with a null response hands `None` to the template renderer. The model hands it the empty string, because the renderer is an input.

## Findings

| source | as written | input that shows it | evidently intended | confidence | as-written member | corrected member |
|---|---|---|---|---|---|---|
| backend/app/utils/path_parser.py:119 | `re.match` with `$` accepts a parameter name followed by one newline, so the validator accepts the template | `/a/{id\n}` | only names that are identifiers pass, so every accepted template compiles to a regex | not executed | PathParser.NewlineNameSlipsThrough | PathParser.ValidCompiles |
