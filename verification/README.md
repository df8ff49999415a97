# atd-mds-client in Dafny

A model of the core of `atd-mds-client`, the Austin Transportation
Department's client for the Mobility Data Specification (MDS) provider API.
It covers:

- **`MDSClientBase`**: the construction defaults, `_build_response`, the
  bounded retry loop of `_request`, `set_header`, `render_settings` and the
  setters.
- **`MDSClient020` and `MDSClient040`**: their parameter schemas, how
  parameters are copied through `param_schema`, the payload predicates, and
  the paging loop of `get_trips`.
- **`MDSClient`**: the merge of the configuration with the keyword
  arguments, `load_mds_client`, the custom headers, the order of
  `_authenticate`, and `get_trips` delegation.
- **`MDSAuth`**: the method dispatch on `auth_type` and the OAuth, bearer,
  HTTP basic and custom methods. HTTP basic relies on the UTF-8 encoding
  (RFC 3629) and the base 64 encoding of section 4 of RFC 4648, and its
  header is the one of section 2 of RFC 7617.
- **`MDSTimeZone`**: the query window, whose start is `|offset|` seconds
  before a reference time and whose end is the reference itself. Both are
  read back in the zone, in UTC, or as a Unix epoch.

Mutation becomes state passing: each operation takes the object's state and
returns the new one. The exceptions the model covers are `Err` values of
`Results.Error`; the exception paths it does not cover are listed under
"Left out".

Inputs instead of effects:
- The network is an input. Each page request has a script `nat ->
  TransportOutcome` giving the outcome of each attempt, so the whole
  provider is a finite list of scripts.
- The answer of the OAuth token endpoint is a JSON object the caller
  supplies. The model returns the `requests.post` it would send.
- The custom authentication function is a Dafny function value.
- The reference time of `MDSTimeZone` is a parameter.
- `time.sleep` calls are counted, not performed. The model does keep the
  check `time.sleep` makes of its argument: a negative or non-numeric delay
  raises before the first request.

Modules, one per file:
- `results.dfy`: `Results`, holding `Option`, `Result` and the errors.
- `configuration.dfy`: `Configuration`, holding values, `dict.get`,
  truthiness and `{**a, **b}`.
- `payloads.dfy`: `Payloads`.
- `transport.dfy`: `Transport`.
- `retry.dfy`: `Retry`.
- `clientbase.dfy`: `ClientBase`.
- `shaping.dfy`: `Shaping`.
- `pagination.dfy`: `Pagination`.
- `utf8.dfy`: `Bytes` and `Utf8`.
- `base64.dfy`: `Base64`.
- `auth.dfy`: `Auth`.
- `timewindow.dfy`: `TimeWindow`.
- `client.dfy`: `Client`.

Where the code and its documentation disagree, the model follows the code:
- `get_time` moves the reference back for both signs of the offset, although
  its comment says a negative offset moves forward.
- The custom authentication method leaves `self.headers` unset, although a
  test expects it to be filled.
- `MDSClient040` has no `_adjust_time`, although a test calls it.
- The docstrings list a `paging` keyword for `get_trips`. In `MDSClient040`
  any such keyword goes through `param_schema` and raises `KeyError`.
  `MDSClient020.get_trips` ignores its keywords altogether.

## Model

| member | source | states |
|---|---|---|
| Configuration.Overlay | mds/MDSClient.py:48 | `{**config, **kwargs}`: the keys of both, the keyword argument winning on a shared key, the configuration value otherwise |
| Payloads.HasTrips | mds/clients/MDSClient020.py:42-49 | true exactly when the payload has a `data` object whose `trips` list is present and non-empty |
| Payloads.HasData | mds/clients/MDSClient020.py:51-58 | true exactly when `data` is present and has at least one member |
| Payloads.NextLink | mds/clients/MDSClient020.py:69-76 | the `links.next` string when present and not `null`, otherwise none |
| Payloads.HasNextLink | mds/clients/MDSClient020.py:60-67 | true exactly when `NextLink` gives a non-empty string (Python truthiness of the link) |
| Payloads.ResponseVersion | mds/clients/MDSClient020.py:78-84 | the payload's version when present, the class fallback when the key is missing, and `None` for an explicit `null` |
| Payloads.TripsImplyData | mds/clients/MDSClient020.py:42-58 | a page with trips always has data |
| Payloads.EmptyPayloadFacts | mds/clients/MDSClientBase.py:70 | the empty payload of a failed request has no trips, no data and no next link, and reports the fallback version |
| Transport.BuildResponse | mds/clients/MDSClientBase.py:48-71 | a record is success exactly on status 200. A missing status reads as -1 and a missing content gives the default message. An error carries an empty payload. Parsing raises only for a 200 whose body is not JSON |
| Transport.ExceptionRecord | mds/clients/MDSClientBase.py:122-132 | the exception record: status -1, an error, the exception text behind "Error: ", an empty payload |
| Transport.Attempt | mds/clients/MDSClientBase.py:105-132 | one attempt never raises. It succeeds exactly when the response has status 200 and a parseable body, and its payload is that body |
| Retry.AttemptLimit | mds/clients/MDSClientBase.py:96-156 | the number of attempts the loop allows: `max_attempts`, but at least one, since the first attempt is made before the bound is checked |
| Retry.RunFrom | mds/clients/MDSClientBase.py:96-156 | reference definition of the loop: the attempt count lies between the start and the limit, and the last attempt's record is kept and decides success |
| Retry.RunFromStopsAtFirstSuccess | mds/clients/MDSClientBase.py:139-156 | every attempt before the last one failed, and a failed run used up every allowed attempt |
| Retry.FirstSuccessDecides | mds/clients/MDSClientBase.py:139-141 | if attempt k is the first success within the limit, the run makes exactly k+1 attempts and returns that attempt's record |
| Retry.AllFailuresExhaust | mds/clients/MDSClientBase.py:148-156 | when every allowed attempt fails, all of them are made and the run fails |
| Retry.RetryRunShape | mds/clients/MDSClientBase.py:96-158 | every run: between 1 and the limit attempts, all but the last failed, the last record kept, success exactly when that record succeeded |
| Retry.Request | mds/clients/MDSClientBase.py:73-158 | a delay `time.sleep` refuses (negative, or neither an integer nor a boolean) raises before any attempt. Otherwise the loop sleeps once per attempt and makes as many attempts as the reference run. It returns that run's record exactly when the run succeeded, and otherwise raises the max-attempts error naming the bound and the endpoint |
| ClientBase.EndpointText | mds/clients/MDSClient020.py:114 | `f"{self.mds_endpoint}"`: a string as is, a missing or `null` URL as "None" |
| ClientBase.AttemptsValue | mds/clients/MDSClientBase.py:149 | `max_attempts` as the comparison sees it: an integer as is, a boolean as 0 or 1, anything else rejected |
| ClientBase.NewBase | mds/clients/MDSClientBase.py:38-46 | empty headers and parameters, the class schema, the endpoint as `EndpointText` renders `mds_api_url`, the attempt bound as `AttemptsValue` reads `max_attempts` (default 3), and the configured paging, delay and interval with defaults True, 0 and None. A setting of the wrong type is the error reported, the URL checked first |
| ClientBase.NewBaseDefaults | mds/clients/MDSClientBase.py:38-46 | an empty configuration builds exactly: endpoint "None", no headers or parameters, paging True, delay 0, no timeout, three attempts |
| ClientBase.SetHeader | mds/clients/MDSClientBase.py:160-169 | the key maps to the new value, every other header and every other field unchanged |
| ClientBase.ApplyOverrides | mds/clients/MDSClientBase.py:180-185 | a dictionary `mds_param_override` replaces or adds schema entries and keeps the others. Any other value leaves the schema alone |
| ClientBase.RenderSettings | mds/clients/MDSClientBase.py:171-185 | the given headers merged over the current ones (new ones win), the override applied to the schema, nothing else changed |
| ClientBase.SetPaging | mds/clients/MDSClientBase.py:194-199 | only the paging flag changes |
| ClientBase.SetDelay | mds/clients/MDSClientBase.py:201-206 | only the delay changes |
| ClientBase.SetTimeout | mds/clients/MDSClientBase.py:208-213 | only the timeout changes |
| ClientBase.SetMaxAttempts | mds/clients/MDSClientBase.py:215-220 | only the attempt bound changes |
| ClientBase.SetHeaderLastWins | mds/clients/MDSClientBase.py:160-169 | setting a header twice keeps the second value, and setting two different headers commutes |
| ClientBase.RenderSettingsIdempotent | mds/clients/MDSClientBase.py:171-185 | rendering with no headers and no dictionary override changes nothing, and rendering twice equals rendering once |
| Shaping.WireNames | mds/clients/MDSClient020.py:183-184 | the set of wire names the entries map to: each entry's wire name is in it and nothing else |
| Shaping.Shape | mds/clients/MDSClient020.py:182-184 | the copy succeeds exactly when every logical name is in the schema. Otherwise it fails at the first unknown name, all earlier names being known |
| Shaping.ShapeWrites | mds/clients/MDSClient020.py:182-184 | a successful copy writes exactly the entries' wire names, each holding the value of the last entry written under it, and keeps every other parameter |
| Shaping.LoadParams020Default | mds/clients/MDSClient020.py:164-184 | with the 0.2.0 schema, `start_time` and `end_time` are added with the given seconds and other parameters are kept |
| Shaping.Entries040Distinct | mds/clients/MDSClient040.py:39-45 | under the 0.4.0 schema the window lands on `min_end_time`/`max_end_time` and known extra arguments keep their own, pairwise different, wire names |
| Shaping.Shape040Default | mds/clients/MDSClient040.py:114-124 | with the 0.4.0 schema the window is written in milliseconds, every known extra argument lands under its own name, and the other parameters are kept |
| Shaping.OverrideMovesStart | mds/clients/MDSClientBase.py:180-185 | an override of `start_time` sends the start bound under the new wire name, and the end bound is unaffected |
| Shaping.UnknownNameFails | mds/clients/MDSClient040.py:122-124 | when entry k is the first unknown name, the copy fails exactly there |
| Pagination.Runs | mds/clients/MDSClient020.py:121-126 | one retry run per page request, in order |
| Pagination.StopIndex | mds/clients/MDSClient020.py:140-154 | the request after which the loop ends is one that ends it: the request raised, paging is `False`, or there is no truthy next link |
| Pagination.StopIndexIsFirst | mds/clients/MDSClient020.py:119-154 | no request before the stop index ends the loop |
| Pagination.StopIndexAt | mds/clients/MDSClient020.py:119-154 | the loop ends after request k when request k is the first that ends it |
| Pagination.CollectedStep | mds/clients/MDSClient020.py:131-138 | each page appends its trips after those of the earlier pages |
| Pagination.Requests | mds/clients/MDSClient020.py:113-126 | as many requests as asked for, the first to `<endpoint>/trips` with the parameters and the client headers |
| Pagination.RequestsAt | mds/clients/MDSClient020.py:114-126 | every request after the first goes to the previous page's next link, without parameters, with the client headers |
| Pagination.StopsHere | mds/clients/MDSClient020.py:140-154 | a request that ends the loop is the stop index when the search reaches it |
| Pagination.StopsLater | mds/clients/MDSClient020.py:140-154 | past a request that does not end the loop, the loop still ends later, at the same stop index |
| Pagination.FetchPage | mds/clients/MDSClientBase.py:73-158 | with a delay `time.sleep` accepts, a page fetch yields the page exactly when the retry run succeeded, otherwise the max-attempts error |
| Pagination.Step | mds/clients/MDSClient020.py:121-154 | one pass of the loop: it stops exactly when the page ends the loop. It then returns the trips so far and the page's version, or raises the request's error. Otherwise it hands on the next link and the trips so far |
| Pagination.Pass | mds/clients/MDSClient020.py:119-154 | one pass sends request i with parameters only on the first. When the loop ends there, the requests sent are exactly those up to the stop index and the result is that page's outcome. Otherwise the loop invariant holds before request i+1 |
| Pagination.Loop | mds/clients/MDSClient020.py:111-162 | with an accepted delay, the loop sends exactly one request per page up to the first that ends it, as `Requests` describes them. It returns the trips of all those pages in order with the last page's version, or raises the error of the request that raised |
| Pagination.Paginate | mds/clients/MDSClient020.py:111-162 | a delay `time.sleep` refuses raises before any request is sent. Otherwise the outcome is the one `Loop` states |
| Pagination.PagingOffOneRequest | mds/clients/MDSClient020.py:140-143 | with paging `False` the loop stops after the first request, whatever the page says |
| Pagination.PagesUntilLastLink | mds/clients/MDSClient020.py:145-154 | with paging on, if the first count-1 pages have a next link and page count-1 has none, exactly count requests are made |
| Pagination.GetTripsWith | mds/clients/MDSClient040.py:114-177 | parameters are copied first. An unknown name raises `KeyError` for that name before any request, keeping the writes before it. Otherwise the loop runs with the updated parameters: every request sent and the result are the ones `Paginate` states |
| Pagination.Shape020Facts | mds/clients/MDSClient020.py:164-184 | with both window names in the schema the window lands in seconds under their wire names. A missing `end_time` stops the copy after the start was written, and a missing `start_time` stops it before anything was written |
| Pagination.WindowSurvives | mds/clients/MDSClient040.py:114-124 | for any schema holding both window names, when no extra argument is written under a window wire name, the window lands in milliseconds under those wire names |
| Pagination.Shape040Facts | mds/clients/MDSClient040.py:114-124 | the window facts of the 0.4.0 copy: for any schema whose window names no extra argument overwrites, and for the built-in schema with the extras under their own names |
| Pagination.UnknownExtraFails | mds/clients/MDSClient040.py:122-124 | with both window names known, the first unknown extra argument stops the copy at its own entry |
| Pagination.GetTrips020 | mds/clients/MDSClient020.py:86-162 | the copy and the loop as `GetTripsWith` states them for the seconds window with fallback "0.2.0". The window lands under the schema's wire names. A missing `end_time` raises `KeyError("end_time")` before any request, with only the start written; a missing `start_time` raises `KeyError("start_time")` with nothing changed |
| Pagination.GetTrips040 | mds/clients/MDSClient040.py:94-177 | the copy and the loop as `GetTripsWith` states them for the milliseconds window and the extras, with fallback "0.4.0". The window lands under the schema's wire names for any schema none of whose extras overwrite them, including overridden ones. With the built-in schema the extras land under their own names. The first unknown extra argument raises `KeyError` naming it before any request |
| Utf8.EncodeChar | mds/MDSAuth.py:91-93 | one to four bytes per scalar value, a single byte exactly for ASCII, the trailing ones continuation bytes |
| Utf8.Encode | mds/MDSAuth.py:91-93 | the encoding is at least as long as the text, and as long exactly when the text is ASCII |
| Utf8.DecodeFirstEncodeChar | mds/MDSAuth.py:91-93 | the strict decoder reads back the scalar value the encoder wrote, whatever follows it |
| Utf8.DecodeEncode | mds/MDSAuth.py:91-93 | decoding undoes `str.encode("utf-8")` |
| Base64.CharOf | mds/MDSAuth.py:91-93 | no alphabet character is the pad `=` |
| Base64.IndexOf | mds/MDSAuth.py:91-93 | the value of an alphabet character maps back to that character |
| Base64.Encode | mds/MDSAuth.py:91-93 | `b64encode` produces four characters per started group of three octets |
| Base64.EncodeInAlphabet | mds/MDSAuth.py:91-93 | every character of an encoding is in the alphabet or is the pad |
| Base64.DecodeEncode | mds/MDSAuth.py:91-93 | decoding undoes `base64.b64encode`, including the "==" and "=" padded final groups |
| Base64.Rfc4648Vectors | mds/MDSAuth.py:91-93 | the test vectors of section 10 of RFC 4648: "" , "Zg==", "Zm8=", "Zm9v", "Zm9vYmFy" |
| Auth.Lower | mds/MDSAuth.py:39 | the ASCII part of `str.lower`: the length is kept, each ASCII capital is lowered, and every other character is unchanged |
| Auth.LowerIdempotent | mds/MDSAuth.py:39 | lowering twice is lowering once |
| Auth.KindOf | mds/MDSAuth.py:34-39 | the dispatch table maps a name to a method exactly when it is that method's key |
| Auth.SelectAuth | mds/MDSAuth.py:21-48 | a falsy `auth_type` raises "no method". A string selects a method exactly when its lower-case form is that method's key, and otherwise raises "invalid method" naming it. Any other truthy value cannot be lowered |
| Auth.SelectAuthCaseInsensitive | mds/MDSAuth.py:29-44 | two `auth_type` strings with the same lower-case form select the same method |
| Auth.TokenOfBearerHeader | mds/MDSAuth.py:74 | the token can be read back from the header built from it |
| Auth.BearerLogin | mds/MDSAuth.py:80-83 | a missing `token` raises `KeyError`. Otherwise the only header is `Authorization`, carrying the configured token behind "Bearer " |
| Auth.CredentialsOfBasicHeader | mds/MDSAuth.py:85-95 | the `username:password` text can be recovered from the basic header by base 64 and UTF-8 decoding |
| Auth.BasicLogin | mds/MDSAuth.py:85-97 | a missing or empty `auth_data` raises "no credentials". Otherwise the only header is `Authorization`, whose credentials decode to the `username:password` pair, a missing part rendered "None" |
| Auth.OAuthLogin | mds/MDSAuth.py:50-78 | without a truthy `token_url` it raises before posting. Otherwise it posts `auth_data` (default `{}`) to the URL. Without a truthy `auth_token_res_key` it raises. It succeeds exactly when the response holds a non-empty string token under that key, and then the only header is `Authorization`, carrying that token |
| Auth.Authenticate | mds/MDSAuth.py:50-106 | each built-in method returns, or raises, exactly what its login gives; only OAuth posts, and it posts what `OAuthLogin` posts. The built-in methods store exactly the headers they return. The custom method returns what the function gives for the configuration and stores nothing. A missing function cannot be called |
| TimeWindow.AsTimeZone | mds/MDSTimeZone.py:83 | `astimezone` keeps the instant and changes the zone |
| TimeWindow.GetTime | mds/MDSTimeZone.py:49-71 | without a zone it fails. Otherwise the time is the reference moved back by the absolute offset, in the instance's zone |
| TimeWindow.NewTimeZone | mds/MDSTimeZone.py:18-47 | construction succeeds exactly with a zone. The start is the reference moved back by the absolute value of the offset, the end is the reference, and every keyword argument is set afterwards and overrides either |
| TimeWindow.ReadTime | mds/MDSTimeZone.py:73-99 | a date-time attribute is returned in its zone or in UTC with the same instant, or as its epoch when `unix` is set. A missing attribute reads as 0, and a non-date-time value is returned as is only when neither flag is set |
| TimeWindow.WindowOrdered | mds/MDSTimeZone.py:36-43 | without overrides the start epoch lies exactly the absolute value of the offset before the end epoch |
| TimeWindow.UnixIgnoresUtc | mds/MDSTimeZone.py:80-85 | the epoch does not depend on the `utc` flag |
| TimeWindow.ReferenceOffsets | mds/MDSTimeZone.py:18-22 | offset 0 gives the reference itself, and the default offset 86400 gives one day before it |
| Client.LoadMdsClient | mds/MDSClient.py:78-95 | a custom class wins. Otherwise a known version string gives its class and any other hashable version gives `None`. A dictionary version raises |
| Client.Instantiate | mds/MDSClient.py:71-73 | only a class can be called, and it yields that class |
| Client.Prefix3 | mds/MDSClient.py:136 | `version[:3]` is a prefix of at most three characters |
| Client.LoadCustomHeaders | mds/MDSClient.py:97-101 | every configured header is set over the existing ones, the others are kept, nothing else changes. A non-dictionary `headers` raises |
| Client.ApplyAuthentication | mds/MDSClient.py:123-144 | empty or missing authentication headers change nothing. Otherwise the result is the `Accept` header from `version[:3]` with the authentication headers merged over all, and the parameter override applied |
| Client.Prepare | mds/MDSClient.py:48-75 | a successful setup has the method `SelectAuth` picks, the version (default "0.2.0"), the class `load_mds_client` returns, the base `NewBase` builds for that class's schema, and exactly the configured headers. The first failing step is the error: the method, a dictionary version, a value that is not a class (an unknown version without a custom class), the settings, then a non-dictionary `headers` |
| Client.Finish | mds/MDSClient.py:123-144 | with non-empty authentication headers and a non-string version it raises. Otherwise the client keeps the setup's method, class and version, stores the headers `authenticate()` returned, and is authenticated exactly when they are non-empty. It then has the setup's base, or that base with `Accept` and the authentication headers laid over its headers and the override applied |
| Client.Connect | mds/MDSClient.py:35-76 | on `{**config, **kwargs}`: a setup error is raised as is, then an error of `authenticate()` is raised as is, and otherwise the client is what `Finish` builds from the setup and the headers `authenticate()` returned. So its method, class, version and provider come from the configuration and its headers from `authenticate()` |
| Client.PrepareBearer040 | mds/MDSClient.py:48-75 | a bearer configuration for version 0.4.0 sets up the bearer method, the 0.4.0 class and the default settings |
| Client.NewBaseBearer040 | mds/clients/MDSClientBase.py:38-46 | the settings read from that configuration are the defaults |
| Client.AuthenticateBearer040 | mds/MDSAuth.py:80-83 | bearer authentication on that configuration returns the token's header |
| Client.RenderBearer040 | mds/MDSClient.py:136-144 | `Accept`, then the token's header, laid over no headers give exactly those two |
| Client.FinishBearer040 | mds/MDSClient.py:123-144 | installing the token's header on that setup authenticates with exactly `Accept` and `Authorization` and changes nothing else |
| Client.ConnectBearer040 | mds/MDSClient.py:35-76 | a bearer client for version 0.4.0 is the 0.4.0 class, authenticated, with exactly the headers `Accept: ...;version=0.4` and `Authorization: Bearer <token>`, endpoint "None" and three attempts |
| Client.GetTrips | mds/MDSClient.py:103-113 | delegates to the version client with the same window and no extra arguments, so the copy, the requests and the result are those `GetTripsWith` states for that version; both window bounds land for 0.2.0 and for the built-in 0.4.0 schema, and only the client's parameters change |

## Left out

- Logging, the waiting of `time.sleep` and the real HTTP calls of `requests.get` and `requests.post`: the network is a per-attempt script, sleeps are counted, and the token endpoint's JSON answer is an input.
- Floating-point delays: the delay is a JSON integer, boolean or other value, so a fractional `delay` (which `time.sleep` accepts) is not modelled.
- Payloads whose `data`, `links` or `trips` member is `null`, or a 200 body that is JSON but not an object: the source's `.get` chains raise `AttributeError` or `TypeError` out of `get_trips` there, and the `Payload` type cannot express these bodies, so these exception paths are not modelled.
- `MDSClient030` is not part of this model: its `param_schema` is a parameter of `Client.Connect`, and `Client.GetTrips` requires a client of version 0.2.0 or 0.4.0.
- Pagination.Paginate: the source loops for as long as the provider hands out next links; the model requires, when the delay is accepted, that some request in the finite provider list ends the loop, and says nothing about a provider that never stops. The same requirement (`EndsWithin`) sits on `Pagination.Loop`, `Pagination.GetTripsWith`, `Pagination.GetTrips020`, `Pagination.GetTrips040` and `Client.GetTrips`.
- Utf8.EncodeChar: a Dafny `char` is a Unicode scalar value, so the lone surrogates on which `str.encode("utf-8")` raises `UnicodeEncodeError` cannot be expressed, and that error path is not modelled.
- `int(round(...))` of floating-point times: the window is given in whole seconds, so rounding is the identity; sub-second times are not modelled.
- Time zones are fixed offsets from UTC: `pytz` zone databases, daylight-saving transitions and the ambiguity of `localize` are not modelled. The reference time is naive, as `localize` requires.
- The default `date_time_now=datetime.now()` of `get_time` is evaluated once at import time in the source; the model always passes the reference explicitly.
- A `time_zone` keyword argument replaces the instance attribute after the window is built; the model keeps the zone the window was built in and does not model later `get_time` calls that would use the replaced attribute.
- Classes share their `param_schema` dictionary, so `render_settings` overrides leak into later instances of the same class; the model keeps the schema per instance.
- ClientBase.NewBase: a `mds_api_url` that is neither a string nor `null`, or a `max_attempts` that is neither an integer nor a boolean, is rejected at construction with `WrongType`; the source accepts it and fails later, or compares it differently.
- Auth.BearerLogin: a `token` that is not a string is rejected with `WrongType`; the source formats any value with `f"Bearer {...}"`.
- Auth.OAuthLogin: a truthy token that is not a string is rejected with `WrongType`; the source accepts lists and other sliceable values.
- Auth.Lower: lowers ASCII capitals only, whereas `str.lower` lowers every cased letter and can change the length (the dotted capital I becomes "i" followed by a combining dot). The dispatch gives the same answer either way: a name with a non-ASCII character lowers, in the source, to a string that still holds a non-ASCII character or only gains the letter "k" (from the Kelvin sign), and none of the method names contains "k", so both reject it.
- Dictionary-valued settings (`headers`, `auth_data`, `mds_param_override`) hold string values only, and a custom authentication function returns a string dictionary or nothing; other JSON value types are not modelled.
- `custom_client` can name only the three built-in classes; arbitrary user classes are not modelled.
- `show_config`, `get_headers` and the empty stubs `mds_auth_custom` and `_gather_oauth_token` have no behaviour beyond logging or returning a field.
