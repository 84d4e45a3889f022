# supabase-go: the PostgREST client and the storage helpers, in Dafny

This project models the core of the Go client for Supabase. It covers two parts.

**The PostgREST client** (`postgrest/pkg`):
- The `Client` holds the default headers. `NewClient` sets Accept, Content-Type, Accept-Profile and Content-Profile, then runs the options in order: `WithTokenAuth`, `WithBasicAuth` and `WithSchema`.
- `Headers` hands out a copy of the defaults and `AddHeader` Sets one.
- `From` starts a `RequestBuilder` for a table. `Select`, `Insert`, `Upsert`, `Update` and `Delete` make the query, filter and select builders.
- Those builders share one set of query parameters and one header, as the Go builders do through `url.Values` and `http.Header`.
- Filters are appended to the parameters as `operator.criteria`, with `not.` in front after `Not`. Their values go through `SanitizeParam`, which quotes a value holding `,`, `.`, `:`, `(` or `)`.
- `Range`, `Limit`, `LimitWithOffset`, `Single` and `Count` shape the request.
- `ExecuteWithContext` works in three steps:
  - it injects the builder's own headers over the client defaults;
  - it builds the request;
  - it decides what happens to the caller's result: an error decoded from a non-2xx body, the count taken from Content-Range, the decoded body, or nothing at all.
- `Rpc` and its `ExecuteWithContext` do the same for a stored function.

**The storage client's request helpers** (`storage.go`):
- upload options merged with their defaults;
- `removeEmptyFolder`;
- the PUT/POST choice, the URL and the header of an upload;
- the defaults of a file listing;
- the public URL of an object;
- how the answer to a download is classified.

The Go library pieces the core relies on are modelled in their own modules:
- `Http`: `url.Values`, `http.Header` and the canonical header key;
- `Strings`: `strings.Split`, `Join`, `ContainsAny` and `ReplaceAll`;
- `Format`: `%d` with Go's 64-bit `int`;
- `Base64`: the standard base64 alphabet of RFC 4648, section 4;
- `Utf8`: the UTF-8 of RFC 3629.

The builders, the client and the headers are classes whose methods update fields in place. Each method is proved against a function of the old state. The filter grammar, the sanitiser, the outcome of a request and the storage helpers are functions, each with lemmas that tie it to a partner: an inverse, a reference definition, or an invariant it keeps. `Scenarios` replays the package's own tests on the model.

`SanitizePatternParam` replaces `%` by `*` and quotes only for the five reserved characters, so `SanitizePatternParam("50%")` is `50*` (`Sanitizer.PercentExample`).

A nil payload is marshalled too, and `json.Marshal` writes it as `null`: a request without payload is sent with the body `null` (`Postgrest.Marshal`).

## Model

| member | source | states |
|---|---|---|
| Sanitizer.SanitizeParam | postgrest/pkg/utils.go:8-15 | a value with one of `,.:()` is wrapped in double quotes; any other value is returned unchanged |
| Sanitizer.SanitizePatternParam | postgrest/pkg/utils.go:17-19 | no `%` is left; `%` becomes `*`, and the result is quoted exactly when the pattern holds a reserved character |
| Sanitizer.SanitizeLength | postgrest/pkg/utils.go:10-15 | the result is as long as the input, or two longer, and two longer exactly when the input holds a reserved character |
| Sanitizer.SanitizeUnquotedFixedPoint | postgrest/pkg/utils.go:10-15 | a value without reserved characters is a fixed point: sanitising it once or twice gives it back |
| Sanitizer.SanitizeQuotesAgain | postgrest/pkg/utils.go:10-15 | sanitising is not idempotent: a value with a reserved character is quoted a second time |
| Sanitizer.PatternQuotingFollowsReserved | postgrest/pkg/utils.go:17-19 | the pattern result differs from the plain replacement exactly when the pattern holds a reserved character |
| Sanitizer.SanitizeExamples | postgrest/pkg/utils.go:10-15 | `a,b` is quoted and `abc` is not |
| Sanitizer.PercentExample | postgrest/pkg/utils.go:17-19 | `50%` becomes `50*`, unquoted |
| Sanitizer.DecimalPercentExample | postgrest/pkg/utils.go:17-19 | `1.5%` becomes `"1.5*"`, quoted for its `.` |
| Sanitizer.PatternExamples | postgrest/pkg/utils.go:17-19 | both pattern examples together |
| Strings.ContainsAny | postgrest/pkg/utils.go:11 | true exactly when some character of the string is one of the given characters |
| Strings.ReplaceAll | postgrest/pkg/utils.go:18 | same length; every `from` character becomes `to` and every other character is kept |
| Strings.Split | postgrest/pkg/request_builder.go:181 | one part more than there are separators, and no part holds the separator |
| Strings.JoinSplit | postgrest/pkg/request_builder.go:181 | joining the parts of a split with the separator gives the input back |
| Strings.SplitJoin | postgrest/pkg/request_builder.go:38 | splitting a join of separator-free parts gives the parts back |
| Strings.SplitAtSingleSeparator | postgrest/pkg/request_builder.go:181-185 | a string with one separator splits into the text before it and the text after it |
| Strings.OccurrencesConcat | postgrest/pkg/request_builder.go:182 | separators of a concatenation are counted part by part |
| Strings.Occurrences | postgrest/pkg/request_builder.go:182 | the count is at most the length, and zero exactly when the character is absent |
| Strings.FirstIndex | postgrest/pkg/request_builder.go:181 | the first position of the character: it is there and not before it |
| Format.Wrap | postgrest/pkg/request_builder.go:402 | Go's `int` wrap-around: identity on 64-bit values, and equal to the input modulo 2^64 |
| Format.IntToString | postgrest/pkg/request_builder.go:321 | `%d`: a '-' exactly for negative numbers, digits after it |
| Format.NatToString | postgrest/pkg/request_builder.go:366 | decimal digits without a leading zero |
| Format.DigitValue | postgrest/pkg/request_builder.go:366 | the value of a digit character, inverse of DigitChar |
| Format.DigitsValueOfNat | postgrest/pkg/request_builder.go:366 | reading the digits of `n` gives `n` |
| Format.IntToStringRoundTrip | postgrest/pkg/request_builder.go:321 | parsing the `%d` text of any integer gives the integer back |
| Utf8.EncodeChar | postgrest/pkg/client.go:156 | one to four bytes, one exactly for ASCII, whose byte is its code |
| Utf8.Encode | postgrest/pkg/client.go:156 | `[]byte(s)` is between one and four bytes per character |
| Utf8.EncodeAscii | postgrest/pkg/client.go:156 | an ASCII string encodes byte for character |
| Utf8.EncodeAsciiBytes | postgrest/pkg/client.go:156 | an ASCII string encodes to exactly the bytes of its codes |
| Base64.SextetChar | postgrest/pkg/client.go:156 | an alphabet character is never the padding `=` |
| Base64.SextetValue | postgrest/pkg/client.go:156 | a decoded alphabet character is below 64 |
| Base64.SextetRoundTrip | postgrest/pkg/client.go:156 | the value of a sextet's character is the sextet |
| Base64.Encode | postgrest/pkg/client.go:156 | `EncodeToString` gives four characters per started group of three bytes |
| Base64.EncodeStep | postgrest/pkg/client.go:156 | three bytes or more encode as their first group followed by the rest |
| Base64.GroupArithmetic | postgrest/pkg/client.go:156 | the three bytes of a group are recovered from its four sextets |
| Base64.DecodeOne | postgrest/pkg/client.go:156 | one byte, padded with `==`, decodes back |
| Base64.DecodeTwo | postgrest/pkg/client.go:156 | two bytes, padded with `=`, decode back |
| Base64.DecodeGroup | postgrest/pkg/client.go:156 | a full group decodes to its bytes followed by the decoding of the rest |
| Base64.DecodeEncodeStep | postgrest/pkg/client.go:156 | a sequence round-trips when its tail after the first group does |
| Base64.DecodeEncode | postgrest/pkg/client.go:156 | every byte sequence survives encoding and decoding |
| Base64.ThreeAndRest | postgrest/pkg/client.go:156 | a sequence of three bytes or more is its first three bytes followed by the rest |
| Http.Added | postgrest/pkg/request_builder.go:214 | `Values.Add`: one more value at the end of the key's list, every other key unchanged |
| Http.Replaced | postgrest/pkg/client.go:145 | `Set`: the key holds exactly the value, every other key unchanged |
| Http.GetAfterSet | postgrest/pkg/client.go:145 | `Get` after `Set` finds the value set |
| Http.GetAfterAdd | postgrest/pkg/request_builder.go:214 | `Get` after `Add` still finds the first value under the key |
| Http.SetLastWins | postgrest/pkg/client.go:145 | of two `Set`s on one key the later wins |
| Http.TitleCase | postgrest/pkg/client.go:145 | canonical casing keeps the length |
| Http.CanonicalKey | postgrest/pkg/client.go:145 | the canonical key is as long as the key |
| Http.TitleCaseTokens | postgrest/pkg/client.go:145 | title casing keeps token characters and is idempotent |
| Http.CanonicalKeyIdempotent | postgrest/pkg/client.go:145 | canonicalising a canonical key changes nothing |
| Http.TitleCaseAt | postgrest/pkg/client.go:145 | each character is upper case at a word start and lower case elsewhere |
| Http.CanonicalWhenTitled | postgrest/pkg/client.go:145 | a token key already in title case is canonical |
| Http.TitleCaseCaseless | postgrest/pkg/client.go:145 | title casing does not depend on the case the key is written in |
| Http.CanonicalCaseless | postgrest/pkg/client.go:145 | two spellings that differ only in case have one canonical form |
| Http.LowerCaseKeyExample | postgrest/pkg/request_builder_test.go:61 | `prefer` names the header `Prefer` |
| Http.AcceptCanonical | postgrest/pkg/client.go:35 | `Accept` is canonical |
| Http.ContentTypeCanonical | postgrest/pkg/client.go:36 | `Content-Type` is canonical |
| Http.AcceptProfileCanonical | postgrest/pkg/client.go:37 | `Accept-Profile` is canonical |
| Http.ContentProfileCanonical | postgrest/pkg/client.go:38 | `Content-Profile` is canonical |
| Http.AuthorizationCanonical | postgrest/pkg/client.go:150 | `Authorization` is canonical |
| Http.PreferCanonical | postgrest/pkg/request_builder.go:55 | `Prefer` is canonical |
| Http.RangeCanonical | postgrest/pkg/request_builder.go:402 | `Range` is canonical |
| Http.RangeUnitCanonical | postgrest/pkg/request_builder.go:401 | `Range-Unit` is canonical |
| Http.ContentRangeCanonical | postgrest/pkg/request_builder.go:180 | `Content-Range` is canonical |
| Http.KnownKeysCanonical | postgrest/pkg/client.go:35-38 | every header name the client and builders write is canonical |
| Http.Values.constructor | postgrest/pkg/client.go:56 | new parameters are empty |
| Http.Values.Add | postgrest/pkg/request_builder.go:214 | the parameters become the old ones with the value appended under the key |
| Http.Values.Set | postgrest/pkg/request_builder.go:38 | the parameters become the old ones with the key holding the one value |
| Http.Header.constructor | postgrest/pkg/client.go:31 | a new header is empty and canonical |
| Http.Header.Set | postgrest/pkg/client.go:145 | the header becomes the old one with the canonical key holding the value, and stays canonical |
| Http.Header.Clone | postgrest/pkg/client.go:140-142 | a fresh header with the same entries |
| ClientOptions.BasicCredential | postgrest/pkg/client.go:154-158 | the credential decodes back to the UTF-8 of `username:password` |
| ClientOptions.ApplyAllStep | postgrest/pkg/client.go:40-42 | the options run one after the other, in argument order |
| ClientOptions.ApplyOptionKey | postgrest/pkg/client.go:148-165 | an option Sets its own keys to its value, keeps every other key, and adds only its keys |
| ClientOptions.UnsetKeyKeepsDefault | postgrest/pkg/client.go:35-42 | a header no option Sets keeps its default |
| ClientOptions.LastOptionWins | postgrest/pkg/client.go:40-42 | a header holds the value of the last option that Sets it |
| ClientOptions.GroupsExample | postgrest/pkg/client_test.go:39-46 | the four base64 groups of `admin:s3cr3t` |
| ClientOptions.ExampleText | postgrest/pkg/client_test.go:39-46 | the UTF-8 of `admin:s3cr3t` is its twelve ASCII codes |
| ClientOptions.EncodeFourGroups | postgrest/pkg/client.go:156 | twelve bytes encode as their four groups in order |
| ClientOptions.EncodingOf | postgrest/pkg/client.go:156 | twelve bytes with the example's groups encode as `YWRtaW46czNjcjN0` |
| ClientOptions.ExampleEncoding | postgrest/pkg/client_test.go:39-46 | the example bytes encode as `YWRtaW46czNjcjN0` |
| ClientOptions.BasicAuthExample | postgrest/pkg/client_test.go:39-46 | `WithBasicAuth("admin", "s3cr3t")` sends `Basic YWRtaW46czNjcjN0` |
| Postgrest.ConditionRoundTrip | postgrest/pkg/request_builder.go:209-216 | a filter value reads back as its negation, operator and criteria |
| Postgrest.Sanitized | postgrest/pkg/request_builder.go:284-290 | each list value, sanitised, in order |
| Postgrest.SanitizeAll | postgrest/pkg/request_builder.go:284-290 | the loop fills the slice with exactly the sanitised values |
| Postgrest.ListCriteriaRoundTrip | postgrest/pkg/request_builder.go:284-290 | the criteria of an `in` filter split back into the values, when none is quoted |
| Postgrest.PairCriteriaRoundTrip | postgrest/pkg/request_builder.go:320-322 | the two numbers of a range filter are read back from `(from,to)` |
| Postgrest.SpanRoundTrip | postgrest/pkg/request_builder.go:365-368 | a span of two non-negative numbers splits back into them |
| Postgrest.PageEnd | postgrest/pkg/request_builder.go:400-404 | without overflow the page from `start` to its end holds `size` rows |
| Postgrest.PageRoundTrip | postgrest/pkg/request_builder.go:400-404 | the Range header of a page reads back as its start and end |
| Postgrest.LimitZeroExample | postgrest/pkg/request_builder.go:395-404 | `Limit(0)` asks for the range `0--1` |
| Postgrest.Client.constructor | postgrest/pkg/client.go:23-49 | `NewClient`: the base URL, and the four defaults after all options, in order |
| Postgrest.Client.SetDefaults | postgrest/pkg/client.go:35-38 | the four default headers |
| Postgrest.Client.AddHeader | postgrest/pkg/client.go:144-146 | a replacing Set of the canonical key on the defaults |
| Postgrest.Client.Apply | postgrest/pkg/client.go:148-165 | one option changes the defaults as `ApplyOption` says |
| Postgrest.Client.Headers | postgrest/pkg/client.go:140-142 | a fresh copy of the defaults |
| Postgrest.Client.From | postgrest/pkg/client.go:51-58 | a fresh builder for `/table`, with empty parameters and header of its own |
| Postgrest.Client.Rpc | postgrest/pkg/client.go:68-76 | a POST builder to `rpc/f` under the base URL, with the parameters and an empty header |
| Postgrest.RequestBuilder.constructor | postgrest/pkg/client.go:51-58 | the client, the path, and empty parameters and header |
| Postgrest.RequestBuilder.Select | postgrest/pkg/request_builder.go:37-51 | `select` holds the columns joined by `,`; a GET without payload over the shared state |
| Postgrest.RequestBuilder.Insert | postgrest/pkg/request_builder.go:54-64 | Prefer `return=representation`; a POST of the payload |
| Postgrest.RequestBuilder.Upsert | postgrest/pkg/request_builder.go:67-77 | Prefer `return=representation,resolution=merge-duplicates`; a POST of the payload |
| Postgrest.RequestBuilder.Update | postgrest/pkg/request_builder.go:80-93 | Prefer `return=representation`; a PATCH of the payload, open to filters |
| Postgrest.RequestBuilder.Delete | postgrest/pkg/request_builder.go:96-108 | a DELETE without payload, open to filters; the header is untouched |
| Postgrest.QueryRequestBuilder.constructor | postgrest/pkg/request_builder.go:111-119 | the fields given, not in count mode |
| Postgrest.QueryRequestBuilder.Execute | postgrest/pkg/request_builder.go:127-194 | the request carries the method, the path without its leading `/`, the marshalled payload, the parameters, and the defaults overridden by the builder's headers; the outcome is `QueryOutcome` |
| Postgrest.FilterRequestBuilder.constructor | postgrest/pkg/request_builder.go:197-200 | the query builder, not negating |
| Postgrest.FilterRequestBuilder.Not | postgrest/pkg/request_builder.go:203-206 | the next filter is negated |
| Postgrest.FilterRequestBuilder.Filter | postgrest/pkg/request_builder.go:209-216 | `operator.criteria` (with `not.` after `Not`) is appended under the raw column; the flag is spent and nothing else changes |
| Postgrest.FilterRequestBuilder.Eq | postgrest/pkg/request_builder.go:219-221 | an `eq` filter on the sanitised value |
| Postgrest.FilterRequestBuilder.Neq | postgrest/pkg/request_builder.go:224-226 | a `neq` filter on the sanitised value |
| Postgrest.FilterRequestBuilder.Gt | postgrest/pkg/request_builder.go:229-231 | a `gt` filter on the sanitised value |
| Postgrest.FilterRequestBuilder.Gte | postgrest/pkg/request_builder.go:234-236 | a `gte` filter on the sanitised value |
| Postgrest.FilterRequestBuilder.Lt | postgrest/pkg/request_builder.go:239-241 | an `lt` filter on the sanitised value |
| Postgrest.FilterRequestBuilder.Lte | postgrest/pkg/request_builder.go:244-246 | an `lte` filter on the sanitised value |
| Postgrest.FilterRequestBuilder.Is | postgrest/pkg/request_builder.go:249-251 | an `is` filter on the sanitised value |
| Postgrest.FilterRequestBuilder.Like | postgrest/pkg/request_builder.go:254-256 | a `like` filter on the value sanitised by `SanitizeParam` |
| Postgrest.FilterRequestBuilder.Ilike | postgrest/pkg/request_builder.go:259-261 | an `ilike` filter on the value sanitised by `SanitizeParam` |
| Postgrest.FilterRequestBuilder.Fts | postgrest/pkg/request_builder.go:264-266 | an `fts` filter on the sanitised value |
| Postgrest.FilterRequestBuilder.Plfts | postgrest/pkg/request_builder.go:269-271 | a `plfts` filter on the sanitised value |
| Postgrest.FilterRequestBuilder.Phfts | postgrest/pkg/request_builder.go:274-276 | a `phfts` filter on the sanitised value |
| Postgrest.FilterRequestBuilder.Wfts | postgrest/pkg/request_builder.go:279-281 | a `wfts` filter on the sanitised value |
| Postgrest.FilterRequestBuilder.In | postgrest/pkg/request_builder.go:284-290 | an `in` filter on `(v1,v2,…)` of the sanitised values |
| Postgrest.FilterRequestBuilder.Cs | postgrest/pkg/request_builder.go:293-299 | a `cs` filter on `{v1,v2,…}` of the sanitised values |
| Postgrest.FilterRequestBuilder.Cd | postgrest/pkg/request_builder.go:302-308 | a `cd` filter on `{v1,v2,…}` of the sanitised values |
| Postgrest.FilterRequestBuilder.Ov | postgrest/pkg/request_builder.go:311-317 | an `ov` filter on `{v1,v2,…}` of the sanitised values |
| Postgrest.FilterRequestBuilder.Sl | postgrest/pkg/request_builder.go:320-322 | an `sl` filter on `(from,to)` |
| Postgrest.FilterRequestBuilder.Sr | postgrest/pkg/request_builder.go:325-327 | an `sr` filter on `(from,to)` |
| Postgrest.FilterRequestBuilder.Nxl | postgrest/pkg/request_builder.go:330-332 | an `nxl` filter on `(from,to)` |
| Postgrest.FilterRequestBuilder.Nxr | postgrest/pkg/request_builder.go:335-337 | an `nxr` filter on `(from,to)` |
| Postgrest.FilterRequestBuilder.Ad | postgrest/pkg/request_builder.go:340-346 | an `ad` filter on `{v1,v2,…}` of the sanitised values |
| Postgrest.FilterRequestBuilder.IsNull | postgrest/pkg/request_builder.go:349-351 | the filter `is.null` |
| Postgrest.SelectRequestBuilder.constructor | postgrest/pkg/request_builder.go:37-51 | the filter builder it wraps |
| Postgrest.SelectRequestBuilder.OrderBy | postgrest/pkg/request_builder.go:359-362 | `order` is Set to `column.direction`, nothing else changes |
| Postgrest.SelectRequestBuilder.Range | postgrest/pkg/request_builder.go:365-368 | `range` is Set to `from-to`, nothing else changes |
| Postgrest.SelectRequestBuilder.SingleRow | postgrest/pkg/request_builder.go:371-374 | `single-row` is Set to `true` |
| Postgrest.SelectRequestBuilder.OnlyPayload | postgrest/pkg/request_builder.go:377-380 | `only-payload` is Set to `true` |
| Postgrest.SelectRequestBuilder.WithoutCount | postgrest/pkg/request_builder.go:383-386 | `without-count` is Set to `true` |
| Postgrest.SelectRequestBuilder.SingleValue | postgrest/pkg/request_builder.go:389-392 | `single-value` is Set to `true` |
| Postgrest.SelectRequestBuilder.Limit | postgrest/pkg/request_builder.go:395-397 | Range-Unit `items` and Range from 0 to the end of the page |
| Postgrest.SelectRequestBuilder.LimitWithOffset | postgrest/pkg/request_builder.go:400-404 | Range-Unit `items` and Range from `start` to `start+size-1` in Go's int arithmetic |
| Postgrest.SelectRequestBuilder.Single | postgrest/pkg/request_builder.go:406-409 | Accept asks for one object |
| Postgrest.SelectRequestBuilder.Count | postgrest/pkg/request_builder.go:413-418 | Prefer `count=exact`, count mode, and a HEAD request |
| Postgrest.RpcRequestBuilder.constructor | postgrest/pkg/client.go:68-76 | the client, path and parameters, an empty header, and POST |
| Postgrest.RpcRequestBuilder.Execute | postgrest/pkg/client.go:82-134 | the request carries the method, the path, the marshalled parameters, no query, and the overridden defaults; the outcome is the code's as written (`RpcOutcomeAsWritten`), and equals the query builder's (`RpcOutcome`) whenever a result is passed |
| Execution.ErrorText | postgrest/pkg/request_builder.go:24-26 | `Error()` is the code, `: ` and the message, in that order |
| Execution.ErrorTextCode | postgrest/pkg/request_builder.go:24-26 | a code without a colon is what precedes the first colon of the text |
| Execution.ErrorTextExample | postgrest/pkg/request_builder.go:24-26 | `PGRST116: not found` |
| Execution.ErrorOutcome | postgrest/pkg/request_builder.go:167-176 | a non-2xx answer fails: with a RequestError carrying the status when the body decodes, with the decoding error otherwise |
| Execution.DecodeInto | postgrest/pkg/request_builder.go:187-189 | the value is stored exactly when the text decodes, and a decoding error is reported otherwise |
| Execution.QueryOutcome | postgrest/pkg/request_builder.go:167-194 | non-2xx gives exactly `ErrorOutcome`; 204 or a nil result leaves the result alone; a count needs two Content-Range parts; otherwise the outcome is exactly `DecodeInto` of the body, stored when and only when it decodes |
| Execution.CountModeOutcome | postgrest/pkg/request_builder.go:179-185 | in count mode the result is the total after the `/` of Content-Range, or an error when there is not exactly one `/` |
| Execution.CountModeIgnoresBody | postgrest/pkg/request_builder.go:179-185 | a count answer does not depend on its body |
| Execution.CountRangeSplit | postgrest/pkg/request_builder.go:181 | `0-9/42` splits into `0-9` and `42` |
| Execution.CountExample | postgrest/pkg/request_builder.go:179-185 | a count answer `0-9/42` decodes the total `42` |
| Execution.NotFoundExample | postgrest/pkg/request_builder.go:167-176 | a 404 whose body decodes is a RequestError carrying 404 |
| Execution.RpcOutcomeAsWritten | postgrest/pkg/client.go:116-133 | as written: a 2xx answer other than 204 is unmarshalled even into a nil result, which fails as an invalid target when the body is well-formed JSON and as a decoding error otherwise; non-2xx is `ErrorOutcome`, and only 204 leaves the result alone |
| Execution.RpcOutcome | postgrest/pkg/client.go:116-133 | as intended: a nil result is left alone on success, and no call ever fails for want of a result |
| Execution.RpcAgreesWithTarget | postgrest/pkg/client.go:127-131 | the two RPC outcomes agree whenever a result is passed |
| Execution.RpcNilResultDiscrepancy | postgrest/pkg/client.go:127 | a 200 answer `[]` to an RPC called with a nil result fails as written and is left alone as intended |
| Execution.Overridden | postgrest/pkg/request_builder.go:144-151 | the keys are the defaults' plus the builder's non-empty ones; each builder key holds its last value, every other default is kept |
| Execution.OverriddenBySingletons | postgrest/pkg/request_builder.go:144-151 | when the builder's keys hold one value each, injection is map union with the builder winning |
| Execution.OverriddenCanonical | postgrest/pkg/request_builder.go:144-151 | injection keeps every key canonical |
| Execution.OverrideNothing | postgrest/pkg/request_builder.go:144-151 | a builder without headers sends the defaults |
| Execution.OverrideEmpty | postgrest/pkg/request_builder.go:145-150 | a key with no values changes nothing |
| Execution.OverrideLast | postgrest/pkg/request_builder.go:145-150 | a key with values leaves its last value |
| Execution.OverrideKey | postgrest/pkg/request_builder.go:145-150 | one more key: nothing when it has no values, its last value otherwise |
| Execution.SetEach | postgrest/pkg/request_builder.go:146-148 | the inner loop leaves the key's last value, or the header unchanged for no values |
| Execution.OverrideOne | postgrest/pkg/request_builder.go:145-149 | one turn of the outer loop extends the override by one key |
| Execution.InjectHeaders | postgrest/pkg/request_builder.go:144-151 | the request header becomes the defaults overridden by the builder's header |
| Storage.MergedOptions | storage.go:257-273 | the default cache control, content type and upsert flag, each replaced by the caller's value when it is set; upsert is always the caller's |
| Storage.MergedOptionsIdempotent | storage.go:257-273 | merging merged options changes nothing |
| Storage.MergeUploadOptions | storage.go:259-273 | the merge as written step by step equals `MergedOptions` |
| Storage.RemoveEmptyFolder | storage.go:574-576 | the path never grows |
| Storage.RemoveEmptyFolderFixedPoint | storage.go:574-576 | a path without `//` is left as it is |
| Storage.RemoveEmptyFolderKeepsNames | storage.go:574-576 | only slashes are removed: the other characters stay, in order |
| Storage.NoDoubleSlashTail | storage.go:574-576 | a path without `//` has none after its first character |
| Storage.RemoveEmptyFolderFirst | storage.go:574-576 | the first `//` becomes `/` and the rest of the path is rewritten in turn; with the fixed-point lemma this determines the result for every path, split at its first `//` |
| Storage.RemoveEmptyFolderExamples | storage.go:574-576 | `a//b` becomes `a/b` and `a//b//c` becomes `a/b/c`; `///` becomes `//`, so a second pass changes it again |
| Storage.CacheControlCanonical | storage.go:299 | `Cache-Control` is canonical |
| Storage.UpsertCanonical | storage.go:301 | `X-Upsert` is canonical |
| Storage.CacheControlKey | storage.go:299 | `cache-control` is stored as `Cache-Control` |
| Storage.ContentTypeKey | storage.go:300 | `content-type` is stored as `Content-Type` |
| Storage.UpsertKey | storage.go:301 | `x-upsert` is stored as `X-Upsert` |
| Storage.UploadOrUpdate | storage.go:257-319 | PUT for an update and POST otherwise, to the object URL with empty folders removed, with the header of the merged options |
| Storage.Defaulted | storage.go:447-459 | a zero limit becomes 100 and empty sort fields become `name` and `asc`; set values and the offset are kept |
| Storage.DefaultedIdempotent | storage.go:447-459 | defaulting twice is defaulting once |
| Storage.List | storage.go:447-475 | the listing URL of the bucket, and a body with the prefix and the defaulted options |
| Storage.PublicUrl | storage.go:401-405 | the URL is the public prefix of the bucket, a slash, and the path |
| Storage.PublicUrlRecoversPath | storage.go:401-405 | the object path is what follows the bucket's public prefix |
| Storage.PublicUrlInjective | storage.go:401-405 | distinct object paths have distinct public URLs |
| Storage.FileErrorText | storage.go:208-210 | `Error()` is the short error, `: ` and the message, in that order |
| Storage.DownloadOutcome | storage.go:537-572 | 200 gives the body; otherwise a decoded status 404 is ErrNotFound, another decoded status is its error, and an undecodable or null body panics |
| Storage.DownloadNotFoundExample | storage.go:558-569 | a decoded 404 is ErrNotFound whatever its message; a 403 keeps its error |
| Scenarios.DefaultHeadersScenario | postgrest/pkg/client_test.go:8-27 | the four defaults: `application/json` twice and `public` twice |
| Scenarios.TokenAuthScenario | postgrest/pkg/client_test.go:29-37 | `Bearer s3cr3t` |
| Scenarios.BasicAuthScenario | postgrest/pkg/client_test.go:39-47 | `Basic ` and a credential that decodes to the UTF-8 of `username:password` |
| Scenarios.SchemaScenario | postgrest/pkg/client_test.go:49-61 | both profiles become `private` |
| Scenarios.HeadersCopyScenario | postgrest/pkg/client.go:140-142 | changing the copy leaves the client's defaults alone |
| Scenarios.LastOptionScenario | postgrest/pkg/client.go:40-42 | of two token options the second wins |
| Scenarios.SelectScenario | postgrest/pkg/request_builder_test.go:23-44 | `select` is `col1,col2`; a GET without payload |
| Scenarios.InsertScenario | postgrest/pkg/request_builder_test.go:46-96 | the Insert and Upsert Prefer values, read under `prefer`; a POST |
| Scenarios.UpdateDeleteScenario | postgrest/pkg/request_builder_test.go:98-139 | PATCH; DELETE without payload |
| Scenarios.NotScenario | postgrest/pkg/filter_request_builder_test.go:36-55 | after `Not` the next filter is negated and the one after it is not |
| Scenarios.MultivaluedScenario | postgrest/pkg/filter_request_builder_test.go:84-108 | `Lte` then `Gte` on one column keep both values, in call order |
| Scenarios.RawColumnScenario | postgrest/pkg/request_builder.go:209-216 | the column is stored as given: `eq.val` under `:col.name` and nothing under its quoted spelling |
| Scenarios.SingleScenario | postgrest/pkg/request_builder.go:406-409 | the builder's own header holds only the single-object Accept |
| Scenarios.OverrideScenario | postgrest/pkg/request_builder.go:144-151 | a builder header overrides the default in the request; the client's defaults and the builder's header are what they were before the call |
| Scenarios.CountScenario | postgrest/pkg/request_builder.go:413-418 | a HEAD with Prefer `count=exact`, in count mode |

## Left out

- Network I/O is not modelled. Building the `*http.Request`, the round trip, reading the body and the context are replaced by a `Response` parameter: status, headers and body. Transport errors are left out.
- `json.Marshal` and `json.Unmarshal` are parameters. A payload is a serialised JSON text or nil, and nil marshals to `null`. Decoding is a function the caller passes that returns `None` when the text does not decode.
- URL parsing, `ResolveReference` and `url.Values.Encode` are not modelled: the key order and percent-escaping of the query string are out. The request records the path and the parameter map instead.
- `QueryUnescape` of the encoded parameters (`request_builder.go:136-142`) is not modelled. The request carries the parameter map itself, and the RPC path is kept as given.
- `transport.go` is not part of this model: the custom round-tripper and the `Debug` flag's printing.
- Custom `ClientOption` closures other than the three the package defines are left out, because a closure's effect cannot be enumerated.
- `CloseIdleConnections` is left out because it only talks to the transport.
- The `Execute` wrappers that pass `context.Background()` to `ExecuteWithContext` are left out because they add nothing.
- `auth.go` and `admin.go` are not part of this model. Of `supabase.go` only `StorageEndpoint` and `injectAuthorizationHeader` (the `Bearer` API key an upload sends) are modelled. The storage bucket calls are left out too. `Move`, `CreateSignedUrl`, `Remove` and `Copy` send JSON and decode JSON, which is all I/O here.
- The upload response JSON is left out. `UploadOrUpdate` is modelled up to the request it builds: method, URL and header.
- Download is modelled by its outcome. The request it sends (method, URL, authorisation header) is not.
- Download's `panic`s on a failed request or an unreadable body are I/O and left out. Its two other panics are modelled as `Panic`: a body that is not JSON, and the body `null`, whose nil error is then dereferenced.
- `filter_request_builder_test.go:74-82` reads the parameter under the quoted key `"\":col.name\""` and expects `eq.val`. The code stores the column as given, so that lookup finds nothing. The model follows the code (`Scenarios.RawColumnScenario`).
- Postgrest.FilterRequestBuilder.Like: `SanitizePatternParam` is never called by `Like` or `Ilike` in the source; they use `SanitizeParam`, and so does the model. The pattern sanitiser is modelled on its own in `Sanitizer`.
- Go's `int` is modelled as `Format.Int`, the 64-bit range. `Format.Wrap` wraps `start+size-1` in `PageEnd`. Other arithmetic in the core does not overflow.
- Postgrest.ListCriteriaRoundTrip: stated only for values without reserved characters, because a quoted value may itself hold the `,` separator.
- Postgrest.SpanRoundTrip: stated only for non-negative bounds, because a negative bound adds a `-` that splitting on `-` cannot tell apart.

## Findings

| source | as written | input that shows it | evidently intended | confidence | as-written member | corrected member |
|---|---|---|---|---|---|---|
| postgrest/pkg/client.go:127 | `r != nil` tests the RPC builder, which is never nil, so the body is unmarshalled into `result` even when the caller passed nil, and `json.Unmarshal` fails | an RPC called with a nil result and answered 200 with body `[]` | test `result != nil`, as `request_builder.go:178` does, and leave a nil result untouched | not executed | Execution.RpcOutcomeAsWritten (shown by Execution.RpcNilResultDiscrepancy) | Execution.RpcOutcome |
