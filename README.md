# curling in Dafny

A model of the core of `curling`, a Go library that turns an `*http.Request`
into the `curl` command line that would send the same request. The model
covers the two core files:

- `option.go`: the command's configuration and the functional options
  (`WithLongForm`, `WithMultiLine`, `WithMaxBodySize`, …) that set it;
- `command.go`: `NewFromRequest`, the `parsedRequest.build` step that records
  the request's credentials, cookies and the first bytes of its body, the
  builder stages (`buildOptions`, `buildAuth`, `buildCookies`, `buildData`,
  `buildMethod`, `buildURL`, `buildHeaders`), `assembleTokens`, `construct`,
  `String`, `optionForm` and `escape`.

Modules:

- `Wrappers`: `Option` and `Result`.
- `Strings`: the standard-library string helpers the core uses, written out:
  `strings.Join`, `strings.ReplaceAll` on one character, `strings.TrimSpace`,
  `strconv.Itoa` on non-negative numbers (`Decimal`), byte-wise string order
  and a sort standing in for `slices.Sort`.
- `Options`: `config`, `outputStyle`, `curlFlags`; every `With…` option is a
  constructor of the datatype `Option`, `Apply` is what its closure does and
  `ApplyAll` applies a list in order. Options are described by the fields
  they write (`Writes`, `Written`), from which the frame, last-write-wins,
  idempotence and commutation results follow.
- `Quoting`: `optionForm`, and `escape` in its single-quote and double-quote
  forms. Each is paired with a decoder: a POSIX shell word reader
  (sections 2.2.2 and 2.2.3 of the POSIX Shell Command Language) for both
  forms, and a plain backslash decoder for the double-quote form.
- `Streams`: the part of `bufio.Reader` the core relies on: a 4096-byte
  buffer, `Peek` with its `ErrBufferFull` and read-error results, and the
  request body as nil, `http.NoBody`, a plain stream or a buffered reader.
- `Curl`: `Request` (the fields of `*http.Request` the core reads; `build`
  replaces its body), `parsedRequest`, `Build`, the stages,
  `BuildHeaders` (the loops of `buildHeaders`), the `Command` class with
  `Construct` and `String`, and `NewFromRequest`.
- `CommandProperties`: what the stages, the header section, the body capture
  and the rendered command promise, plus the request scenarios of the
  library's tests.

Go's map iteration order, which `buildHeaders` depends on before it sorts,
is a parameter `order` (any enumeration of the header keys). The model shows
that the output does not depend on it.

## Model

| member | source | states |
|---|---|---|
| Options.Apply | option.go:47-141 | each option's closure: the flags set, the multi-line options set both the flag and their continuation character, a negative timeout becomes 0, a non-positive body limit becomes 1024 |
| Options.ApplyAll | command.go:55-57 | the options applied one after another, first to last, as the loop over `opts` does; `Options.LastWriteWins` and `Options.Untouched` give the result field by field |
| Options.ApplyFrame | option.go:47-141 | an option stores a fixed value in the fields it writes and leaves every other field as it was |
| Options.ApplyValid | option.go:121-141 | every option keeps a positive body limit, a non-negative timeout and a known continuation character |
| Options.ApplyAllValid | command.go:53-57 | applying any list of options to the initial configuration leaves a valid one |
| Options.Overwritten | option.go:84-107 | an option whose fields a later option also writes leaves no trace |
| Options.Idempotent | option.go:47-141 | applying the same option twice equals applying it once |
| Options.DisjointCommute | option.go:47-141 | options writing disjoint fields commute |
| Options.LastWriteWins | command.go:55-57 | after the options loop, a field holds what the last option writing it stored |
| Options.Untouched | command.go:53-57 | a field no option writes keeps its initial value, the default body limit 1024 included |
| Options.OrderExamples | option.go:84-141 | a later Windows multi-line option replaces the continuation with `^`; `WithMaxBodySize(0)` after `WithMaxBodySize(10)` restores 1024 |
| Strings.JoinSnoc | command.go:156-164 | joining one more part appends the separator and the part |
| Strings.JoinFlatten | command.go:300-305 | joining the main arguments into one token and then joining all tokens with a space equals joining everything with a space |
| Strings.JoinEnds | command.go:156-164 | a join starts with the first part's first character and ends with the last part's last character |
| Strings.ReplaceAll | command.go:316-326 | replacing a character absent from the input changes nothing; the result has none of it when the replacement has none |
| Strings.ReplaceAllAppend | command.go:316-326 | replacing a character distributes over concatenation |
| Strings.TrimLeft | command.go:156-164 | the result is a suffix of the input that does not start with white space |
| Strings.TrimLeftDropsSpaces | command.go:156-164 | everything TrimLeft drops is white space |
| Strings.TrimRight | command.go:156-164 | the result is a prefix of the input that does not end with white space |
| Strings.TrimRightDropsSpaces | command.go:156-164 | everything TrimRight drops is white space |
| Strings.TrimSpace | command.go:156-164 | the result neither starts nor ends with white space, and a string that already does not is returned unchanged |
| Strings.Decimal | command.go:170-172 | the rendering of a timeout is a non-empty run of digits with no leading zero |
| Strings.ParseDecimalInverts | command.go:170-172 | reading the digits back gives the number |
| Strings.LessEqTotal | command.go:289 | byte-wise string order is total |
| Strings.LessEqAntisymmetric | command.go:289 | byte-wise string order is antisymmetric |
| Strings.LessEqTransitive | command.go:289 | byte-wise string order is transitive |
| Strings.InsertSorted | command.go:289 | inserting into a sorted list keeps it sorted and adds exactly the element |
| Strings.SortSpec | command.go:289 | the sorted headers are in order and a permutation of the input |
| Strings.SortedUnique | command.go:289 | two sorted permutations of the same list are equal |
| Strings.SortPermutationInvariant | command.go:289 | sorting permutations of the same list gives the same result |
| Quoting.Escape | command.go:316-326 | an escaped string is at least two characters and starts and ends with the style's quote |
| Quoting.OptionForm | command.go:308-313 | the result is one of the two spellings, and the long one exactly when the style asks for long options |
| Quoting.BackslashEscape | command.go:317-321 | the double-quote escape never starts with a raw `"`, `` ` `` or `$` |
| Quoting.ThreeReplacementsAreOnePass | command.go:317-321 | the three successive replacements of `"`, `` ` `` and `$` equal a single pass putting a backslash before each |
| Quoting.UnescapeBackslashEscape | command.go:317-321 | dropping the backslash before each escaped character recovers the input |
| Quoting.DoubleRoundTrip | command.go:317-321 | the double-quote escape is undone by its decoder, for every string |
| Quoting.SingleQuotedReadsBack | command.go:324-325 | a shell reads the escaped interior of a single-quoted word back as the original text, then goes on with the rest |
| Quoting.SingleRoundTrip | command.go:324-325 | a POSIX shell reads the single-quote escape of any string back as that string |
| Quoting.DoubleQuotedReadsBack | command.go:317-321 | a shell reads the escaped interior of a double-quoted word back as the original, for backslash-safe text |
| Quoting.DoubleShellRoundTrip | command.go:317-321 | a POSIX shell reads the double-quote escape back as the original when every backslash is followed by a character other than `$`, `` ` ``, `"`, `\` or a newline |
| Quoting.DoubleQuoteTrailingBackslash | command.go:317-321 | a lone backslash escapes to `"\"`, which a shell reads as an unterminated word |
| Quoting.DoubleQuoteBackslashPair | command.go:317-321 | two backslashes escape to `"\\"`, which a shell reads as one backslash |
| Quoting.EscapeRoundTrip | command.go:316-326 | in either quoting style, the style's decoder recovers the escaped string |
| Quoting.EscapeInjective | command.go:316-326 | different strings never escape to the same text |
| Quoting.EscapeExamples | command_test.go:162-202 | the escapes of the empty string and of a lone quote in both styles (the `'v'` case between them is `Quoting.EscapeSingleTwoQuotes`) |
| Quoting.EscapeSingleTwoQuotes | command_test.go:176-182 | a character other than `'` between two single quotes, such as `'v'`, escapes to `''\''`, the character, and `'\'''` |
| Quoting.EscapeDoubleTwoQuotes | command_test.go:203-212 | a character other than `"`, `` ` `` or `$` between two double quotes, such as `"v"`, escapes to `"\"`, the character, and `\""` |
| Streams.NewReader | command.go:105 | a fresh reader's buffer fits in 4096 bytes and the reader yields the whole source |
| Streams.Peek | command.go:109 | Peek returns the first min(n, 4096, available) bytes without consuming them; `ErrNegativeCount` with nothing read exactly when n is negative; `ErrBufferFull` exactly when n exceeds the buffer, no error exactly when the bytes are there, the read error exactly when the source fails short of n |
| Streams.PeekThenReadBack | command.go:105-131 | after a peek, the reader put back as the body still yields the whole original body |
| Streams.PeekWithinBuffer | command.go:109-116 | within the buffer, Peek returns the requested prefix, with EOF or the read error when the body is shorter |
| Streams.PeekBeyondBufferMasksError | command.go:109-116 | a peek beyond the buffer reports `ErrBufferFull` even from a failing source |
| Curl.PeekSize | command.go:98-101 | the peek size is positive: the limit, or 1024 for a non-positive one |
| Curl.PeekCount | command.go:109 | the count asked of Peek is the peek size plus one, except that at `math.MaxInt` it wraps to the least 64-bit int; it is negative exactly for that limit |
| Curl.Build | command.go:76-134 | build fails exactly when the limit is `math.MaxInt` (the peek count wraps negative) or a failing body ends within the peek and the peek fits the 4096-byte buffer, leaving the body untouched or drained respectively; otherwise it records the credentials, the content length, the cookies joined with `; `, and for a body that is not nil or `http.NoBody` the first bytes up to the limit with the truncation flag, and puts back a body that reads as before |
| Curl.BuildOptions | command.go:167-184 | the stage only appends to the arguments so far |
| Curl.BuildAuth | command.go:187-197 | the stage only appends, and only adds to the handled headers |
| Curl.BuildCookies | command.go:200-209 | the stage only appends, and only adds to the handled headers |
| Curl.BuildData | command.go:212-230 | the stage only appends |
| Curl.TruncationMarker | command.go:221-227 | the marker appended to a truncated body, with the total when the Content-Length is positive; `CommandProperties.MarkerRule` states it in full |
| Curl.BuildMethod | command.go:233-251 | the stage only appends |
| Curl.EffectiveMethod | command.go:234-241 | the request method, or POST with data and GET without when none is given; `CommandProperties.MethodStage` gives the resulting `-X` decision |
| Curl.BuildURL | command.go:254-256 | the stage keeps the arguments so far and appends one argument, which unescapes back to the request URL |
| Curl.HostSeenStep | command.go:272-281 | one loop step takes the Host header's values as host only when no host was set and Host is not handled |
| Curl.HostSeenAll | command.go:265-287 | after the loop over all keys, the host is the request's host, else the unhandled Host header joined with `, ` |
| Curl.Render | command.go:291-294 | one token per header line, in order: the i-th token is the `-H` token of the i-th line |
| Curl.BuildHeaders | command.go:259-297 | the loops of buildHeaders compute the sorted, rendered header list of the header map and host, and nothing when both are empty |
| Curl.AssembleTokens | command.go:300-305 | the header tokens follow the first token unchanged, and joining all tokens with spaces gives the main arguments and header tokens joined with spaces, as if never grouped |
| Curl.Separator | command.go:157-160 | a single space, or a space, the continuation character and a newline in multi-line style; `CommandProperties.SingleLine` gives the single-line command |
| Curl.Command.constructor | command.go:50-53 | a zero Command has no tokens, the initial configuration with the default body limit 1024 and a zero parsed request |
| Curl.Command.Construct | command.go:138-153 | construct runs the stages in order, sharing the handled headers, and stores the assembled tokens |
| Curl.Command.String | command.go:156-164 | the rendered command neither starts nor ends with white space |
| Curl.NewFromRequest | command.go:49-70 | a nil URL is an error that leaves the request alone; a body read error is reported exactly when build reports it; otherwise a fresh Command holds the options applied in order, the parsed request and the constructed tokens |
| CommandProperties.CapturedBodyWithinBuffer | command.go:98-131 | below the buffer size, the captured body is the whole body when it fits the limit, else exactly its first limit bytes with the truncation flag set |
| CommandProperties.FullBufferMarkedTruncated | command.go:109-128 | with a 4096-byte limit on a 4096-byte body, the body is captured whole and still marked truncated |
| CommandProperties.BuildPanicsExact | command.go:109-128 | for every limit short of `math.MaxInt`, `BuildPanics` holds exactly when Peek of `peekSize + 1` ends without error or with a full buffer, so build marks the body truncated, yet returns fewer than `peekSize` bytes for `Truncate(peekSize)` |
| CommandProperties.LargeLimitPanics | command.go:109-128 | with a limit of 5000 on a three-byte body, Peek returns the three bytes with a full-buffer error and build then truncates beyond them (a panic in Go); the default limit does not |
| CommandProperties.MaxIntLimitFails | command.go:109-116 | with a limit of `math.MaxInt` the count wraps negative, build never panics and reports a read error for every body, whose contents stay as they were |
| CommandProperties.ReadErrorMaskedBeyondBuffer | command.go:109-116 | for every limit short of `math.MaxInt`, a failing body is reported as a read error exactly when the peek fits the buffer and the body ends within it |
| CommandProperties.EmptyBodyParsed | command.go:93-131 | an empty body is recorded as data with no bytes and not truncated |
| CommandProperties.NoBodyParsed | command.go:93-95 | a nil body or `http.NoBody` records no data |
| CommandProperties.OptionsAppend | command.go:167-184 | the options stage appends a part that does not depend on the arguments so far |
| CommandProperties.AuthAppend | command.go:187-197 | the auth stage appends a part and adds handled headers independently of what came before |
| CommandProperties.CookiesAppend | command.go:200-209 | the cookie stage appends a part and adds handled headers independently of what came before |
| CommandProperties.DataAppend | command.go:212-230 | the data stage appends a part that does not depend on the arguments so far |
| CommandProperties.MethodAppend | command.go:233-251 | the method stage appends a part that does not depend on the arguments so far |
| CommandProperties.MainArgsLayout | command.go:138-153 | the main arguments are `curl`, then the options, auth, cookie, data and method parts, then the escaped URL |
| CommandProperties.HandledHeaders | command.go:187-209 | the handled headers are Authorization when there are credentials and Cookie when there are cookies, nothing else |
| CommandProperties.OptionsStage | command.go:167-184 | each option flag appears in the options part if and only if it is configured |
| CommandProperties.OptionsValues | command.go:170-172 | the options part never holds `--data-raw`; with a positive timeout, `-m` (or `--max-time`) is followed by the timeout in decimal, which reads back as the configured number |
| CommandProperties.AuthStage | command.go:187-197 | the auth part is empty exactly without credentials; otherwise `-u`/`--user` and a word that unescapes to `user:password` |
| CommandProperties.CookieStage | command.go:200-209 | the cookie part is empty exactly without cookies; otherwise `-b`/`--cookie` and a word that unescapes to the joined cookies |
| CommandProperties.MarkerRule | command.go:221-227 | the truncation marker is empty exactly when the body is not truncated; without a positive Content-Length it is `... (truncated body)`; otherwise it carries the total, which reads back as the Content-Length |
| CommandProperties.DataStage | command.go:212-230 | the data part is empty exactly without a captured body; otherwise `--data-raw` and a word that unescapes to the body followed by the truncation marker |
| CommandProperties.MethodStage | command.go:233-251 | `-X` is omitted exactly for GET or no method without data, and for POST or no method with data; otherwise it carries a word that unescapes to the method |
| CommandProperties.OtherStagesNeverData | command.go:187-251 | the auth, cookie and method parts never hold `--data-raw` |
| CommandProperties.MainArgsEnds | command.go:138-153 | the main arguments start with `curl` and end with the escaped URL, which unescapes to the URL |
| CommandProperties.DataFlagIff | command.go:212-230 | `--data-raw` is among the main arguments if and only if a body was captured |
| CommandProperties.EntriesAppend | command.go:269-283 | the header lines of two key lists concatenated are the lines of each, concatenated |
| CommandProperties.EntriesPermutation | command.go:269-283 | enumerating the keys in another order permutes the header lines |
| CommandProperties.HeaderTokensOrderIndependent | command.go:259-297 | the rendered header tokens do not depend on the map's iteration order |
| CommandProperties.EntriesMembership | command.go:269-283 | a header line is collected if and only if it belongs to a present, unhandled, non-Host key |
| CommandProperties.HeaderTokensAreSortedEntries | command.go:259-297 | the header tokens are the rendering of the one sorted permutation of the header lines |
| CommandProperties.HeaderTokenShape | command.go:291-294 | a header token is `-H`/`--header`, a space and the escaped header line |
| CommandProperties.RenderAt | command.go:291-294 | each rendered token carries its header line, which unescapes back |
| CommandProperties.HeaderTokensEndQuoted | command.go:291-294 | the last header token ends with the style's quote |
| CommandProperties.MainTokenEnds | command.go:300-305 | the first token starts with `c` and ends with the style's quote |
| CommandProperties.TokensEnds | command.go:300-305 | the token list starts with `c` and ends with the style's quote |
| CommandProperties.StringTrimsNothing | command.go:156-164 | the joined tokens start with `c` and end with a quote, so TrimSpace leaves the command unchanged |
| CommandProperties.JoinedEnds | command.go:156-164 | any token list that starts with `c` and ends with a quote joins into a string TrimSpace leaves as it is |
| CommandProperties.SingleLine | command.go:156-164 | without multi-line output, the command is every argument and header token joined by single spaces |
| CommandProperties.NoHeadersOneToken | command.go:259-263 | with no header and no Host there is one token, the main arguments joined by spaces, and that is the whole command in either style |
| CommandProperties.PostWithoutBodyLine | command_method_test.go:79-90 | a bare POST without body or headers prints as `curl -X 'POST' ` followed by the single-quoted URL |
| CommandProperties.PlainGet | command_method_test.go:32-54 | a request with an empty method (or GET) and a nil or `http.NoBody` body, without credentials or cookies, is `curl` and the single-quoted URL |
| CommandProperties.PostNeedsFlag | command_method_test.go:79-90 | a POST without data needs `-X 'POST'` |
| CommandProperties.PostWithoutBody | command_body_test.go:35-58 | a POST with a nil or `http.NoBody` body is `curl -X 'POST'` and the URL |
| CommandProperties.PostWithEmptyBody | command_body_test.go:59-70 | a POST with an empty body is `curl --data-raw ''` and the URL, with no `-X` |
| CommandProperties.TruncatedBodyScenario | command_body_test.go:184-197 | a 14-byte body under a 10-byte limit with Content-Length 14 keeps the first ten bytes and ends the data with `... (truncated body, total 14 bytes)` |

## Left out

- The `net/http` collaborators are inputs, not models: `BasicAuth`, `Cookies` and `Cookie.String`, `URL.String` and `http.CanonicalHeaderKey`. Header keys are taken as already canonical and cookies as already rendered.
- `bufio.Reader` fills its buffer in one read here. A source that returns short chunks is not modelled.
- `bytes.Buffer` and `io.NopCloser` are reduced to the bytes they yield. The restored body's aliasing of the reader is not modelled.
- `slices.Sort` (pattern-defeating quicksort, in place) is modelled as an insertion sort on values. Any correct sort gives the same result (`Strings.SortedUnique`).
- `strings.TrimSpace` is modelled on ASCII white space only. Unicode spaces are not modelled.
- Strings are sequences of characters, and a body byte becomes one character. Go's UTF-8 byte strings are not modelled; every character the core escapes is ASCII.
- Go's `int` is 64 bits wide: the option arguments and the configuration's limits are `Options.GoInt`, and the one sum that can overflow, `peekSize + 1` at command.go:109, wraps as in Go (`Curl.PeekCount`). The Content-Length (`int64`) is unbounded here; the core only compares and prints it.
- The texts of Go's error values are not modelled; errors are the constructors `NilURL` and `ReadBody`.
- Curl.Build: requires `!BuildPanics`: a body read under a limit above 4096 but short of `math.MaxInt`, or under a limit of exactly 4096 when the body is shorter than 4096 bytes, where Go's `bytes.Buffer.Truncate` panics. The model leaves the panic out instead of returning an error. `CommandProperties.LargeLimitPanics` shows a limit that reaches it; `CommandProperties.MaxIntLimitFails` shows that `math.MaxInt` does not, because the count wraps and Peek refuses it.
- Curl.NewFromRequest: requires `!BuildPanics` for the same reason, and a header-key enumeration `order` that stands in for Go's map iteration.
- Quoting.DoubleShellRoundTrip: holds only for backslash-safe strings. Inside double quotes a shell drops a backslash that comes before `$`, `` ` ``, `"`, `\` or a newline, and the escaper does not double backslashes, so a string with such a backslash, or ending in one, does not read back (`Quoting.DoubleQuoteTrailingBackslash`, `Quoting.DoubleQuoteBackslashPair`).
- The fuzz tests and concurrency are not modelled.
