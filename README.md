# Codequiry Go client: a Dafny model of its request and response logic

The Codequiry client (`main.go`) is a thin wrapper around the Codequiry
plagiarism-detection HTTP API. Callers get typed operations (Account,
Checks, CreateCheck, StartCheck, GetCheck, GetOverview, GetResults,
UploadFile). Each operation builds one POST request and decodes the reply.
The remote service uses the same channel for results and errors, so every
reply body is also checked against an anchored error pattern. Timestamps
come over the wire as quoted `YYYY-MM-DD HH:MM:SS` strings.

This project models the client's own decisions and proves what they
guarantee:

- `ErrorShape` (`error_shape.dfy`) is a hand-written matcher for the
  server-error pattern `^{"error"\s*:\s*"(?P<msg>.*)"}$`, with RE2 semantics:
  `\s` is tab, newline, form feed, carriage return or space; `.` matches
  anything but newline; `$` is the end of the text. It is proved equal to a
  declarative description of the error shape, in both directions, and the
  captured message is proved unique.
- `ApiError` (`api_error.dfy`) covers the error record and `unmarshal`. JSON
  decoding runs on every body. The error result depends only on the
  pattern. This module also holds a finding about `APIError.Error()`.
- `Headers` (`headers.dfy`) models the part of `http.Header` the client
  uses: `Set` replaces the values under the canonical form of the key, so
  `apikey` is stored as `Apikey`.
- `Requests` (`requests.dfy`) has the constants, `GetBaseHeaders` and
  `post`. `post` resolves the endpoint by the `http` prefix, picks the body
  by the payload's shape, picks the headers, and sends the request.
- `Operations` (`operations.dfy`) has every typed operation. Each one is
  proved to return `unmarshal` of the reply to the request with its URL,
  body and headers. For UploadFile the headers are the base headers
  with only `Content-Type` replaced.
- `Timestamp` (`timestamp.dfy`) models `strings.Trim` with the cutset `"`
  and `date.UnmarshalJSON`. The receiver changes only when parsing succeeds.

Library and system calls are parameters. `Env.marshal` is json.Marshal of a
string map. `Env.send` is the HTTP round trip (it returns the response body,
or "" when there is no response). `Env.readFile` is ioutil.ReadFile.
`Env.multipart` is the multipart writer. `decode` is json.Unmarshal into the
operation's result type `T`. `parse` is time.Parse. The random multipart
boundary is also a parameter.

When the transport returns an error together with a response, `post`
panics (main.go:336-338). That path belongs to the transport, which is left
out.

## Model

| member | source | states |
|---|---|---|
| `ErrorShape.ErrorMessage` | main.go:160 | the matcher for the pattern, used at main.go:361-362: whatever message it returns, the body has the error shape around that message |
| `ErrorShape.SpaceRun` | main.go:160 | a greedy `\s*` consumes only whitespace and stops at the first non-space character or at the end |
| `ErrorShape.ErrorMessageOfErrorBody` | main.go:160 | round trip: for any whitespace `w1`, `w2` and any message `m` without a newline, the body `{"error"` w1 `:` w2 `"` m `"}` is classified as an error with message exactly `m` |
| `ErrorShape.ErrorMessageSound` | main.go:160 | every body the matcher accepts is exactly `{"error"` + whitespace + `:` + whitespace + `"` + the returned message + `"}`, and that message has no newline |
| `ErrorShape.ErrorMessageCharacterised` | main.go:160 | for every message `m`: the matcher returns `m` if and only if the body has the error shape around `m` (both directions) |
| `ErrorShape.ErrorShapeUnique` | main.go:160 | no body has the error shape around two different messages, so the capture is determined uniquely |
| `ErrorShape.ExampleServerMessage` | main.go:160 | `{"error": "Invalid API key"}` yields `Invalid API key` |
| `ErrorShape.ExampleNewlinesAroundColon` | main.go:160 | newlines and carriage returns around the colon are accepted as whitespace |
| `ErrorShape.ExampleEscapesKeptRaw` | main.go:160 | JSON escapes in the message are not decoded: backslashes stay in the captured text |
| `ErrorShape.ExampleCaptureSpansFields` | main.go:160 | the greedy group runs to the final `"}`: `{"error":"a","code":"b"}` yields `a","code":"b` |
| `ErrorShape.ExampleTrailingNewline` | main.go:160 | `$` is the end of the text: a body followed by a newline is not an error |
| `ErrorShape.ExampleMultilineMessage` | main.go:160 | a message containing a newline is not matched, because `.` does not match newline |
| `ApiError.Unmarshal` | main.go:359-369 | the target is always what JSON decoding produces; the error is `APIError(m)` when the body has the error shape around `m`, and none when the body has the error shape around no message |
| `ApiError.UnmarshalServerError` | main.go:360-365 | whatever the result type and the decoder, an error-shaped body gives `APIError` with the raw message; the second decode into the error leaves it unchanged because `msg` is unexported (main.go:152-154) |
| `ApiError.UnmarshalEmptyBody` | main.go:359-369 | the empty body (what post returns without a response, main.go:342-343) gives the decoded target and no error |
| `ApiError.ErrorTextAsWritten` | main.go:156-158 | `Error()` as written, `fmt.Sprintf(e.msg)` with no operands; on a message without `%` it returns the message |
| `ApiError.ErrorText` | main.go:156-158 | `Error()` corrected to return the message; on every message without `%` it agrees with the code as written |
| `ApiError.SprintfWithoutPercent` | main.go:156-158 | `Error()` as written returns the message unchanged when the message has no `%` |
| `ApiError.ErrorTextAsWrittenAltersPercent` | main.go:156-158 | as written, the body `{"error":"100%"}` is classified with message `100%`, but `Error()` returns `100%!(NOVERB)` |
| `ApiError.ErrorTextOfServerError` | main.go:156-158 | with the corrected `Error()`, the caller reads exactly the message between the quotes of an error-shaped body |
| `Headers.CanonicalKey` | main.go:168-169 | the key `Set` stores under: for a token key, each character is upper-cased at the start and right after `-` and lower-cased everywhere else, and the result is again a token key; any other key is kept as it is |
| `Headers.CanonicalizeCase` | main.go:168-169 | the case rewrite puts every position in the case it calls for: upper at the start and after `-`, lower elsewhere |
| `Headers.CanonicalizeIdempotent` | main.go:168-169 | the case rewrite of header keys keeps token keys token-only, and rewriting twice is rewriting once |
| `Headers.CanonicalKeyIdempotent` | main.go:168-169 | a canonical key is its own canonical form, so every `Set` of the same name addresses one entry |
| `Headers.ApiKeyCanonical` | main.go:169 | `Set("apikey", …)` stores under `Apikey` |
| `Headers.ContentTypeCanonical` | main.go:168 | `Content-Type` is already canonical, so the base header and the upload override use the same entry |
| `Headers.Header.constructor` | main.go:167 | `http.Header{}` starts with no entries |
| `Headers.Header.Set` | main.go:168-169 | the canonical key now has exactly the one given value, and no other entry changes |
| `Requests.ResolveUrl` | main.go:318-323 | the endpoint always starts with `http` and ends with the given path: the path itself when it already starts with `http`, otherwise the base URL followed by the path |
| `Requests.ResolveUrlIdempotent` | main.go:318-323 | resolving a resolved endpoint changes nothing |
| `Requests.ResolveUrlHttpPrefixedPath` | main.go:319 | the test is the bare prefix `http`, so a relative path such as `httpbin/check` is used as it is |
| `Requests.ResolveUrlRelative` | main.go:321-322 | a path not starting with `h` (every relative path the client uses) becomes the base URL followed by the path |
| `Requests.UploadUrlResolution` | main.go:19-20 | the upload URL constant resolves to itself, and equals the base URL followed by `check/upload` |
| `Requests.BodyContent` | main.go:309-317 | the body `post` sends: the JSON of a parameter map, the contents of a buffer, and "" for any other payload |
| `Requests.GetBaseHeaders` | main.go:166-171 | a new header map with exactly two entries: `Content-Type: application/json` and the key under `Apikey` |
| `Requests.Post` | main.go:308-345 | the request sent has the resolved endpoint; its body is the map's JSON, or the buffer's contents, or "" for any other payload; its headers are the caller's when given, otherwise the base headers; the result is the reply body |
| `Operations.Account` | main.go:173-179 | sends an empty body (nil payload) to `<base>account` with the base headers and returns `unmarshal` of the reply |
| `Operations.Checks` | main.go:181-190 | sends an empty body (the payload `""`) to `<base>checks` with the base headers and returns `unmarshal` of the reply |
| `Operations.CreateCheck` | main.go:192-202 | sends the JSON of `{name, language}` to `<base>check/create` and returns `unmarshal` of the reply |
| `Operations.StartCheck` | main.go:241-250 | sends the JSON of `{check_id}` to `<base>check/start` and returns `unmarshal` of the reply |
| `Operations.GetCheck` | main.go:252-261 | sends the JSON of `{check_id}` to `<base>check/get` and returns `unmarshal` of the reply |
| `Operations.GetOverview` | main.go:263-272 | sends the JSON of `{check_id}` to `<base>check/overview` and returns `unmarshal` of the reply |
| `Operations.GetResults` | main.go:274-284 | sends the JSON of `{check_id, submission_id}` to `<base>check/results` and returns `unmarshal` of the reply |
| `Operations.UploadFile` | main.go:286-306 | sends a multipart body with exactly the fields `file` (the file's text) and `check_id`, as a buffer, to the fixed upload URL, with the upload headers; returns `unmarshal` of the reply |
| `Operations.UploadHeaders` | main.go:299-300 | the upload headers have the same two keys as the base headers: `Content-Type` is the multipart type and `Apikey` is unchanged |
| `Timestamp.TrimLeft` | main.go:349 | the result is a suffix of the input that does not start with the character, and everything cut off is that character |
| `Timestamp.TrimRight` | main.go:349 | the result is a prefix of the input that does not end with the character, and everything cut off is that character |
| `Timestamp.Trim` | main.go:349 | the result neither starts nor ends with `"` |
| `Timestamp.TrimSplits` | main.go:349 | the input is the trimmed text at some offset, with only `"` before and after it |
| `Timestamp.TrimOf` | main.go:349 | for any text that neither starts nor ends with `"` (including ""), surrounding it with any number of quotes and trimming gives it back |
| `Timestamp.TrimIdempotent` | main.go:349 | trimming twice is trimming once |
| `Timestamp.ExampleQuotedTimestamp` | main.go:348-349 | the JSON value `"2021-03-04 05:06:07"` is trimmed to `2021-03-04 05:06:07` before parsing |
| `Timestamp.Date.UnmarshalJSON` | main.go:347-357 | the trimmed input is parsed with the layout `2006-01-02 15:04:05`; on failure the parse error is returned and the time is unchanged; on success there is no error and the time is the parsed value |

## Left out

- The HTTP transport inside `post` is not modelled: `http.NewRequest`, `client.Do`, reading the body, the panic when an error comes with a response, and the "" result when no response comes back. It is network I/O, so `Env.send` stands for all of it. Every request is a POST. `Env.send` is a function, so the model does not record how many requests an operation sends, only which request its result answers.
- `Request` holds a copy of the header map taken when the request is sent. In the source, `req.Header` shares the caller's map. Nothing changes that map after `post`, so the copy has the same contents.
- `CheckListen` and `socketsBaseUrl` are not modelled. They are a socket.io subscription with event callbacks in a foreign library. The completion test at main.go:233-235 has no effect anyway. `ErrSocketConnection` and `ErrJobCheck` belong to it, and `ErrServer` is never used.
- JSON encoding and decoding of the record types (reflection in encoding/json) are parameters. The record structs are replaced by a type parameter `T`, so their float score fields are not modelled either.
- File reading and multipart assembly in `UploadFile` are parameters (`Env.readFile`, `Env.multipart`). A failed read goes unnoticed in the source, and so does a failed `os.Open`, whose file is never read.
- `Operations.UploadFile`: the content type is `multipart/form-data; boundary=` followed by the boundary. Newer Go versions quote a boundary that contains special characters. The writer's random boundary is hexadecimal and never does, so the quoting rule is not modelled.
- `Operations.Checks`: the early return when `post` fails is not modelled. `post` always returns a nil error, so that branch can never run.
- The calendar checks inside `time.Parse` are not modelled: `parse` is a parameter called with the fixed layout.
- `ApiError.ErrorTextAsWritten`: `fmt.Sprintf` is modelled only for formats in which every `%` is followed by nothing, by `%`, or by a verb with no flag, width, precision or argument index (`SimpleVerbs`).
- Strings are sequences of Unicode characters. The source matches UTF-8 bytes, and RE2 reads invalid UTF-8 as U+FFFD. Invalid UTF-8 is not modelled.
- `main` is not modelled; it is a demo entry point.

## Findings

| source | as written | input that shows it | evidently intended | confidence | as-written member | corrected member |
|---|---|---|---|---|---|---|
| main.go:157 | `Error()` passes the server's message to `fmt.Sprintf` as the format string, so each `%` in it is read as a formatting verb | the reply `{"error":"100%"}`: the message is `100%`, but `Error()` returns `100%!(NOVERB)`; a `%d` in a message becomes `%!d(MISSING)` | `Error()` returns the message unchanged | high; not executed | `ApiError.ErrorTextAsWritten` (shown by `ApiError.ErrorTextAsWrittenAltersPercent`) | `ApiError.ErrorText` (proved by `ApiError.ErrorTextOfServerError`) |
