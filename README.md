# Foto-Video Creative Suite: a Dafny model of its request logic

The Foto-Video Creative Suite has two parts:

- an Express backend, which fronts Gemini, JWT signing and multer uploads;
- a React client, which talks to the backend through a small service layer.

This project models the deterministic decision and bookkeeping logic of both sides, and proves properties of it. That logic covers:

- the in-memory response cache with its TTL sweep, and three small request gates;
- the error middleware: its first-match classification chain, and the error metrics with a window of the last 100 errors;
- the bearer-token middleware;
- the authentication routes (register, the demo login, refresh, verify) with the email pattern;
- the upload type filter and the stored-file name scheme;
- the AI routes' guards, defaults, placeholder URL, MIME inference, prompt composition and transcript trim;
- the start-up configuration built from the environment, and its check of required settings;
- the client's token store in `localStorage`;
- the request helper that refreshes an expired access token and retries once;
- the session and generation calls;
- the demo auto-login helper.

Everything outside the program is a parameter of the model:

- JWT verification is a function `string -> Verdict` (`Accepted(claims) | Expired | Rejected`). JWT signing is a pair of functions from payloads to tokens.
- The Gemini model is a function from the call it receives to a text or an error.
- On the client, `fetch` followed by `response.json()` is a `Server` function from requests to replies. `JSON.stringify`, `JSON.parse` and the text of a number (`Number.prototype.toString`) are parameters too. The `String(...)` conversion that `localStorage.setItem` applies to a value that is not a string is written out over them.
- Clocks, random ids, the remote audio fetch and the disk read are parameters as well.

JSON values are a `Json` datatype. Numbers in it are `real`, and JavaScript truthiness, `||` and destructuring defaults are written out over it.

The imperative parts keep their form:

- `ResponseCache.Cache` is a class over the cache map. Its lookup, store, sweep and clear methods are proved against map functions.
- `ErrorHandler.ErrorMetrics` is a class with the counters and the `recent` window. Its update keeps an invariant that ties every counter to a ghost log of all errors seen.
- `Browser.Window` holds `localStorage`, `window.location` and the log of requests sent. Every client operation is a method on a window, proved equal to a specification function on a `Page` value. The lemmas are stated on those functions.
- `Environment.Validate` is the start-up loop over the required settings.

## Model

| member | source | states |
|---|---|---|
| ResponseCache.FreshIffYoungerThanTtl | backend/src/middleware/performance.ts:42-43 | the TTL is any number of seconds. A lookup serves an entry exactly while fewer than `ceil(ttl) * 1000` ms have passed since it was stored, so until 2000 ms for a TTL of 1.5. For a whole TTL that is `ttl * 1000` ms |
| ResponseCache.ReadAndSweepDisagreeOnlyAtBoundary | backend/src/middleware/performance.ts:21 | against the read test (`floor(age/1000) < ttl`, lines 42-43), the sweep test (`age > ttl*1000`) disagrees in two ways. A stale entry that has not expired exists only for a whole TTL, at the instant `age == ttl*1000`. A served entry that has expired exists only for a fractional TTL, for every age strictly between `ttl*1000` and `ceil(ttl)*1000` ms |
| ResponseCache.FreshRightAfterStore | backend/src/middleware/performance.ts:58-62 | an entry stored at `now` is served at once iff its TTL is positive, fractional or not |
| ResponseCache.StaleOnceTtlElapsed | backend/src/middleware/performance.ts:42-50 | once `ceil(ttl)` seconds have passed, a lookup misses. For a positive fractional TTL it still hits in the second before that, past `ttl * 1000` ms |
| ResponseCache.FractionalTtlServesExpired | backend/src/middleware/performance.ts:42-43 | with a TTL of 1.5, 1700 ms after storing, a lookup hits (`floor(1.7) = 1 < 1.5`) while the sweep and the statistics count the entry as expired (line 21) |
| ResponseCache.DefaultKey | backend/src/middleware/performance.ts:35-37 | the default cache key starts with the method and a colon |
| ResponseCache.DefaultKeySeparatesMethods | backend/src/middleware/performance.ts:35-37 | two requests whose methods differ, and hold no colon, never share a default key |
| ResponseCache.Swept | backend/src/middleware/performance.ts:18-24 | after a sweep, a key is kept iff it was present and its entry has not expired, and kept entries are unchanged |
| ResponseCache.SweepIdempotent | backend/src/middleware/performance.ts:18-24 | sweeping twice at the same instant is sweeping once |
| ResponseCache.SweepKeepsFresh | backend/src/middleware/performance.ts:18-24 | a sweep keeps an entry that a lookup would serve iff at most `ttl * 1000` ms have passed. So with a whole TTL it never drops a servable entry, and with a fractional one it drops it past `ttl * 1000` ms |
| ResponseCache.Unmatched | backend/src/middleware/performance.ts:91-97 | clearing by pattern keeps exactly the keys the pattern does not match, with their entries unchanged |
| ResponseCache.StatsAfterSweepShowNothingExpired | backend/src/middleware/performance.ts:74-87 | right after a sweep, the statistics report no entry as expired |
| ResponseCache.BoundaryEntrySurvivesSweepButMisses | backend/src/middleware/performance.ts:18-25 | against the read test (lines 42-43) and the statistics (line 83): an entry exactly `ttl*1000` ms old survives the sweep and is reported as not expired, yet a lookup misses it iff the TTL is whole (a TTL of 1.5 is still served at 1500 ms) |
| ResponseCache.Cache.Lookup | backend/src/middleware/performance.ts:40-51 | a hit iff the key is present and fresh; a hit returns the stored entry and leaves the map alone; a miss removes the key and nothing else |
| ResponseCache.Cache.Store | backend/src/middleware/performance.ts:55-65 | a response is stored iff its status is 2xx; the store replaces the key's entry with the payload, `now` and the TTL |
| ResponseCache.Cache.Handle | backend/src/middleware/performance.ts:27-71 | a request failing the `condition` touches no entry. A fresh hit answers the cached data with `X-Cache: HIT` and the age. A miss deletes the stale entry, stores a 2xx reply and sets `X-Cache: MISS` only then |
| ResponseCache.Cache.Sweep | backend/src/middleware/performance.ts:18-24 | the loop leaves exactly the swept map |
| ResponseCache.Cache.Clear | backend/src/middleware/performance.ts:90-101 | no pattern (or an empty one) empties the map. A pattern removes exactly its matching keys. A pattern that does not compile throws and changes nothing |
| ResponseCache.Cache.Stats | backend/src/middleware/performance.ts:74-87 | the statistics list every key once, and the total is the number of entries |
| ResponseCache.RequestSizeLimiter | backend/src/middleware/performance.ts:127-142 | 413 with `success: false` exactly when a non-empty `Content-Length` parses to more than the limit; otherwise the request is passed on |
| ResponseCache.DeclaredSizeDecidesLimit | backend/src/middleware/performance.ts:131 | a size declared in decimal is refused iff it exceeds the limit, in exact integer arithmetic (see `Text.ParseInt` under Left out) |
| ResponseCache.CorsPreflightCache | backend/src/middleware/performance.ts:154-161 | `Access-Control-Max-Age` is set, and reads back as `maxAge`, only for `OPTIONS`; other requests leave the headers alone |
| ResponseCache.ApiVersion | backend/src/middleware/performance.ts:145-151 | both version headers carry the version and no other header changes |
| ErrorHandler.RecordedStatus | backend/src/middleware/errorHandler.ts:29 | `statusCode`, else `status`, else 500, with a zero status counting as absent |
| ErrorHandler.RecordedMessage | backend/src/middleware/errorHandler.ts:30 | the error's message when non-empty; the result is never empty |
| ErrorHandler.TypeName | backend/src/middleware/errorHandler.ts:59 | the error's name when non-empty; the result is never empty |
| ErrorHandler.Invalid | backend/src/middleware/errorHandler.ts:74-83 | a validation error is answered 400 `Validation Error`, with the error's details or `{}` |
| ErrorHandler.RateLimited | backend/src/middleware/errorHandler.ts:157-166 | a rate-limit error is answered 429 with the error's `retryAfter`, or 60 |
| ErrorHandler.Classify | backend/src/middleware/errorHandler.ts:74-186 | every answer has `success: false`, an `error` title, the error id and the timestamp |
| ErrorHandler.Fallback | backend/src/middleware/errorHandler.ts:168-186 | the default answer uses the recorded status and is titled by whether it is 500. A 500 in production hides the message and adds a support message with the id; outside production it carries the stack and the request details |
| ErrorHandler.RuleResponse | backend/src/middleware/errorHandler.ts:74-166 | rule `i` answers with its status and title; only the rate-limit rule adds `retryAfter` |
| ErrorHandler.FirstRule | backend/src/middleware/errorHandler.ts:74-166 | the first rule in the chain's order that applies, or none when no rule applies |
| ErrorHandler.ClassifyByRule | backend/src/middleware/errorHandler.ts:74-166 | when rule `i` is the first that applies, the handler answers as rule `i` |
| ErrorHandler.ClassifyWithoutRule | backend/src/middleware/errorHandler.ts:168-186 | when no rule applies, the handler gives the default answer |
| ErrorHandler.ClassifyFollowsRules | backend/src/middleware/errorHandler.ts:74-186 | the if-chain is the first-match reading of the rule table: its status and title are those of the first rule that applies, else the default |
| ErrorHandler.RetryAfterOnlyForStatusCode429 | backend/src/middleware/errorHandler.ts:157-166 | `retryAfter` appears exactly when the `statusCode === 429` rule decides, and is the error's hint or 60 |
| ErrorHandler.StatusOnly429FallsThrough | backend/src/middleware/errorHandler.ts:157-173 | an error with `status` 429 but no `statusCode` is answered 429 by the default branch, titled `Error`, without `retryAfter` |
| ErrorHandler.MetricsStatusDiffersFromResponse | backend/src/middleware/errorHandler.ts:29-75 | a validation error without a status is counted under 500 but answered with 400 |
| ErrorHandler.FallbackHidesInternalsInProduction | backend/src/middleware/errorHandler.ts:169-186 | see `Fallback`, stated on the handler's answer: no stack or details for a 500 in production; the real message, stack and context outside production |
| ErrorHandler.LastN | backend/src/middleware/errorHandler.ts:69-71 | the last `n` elements of a sequence, or all of them when there are fewer |
| ErrorHandler.LastNAppend | backend/src/middleware/errorHandler.ts:62-71 | pushing onto the kept window and trimming it to `n` is the last `n` of the extended log |
| ErrorHandler.LogStep | backend/src/middleware/errorHandler.ts:58-59 | logging one more error bumps both tallies, at its status and at its type name |
| ErrorHandler.Bump | backend/src/middleware/errorHandler.ts:58-59 | `(t[k] \|\| 0) + 1` raises the count at `k` by one and adds only `k` to the keys |
| ErrorHandler.StatusTalliesCount | backend/src/middleware/errorHandler.ts:58 | the status tally at `s` is the number of logged errors with status `s`; `s` is a key iff that number is positive |
| ErrorHandler.KindTalliesCount | backend/src/middleware/errorHandler.ts:59 | the same, for the per-type tally |
| ErrorHandler.ConsistentStep | backend/src/middleware/errorHandler.ts:57-71 | one update keeps the metrics in agreement with the extended log |
| ErrorHandler.ErrorMetrics.Record | backend/src/middleware/errorHandler.ts:57-71 | the total is raised by one and both tallies are bumped. `recent` keeps at most 100 entries and ends with this error. The invariant is kept |
| ErrorHandler.ErrorMetrics.Handle | backend/src/middleware/errorHandler.ts:21-187 | records the error, then answers it as `Classify` says |
| ErrorHandler.NotFound | backend/src/middleware/errorHandler.ts:190-217 | 404 `Not Found` with `success: false` |
| ErrorHandler.NotFoundNamesMethod | backend/src/middleware/errorHandler.ts:204 | the second word of the 404 message is the request method |
| AuthMiddleware.ExtractToken | backend/src/middleware/auth.ts:22-23 | a token is found iff the header's second space-separated field exists and is non-empty, and the token is that field |
| AuthMiddleware.BearerRoundTrip | backend/src/middleware/auth.ts:23 | `Bearer <token>` yields the token back |
| AuthMiddleware.SchemeIsNotChecked | backend/src/middleware/auth.ts:23 | any single word in front of the token serves, and further words after it are ignored |
| AuthMiddleware.NoSpaceNoToken | backend/src/middleware/auth.ts:23-30 | a header without a space carries no token |
| AuthMiddleware.AuthenticateToken | backend/src/middleware/auth.ts:21-53 | the request is passed on, with the verified claims as its user, exactly when its token verifies. Otherwise the answer is 401 `Access Denied`, 401 `Token Expired` or 403 `Invalid Token`, and the user is left alone |
| AuthMiddleware.AuthenticateOutcomes | backend/src/middleware/auth.ts:21-53 | passed on iff the token verifies; no token is 401, an expired token 401, any other failure 403 |
| AuthMiddleware.OptionalAuth | backend/src/middleware/auth.ts:55-72 | always passes the request on; it sets the user only from a token that verifies |
| AuthMiddleware.OptionalAgreesWithAuthenticate | backend/src/middleware/auth.ts:21-72 | `optionalAuth` sets a user exactly when `authenticateToken` would pass the request on, and sets the same user |
| AuthMiddleware.RequireRole | backend/src/middleware/auth.ts:74-92 | no user is 401, a role not in the list is 403, and otherwise the request is passed on |
| AuthMiddleware.RoleGateBehindAuthentication | backend/src/middleware/auth.ts:21-92 | behind `authenticateToken`, a role-gated route is reached exactly by tokens that verify to an allowed role; a verified user with another role gets 403 |
| AuthRoutes.EmailCheckIsSound | backend/src/routes/auth.ts:71 | every address the string check accepts matches `^[^\s@]+@[^\s@]+\.[^\s@]+$` |
| AuthRoutes.EmailCheckIsComplete | backend/src/routes/auth.ts:71 | every address the pattern matches passes the string check |
| AuthRoutes.EmailCheckMatchesPattern | backend/src/routes/auth.ts:71 | the check accepts an address iff the pattern matches it. The check is: no whitespace, a non-empty local part, one `@`, and a domain with an inner `.` |
| AuthRoutes.ValidEmailHasOneAt | backend/src/routes/auth.ts:71 | an accepted address holds exactly one `@` |
| AuthRoutes.Register | backend/src/routes/auth.ts:51-115 | 201 iff all three fields are given, the password is a string of at least 8 UTF-16 units, and the email matches. A truthy non-string password that gets past the length guard (no `length`, or one of 8 or more) with a matching email makes bcrypt throw, and the answer is 500 `Registration Failed`. Otherwise 400 `Validation Error`. On success the body holds the user (role `user`) and both signed tokens |
| AuthRoutes.NumericPasswordSkipsLengthCheck | backend/src/routes/auth.ts:63-82 | a numeric password is never refused as short: with a valid address it is answered 500, while the same digits as a 7-character string get 400 |
| AuthRoutes.RegisterChecksInOrder | backend/src/routes/auth.ts:56-77 | with all three fields given, a password whose `length` is under 8 is reported as too short, and any other password with a bad address as a bad address |
| AuthRoutes.Login | backend/src/routes/auth.ts:118-168 | 200 iff the demo email and password are given. A missing field is 400; any other pair is 401. A success carries user `user_demo_123`, `Demo User`, and both signed tokens |
| AuthRoutes.Refresh | backend/src/routes/auth.ts:171-217 | 200 iff a refresh token is given and verifies. A missing token is 400, an expired one 401 and any other failure 403. The new access token is signed over exactly the decoded id, email and role |
| AuthRoutes.RefreshedTokenAuthenticates | backend/src/routes/auth.ts:183-199 | when signing and verification agree, the access token from `/refresh`, sent as `Bearer`, passes `authenticateToken` as the refresh token's identity |
| AuthRoutes.Verify | backend/src/routes/auth.ts:241-282 | 200 with the token's id, email and role iff the token verifies; no token is 401 `No Token` |
| AuthRoutes.VerifyAgreesWithMiddleware | backend/src/routes/auth.ts:241-282 | `/verify` accepts exactly the requests `authenticateToken` passes on, and refuses the others with the same status |
| MediaRoutes.FileFilter | backend/src/routes/media.ts:32-46 | accepts iff the type is one of the 12 listed types; otherwise it fails with `File type <t> is not allowed` |
| MediaRoutes.RefusedTypeIsServerError | backend/src/routes/media.ts:44 | a refused type that does not include `CORS` reaches the error handler (`middleware/errorHandler.ts`) as a plain error and is answered 500, not as a client error |
| MediaRoutes.FilterMessageMentionsCors | backend/src/routes/media.ts:44 | the filter's message includes `CORS` exactly when the refused type does |
| MediaRoutes.CorsTypeIsCorsError | backend/src/routes/media.ts:44 | a refused type that includes `CORS` meets the CORS rule (`middleware/errorHandler.ts`, line 146) first, and is answered 403 `CORS Error` |
| MediaRoutes.ExtName | backend/src/routes/media.ts:25 | the extension is a suffix of the name, and is empty or one `.` followed by text without a `.` |
| MediaRoutes.UniqueSuffix | backend/src/routes/media.ts:24 | the suffix holds no `.` |
| MediaRoutes.StoredName | backend/src/routes/media.ts:22-28 | the stored name is longer than the uploaded one and begins with its base name and a dash; by `StoredNameKeepsExtension` it ends with the same extension |
| MediaRoutes.StoredNameKeepsExtension | backend/src/routes/media.ts:22-28 | the stored name has the same extension as the uploaded one |
| MediaRoutes.ExtensionlessKeepsNone | backend/src/routes/media.ts:25-27 | a name without an extension stays without one after the suffix is added |
| MediaRoutes.ExtensionMovesToEnd | backend/src/routes/media.ts:25-27 | text inserted before the extension leaves the extension unchanged |
| MediaRoutes.FileInfo | backend/src/routes/media.ts:67-76 | the description names the file and its size, and its URL is `/api/media/files/` + the stored name |
| MediaRoutes.UploadSingle | backend/src/routes/media.ts:58-94 | 400 `No File` iff no file came; otherwise 200 with the file's description |
| MediaRoutes.TotalSizeSplits | backend/src/routes/media.ts:119 | the logged total of a batch is the sum of the totals of its parts |
| MediaRoutes.UploadMultiple | backend/src/routes/media.ts:97-132 | 400 `No Files` iff the list is absent or empty; otherwise one description per file and the message `<n> files uploaded successfully` |
| MediaRoutes.UploadMultipleKeepsOrder | backend/src/routes/media.ts:106-115 | the i-th description names the i-th file and its URL |
| MediaRoutes.BatchOfOneMatchesSingle | backend/src/routes/media.ts:67-115 | a batch of one is described as a single upload would describe the file |
| MediaRoutes.ListFiles | backend/src/routes/media.ts:201-245 | 401 iff there is no user; otherwise `total` is the length of `files` |
| AiRoutes.GenerateText | backend/src/routes/ai.ts:24-66 | 400 `Prompt is required` without a prompt; a model error goes to the error handler; otherwise the text with `promptTokens` and `completionTokens` in UTF-16 units |
| AiRoutes.TextDefaultsOnlyWhenAbsent | backend/src/routes/ai.ts:26 | `maxTokens = 1000` and `temperature = 0.7` apply only when the field is absent |
| AiRoutes.HexDigit | backend/src/routes/ai.ts:95 | a hexadecimal digit is an unreserved character |
| AiRoutes.HexRoundTrip | backend/src/routes/ai.ts:95 | reading a hexadecimal digit back gives its value |
| AiRoutes.Utf8 | backend/src/routes/ai.ts:95 | a character encodes to 1 to 4 bytes, and to its own code alone iff it is ASCII |
| AiRoutes.Escape | backend/src/routes/ai.ts:95 | each byte becomes three characters |
| AiRoutes.EscapeIsUrlSafe | backend/src/routes/ai.ts:95 | escaped bytes are unreserved characters and `%` escapes |
| AiRoutes.EncodeUriComponent | backend/src/routes/ai.ts:95 | `encodeURIComponent` never shortens a text and leaves a text of unreserved characters unchanged; `EncodedIsUrlSafe` and `EncodeRoundTrip` state the rest |
| AiRoutes.EncodedIsUrlSafe | backend/src/routes/ai.ts:95 | `encodeURIComponent` output holds only unreserved characters and `%` escapes |
| AiRoutes.DecodeEscapedChar | backend/src/routes/ai.ts:95 | decoding the escape of an ASCII character gives the character back |
| AiRoutes.EncodeRoundTrip | backend/src/routes/ai.ts:95 | decoding the encoding of an ASCII text gives the text back |
| AiRoutes.GenerateImage | backend/src/routes/ai.ts:69-103 | 400 without a truthy prompt. A prompt that is not a string goes to the error handler as the TypeError of `prompt.substring`. Otherwise the data holds the prompt, `aspectRatio` (default `1:1`), `quality` (default `standard`) and the placeholder URL. A cut that splits a surrogate pair goes to the error handler as `URI malformed` |
| AiRoutes.AsciiUtf16Prefix | backend/src/routes/ai.ts:95 | on ASCII text, `substring(0, n)` is the first `n` characters |
| AiRoutes.PlaceholderUrl | backend/src/routes/ai.ts:95 | the placeholder URL begins with the placeholder service's address and exists unless the 50-unit cut splits a surrogate pair |
| AiRoutes.PlaceholderCarriesPrompt | backend/src/routes/ai.ts:95 | the placeholder's `text` parameter is URL-safe and decodes to the first 50 characters of an ASCII prompt |
| AiRoutes.GenerateVideo | backend/src/routes/ai.ts:106-139 | 400 without a truthy prompt; otherwise the prompt echoed as sent (of any JSON type), `duration` (default 5), `quality` and the placeholder message |
| AiRoutes.GenerateAudio | backend/src/routes/ai.ts:142-177 | 400 `Text is required` without truthy text; otherwise the text echoed as sent (of any JSON type), `voice` (`default`), `speed` (1.0), `language` (`en`) and the placeholder message |
| AiRoutes.LocalMimeType | backend/src/routes/ai.ts:212-213 | `audio/mp3` iff the path holds `.mp3`; `audio/wav` iff it holds `.wav` but not `.mp3`; otherwise `audio/webm` |
| AiRoutes.SourceOf | backend/src/routes/ai.ts:200 | the URL branch iff `audioUrl` starts with `http` |
| AiRoutes.LoadAudio | backend/src/routes/ai.ts:200-214 | a failed fetch or read is thrown, and a non-ok fetch throws `Failed to fetch audio: <statusText>`. Otherwise the model gets the bytes with the content type (default `audio/webm`) or the guessed type |
| AiRoutes.Transcribe | backend/src/routes/ai.ts:180-244 | 400 without a truthy `audioUrl`. A URL that is not a string goes to the error handler as the TypeError of `audioUrl.startsWith`. A load or model error goes to the error handler. Otherwise the trimmed transcript, `language` (default `auto`) and the URL |
| AiRoutes.TranscriptIsTrimmed | backend/src/routes/ai.ts:234 | the transcript neither begins nor ends with whitespace, and trimming it again changes nothing |
| AiRoutes.ChatPrompt | backend/src/routes/ai.ts:265-268 | the message alone without a system prompt; otherwise the system prompt, `\n\nUser: ` and the message |
| AiRoutes.ChatPromptSeparates | backend/src/routes/ai.ts:265-268 | the system prompt and the message can be read back from the composed prompt |
| AiRoutes.ConversationId | backend/src/routes/ai.ts:278 | a given id is echoed unchanged; otherwise `conv_<now>` |
| AiRoutes.Chat | backend/src/routes/ai.ts:247-287 | 400 without a message; a model error goes to the error handler; otherwise the reply, the conversation id and the timestamp |
| AiRoutes.GuardsPrecedeModelCalls | backend/src/routes/ai.ts:24-287 | in the text, transcription and chat routes, a request missing its required field is answered 400 whatever the model, the network and the disk would do |
| Environment.OrDefault | backend/src/config/environment.ts:56-98 | `env[name] \|\| d`: the value when non-empty, otherwise the default |
| Environment.LoadConfig | backend/src/config/environment.ts:54-99 | `TRUST_PROXY` is true iff it is exactly `true`; both JWT secrets are non-empty; the Gemini key is empty iff it is unset or empty |
| Environment.EmptyIsUnset | backend/src/config/environment.ts:54-99 | for every variable read with a default, an empty value gives the same config as an absent one |
| Environment.EmptyReadsAsUnset | backend/src/config/environment.ts:54-99 | emptying such a variable changes no read the config makes |
| Environment.SameReadsSameConfig | backend/src/config/environment.ts:54-99 | the config depends only on the values it reads |
| Environment.OptionalKeepsEmpty | backend/src/config/environment.ts:74 | a variable without a default keeps the difference between empty and absent |
| Environment.NumericDefaults | backend/src/config/environment.ts:57-97 | unset, the port is 3001, the rate-limit window 900000, the request maximum 100 and the file size 52428800 |
| Environment.PortRoundTrip | backend/src/config/environment.ts:57 | a port given in decimal is the port read, in exact integer arithmetic |
| Environment.FirstMissingFrom | backend/src/config/environment.ts:102-112 | the first required setting from a position on that is empty, or none iff all from there are set |
| Environment.Validate | backend/src/config/environment.ts:108-112 | the loop reports `Missing required environment variable: <name>` for the first empty setting, in the listed order, or nothing |
| Environment.OnlyGeminiKeyCanFail | backend/src/config/environment.ts:67-112 | validation fails exactly when the Gemini key is unset or empty, and then names that key |
| Browser.Window.GetItem | services/backendService.ts:46-48 | `localStorage.getItem`: the stored value, or null when absent |
| Browser.Window.SetItem | services/backendService.ts:60 | `localStorage.setItem` writes the key and changes nothing else |
| Browser.Window.RemoveItem | services/backendService.ts:70 | `localStorage.removeItem` removes the key and changes nothing else |
| Browser.Window.Fetch | services/backendService.ts:100-105 | `fetch` logs the request and returns the server's reply |
| Browser.Window.Navigate | services/backendService.ts:118 | setting `window.location.href` changes only the location |
| BackendService.WithTokens | services/backendService.ts:59-67 | the access token is always written as its `String(...)` text, so an undefined one becomes `undefined`; the refresh token (as its text) and the user (as its JSON text) only when truthy; no other key is added |
| BackendService.WithTokensFrame | services/backendService.ts:59-67 | `setTokens` leaves every key it does not write unchanged |
| BackendService.SetTokens | services/backendService.ts:59-67 | the storage becomes `WithTokens` of the old one; nothing else changes |
| BackendService.Cleared | services/backendService.ts:69-73 | exactly the three token keys are removed, and the other values are kept |
| BackendService.ClearTokens | services/backendService.ts:69-73 | the storage becomes `Cleared` of the old one; nothing else changes |
| BackendService.LoginStateOfTokens | services/backendService.ts:59-77 | storing tokens logs in iff the stored access text is non-empty: for a string token iff it is non-empty, and always for an undefined one; clearing them always logs out |
| BackendService.LoggedIn | services/backendService.ts:75-77 | `!!getAccessToken()`: logged in iff a non-empty access token is stored; `LoginStateOfTokens` relates it to `setTokens` and `clearTokens` |
| BackendService.CurrentUser | services/backendService.ts:54-57 | `getUser()`: null when no non-empty user text is stored, otherwise the text parsed, and a parse failure throws; `CurrentUserRoundTrip` is its partner |
| BackendService.CurrentUserRoundTrip | services/backendService.ts:54-73 | the user stored by `setTokens` is the user `getUser` returns when parse undoes stringify; after `clearTokens` it is null |
| BackendService.RefreshToken | services/backendService.ts:130-151 | with no refresh token, false and nothing sent. Otherwise it posts the token and, on an `ok` reply whose `data.data` is neither null nor undefined, stores the text of `data.data.accessToken` alone (`undefined` when it is missing) and returns true |
| BackendService.RefreshEffects | services/backendService.ts:130-151 | without a refresh token nothing changes. A successful refresh leaves an access token and touches no other key. A failed one leaves the storage alone |
| BackendService.MakeRequest | services/backendService.ts:82-128 | the request, and the page after it, are those of the refresh-and-retry state machine `RequestSpec` |
| BackendService.RequestCarriesBearer | services/backendService.ts:89-97 | the first request carries `Bearer <token>` exactly when a non-empty access token is stored; earlier requests stay in the log |
| BackendService.RefreshOnlyOnExpiry | services/backendService.ts:105-123 | a reply that is neither 401 `Token Expired` nor a 401 without a body is the result, after one request and with the storage untouched |
| BackendService.AtMostOneRetry | services/backendService.ts:108-121 | at most three requests are sent, and the third only after a refresh that stored a token; the retry differs from the first request only in carrying that token |
| BackendService.RefreshWithoutTokenRetriesUndefined | services/backendService.ts:141-144 | an `ok` refresh reply whose `data` has no `accessToken` stores the text `undefined`, and the request is retried with `Bearer undefined` without ending the session |
| BackendService.FailedRefreshEndsSession | services/backendService.ts:115-120 | a failed refresh clears all three keys, navigates to `/login` and throws `Session expired` |
| BackendService.Session | services/backendService.ts:179-212 | posts the credentials; for a reply with truthy `success` and `data`, calls `setTokens` with `data`'s access token, refresh token and user whatever their types; returns `data` |
| BackendService.Register | services/backendService.ts:179-195 | `Session` on `/auth/register` with email, password and name |
| BackendService.Login | services/backendService.ts:197-212 | `Session` on `/auth/login` with email and password |
| BackendService.SessionStoresOnlyOnSuccess | services/backendService.ts:179-212 | in `register` and `login`, a reply without truthy `success` and `data` stores nothing and does not throw |
| BackendService.SuccessfulSessionLogsIn | services/backendService.ts:179-212 | in `register` and `login`, a successful reply with an access token logs the client in with that token, and with the refresh token when there is one |
| BackendService.SessionStoresWhateverDataHolds | services/backendService.ts:187-191 | a successful reply stores the text of `data.accessToken`, `undefined` (and so logged in) when it is missing, and the refresh token and user when truthy, independently of the access token |
| BackendService.Logout | services/backendService.ts:214-220 | posts to `/auth/logout`, then clears the tokens whether or not the request threw; rethrows the request's error, and otherwise resolves to nothing |
| BackendService.LogoutLogsOut | services/backendService.ts:214-220 | after `logout` no token or user is left, whatever the server answered. It throws exactly when the request threw, and never returns the server's reply |
| BackendService.TextResult | services/backendService.ts:241-245 | succeeds iff `success` and `data.text` are truthy, and then answers the text; otherwise throws `error \|\| 'Text generation failed'` |
| BackendService.MediaResult | services/backendService.ts:248-298 | for the image, video and audio calls, succeeds iff `success` is truthy, and answers `data[key] \|\| data.placeholder \|\| ''`; otherwise throws the error or the fallback |
| BackendService.TranscriptResult | services/backendService.ts:309-313 | succeeds iff `success` is truthy, and answers `data.transcript \|\| ''` |
| BackendService.ChatResult | services/backendService.ts:327-331 | succeeds iff `success` and `data` are truthy, and answers `data` |
| BackendService.GenerateText | services/backendService.ts:231-246 | posts the prompt with `maxTokens \|\| 1000` and `temperature \|\| 0.7`, and selects the reply with `TextResult` |
| BackendService.GenerateImage | services/backendService.ts:248-263 | posts with `aspectRatio \|\| '1:1'` and `quality \|\| 'standard'`, and answers `imageUrl`, the placeholder or `''` |
| BackendService.GenerateVideo | services/backendService.ts:265-280 | posts with `duration \|\| 5` and `quality \|\| 'standard'`, and answers `videoUrl`, the placeholder or `''` |
| BackendService.GenerateAudio | services/backendService.ts:282-298 | posts with voice, speed and language defaults, and answers `audioUrl`, the placeholder or `''` |
| BackendService.TranscribeAudio | services/backendService.ts:300-314 | posts with `language \|\| 'auto'`, and answers the transcript or `''` |
| BackendService.Chat | services/backendService.ts:316-332 | posts the message (leaving out undefined fields), and answers `data` |
| DemoAuthHelper.EnsureDemoLogin | services/demoAuthHelper.ts:9-38 | the helper as written: any login that does not throw counts as a login and sets the flag `true`; a thrown one sets it `false` |
| DemoAuthHelper.EnsureShortCircuits | services/demoAuthHelper.ts:12-20 | already logged in: true with nothing read, written or sent. Auto-login switched off: false with nothing written or sent |
| DemoAuthHelper.FailureIsSticky | services/demoAuthHelper.ts:17-36 | after a false result auto-login is off, and unless a token was left behind the next call returns false without sending anything |
| DemoAuthHelper.RateLimitedLoginReportedAsSuccess | services/demoAuthHelper.ts:24-29 | the as-written helper, answered with the auth rate limiter's 429, reports a login and turns auto-login on although no token was stored |
| DemoAuthHelper.EnsureDemoLoginChecked | services/demoAuthHelper.ts:9-38 | the corrected helper: the attempt counts as a login exactly when it left an access token |
| DemoAuthHelper.CheckedReportsLogin | services/demoAuthHelper.ts:9-38 | the corrected helper returns true iff the client is logged in afterwards; after an attempt, auto-login stays on iff it returned true |
| DemoAuthHelper.CheckedAgreesOnRealOutcomes | services/demoAuthHelper.ts:24-36 | the two helpers agree whenever the login throws exactly when it leaves no token |
| DemoAuthHelper.SetAutoLogin | services/demoAuthHelper.ts:40-46 | `enableAutoLogin` and `disableAutoLogin` set the flag to `true` and `false` and touch nothing else |
| DemoAuthHelper.AutoLoginEnabled | services/demoAuthHelper.ts:48-50 | `isAutoLoginEnabled()`: enabled unless the flag is stored as exactly `false`; `AutoLoginSwitch` relates it to enabling and disabling |
| DemoAuthHelper.AutoLoginSwitch | services/demoAuthHelper.ts:40-50 | an absent flag counts as enabled; enabling and disabling work as named and do not change the login state |
| DemoAuthHelper.ManualDemoLogin | services/demoAuthHelper.ts:52-55 | logs in and sets the flag only when the login did not throw; rethrows the login's error, and otherwise resolves to nothing |
| DemoAuthHelper.ManualLoginFlag | services/demoAuthHelper.ts:52-55 | it throws exactly when the login threw, with the same error and the flag as it was; otherwise it sets the flag to `true` and does not return the login's answer |
| EndToEnd.ExpiredAccessTokenRecovers | services/backendService.ts:108-114 | an expired access token, with a refresh token the backend's refresh route (`routes/auth.ts`) accepts, leads to three requests. The newly signed access token is stored, and the retry passes `authenticateToken` |
| EndToEnd.RefreshIssues | services/backendService.ts:130-145 | the client's refresh against the backend's refresh route (`routes/auth.ts`) stores the access token the route signs |
| EndToEnd.TextGenerationEndToEnd | services/backendService.ts:231-246 | against the backend's text route (`routes/ai.ts`), the client's defaults reach the model, so the route's never apply; a generated text comes back, and an empty one becomes `Text generation failed` |
| EndToEnd.VideoAnswersPlaceholder | services/backendService.ts:265-280 | `generateVideo` answers the backend video route's (`routes/ai.ts`) placeholder message |
| EndToEnd.RejectionSurfacesTitle | services/backendService.ts:241-243 | a backend route's (`routes/ai.ts`) 400 reaches the caller as an error carrying the title `Bad Request` |
| EndToEnd.DemoLoginAgainstBackend | services/demoAuthHelper.ts:9-38 | against the backend's login route (`routes/auth.ts`), the demo auto-login stores the signed token, returns true and leaves auto-login on; the as-written and corrected helpers agree there |
| Text.Trim | backend/src/routes/ai.ts:234 | `trim()` never lengthens a text; `TrimStart`, `TrimEnd` and `TrimIdempotent` state what it removes |
| Text.TrimStart | backend/src/routes/ai.ts:234 | the longest suffix not beginning with whitespace |
| Text.TrimEnd | backend/src/routes/ai.ts:234 | the longest prefix not ending with whitespace |
| Text.TrimIdempotent | backend/src/routes/ai.ts:234 | trimming twice is trimming once |
| Text.IndexOf | backend/src/routes/auth.ts:71 | the first position holding the character, or none iff it does not occur |
| Text.LastIndexOf | backend/src/routes/media.ts:25 | the last position holding the character, or none iff it does not occur |
| Text.SplitOn | backend/src/middleware/auth.ts:23 | at least one piece, and no piece holds the separator |
| Text.SplitJoin | backend/src/middleware/auth.ts:23 | joining the pieces with the separator gives the string back |
| Text.Utf16Prefix | backend/src/routes/ai.ts:95 | `substring(0, n)` in UTF-16 units is a prefix of at most `n` units, and the whole text when it is short enough |
| Text.DigitPrefix | backend/src/config/environment.ts:57 | the longest prefix made of digits of the radix |
| Text.ParseInt | backend/src/config/environment.ts:57 | `parseInt` (here and in `middleware/performance.ts`) is NaN for a radix outside 2..36 and for blank text, and negative only after a leading minus; `ParseIntOfDecimal` is its partner |
| Text.ParseIntOfDecimal | backend/src/config/environment.ts:57 | `parseInt` (here and in `middleware/performance.ts`) reads back the decimal text of any integer, in exact integer arithmetic; in the source that holds for magnitudes up to 2^53 |

## Left out

- The Gemini SDK, `fetch`, `fs`, multer's disk storage, JWT and bcrypt are function parameters. Their behaviour is not modelled, only what the code does with their answers.
- The file serve and delete routes (`backend/src/routes/media.ts:135-198`) are not modelled: they are only `fs` access, `stat`, `unlink` and `sendFile`.
- Multer's limits (`fileSize`, 5 files) and its destination directory are not modelled: the library enforces them.
- The rate limiters (`backend/src/routes/auth.ts:11-17`, `backend/src/routes/ai.ts:13-21`) and the rest of the server wiring are not modelled. The 429 answer of the auth limiter only appears as an input of the demo-login finding.
- The `/logout` route and the login route's 500 `catch` branch are not modelled. The register route's `catch` branch is modelled only for bcrypt refusing a non-string password. The `catch` branches of refresh and verify answer 401 or 403 and are modelled by `AuthRoutes.Refresh` and `AuthRoutes.Verify`.
- AuthRoutes.Register, AuthRoutes.Login, AuthRoutes.Refresh: the signer never fails. jsonwebtoken throws on an `expiresIn` setting it cannot read (`JWT_EXPIRES_IN`, `JWT_REFRESH_EXPIRES_IN` come straight from the environment), which the source answers 500 `Registration Failed` (register), 500 `Login Failed` (login) or 403 `Invalid Refresh Token` (refresh).
- AuthRoutes.Register: the email and the name are strings in the model. The source tests the email pattern against the string conversion of whatever JSON value was sent, and echoes both values in the user object. A password object is short only when its `length` member is a number under 8; other `length` members go through JavaScript's loose `<` and are left out.
- AuthRoutes.Login: the email and the password are strings in the model. Any other truthy value fails the strict `===` comparison with the demo credentials, so the source answers it 401.
- AuthRoutes.Refresh: the refresh token is a string in the model. JWT verification of any other value throws, which the source answers 403 `Invalid Refresh Token`.
- AiRoutes.GenerateText: the prompt is a string in the model. The source hands any other truthy value to the Gemini SDK, and `prompt.length` of a number or an object is undefined, so JSON leaves `promptTokens` out of the reply.
- AiRoutes.Chat: the message and the system prompt are strings in the model. The source sends a non-string message to the model as is, or inside the template string as its string conversion when there is a system prompt.
- The cache's TTL is a `real`, so fractional TTLs are modelled; NaN and infinite TTLs are not.
- ResponseCache.Cache.Stats: the statistics are a map keyed by cache key. The source lists them as an array in the cache's insertion order, and that order is not modelled.
- `process.memoryUsage()` in the cache statistics, the `responseTime` middleware, the request logger and all logging are left out.
- The `setInterval` scheduling of the sweep is left out: the sweep is a method taking `now`. Concurrent requests are not modelled.
- `ResponseCache.Cache.Clear`: the `RegExp` a pattern compiles to is a parameter, a test on keys or a compile failure, not the regular-expression semantics.
- Values drawn from `Date.now()`, `Math.random()` and `toISOString` are parameters. These are user ids, file ids, error ids, filename suffixes and `conv_<ts>`.
- `MediaRoutes.ExtName` models `path.extname` for names without `/`, which is what multer hands over as `originalname`.
- Float parameters (`temperature`, `speed`) are passed through as JSON numbers and never computed with. `dotenv` loading is left out.
- The text of a number stored in `localStorage` (`Number.prototype.toString`) is a parameter, not the ECMAScript number-to-text algorithm.
- `BackendService.MakeRequest`: the `Content-Type` header, extra `options.headers` and the API base URL are left out. The endpoint path stands for the URL. A thrown `Error(x)` is represented by its message `x`.
- AiRoutes.GenerateText, AiRoutes.Transcribe, AiRoutes.Chat, AiRoutes.LoadAudio: an error passed on to the error middleware (`Http.Forward`, and the failures of the `AiRoutes.Model` oracle) keeps only its message. The `name`, `status`, `statusCode` and `code` of an error thrown by the Gemini SDK or by `fetch` are dropped, although `middleware/errorHandler.ts` (line 29 and its rules) classifies on them.
- Text.ParseInt, Text.IntToString: numbers are exact unbounded integers. JavaScript's `parseInt` returns a double, which rounds above 2^53; `parseInt("-0")` is -0; and `String(n)` switches to exponent form from 1e21. None of these is modelled. So a `Content-Length` of `9007199254740993` against a limit of 9007199254740992 is refused by the model, while the source lets it through.
- The client's `get`, `put` and `delete` helpers, `uploadFile` and the user-profile calls (`services/backendService.ts:153-173, 335-384`) are not modelled. They go through the same `makeRequest` as the calls that are modelled.
- `console.log` and `console.error` in the client, and the React components, are left out.
- `Environment.LoadConfig`: the non-numeric settings are checked only for their defaults. `parseInt` of a non-numeric text is `None` (NaN).

## Findings

| source | as written | input that shows it | evidently intended | confidence | as-written member | corrected member |
|---|---|---|---|---|---|---|
| services/demoAuthHelper.ts:24-29 | `ensureDemoLogin` counts any `login` call that does not throw as a successful login. It then sets `demo_auto_login` to `true` and returns true. But a reply that parses to an object without truthy `success` and `data`, which is not a 401 `Token Expired`, makes `login` store nothing and return normally. `login` throws only for a network or parse error, a JSON `null` body, or a failed token refresh. | from a page that is not logged in, the login request is answered 429 `{ error: 'Too many authentication attempts, please try again later.' }` by the auth rate limiter | report a login, and keep auto-login on, only when a token was actually stored; otherwise switch auto-login off as for a thrown error | not executed | DemoAuthHelper.RateLimitedLoginReportedAsSuccess | DemoAuthHelper.CheckedReportsLogin |
