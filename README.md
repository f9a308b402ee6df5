# Session lifecycle and rate limiting of pogify-functions, in Dafny

This project models the core of the pogify-functions Cloud Functions backend.
A host starts a listening session, posts playback updates to it and refreshes
its session token. The model covers four parts:

- **Payload validation** (`ValidateBody.dfy`, module `Validation`). `validateBody`
  is a total function from a JSON record to the four playback fields, or to the
  `"; "`-joined list of what is wrong with them.
- **Redis scripts** (`RedisMethods.dfy`, module `RedisStore`). The store is a map
  from key to (value, optional absolute expiry) plus a clock in seconds, with
  Redis TTL semantics on a whole-second clock. Each of the three Lua scripts (counter with first-time
  expiry, create-if-TTL-negative, compare-and-set of the refresh token) is a pure
  function of the store. Each is also one atomic `Eval*` step of the `Store`
  class. The exported functions take a `Store?`, where `null` means no client is
  configured.
- **Database rate limiter** (`RateLimiter.dfy`, module `RateLimiting`). It keeps
  a `{timestamp, count}` record per uid, with a fixed five-minute window and a
  threshold of 100.
- **Handler decisions** (`HostFunctions.dfy`, module `HostFunctions`). This covers:
  - the session-code alphabet;
  - the allocation loop over the `sessionCodes` registry;
  - the order in which `startSession`, `postUpdate` and `refreshToken` choose a status;
  - the refresh-window and too-early checks.

  The outside calls are inputs, not code:
  - ID-token verification (the uid, or none);
  - the rate limiter's verdict;
  - JWT verification (the claims, or none);
  - JWT signing (the new token);
  - the random code generator (a sequence of candidate codes).

`Wrappers.dfy` holds `Option` and `Result`.

Where the code and the design disagree, the model follows the code:
- A token past its refresh window gets 403 `"token exceed refresh window"`, not 401.
- The window runs 30 minutes past `exp`, so a token can be refreshed until one
  hour after it was issued.
- Code staleness is the 65-minute comparison written in `startSession`, not
  TTL-based absence.
- Rotating the refresh token does not renew the session's TTL (see Findings).
- As written, the database limiter admits every call, and its count stops at 101
  (see Findings). With the rejection thrown, it would admit 101 calls per window.
  The Redis limiter admits 100.

## Model

| member | source | states |
|---|---|---|
| `Validation.ValidateBody` | functions/src/ValidateBody.ts:1-43 | Succeeds iff no message was collected. On success it returns the input's timestamp, uri, position and playing unchanged. On failure it throws the messages joined by "; ". |
| `Validation.ValidateBodyAcceptsExactlyWellFormed` | functions/src/ValidateBody.ts:6-36 | Validation succeeds iff the body has a numeric timestamp ≥ 1597625975267, a string uri starting with "spotify:track:", a numeric position and a boolean playing state. |
| `Validation.ErrorsOnePerFieldInOrder` | functions/src/ValidateBody.ts:2-32 | Every message belongs to one field, each field gives at most one message, and messages come in the order timestamp, uri, position, playing. |
| `Validation.JoinThenSplit` | functions/src/ValidateBody.ts:35 | If no part contains a semicolon, splitting the "; "-joined string at "; " gives back the list of parts. |
| `Validation.FailureListsEveryMessage` | functions/src/ValidateBody.ts:34-36 | A rejection carries 1 to 4 messages, and the thrown string splits back into exactly the collected messages, in order. |
| `Validation.SmallTimestampIsNotMillis` | functions/src/ValidateBody.ts:10-11 | A nonzero numeric timestamp below 1597625975267 yields "timestamp not in milliseconds" as the first message. |
| `Validation.FalsyTimestampAndUriAreMissing` | functions/src/ValidateBody.ts:6-15 | A timestamp of `0` and an empty uri are reported as "missing timestamp" and "missing uri". |
| `Validation.UriMessages` | functions/src/ValidateBody.ts:14-20 | A truthy non-string uri gives "uri is not string". A non-empty string without the track prefix gives "improper uri format". |
| `Validation.ZeroPositionFalsePlayingAccepted` | functions/src/ValidateBody.ts:22-32 | Position `0` and playing `false` produce no message. |
| `Validation.AllMissingExample` | functions/src/ValidateBody.test.ts:8-25 | `{missing: null}` is rejected with all four "missing" messages, in order. |
| `Validation.WrongTypesExample` | functions/src/ValidateBody.test.ts:27-43 | Four wrongly typed fields are rejected with the four type messages, in order. |
| `Validation.ValidExample` | functions/src/ValidateBody.test.ts:90-104 | A valid body comes back field for field. |
| `RedisStore.Ttl` | functions/src/RedisMethods.ts:67-68 | A missing or expired key answers -2. A live key without an expiry answers -1. A live key with an expiry answers the seconds left, which on the model's whole-second clock are at least 1. |
| `RedisStore.Incr` | functions/src/RedisMethods.ts:20 | INCR adds exactly 1 to the counter, treating a missing key as 0 with no expiry. It keeps the expiry and fails on a non-integer value. |
| `RedisStore.Expire` | functions/src/RedisMethods.ts:101-108 | EXPIRE answers 1 iff the key exists, and then sets its TTL to the given seconds while keeping its value. Otherwise it answers 0 and changes nothing. |
| `RedisStore.ApiLimitScript` | functions/src/RedisMethods.ts:19-20 | The counter becomes the previous count + 1. The expiry is set to the window only when the new count is 1. The reply is the count and the TTL read in the same step. Only that key changes. |
| `RedisStore.NewSessionScript` | functions/src/RedisMethods.ts:66-74 | Answers 1 iff the key's TTL is negative, and then stores the token with the given TTL. Otherwise it answers 0 and leaves the store unchanged. |
| `RedisStore.VerifyAndSetScript` | functions/src/RedisMethods.ts:150-161 | A missing key answers -1 with no change. A different stored token answers 0 with no change. An equal token is replaced by the new token and only that key changes. With a TTL argument the script answers 1 and sets that TTL. Without one it raises after the write, and the key is left without an expiry. |
| `RedisStore.Store.EvalApiLimit` | functions/src/RedisMethods.ts:26-31 | One atomic step of the counter script. An unreachable server errors and changes nothing. |
| `RedisStore.Store.EvalNewSession` | functions/src/RedisMethods.ts:83-93 | One atomic step of the create-if-TTL-negative script. An unreachable server errors and changes nothing. |
| `RedisStore.Store.EvalVerifyAndSet` | functions/src/RedisMethods.ts:171-181 | One atomic step of the compare-and-set script. An unreachable server errors and changes nothing. |
| `RedisStore.Store.ExpireKey` | functions/src/RedisMethods.ts:101-108 | The EXPIRE command: the store becomes what `Expire` gives and the reply is its 0/1 answer. An unreachable server errors and changes nothing. |
| `RedisStore.Store.TtlOf` | functions/src/RedisMethods.ts:56-62 | The TTL command answers `Ttl` of the key and changes nothing. An unreachable server errors. |
| `RedisStore.LimitOf` | functions/src/RedisMethods.ts:35-45 | Rejects iff the count is over 100, with "too many calls" and `retryAfter = ttl + 1`. |
| `RedisStore.RateLimit` | functions/src/RedisMethods.ts:22-50 | Runs the counter script on "rateLimit:"+uid with a 300 s window and rejects as `LimitOf` says. It fails open: with no client, or on a store error, it allows. |
| `RedisStore.IncRequest` | functions/src/RedisMethods.ts:112-148 | Runs the counter script on "requestRateLimit:"+id with a 100 s window. A store error rejects. With no client it answers (-1, 100). |
| `RedisStore.CheckSessionTtl` | functions/src/RedisMethods.ts:52-64 | The TTL of "session:"+id. A store error rejects. With no client it answers 1. |
| `RedisStore.NewSession` | functions/src/RedisMethods.ts:76-95 | The create-if-TTL-negative script on "session:"+id with 3600 s. With no client it answers 1 and touches nothing. |
| `RedisStore.TouchSession` | functions/src/RedisMethods.ts:97-110 | EXPIRE "session:"+id for 3600 s. With no client it answers 1 and touches nothing. |
| `RedisStore.VerifyAndSetNewRefreshToken` | functions/src/RedisMethods.ts:163-183 | The compare-and-set script on "session:"+id, with no TTL argument as written. With no client it answers 1 and touches nothing. |
| `RedisStore.VerifyAndSetNewRefreshTokenWithTtl` | functions/src/RedisMethods.ts:150-161 | The compare-and-set script with the session TTL as its third argument. |
| `RedisStore.CountsWithinWindow` | functions/src/RedisMethods.ts:19-20 | n calls within one window, starting from no counter, leave the counter at n, with the expiry fixed by the first call. |
| `RedisStore.NextCallWithinWindow` | functions/src/RedisMethods.ts:37-41 | After n calls in a fresh window, the next call in that window counts n+1. It is rejected iff n ≥ 100, and its retry-after lies between 2 and 301 s; the lower bound 2 comes from the whole-second clock (Redis itself can give 1). |
| `RedisStore.CounterRestartsAfterWindow` | functions/src/RedisMethods.ts:19-20 | Once the expiry is reached, the next call counts 1 with a full window. |
| `RedisStore.SecondNewSessionCollides` | functions/src/RedisMethods.ts:66-74 | After a successful registration, a second registration of the same code within the hour answers 0 and changes nothing. |
| `RedisStore.RotationIsSingleUse` | functions/src/RedisMethods.ts:150-161 | After r0 is rotated to r1 (r1 ≠ r0), presenting r0 again at any later time never answers 1 and changes nothing. While the session lives it answers 0. Of two rotations that both present r0, only the first succeeds. |
| `RedisStore.TouchKeepsToken` | functions/src/RedisMethods.ts:97-110 | A touch renews the TTL to 3600 s and never changes the stored token. A second touch at the same instant changes nothing. |
| `RedisStore.RotationWithoutTtlFreesTheCode` | functions/src/RedisMethods.ts:171-176 | Rotation as called, on any live session holding the presented token, stores the new token and then rejects. The key is left with TTL -1, so `newSession` treats the code as free and overwrites the token. |
| `RedisStore.RotationWithTtlKeepsTheCode` | functions/src/RedisMethods.ts:150-161 | Rotation with the TTL argument answers 1 and renews the TTL to 3600 s, and the code stays taken for `newSession`. |
| `RateLimiting.NextRecord` | functions/src/RateLimiter.ts:16-49 | A missing record becomes `{now, 1}`. A record's count stays in 1..101. The record resets to `{now, 1}` iff more than 300000 ms have passed. Within the window, the window's start is kept and the count becomes min(count+1, 101). |
| `RateLimiting.RetryAfter` | functions/src/RateLimiter.ts:41-42 | `floor((300000 − elapsed)/1000) + 1` is between 1 and 301. It is the number of whole seconds left in the window, plus one. |
| `RateLimiting.Verdict` | functions/src/RateLimiter.ts:37-42 | The intended rejection: a call is rejected iff it falls within the window and the record's count is over 100. The retry-after is then between 1 and 301. |
| `RateLimiting.Limiter.RateLimit` | functions/src/RateLimiter.ts:10-51 | Writes the record as `NextRecord` says and keeps every count in 1..101. As written it never rejects. |
| `RateLimiting.Limiter.RateLimitChecked` | functions/src/RateLimiter.ts:37-42 | The same record update, but an over-limit call is rejected with its retry-after, as `Verdict` says. |
| `RateLimiting.FixedWindowCounts` | functions/src/RateLimiter.ts:31-48 | n calls within five minutes of the first leave the record at the first call's time with count min(n, 101). |
| `RateLimiting.RejectedAfterHundredOneCalls` | functions/src/RateLimiter.ts:38 | With the rejection thrown, the call after n calls in a fresh window is rejected iff n > 100, so 101 calls get through. |
| `RateLimiting.OverLimitCallIsNotRejected` | functions/src/RateLimiter.ts:38-42 | An over-limit call within the window leaves the record at 101, while the intended verdict rejects it with retry-after 300. |
| `HostFunctions.AlphabetShape` | functions/src/HostFunctions.ts:30 | The code alphabet has 36 characters. It contains `-` and omits `v`. |
| `HostFunctions.FirstFree` | functions/src/HostFunctions.ts:111-133 | The index of the first candidate whose registry value is falsy or stale. Every earlier candidate is taken. There is none iff every candidate is taken. |
| `HostFunctions.SessionRegistry.AllocateCode` | functions/src/HostFunctions.ts:109-133 | Takes the candidate `FirstFree` names and stamps it with the server time. It returns a 5-character code over the alphabet. Nothing is written when no candidate is free. |
| `HostFunctions.WrittenCodeNeverStale` | functions/src/HostFunctions.ts:121 | The staleness test compares seconds with millisecond timestamps. A value written at time w ≥ 1 is never stale while the clock is at most 1000·w. |
| `HostFunctions.AllocationSkipsRegisteredCodes` | functions/src/HostFunctions.ts:121-131 | While every registry value is such a server time, allocation never picks a registered code. |
| `HostFunctions.AuthGate` | functions/src/HostFunctions.ts:81-107 | Answers 429 iff auth is on, the header is present, the ID token verified and the limiter threw "too many calls". Every other refusal is 401. |
| `HostFunctions.OtherLimiterFailuresIgnored` | functions/src/HostFunctions.ts:97-105 | A limiter failure with any other message is treated as if the limiter resolved. |
| `HostFunctions.Settled` | functions/src/HostFunctions.ts:97-105 | A limiter call settles as resolved iff it did not reject, and a rejection is the thrown "too many calls" error. |
| `HostFunctions.Authenticate` | functions/src/HostFunctions.ts:81-107 | The authentication block against the database limiter as written. `RateLimit` runs, and the caller's record is updated as `NextRecord` says, iff auth is on, the header is present and the ID token verified. The answer is never 429. |
| `HostFunctions.AuthenticateChecked` | functions/src/HostFunctions.ts:81-107 | The same block against the limiter that throws. It answers 429 iff the ID token verified and `Verdict` rejects the caller's record. Otherwise it answers as the gate does with a resolved limiter. |
| `HostFunctions.StartSessionCreatedIff` | functions/src/HostFunctions.ts:61-175 | `startSession` answers 201 iff all of the following hold: the request is JSON or has no body; it is a POST; auth passes; any initial body is well formed. The 201 carries the token, the allocated code and 1800. |
| `HostFunctions.StartSessionUnsupportedTypeFirst` | functions/src/HostFunctions.ts:61-78 | A request with a body whose content type is missing or does not contain "application/json" gets 415 whatever its method, because the type check comes before the method check. |
| `HostFunctions.SessionRegistry.StartSession` | functions/src/HostFunctions.ts:52-176 | A request stopped by the gate gets the gate's response and writes nothing. Otherwise the first free candidate is stamped and the response is `StartOutcome` for that code. |
| `HostFunctions.PostUpdateAcceptedIff` | functions/src/HostFunctions.ts:224-268 | A POST gets 200 iff all of the following hold: auth passes; a session token is present; the content type is exactly JSON; the token verifies; the body is well formed. |
| `HostFunctions.PostUpdateUnauthorizedIff` | functions/src/HostFunctions.ts:224-272 | An authenticated POST gets 401 iff the token header, the content type and a non-empty body all passed and the token does not verify. |
| `HostFunctions.RefreshableUntilOneHourAfterIssue` | functions/src/HostFunctions.ts:340-341 | A token that expires 30 minutes after issue is refreshable iff the clock is strictly before one hour after issue. |
| `HostFunctions.RefreshIssuedIff` | functions/src/HostFunctions.ts:284-375 | `refreshToken` answers 201 iff all of the following hold: the request is not OPTIONS; auth passes; the token verifies ignoring expiry; the clock is inside the window; the registry stamp is at least 25 minutes old. The 201 carries the same session and 1800. |
| `HostFunctions.SessionRegistry.RefreshToken` | functions/src/HostFunctions.ts:321-380 | Answers as `RefreshDecision`. It rewrites the session's registry stamp iff it answers 201, so a 425 leaves the stamp untouched. |
| `HostFunctions.RefreshSoonAfterAllocationTooEarly` | functions/src/HostFunctions.ts:355-363 | A refresh less than 25 minutes after the code was stamped gets status 425, which is never sent. |

## Left out

- `functions/src/index.ts` (an early stub of handlers) is not part of this model.
- `functions/src/RequestFunctions.ts` is not part of this model. It does OAuth introspection and pub/sub forwarding. Its only decision is `count > 2` → 429 over `incRequest`'s result.
- JWT signing and verification, `verifyIdToken`, `nanoid`, the pub/sub POST, `fast-json-stringify` and the CORS headers are outside calls. They become inputs: claims or none, a uid or none, the limiter's settlement, the new token, and the candidate codes.
- Concurrency is not modelled: no interleavings. This leaves out the read-then-write race in `RateLimiter.ts` and the unawaited registry writes at HostFunctions.ts:123,130. Each Lua script is one atomic step.
- Redis connection and retry behaviour is reduced to an `up` flag. When the server is unreachable, every command errors without changing state.
- Redis values are counters or strings. A counter compared with a refresh token never matches, while Redis would compare the counter's decimal text. Session keys are only ever written by SET. INCR on any string fails in the model, while Redis increments a string that holds a decimal integer; rate-limit keys are only ever written by INCR, so no key the source writes is affected.
- Errors from Firebase database reads and writes are not modelled. One consequence: a failed registry write in `refreshToken` would reach its 401 `catch`.
- Only the first response is modelled. After a failed validation, `startSession` sends 400 and then tries 201. `postUpdate` sends 400 "empty body" and does not return. In both cases the model gives the response that is sent first.
- A request body is always a JSON object. A non-object body (`req.body.constructor !== Object`) is not modelled.
- JavaScript numbers in a body are `real`. NaN and infinities are not modelled.
- One clock: `Date.now()` on the function host and `ServerValue.TIMESTAMP` on the database server are the same `now` (in `RateLimiting.NextRecord`, and in the stamps that `HostFunctions.SessionRegistry.AllocateCode` and `HostFunctions.SessionRegistry.RefreshToken` write). Skew between the two clocks is not modelled.
- The database and host clocks are integers in milliseconds, and `exp` is in seconds. The source's `Date.now()/1000` comparisons are written exactly, in reals.
- RedisStore.Ttl: the Redis store's clock and expiries are whole seconds and a key is live while `now < expiry`. Redis keeps expiries in milliseconds, keeps a key while `now_ms <= expire_ms`, and rounds TTL to the nearest second, so a live key with under half a second left answers TTL 0 and `RateLimit` then sets a retry-after of 1. The model does not capture that TTL 0 or that retry-after of 1.
- RateLimiting.RetryAfter: `~~` also wraps to 32 bits. That only matters for a quotient of at least 2^31 seconds, which needs a stored timestamp about 68 years in the future. The model uses plain integer division.
- HostFunctions.SessionRegistry.AllocateCode: the source draws codes forever. The model takes a finite sequence of draws and answers None when they run out.
- `ValidateBody.test.ts:45-53` and `ValidateBody.test.ts:74-88` expect a timestamp of `0` to be "not in milliseconds" and an empty uri to be accepted. The code reports both as missing, and the model follows the code (`Validation.FalsyTimestampAndUriAreMissing`).
- The Redis session functions are not called by any handler, so they are modelled on their own. `refreshToken` neither rotates nor touches a Redis session.

## Findings

| source | as written | input that shows it | evidently intended | confidence | as-written member | corrected member |
|---|---|---|---|---|---|---|
| functions/src/RateLimiter.ts:38-42 | The "too many calls" error and its retry-after are built but never thrown. Every call completes, so the 429 branches in the handlers (HostFunctions.ts:99-104) never fire (`HostFunctions.Authenticate` never answers 429; `HostFunctions.AuthenticateChecked` does). | A 102nd call by one uid within five minutes: the record is already at count 101 (`RateLimiting.OverLimitCallIsNotRejected`). | Throw the error, so that the handler answers 429. | high (not executed) | `RateLimiting.Limiter.RateLimit` | `RateLimiting.Limiter.RateLimitChecked` |
| functions/src/RedisMethods.ts:171-176 | Only two arguments are passed, but the script calls EXPIRE with `ARGV[3]` (line 157). SET has already stored the new token and removed the key's expiry, and a Lua script error does not roll back. The promise rejects, and the session key never expires. `newSession` then sees TTL -1 and lets another host take the code (`RedisStore.RotationWithoutTtlFreesTheCode`). | Any rotation that presents the stored token. | Pass `apiLimits.sessionTTL` as the third argument, so that the rotation answers 1 and renews the session for an hour (`RedisStore.RotationWithTtlKeepsTheCode`). | medium (not executed; relies on Redis rejecting a nil script argument) | `RedisStore.VerifyAndSetNewRefreshToken` | `RedisStore.VerifyAndSetNewRefreshTokenWithTtl` |
