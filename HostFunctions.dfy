/** The decisions of the three session handlers of functions/src/HostFunctions.ts:
    session-code allocation against the `sessionCodes` registry, the order in
    which `startSession`, `postUpdate` and `refreshToken` choose a status, and
    the refresh-window and too-early arithmetic. ID-token verification, JWT
    signing and verification, the rate limiter's verdict and the random code
    generator are inputs. */
module HostFunctions {
  import opened Wrappers
  import RateLimiting
  import opened Validation

  /** The `customAlphabet` of session codes (it has `-` and no `v`) and their length. */
  const Alphabet: string := "abcdefghijklmnopqrstuwxyz0123456789-"
  const CodeLength: nat := 5

  /** `expiresIn` of every issued session token: 30 minutes, in seconds. */
  const TokenLifetime: int := 30 * 60
  /** A registry entry older than 65 minutes (compared in seconds) is stale. */
  const StaleAfter: int := 65 * 60
  /** An expired token may be refreshed for 30 minutes past its `exp`. */
  const RefreshWindow: int := 30 * 60
  /** A refresh within 25 minutes of the registry timestamp is too early. */
  const TooEarlyMs: int := 25 * 60 * 1000

  const JsonType: string := "application/json"
  const EmptyBody: string := "empty body"
  const WindowExceeded: string := "token exceed refresh window"

  predicate IsSessionCode(s: string)
  {
    |s| == CodeLength && forall i :: 0 <= i < |s| ==> s[i] in Alphabet
  }

  lemma AlphabetShape()
    ensures |Alphabet| == 36 && '-' in Alphabet && 'v' !in Alphabet
  {
  }

  /** The `sessionCodes` registry: code to server time in milliseconds. */
  type Registry = map<string, int>

  /** The registry's value for a code; a missing code reads as `null`, which is
      falsy and counts as 0 in `Date.now() - null`. */
  function CodeTime(reg: Registry, code: string): int
  {
    if code in reg then reg[code] else 0
  }

  /** `Date.now() / 1000 - timestamp > 65 * 60`: seconds against the stored value. */
  predicate Stale(timestamp: int, nowMs: int)
  {
    (nowMs as real) / 1000.0 - (timestamp as real) > StaleAfter as real
  }

  /** A code can be taken when its registry value is falsy or stale. */
  predicate Free(reg: Registry, code: string, nowMs: int)
  {
    CodeTime(reg, code) == 0 || Stale(CodeTime(reg, code), nowMs)
  }

  /** The index of the first candidate that can be taken. */
  function FirstFree(reg: Registry, candidates: seq<string>, nowMs: int): (r: Option<nat>)
    ensures r.Some? ==> r.value < |candidates| && Free(reg, candidates[r.value], nowMs)
    ensures r.Some? ==> forall j :: 0 <= j < r.value ==> !Free(reg, candidates[j], nowMs)
    ensures r.None? <==> forall j :: 0 <= j < |candidates| ==> !Free(reg, candidates[j], nowMs)
    decreases |candidates|
  {
    if |candidates| == 0 then None
    else if Free(reg, candidates[0], nowMs) then Some(0)
    else match FirstFree(reg, candidates[1..], nowMs)
      case None => None
      case Some(i) => Some(i + 1)
  }

  /** Registry values are written as server times in milliseconds, but staleness
      compares them as seconds: a value written at a positive time `written` is
      never stale before the clock reaches 1000 times `written` (for any write
      after 1970, tens of thousands of years later). */
  lemma WrittenCodeNeverStale(written: int, nowMs: int)
    requires written >= 1 && nowMs <= 1000 * written
    ensures !Stale(written, nowMs)
  {
  }

  /** Hence allocation never reuses a registered code while every stored value
      is such a server time. */
  lemma AllocationSkipsRegisteredCodes(reg: Registry, candidates: seq<string>, nowMs: int)
    requires forall c :: c in reg ==> reg[c] >= 1 && nowMs <= 1000 * reg[c]
    ensures FirstFree(reg, candidates, nowMs).Some? ==>
              candidates[FirstFree(reg, candidates, nowMs).value] !in reg
  {
    var r := FirstFree(reg, candidates, nowMs);
    if r.Some? && candidates[r.value] in reg {
      WrittenCodeNeverStale(reg[candidates[r.value]], nowMs);
      assert false;
    }
  }

  /** The caller's token claims: the session code and `exp` in seconds. */
  datatype Claims = Claims(session: string, exp: int)

  /** How `RateLimit` settled: resolved, or threw an error with a message. */
  datatype LimitResult = Resolved | Thrown(message: string)

  /** What the external calls answered for this request: whether the emulator
      skips auth, the uid `verifyIdToken` returned (None when it threw), and
      how `RateLimit` settled. */
  datatype Caller = Caller(emulator: bool, uid: Option<string>, limit: LimitResult)

  datatype Request = Request(verb: string, contentType: Option<string>, authorization: Option<string>,
                             sessionToken: Option<string>, body: Body)

  datatype Reply = Empty | Message(text: string) | Issued(token: string, session: string, expiresIn: int)

  /** A response that was sent, or a status that was set and never sent. */
  datatype Response = Sent(status: int, reply: Reply) | Unsent(status: int)

  /** A header is missing when absent or empty (`!req.headers[...]`). */
  predicate Present(header: Option<string>)
  {
    header.Some? && header.value != ""
  }

  /** `s` contains `pattern` (the regular expression `/application\/json/`). */
  predicate Contains(s: string, pattern: string)
    decreases |s|
  {
    pattern <= s || (|s| > 0 && Contains(s[1..], pattern))
  }

  /** The authentication block shared by the three handlers: 401 without an
      authorization header or when the ID token does not verify, 429 only when
      `RateLimit` threw "too many calls"; any other limiter failure is ignored. */
  function AuthGate(req: Request, caller: Caller): (r: Option<int>)
    ensures r == Some(429) <==>
              !caller.emulator && Present(req.authorization) && caller.uid.Some? && caller.limit == Thrown(RateLimiting.TooManyCalls)
    ensures r.Some? ==> r.value == 401 || r.value == 429
  {
    if caller.emulator then None
    else if !Present(req.authorization) then Some(401)
    else if caller.uid.None? then Some(401)
    else if caller.limit == Thrown(RateLimiting.TooManyCalls) then Some(429)
    else None
  }

  /** A limiter failure with any other message is ignored: the request goes on
      as if the limiter had resolved. */
  lemma OtherLimiterFailuresIgnored(req: Request, caller: Caller)
    requires caller.limit != Thrown(RateLimiting.TooManyCalls)
    ensures AuthGate(req, caller) == AuthGate(req, caller.(limit := Resolved))
    ensures AuthGate(req, caller) != Some(429)
  {
  }

  /** How a call to the database limiter settles for the handlers: a
      rejection is the thrown "too many calls" error. */
  function Settled(rejected: Option<int>): (l: LimitResult)
    ensures l == Resolved <==> rejected.None?
    ensures l.Thrown? ==> l.message == RateLimiting.TooManyCalls
  {
    if rejected.Some? then Thrown(RateLimiting.TooManyCalls) else Resolved
  }

  /** The authentication block run against the database limiter as written:
      `RateLimit` is called only for a verified ID token, and since it never
      throws, the block never answers 429. */
  method Authenticate(limiter: RateLimiting.Limiter, req: Request, emulator: bool, uid: Option<string>, now: int)
    returns (gate: Option<int>)
    requires limiter.Valid()
    modifies limiter
    ensures limiter.Valid()
    ensures gate == AuthGate(req, Caller(emulator, uid, Resolved))
    ensures gate != Some(429)
    ensures !emulator && Present(req.authorization) && uid.Some? ==>
              limiter.records == old(limiter.records)[uid.value := RateLimiting.NextRecord(RateLimiting.Lookup(old(limiter.records), uid.value), now)]
    ensures !(!emulator && Present(req.authorization) && uid.Some?) ==> limiter.records == old(limiter.records)
  {
    var limit := Resolved;
    if !emulator && Present(req.authorization) && uid.Some? {
      var rejected := limiter.RateLimit(uid.value, now);
      limit := Settled(rejected);
    }
    gate := AuthGate(req, Caller(emulator, uid, limit));
  }

  /** The same block against the limiter that throws its error: 429 exactly
      when the ID token verified and the caller's record is over the limit. */
  method AuthenticateChecked(limiter: RateLimiting.Limiter, req: Request, emulator: bool, uid: Option<string>, now: int)
    returns (gate: Option<int>)
    requires limiter.Valid()
    modifies limiter
    ensures limiter.Valid()
    ensures gate == Some(429) <==>
              && !emulator && Present(req.authorization) && uid.Some?
              && RateLimiting.Verdict(RateLimiting.Lookup(old(limiter.records), uid.value), now).Some?
    ensures gate != Some(429) ==> gate == AuthGate(req, Caller(emulator, uid, Resolved))
    ensures !emulator && Present(req.authorization) && uid.Some? ==>
              limiter.records == old(limiter.records)[uid.value := RateLimiting.NextRecord(RateLimiting.Lookup(old(limiter.records), uid.value), now)]
    ensures !(!emulator && Present(req.authorization) && uid.Some?) ==> limiter.records == old(limiter.records)
  {
    var limit := Resolved;
    if !emulator && Present(req.authorization) && uid.Some? {
      var rejected := limiter.RateLimitChecked(uid.value, now);
      limit := Settled(rejected);
    }
    gate := AuthGate(req, Caller(emulator, uid, limit));
  }

  /** `startSession` before allocation: 415 for a non-JSON request with a
      non-empty body (checked before the method), 200 for OPTIONS, 405 for any
      other non-POST, then authentication. None means: go on and allocate. */
  function StartGate(req: Request, caller: Caller): Option<Response>
  {
    if !(req.contentType.Some? && Contains(req.contentType.value, JsonType)) && |req.body| > 0 then Some(Sent(415, Empty))
    else if req.verb == "OPTIONS" then Some(Sent(200, Empty))
    else if req.verb != "POST" then Some(Sent(405, Empty))
    else match AuthGate(req, caller)
      case Some(s) => Some(Sent(s, Empty))
      case None => None
  }

  /** `startSession` after allocation: an initial body that fails validation
      gets 400 with the messages (sent first, so the 201 that follows is never
      delivered); otherwise 201 with the token, the code and 30 minutes. */
  function StartReply(body: Body, code: string, token: string): Response
  {
    if |body| > 0 then
      match ValidateBody(body)
      case Failure(e) => Sent(400, Message(e))
      case Success(_) => Sent(201, Issued(token, code, TokenLifetime))
    else Sent(201, Issued(token, code, TokenLifetime))
  }

  /** The whole of `startSession` once the allocated code is known. */
  function StartOutcome(req: Request, caller: Caller, code: string, token: string): Response
  {
    match StartGate(req, caller)
    case Some(r) => r
    case None => StartReply(req.body, code, token)
  }

  /** `startSession` creates a session (201, with the allocated code and a
      30-minute lifetime) exactly when the request is JSON or has no body, is a
      POST, passes authentication, and its initial body, if any, is well formed. */
  lemma StartSessionCreatedIff(req: Request, caller: Caller, code: string, token: string)
    ensures StartOutcome(req, caller, code, token).status == 201 <==>
              && (|req.body| == 0 || (req.contentType.Some? && Contains(req.contentType.value, JsonType)))
              && req.verb == "POST"
              && AuthGate(req, caller).None?
              && (|req.body| == 0 || WellFormed(req.body))
    ensures StartOutcome(req, caller, code, token).status == 201 ==>
              StartOutcome(req, caller, code, token) == Sent(201, Issued(token, code, TokenLifetime))
  {
    ValidateBodyAcceptsExactlyWellFormed(req.body);
  }

  /** The content-type check comes before the method check: a request with a
      body whose content type is missing or does not mention JSON is 415
      whatever its method. */
  lemma StartSessionUnsupportedTypeFirst(req: Request, caller: Caller, code: string, token: string)
    requires !(req.contentType.Some? && Contains(req.contentType.value, JsonType)) && |req.body| > 0
    ensures StartOutcome(req, caller, code, token) == Sent(415, Empty)
  {
  }

  /** `postUpdate`: OPTIONS 200, non-POST 405, authentication, then 403 without
      a session token, 415 unless the content type is exactly JSON, 400 for an
      empty body, 401 when the session token does not verify (`claims` is
      `jwt.verify`'s answer, None when it throws), 400 with the messages for an
      invalid body, and 200 otherwise. */
  function PostUpdate(req: Request, caller: Caller, claims: Option<Claims>): Response
  {
    if req.verb == "OPTIONS" then Sent(200, Empty)
    else if req.verb != "POST" then Sent(405, Empty)
    else if AuthGate(req, caller).Some? then Sent(AuthGate(req, caller).value, Empty)
    else if !Present(req.sessionToken) then Sent(403, Empty)
    else if req.contentType != Some(JsonType) then Sent(415, Empty)
    else if |req.body| == 0 then Sent(400, Message(EmptyBody))
    else if claims.None? then Sent(401, Empty)
    else match ValidateBody(req.body)
      case Failure(e) => Sent(400, Message(e))
      case Success(_) => Sent(200, Empty)
  }

  /** A POST is accepted by `postUpdate` exactly when it passes authentication,
      carries a session token, is exactly JSON, its token verifies and its body
      is well formed. */
  lemma PostUpdateAcceptedIff(req: Request, caller: Caller, claims: Option<Claims>)
    requires req.verb == "POST"
    ensures PostUpdate(req, caller, claims) == Sent(200, Empty) <==>
              && AuthGate(req, caller).None?
              && Present(req.sessionToken)
              && req.contentType == Some(JsonType)
              && claims.Some?
              && WellFormed(req.body)
  {
    ValidateBodyAcceptsExactlyWellFormed(req.body);
    if WellFormed(req.body) {
      assert "timestamp" in req.body;
    }
  }

  /** A token that does not verify is 401 only once the session-token header,
      the content type and a non-empty body have passed. */
  lemma PostUpdateUnauthorizedIff(req: Request, caller: Caller, claims: Option<Claims>)
    requires req.verb == "POST" && AuthGate(req, caller).None?
    ensures PostUpdate(req, caller, claims).status == 401 <==>
              Present(req.sessionToken) && req.contentType == Some(JsonType) && |req.body| > 0 && claims.None?
  {
  }

  /** `Date.now() / 1000 - exp < 30 * 60`: strictly within 30 minutes past `exp`. */
  predicate InRefreshWindow(nowMs: int, exp: int)
  {
    (nowMs as real) / 1000.0 - (exp as real) < RefreshWindow as real
  }

  /** `Date.now() - codeTime < 25 * 60 * 1000`. */
  predicate TooEarly(nowMs: int, codeTime: int)
  {
    nowMs - codeTime < TooEarlyMs
  }

  /** A token is signed to expire 30 minutes after `issuedAt` (in seconds); it
      can be refreshed until one hour after issue, and not at that instant. */
  lemma RefreshableUntilOneHourAfterIssue(issuedAt: int, nowMs: int)
    ensures InRefreshWindow(nowMs, issuedAt + TokenLifetime) <==> nowMs < (issuedAt + TokenLifetime + RefreshWindow) * 1000
  {
  }

  /** `refreshToken`: OPTIONS 200 (there is no method check), authentication,
      403 without a session token, 401 when the token does not verify even
      ignoring expiry, 403 "token exceed refresh window" past the window, a 425
      status that is set but never sent when the registry timestamp is under 25
      minutes old, and 201 with a new token for the same session otherwise. */
  function RefreshDecision(req: Request, caller: Caller, claims: Option<Claims>, reg: Registry,
                           nowMs: int, newToken: string): Response
  {
    if req.verb == "OPTIONS" then Sent(200, Empty)
    else if AuthGate(req, caller).Some? then Sent(AuthGate(req, caller).value, Empty)
    else if !Present(req.sessionToken) then Sent(403, Empty)
    else if claims.None? then Sent(401, Empty)
    else if !InRefreshWindow(nowMs, claims.value.exp) then Sent(403, Message(WindowExceeded))
    else if TooEarly(nowMs, CodeTime(reg, claims.value.session)) then Unsent(425)
    else Sent(201, Issued(newToken, claims.value.session, TokenLifetime))
  }

  /** A refresh issues a token (201, same session, 30 minutes) exactly when it
      is not OPTIONS, passes authentication, carries a verifiable session token
      within the refresh window, and the session was last stamped at least 25
      minutes ago. */
  lemma RefreshIssuedIff(req: Request, caller: Caller, claims: Option<Claims>, reg: Registry,
                         nowMs: int, newToken: string)
    ensures RefreshDecision(req, caller, claims, reg, nowMs, newToken).status == 201 <==>
              && req.verb != "OPTIONS"
              && AuthGate(req, caller).None?
              && Present(req.sessionToken)
              && claims.Some?
              && InRefreshWindow(nowMs, claims.value.exp)
              && !TooEarly(nowMs, CodeTime(reg, claims.value.session))
    ensures RefreshDecision(req, caller, claims, reg, nowMs, newToken).status == 201 ==>
              RefreshDecision(req, caller, claims, reg, nowMs, newToken)
              == Sent(201, Issued(newToken, claims.value.session, TokenLifetime))
  {
  }

  /** The `sessionCodes` registry. */
  class SessionRegistry {
    var codes: Registry

    constructor (initial: Registry)
      ensures codes == initial
    {
      codes := initial;
    }

    /** The allocation loop: draw candidates in order, skip those with a
        recent timestamp, and stamp the first free one with the server time.
        The source draws forever; here the draws are a finite sequence and
        running out of them answers None. */
    method AllocateCode(candidates: seq<string>, nowMs: int) returns (code: Option<string>)
      requires forall i :: 0 <= i < |candidates| ==> IsSessionCode(candidates[i])
      modifies this
      ensures code.Some? ==> IsSessionCode(code.value)
      ensures match FirstFree(old(codes), candidates, nowMs)
              case None => code.None? && codes == old(codes)
              case Some(i) => code == Some(candidates[i]) && codes == old(codes)[candidates[i] := nowMs]
    {
      var i := 0;
      while i < |candidates|
        invariant 0 <= i <= |candidates|
        invariant codes == old(codes)
        invariant forall j :: 0 <= j < i ==> !Free(codes, candidates[j], nowMs)
      {
        var sessionCode := candidates[i];
        var timestamp := CodeTime(codes, sessionCode);
        if timestamp != 0 && Stale(timestamp, nowMs) {
          codes := codes[sessionCode := nowMs];
          return Some(sessionCode);
        } else if timestamp != 0 {
          i := i + 1;
        } else {
          codes := codes[sessionCode := nowMs];
          return Some(sessionCode);
        }
      }
      return None;
    }

    /** `startSession`: the gate, then allocation, then the reply. None when
        the draws ran out before a free code was found. */
    method StartSession(req: Request, caller: Caller, candidates: seq<string>, nowMs: int, token: string)
      returns (resp: Option<Response>)
      requires forall i :: 0 <= i < |candidates| ==> IsSessionCode(candidates[i])
      modifies this
      ensures StartGate(req, caller).Some? ==> resp == StartGate(req, caller) && codes == old(codes)
      ensures StartGate(req, caller).None? ==>
                match FirstFree(old(codes), candidates, nowMs)
                case None => resp.None? && codes == old(codes)
                case Some(i) => && resp == Some(StartOutcome(req, caller, candidates[i], token))
                                && codes == old(codes)[candidates[i] := nowMs]
    {
      var gate := StartGate(req, caller);
      if gate.Some? {
        return gate;
      }
      var code := AllocateCode(candidates, nowMs);
      if code.None? {
        return None;
      }
      resp := Some(StartReply(req.body, code.value, token));
    }

    /** `refreshToken`: decides as `RefreshDecision` and rewrites the session's
        registry timestamp exactly when it answers 201. */
    method RefreshToken(req: Request, caller: Caller, claims: Option<Claims>, nowMs: int, newToken: string)
      returns (resp: Response)
      modifies this
      ensures resp == RefreshDecision(req, caller, claims, old(codes), nowMs, newToken)
      ensures resp.status == 201 ==> claims.Some? && codes == old(codes)[claims.value.session := nowMs]
      ensures resp.status != 201 ==> codes == old(codes)
    {
      if req.verb == "OPTIONS" {
        return Sent(200, Empty);
      }
      var gate := AuthGate(req, caller);
      if gate.Some? {
        return Sent(gate.value, Empty);
      }
      if !Present(req.sessionToken) {
        return Sent(403, Empty);
      }
      if claims.None? {
        return Sent(401, Empty);
      }
      var payload := claims.value;
      if !InRefreshWindow(nowMs, payload.exp) {
        return Sent(403, Message(WindowExceeded));
      }
      var codeTime := CodeTime(codes, payload.session);
      if TooEarly(nowMs, codeTime) {
        return Unsent(425);
      }
      codes := codes[payload.session := nowMs];
      resp := Sent(201, Issued(newToken, payload.session, TokenLifetime));
    }
  }

  /** A refresh less than 25 minutes after a code was allocated is too early:
      status 425, nothing sent, the registry untouched. */
  lemma RefreshSoonAfterAllocationTooEarly(req: Request, caller: Caller, reg: Registry, code: string,
                                           allocatedAt: int, exp: int, nowMs: int, newToken: string)
    requires req.verb != "OPTIONS" && AuthGate(req, caller).None? && Present(req.sessionToken)
    requires InRefreshWindow(nowMs, exp)
    requires allocatedAt <= nowMs < allocatedAt + TooEarlyMs
    ensures RefreshDecision(req, caller, Some(Claims(code, exp)), reg[code := allocatedAt], nowMs, newToken) == Unsent(425)
  {
  }
}
