/** The Redis-backed rate limiter and session store of functions/src/RedisMethods.ts.
    The store is a map from key to (value, optional absolute expiry in seconds)
    read against a clock; each server-side Lua script is one atomic transition. */
module RedisStore {
  import opened Wrappers
  import RateLimiting

  /** `apiLimits`: rate window and threshold, session lifetime, request window. */
  const Interval: int := 5 * 60
  const MaxCount: int := 100
  const SessionTtl: int := 60 * 60
  const RequestInterval: int := 100

  const NotAnInteger: string := "ERR value is not an integer or out of range"
  const BadScriptArgument: string := "Lua redis() command arguments must be strings or integers"
  const ConnectionLost: string := "connection lost"

  /** A stored value: a counter written by INCR or a string written by SET. */
  datatype Value = Counter(n: int) | Text(s: string)

  /** `expiry` is the absolute second at which the key disappears. */
  datatype Entry = Entry(value: Value, expiry: Option<int>)

  type Db = map<string, Entry>

  /** A key exists at time `now` when it is stored and its expiry is still ahead. */
  predicate Live(db: Db, now: int, key: string)
  {
    key in db && (db[key].expiry.None? || now < db[key].expiry.value)
  }

  /** Redis TTL: -2 for a missing key, -1 for a key without expiry, otherwise
      the seconds left, which are at least one. */
  function Ttl(db: Db, now: int, key: string): (t: int)
    ensures t < 0 <==> !Live(db, now, key) || db[key].expiry.None?
    ensures t == -2 <==> !Live(db, now, key)
    ensures t >= 1 ==> db[key].expiry == Some(now + t)
    ensures Live(db, now, key) && db[key].expiry.None? ==> t == -1
    ensures Live(db, now, key) && db[key].expiry.Some? ==> t == db[key].expiry.value - now && t >= 1
  {
    if !Live(db, now, key) then -2
    else if db[key].expiry.None? then -1
    else db[key].expiry.value - now
  }

  /** The counter a key holds for INCR: 0 when it does not exist. */
  function CountOf(db: Db, now: int, key: string): int
  {
    if Live(db, now, key) && db[key].value.Counter? then db[key].value.n else 0
  }

  /** INCR: adds one to a counter (a missing key counts as 0 and gets no expiry);
      a key holding a non-integer string is an error. */
  function Incr(db: Db, now: int, key: string): (r: Result<(Db, int), string>)
    ensures r.Failure? <==> Live(db, now, key) && db[key].value.Text?
    ensures r.Success? ==>
              && r.value.1 == CountOf(db, now, key) + 1
              && r.value.0 == db[key := Entry(Counter(r.value.1), if Live(db, now, key) then db[key].expiry else None)]
  {
    if !Live(db, now, key) then Success((db[key := Entry(Counter(1), None)], 1))
    else match db[key].value
      case Counter(n) => Success((db[key := Entry(Counter(n + 1), db[key].expiry)], n + 1))
      case Text(_) => Failure(NotAnInteger)
  }

  /** EXPIRE: sets the expiry of an existing key and answers 1; answers 0 and
      changes nothing when the key does not exist. */
  function Expire(db: Db, now: int, key: string, seconds: int): (r: (Db, int))
    requires seconds > 0
    ensures r.1 == 1 <==> Live(db, now, key)
    ensures r.1 == 1 ==> r.0 == db[key := Entry(db[key].value, Some(now + seconds))]
                         && Ttl(r.0, now, key) == seconds
    ensures r.1 != 1 ==> r.1 == 0 && r.0 == db
  {
    if Live(db, now, key) then (db[key := Entry(db[key].value, Some(now + seconds))], 1)
    else (db, 0)
  }

  /** SET: stores a string and, as Redis does, discards any previous expiry. */
  function Set(db: Db, key: string, s: string): Db
  {
    db[key := Entry(Text(s), None)]
  }

  /** The state after a script and what the script answered. */
  datatype Run<T> = Run(db: Db, reply: Result<T, string>)

  /** `apiLimitScript`: INCR the key, EXPIRE it when the new count is 1, and
      answer the count with the key's TTL, all in one atomic step. */
  function ApiLimitScript(db: Db, now: int, key: string, window: int): (r: Run<(int, int)>)
    requires window > 0
    ensures r.reply.Failure? <==> Live(db, now, key) && db[key].value.Text?
    ensures r.reply.Failure? ==> r.db == db
    ensures r.reply.Success? ==>
              var (count, ttl) := r.reply.value;
              && count == CountOf(db, now, key) + 1
              && key in r.db
              && r.db == db[key := Entry(Counter(count), r.db[key].expiry)]
              && r.db[key].expiry == (if count == 1 then Some(now + window)
                                      else if Live(db, now, key) then db[key].expiry else None)
              && ttl == Ttl(r.db, now, key)
  {
    match Incr(db, now, key)
    case Failure(e) => Run(db, Failure(e))
    case Success((db1, c)) =>
      var db2 := if c == 1 then Expire(db1, now, key, window).0 else db1;
      Run(db2, Success((c, Ttl(db2, now, key))))
  }

  /** `newSessionScript`: only when the key's TTL is negative, store the refresh
      token, give it the session lifetime and answer 1; otherwise answer 0. */
  function NewSessionScript(db: Db, now: int, key: string, token: string, ttl: int): (r: Run<int>)
    requires ttl > 0
    ensures r.reply == Success(1) <==> Ttl(db, now, key) < 0
    ensures r.reply == Success(1) || r.reply == Success(0)
    ensures r.reply == Success(1) ==> r.db == db[key := Entry(Text(token), Some(now + ttl))]
    ensures r.reply == Success(0) ==> r.db == db
  {
    if Ttl(db, now, key) < 0 then
      var db1 := Set(db, key, token);
      Run(Expire(db1, now, key, ttl).0, Success(1))
    else Run(db, Success(0))
  }

  /** `verifyAndSetScript`: GET the key; missing answers -1; a stored token
      equal to `token` is replaced by `newToken`, then EXPIRE is called with the
      script's third argument and 1 is answered; any other value answers 0.
      `ttlArg` is that third argument; `None` is the missing argument, which
      makes EXPIRE raise after SET has already written. */
  function VerifyAndSetScript(db: Db, now: int, key: string, token: string, newToken: string,
                              ttlArg: Option<int>): (r: Run<int>)
    requires ttlArg.Some? ==> ttlArg.value > 0
    ensures !Live(db, now, key) ==> r == Run(db, Success(-1))
    ensures Live(db, now, key) && db[key].value != Text(token) ==> r == Run(db, Success(0))
    ensures Live(db, now, key) && db[key].value == Text(token) ==>
              && key in r.db && r.db[key].value == Text(newToken)
              && r.db == db[key := r.db[key]]
              && (ttlArg.Some? ==> r.reply == Success(1) && r.db[key].expiry == Some(now + ttlArg.value))
              && (ttlArg.None? ==> r.reply == Failure(BadScriptArgument) && r.db[key].expiry.None?)
  {
    if !Live(db, now, key) then Run(db, Success(-1))
    else if db[key].value == Text(token) then
      var db1 := Set(db, key, newToken);
      match ttlArg
      case Some(t) => Run(Expire(db1, now, key, t).0, Success(1))
      case None => Run(db1, Failure(BadScriptArgument))
    else Run(db, Success(0))
  }

  /** The Redis server: its keys, its clock in seconds, and whether it can be
      reached. The clock and the connection belong to the environment: the
      commands read them and never change them. */
  class Store {
    var db: Db
    var now: int
    var up: bool

    constructor (start: int)
      ensures db == map[] && now == start && up
    {
      db, now, up := map[], start, true;
    }

    /** EVAL of `apiLimitScript` on one key. */
    method EvalApiLimit(key: string, window: int) returns (reply: Result<(int, int), string>)
      requires window > 0
      modifies this
      ensures now == old(now) && up == old(up)
      ensures !up ==> reply == Failure(ConnectionLost) && db == old(db)
      ensures up ==> var run := ApiLimitScript(old(db), now, key, window);
                     db == run.db && reply == run.reply
    {
      if !up {
        reply := Failure(ConnectionLost);
        return;
      }
      var run := ApiLimitScript(db, now, key, window);
      db, reply := run.db, run.reply;
    }

    /** EVAL of `newSessionScript`. */
    method EvalNewSession(key: string, token: string, ttl: int) returns (reply: Result<int, string>)
      requires ttl > 0
      modifies this
      ensures now == old(now) && up == old(up)
      ensures !up ==> reply == Failure(ConnectionLost) && db == old(db)
      ensures up ==> var run := NewSessionScript(old(db), now, key, token, ttl);
                     db == run.db && reply == run.reply
    {
      if !up {
        reply := Failure(ConnectionLost);
        return;
      }
      var run := NewSessionScript(db, now, key, token, ttl);
      db, reply := run.db, run.reply;
    }

    /** EVAL of `verifyAndSetScript`. */
    method EvalVerifyAndSet(key: string, token: string, newToken: string, ttlArg: Option<int>)
      returns (reply: Result<int, string>)
      requires ttlArg.Some? ==> ttlArg.value > 0
      modifies this
      ensures now == old(now) && up == old(up)
      ensures !up ==> reply == Failure(ConnectionLost) && db == old(db)
      ensures up ==> var run := VerifyAndSetScript(old(db), now, key, token, newToken, ttlArg);
                     db == run.db && reply == run.reply
    {
      if !up {
        reply := Failure(ConnectionLost);
        return;
      }
      var run := VerifyAndSetScript(db, now, key, token, newToken, ttlArg);
      db, reply := run.db, run.reply;
    }

    /** The EXPIRE command. */
    method ExpireKey(key: string, seconds: int) returns (reply: Result<int, string>)
      requires seconds > 0
      modifies this
      ensures now == old(now) && up == old(up)
      ensures !up ==> reply == Failure(ConnectionLost) && db == old(db)
      ensures up ==> db == Expire(old(db), now, key, seconds).0
                     && reply == Success(Expire(old(db), now, key, seconds).1)
    {
      if !up {
        reply := Failure(ConnectionLost);
        return;
      }
      var (db1, answer) := Expire(db, now, key, seconds);
      db, reply := db1, Success(answer);
    }

    /** The TTL command. */
    method TtlOf(key: string) returns (reply: Result<int, string>)
      ensures !up ==> reply == Failure(ConnectionLost)
      ensures up ==> reply == Success(Ttl(db, now, key))
    {
      if !up {
        return Failure(ConnectionLost);
      }
      reply := Success(Ttl(db, now, key));
    }
  }

  function RateLimitKey(uid: string): string { "rateLimit:" + uid }
  function RequestKey(id: string): string { "requestRateLimit:" + id }
  function SessionKey(sessionId: string): string { "session:" + sessionId }

  /** How `RateLimit` settles. */
  datatype Limit = Allowed | Rejected(message: string, retryAfter: int)

  /** `RateLimit`'s reading of the script's answer: more than 100 calls in the
      window is a rejection that advises retrying one second after the TTL. */
  function LimitOf(count: int, ttl: int): (l: Limit)
    ensures l.Rejected? <==> count > MaxCount
    ensures l.Rejected? ==> l == Rejected(RateLimiting.TooManyCalls, ttl + 1)
  {
    if count > MaxCount then Rejected(RateLimiting.TooManyCalls, ttl + 1) else Allowed
  }

  /** `RateLimit`: counts the call under "rateLimit:"+uid with a 300 s window.
      It fails open: with no client, or when the store answers an error, it allows. */
  method RateLimit(client: Store?, uid: string) returns (l: Limit)
    modifies client
    ensures client == null ==> l == Allowed
    ensures client != null ==> client.now == old(client.now) && client.up == old(client.up)
    ensures client != null && !client.up ==> l == Allowed && client.db == old(client.db)
    ensures client != null && client.up ==>
              var run := ApiLimitScript(old(client.db), client.now, RateLimitKey(uid), Interval);
              && client.db == run.db
              && l == (if run.reply.Failure? then Allowed else LimitOf(run.reply.value.0, run.reply.value.1))
  {
    if client == null {
      return Allowed;
    }
    var reply := client.EvalApiLimit(RateLimitKey(uid), Interval);
    match reply
    case Failure(_) =>
      l := Allowed;
    case Success((count, ttl)) =>
      l := LimitOf(count, ttl);
  }

  /** `incRequest`: counts under "requestRateLimit:"+id with a 100 s window and
      hands back the count and TTL. It does not fail open: a store error rejects,
      and with no client it answers count -1 and TTL 100. */
  method IncRequest(client: Store?, id: string) returns (r: Result<(int, int), string>)
    modifies client
    ensures client == null ==> r == Success((-1, 100))
    ensures client != null ==> client.now == old(client.now) && client.up == old(client.up)
    ensures client != null && !client.up ==> r == Failure(ConnectionLost) && client.db == old(client.db)
    ensures client != null && client.up ==>
              var run := ApiLimitScript(old(client.db), client.now, RequestKey(id), RequestInterval);
              client.db == run.db && r == run.reply
  {
    if client == null {
      return Success((-1, 100));
    }
    r := client.EvalApiLimit(RequestKey(id), RequestInterval);
  }

  /** `checkSessionTTL`: the TTL of "session:"+id; 1 with no client. */
  method CheckSessionTtl(client: Store?, sessionId: string) returns (r: Result<int, string>)
    ensures client == null ==> r == Success(1)
    ensures client != null && !client.up ==> r == Failure(ConnectionLost)
    ensures client != null && client.up ==> r == Success(Ttl(client.db, client.now, SessionKey(sessionId)))
  {
    if client == null {
      return Success(1);
    }
    r := client.TtlOf(SessionKey(sessionId));
  }

  /** `newSession`: registers the session's refresh token for an hour when the
      code is free; 1 with no client. */
  method NewSession(client: Store?, sessionId: string, refreshToken: string) returns (r: Result<int, string>)
    modifies client
    ensures client == null ==> r == Success(1)
    ensures client != null ==> client.now == old(client.now) && client.up == old(client.up)
    ensures client != null && !client.up ==> r == Failure(ConnectionLost) && client.db == old(client.db)
    ensures client != null && client.up ==>
              var run := NewSessionScript(old(client.db), client.now, SessionKey(sessionId), refreshToken, SessionTtl);
              client.db == run.db && r == run.reply
  {
    if client == null {
      return Success(1);
    }
    r := client.EvalNewSession(SessionKey(sessionId), refreshToken, SessionTtl);
  }

  /** `touchSession`: EXPIRE "session:"+id for an hour; the stored refresh token
      is never changed. 1 with no client. */
  method TouchSession(client: Store?, sessionId: string) returns (r: Result<int, string>)
    modifies client
    ensures client == null ==> r == Success(1)
    ensures client != null ==> client.now == old(client.now) && client.up == old(client.up)
    ensures client != null && !client.up ==> r == Failure(ConnectionLost) && client.db == old(client.db)
    ensures client != null && client.up ==>
              client.db == Expire(old(client.db), client.now, SessionKey(sessionId), SessionTtl).0
              && r == Success(Expire(old(client.db), client.now, SessionKey(sessionId), SessionTtl).1)
  {
    if client == null {
      return Success(1);
    }
    r := client.ExpireKey(SessionKey(sessionId), SessionTtl);
  }

  /** `verifyAndSetNewRefreshToken` as written: only the presented and the new
      token are passed, so the script runs without its TTL argument. */
  method VerifyAndSetNewRefreshToken(client: Store?, sessionId: string, token: string, newToken: string)
    returns (r: Result<int, string>)
    modifies client
    ensures client == null ==> r == Success(1)
    ensures client != null ==> client.now == old(client.now) && client.up == old(client.up)
    ensures client != null && !client.up ==> r == Failure(ConnectionLost) && client.db == old(client.db)
    ensures client != null && client.up ==>
              var run := VerifyAndSetScript(old(client.db), client.now, SessionKey(sessionId), token, newToken, None);
              client.db == run.db && r == run.reply
  {
    if client == null {
      return Success(1);
    }
    r := client.EvalVerifyAndSet(SessionKey(sessionId), token, newToken, None);
  }

  /** `verifyAndSetNewRefreshToken` with the session lifetime passed as the
      script's third argument, so that a rotation also renews the session. */
  method VerifyAndSetNewRefreshTokenWithTtl(client: Store?, sessionId: string, token: string, newToken: string)
    returns (r: Result<int, string>)
    modifies client
    ensures client == null ==> r == Success(1)
    ensures client != null ==> client.now == old(client.now) && client.up == old(client.up)
    ensures client != null && !client.up ==> r == Failure(ConnectionLost) && client.db == old(client.db)
    ensures client != null && client.up ==>
              var run := VerifyAndSetScript(old(client.db), client.now, SessionKey(sessionId), token, newToken, Some(SessionTtl));
              client.db == run.db && r == run.reply
  {
    if client == null {
      return Success(1);
    }
    r := client.EvalVerifyAndSet(SessionKey(sessionId), token, newToken, Some(SessionTtl));
  }

  /** The store after `apiLimitScript` has run on `key` at each of `times` in turn. */
  function Replay(db: Db, key: string, window: int, times: seq<int>): Db
    requires window > 0
    decreases |times|
  {
    if |times| == 0 then db
    else Replay(ApiLimitScript(db, times[0], key, window).db, key, window, times[1..])
  }

  lemma {:induction false} ReplayCounts(db: Db, key: string, window: int, t0: int, k: int, times: seq<int>)
    requires window > 0
    requires key in db && db[key] == Entry(Counter(k), Some(t0 + window)) && k >= 1
    requires forall i :: 0 <= i < |times| ==> t0 <= times[i] < t0 + window
    ensures var d := Replay(db, key, window, times);
            key in d && d[key] == Entry(Counter(k + |times|), Some(t0 + window))
    decreases |times|
  {
    if |times| > 0 {
      var db1 := ApiLimitScript(db, times[0], key, window).db;
      assert Live(db, times[0], key);
      ReplayCounts(db1, key, window, t0, k + 1, times[1..]);
    }
  }

  /** Calls within one window, the first of which found no counter, leave the
      counter equal to the number of calls, with the expiry fixed by the first. */
  lemma {:induction false} CountsWithinWindow(db: Db, key: string, window: int, times: seq<int>)
    requires window > 0 && |times| >= 1 && !Live(db, times[0], key)
    requires forall i :: 0 <= i < |times| ==> times[0] <= times[i] < times[0] + window
    ensures var d := Replay(db, key, window, times);
            key in d && d[key] == Entry(Counter(|times|), Some(times[0] + window))
  {
    var t0 := times[0];
    var db1 := ApiLimitScript(db, t0, key, window).db;
    assert db1[key] == Entry(Counter(1), Some(t0 + window));
    ReplayCounts(db1, key, window, t0, 1, times[1..]);
  }

  /** After n calls within a window that started on a fresh counter, the next
      call in the same window is call n+1: `RateLimit` rejects it exactly when
      n+1 > 100, advising a retry after at most window+1 seconds. */
  lemma NextCallWithinWindow(db: Db, uid: string, times: seq<int>, now: int)
    requires |times| >= 1 && !Live(db, times[0], RateLimitKey(uid))
    requires forall i :: 0 <= i < |times| ==> times[0] <= times[i] < times[0] + Interval
    requires times[0] <= now < times[0] + Interval
    ensures var run := ApiLimitScript(Replay(db, RateLimitKey(uid), Interval, times), now, RateLimitKey(uid), Interval);
            && run.reply.Success?
            && run.reply.value.0 == |times| + 1
            && (LimitOf(run.reply.value.0, run.reply.value.1).Rejected? <==> |times| >= MaxCount)
            && 2 <= run.reply.value.1 + 1 <= Interval + 1
  {
    CountsWithinWindow(db, RateLimitKey(uid), Interval, times);
  }

  /** Once the window's expiry is reached the counter starts again at 1 with a
      full window. */
  lemma CounterRestartsAfterWindow(db: Db, key: string, window: int, now: int)
    requires window > 0 && key in db && db[key].expiry.Some? && db[key].expiry.value <= now
    ensures ApiLimitScript(db, now, key, window).reply == Success((1, window))
  {
  }

  /** A code registered by `newSession` cannot be registered again until its
      hour is over: the second attempt answers 0 and changes nothing. */
  lemma SecondNewSessionCollides(db: Db, now: int, later: int, key: string, t1: string, t2: string)
    requires Ttl(db, now, key) < 0
    requires now <= later < now + SessionTtl
    ensures var first := NewSessionScript(db, now, key, t1, SessionTtl);
            && first.reply == Success(1)
            && NewSessionScript(first.db, later, key, t2, SessionTtl) == Run(first.db, Success(0))
  {
  }

  /** Rotation is single use: after the stored token r0 has been rotated to r1
      (r1 different from r0), presenting r0 again at any time never answers 1
      and changes nothing; while the session lives it answers 0. */
  lemma RotationIsSingleUse(db: Db, now: int, later: int, key: string, r0: string, r1: string, r2: string,
                            ttlArg: Option<int>)
    requires ttlArg.Some? ==> ttlArg.value > 0
    requires Live(db, now, key) && db[key].value == Text(r0) && r0 != r1
    ensures var first := VerifyAndSetScript(db, now, key, r0, r1, ttlArg);
            var again := VerifyAndSetScript(first.db, later, key, r0, r2, ttlArg);
            && first.db[key].value == Text(r1)
            && again.reply != Success(1)
            && again.db == first.db
            && (Live(first.db, later, key) ==> again == Run(first.db, Success(0)))
  {
    var first := VerifyAndSetScript(db, now, key, r0, r1, ttlArg);
    assert Live(first.db, now, key);
  }

  /** Touching a session renews it to a full hour and never alters its token. */
  lemma TouchKeepsToken(db: Db, now: int, key: string)
    requires Live(db, now, key)
    ensures var d := Expire(db, now, key, SessionTtl).0;
            && d[key].value == db[key].value
            && Ttl(d, now, key) == SessionTtl
            && Expire(d, now, key, SessionTtl).0 == d
  {
  }

  /** Rotation without the TTL argument (as `verifyAndSetNewRefreshToken` calls
      the script): the new token is stored but the promise rejects, the session
      key loses its expiry, and `newSession` then treats the code as free and
      overwrites the rotated token. */
  lemma RotationWithoutTtlFreesTheCode(db: Db, now: int, key: string, r0: string, r1: string, other: string)
    requires Live(db, now, key) && db[key].value == Text(r0)
    ensures var rot := VerifyAndSetScript(db, now, key, r0, r1, None);
            && rot.reply.Failure?
            && Ttl(rot.db, now, key) == -1
            && NewSessionScript(rot.db, now, key, other, SessionTtl).reply == Success(1)
            && NewSessionScript(rot.db, now, key, other, SessionTtl).db[key].value == Text(other)
  {
    var rot := VerifyAndSetScript(db, now, key, r0, r1, None);
    assert Live(rot.db, now, key);
  }

  /** Rotation with the session lifetime as TTL argument answers 1, renews the
      session to a full hour, and keeps the code taken for `newSession`. */
  lemma RotationWithTtlKeepsTheCode(db: Db, now: int, key: string, r0: string, r1: string, other: string)
    requires Live(db, now, key) && db[key].value == Text(r0)
    ensures var rot := VerifyAndSetScript(db, now, key, r0, r1, Some(SessionTtl));
            && rot.reply == Success(1)
            && Ttl(rot.db, now, key) == SessionTtl
            && NewSessionScript(rot.db, now, key, other, SessionTtl) == Run(rot.db, Success(0))
  {
    var rot := VerifyAndSetScript(db, now, key, r0, r1, Some(SessionTtl));
    assert Live(rot.db, now, key);
  }
}
