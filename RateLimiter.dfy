/** The database-backed per-user rate limiter of functions/src/RateLimiter.ts.
    The `rateLimit/<uid>` records form a map from uid to {timestamp, count};
    a call either creates, resets, increments or leaves its record. */
module RateLimiting {
  import opened Wrappers

  /** `apiLimits`: a fixed window of five minutes in milliseconds, and 100 calls. */
  const Interval: int := 5 * 60 * 1000
  const MaxCount: int := 100

  /** The message of the over-limit error; the handlers answer 429 only for it. */
  const TooManyCalls: string := "too many calls"

  /** `timestamp` is the server time in milliseconds when the window opened. */
  datatype Record = Record(timestamp: int, count: int)

  function Lookup(records: map<string, Record>, uid: string): Option<Record>
  {
    if uid in records then Some(records[uid]) else None
  }

  /** A stored count always lies in 1..101. */
  predicate CountInRange(rec: Record)
  {
    1 <= rec.count <= MaxCount + 1
  }

  /** The record after one call at server time `now` (the database's
      `ServerValue.TIMESTAMP` and `Date.now()` are the same clock here):
      a missing record or an elapsed window starts a new window with count 1;
      within the window the count grows by one up to 101 and the window's
      start is kept. */
  function NextRecord(prev: Option<Record>, now: int): (r: Record)
    ensures prev.None? ==> r == Record(now, 1)
    ensures prev.None? || CountInRange(prev.value) ==> CountInRange(r)
    ensures prev.Some? && CountInRange(prev.value) ==>
              (r == Record(now, 1) <==> now - prev.value.timestamp > Interval)
    ensures prev.Some? && CountInRange(prev.value) && now - prev.value.timestamp <= Interval ==>
              r == Record(prev.value.timestamp, Min(prev.value.count + 1, MaxCount + 1))
  {
    match prev
    case None => Record(now, 1)
    case Some(rec) =>
      if now - rec.timestamp > Interval then Record(now, 1)
      else if rec.count > MaxCount then rec
      else Record(rec.timestamp, rec.count + 1)
  }

  /** `~~((interval - elapsed) / 1000) + 1`. Within the window the dividend is
      not negative, so truncation toward zero is Dafny's division. */
  function RetryAfter(rec: Record, now: int): (s: int)
    requires now - rec.timestamp <= Interval
    ensures s >= 1
    ensures now >= rec.timestamp ==> s <= Interval / 1000 + 1
    ensures (s - 1) * 1000 <= Interval - (now - rec.timestamp) < s * 1000
  {
    (Interval - (now - rec.timestamp)) / 1000 + 1
  }

  /** The rejection the source evidently intends: within the window and with
      more than 100 calls counted, "too many calls" with a retry-after in seconds. */
  function Verdict(prev: Option<Record>, now: int): (v: Option<int>)
    ensures v.Some? <==> prev.Some? && now - prev.value.timestamp <= Interval && prev.value.count > MaxCount
    ensures v.Some? ==> v.value >= 1 && (now >= prev.value.timestamp ==> v.value <= Interval / 1000 + 1)
  {
    match prev
    case None => None
    case Some(rec) =>
      if now - rec.timestamp <= Interval && rec.count > MaxCount then Some(RetryAfter(rec, now)) else None
  }

  /** The `rateLimit` collection. */
  class Limiter {
    var records: map<string, Record>

    ghost predicate Valid()
      reads this
    {
      forall uid :: uid in records ==> CountInRange(records[uid])
    }

    constructor ()
      ensures Valid() && records == map[]
    {
      records := map[];
    }

    /** `RateLimit` as written: the over-limit error is built but never thrown,
        so every call completes normally (`rejected` is what the caller sees). */
    method RateLimit(uid: string, now: int) returns (rejected: Option<int>)
      requires Valid()
      modifies this
      ensures Valid()
      ensures records == old(records)[uid := NextRecord(Lookup(old(records), uid), now)]
      ensures rejected.None?
    {
      if uid !in records {
        records := records[uid := Record(now, 1)];
        return None;
      }
      var rec := records[uid];
      if now - rec.timestamp > Interval {
        records := records[uid := Record(now, 1)];
      } else if rec.count > MaxCount {
        var retryAfter := RetryAfter(rec, now);
      } else {
        records := records[uid := Record(rec.timestamp, rec.count + 1)];
        return None;
      }
      rejected := None;
    }

    /** `RateLimit` with the built error thrown: the same record update, and
        the over-limit call is rejected with its retry-after. */
    method RateLimitChecked(uid: string, now: int) returns (rejected: Option<int>)
      requires Valid()
      modifies this
      ensures Valid()
      ensures records == old(records)[uid := NextRecord(Lookup(old(records), uid), now)]
      ensures rejected == Verdict(Lookup(old(records), uid), now)
    {
      if uid !in records {
        records := records[uid := Record(now, 1)];
        return None;
      }
      var rec := records[uid];
      if now - rec.timestamp > Interval {
        records := records[uid := Record(now, 1)];
        rejected := None;
      } else if rec.count > MaxCount {
        rejected := Some(RetryAfter(rec, now));
      } else {
        records := records[uid := Record(rec.timestamp, rec.count + 1)];
        rejected := None;
      }
    }
  }

  /** The record after calls at each of `times` in turn. */
  function Replay(prev: Option<Record>, times: seq<int>): Option<Record>
    decreases |times|
  {
    if |times| == 0 then prev else Replay(Some(NextRecord(prev, times[0])), times[1..])
  }

  function Min(a: int, b: int): int { if a <= b then a else b }

  lemma {:induction false} ReplayWithinWindow(rec: Record, times: seq<int>)
    requires CountInRange(rec)
    requires forall i :: 0 <= i < |times| ==> times[i] - rec.timestamp <= Interval
    ensures Replay(Some(rec), times) == Some(Record(rec.timestamp, Min(rec.count + |times|, MaxCount + 1)))
    decreases |times|
  {
    if |times| > 0 {
      var next := NextRecord(Some(rec), times[0]);
      assert next == Record(rec.timestamp, Min(rec.count + 1, MaxCount + 1));
      ReplayWithinWindow(next, times[1..]);
    }
  }

  /** The window is fixed by its first call: n calls that all fall within five
      minutes of the first leave the record at that first call's time with
      count min(n, 101). */
  lemma {:induction false} FixedWindowCounts(times: seq<int>)
    requires |times| >= 1
    requires forall i :: 0 <= i < |times| ==> times[i] - times[0] <= Interval
    ensures Replay(None, times) == Some(Record(times[0], Min(|times|, MaxCount + 1)))
  {
    ReplayWithinWindow(Record(times[0], 1), times[1..]);
  }

  /** With the rejection thrown, a fresh window admits 101 calls: the call that
      follows n calls in the window is rejected exactly when n is more than 100. */
  lemma RejectedAfterHundredOneCalls(times: seq<int>, now: int)
    requires |times| >= 1
    requires forall i :: 0 <= i < |times| ==> times[i] - times[0] <= Interval
    requires now - times[0] <= Interval
    ensures Verdict(Replay(None, times), now).Some? <==> |times| > MaxCount
  {
    FixedWindowCounts(times);
  }

  /** As written, an over-limit caller within the window is neither counted nor
      stopped: its record stays at 101 although the intended verdict rejects it. */
  lemma OverLimitCallIsNotRejected(t: int)
    ensures NextRecord(Some(Record(t, MaxCount + 1)), t + 1000) == Record(t, MaxCount + 1)
    ensures Verdict(Some(Record(t, MaxCount + 1)), t + 1000) == Some(300)
  {
  }
}
