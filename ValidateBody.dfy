/** The payload validator of functions/src/ValidateBody.ts.
    A request body is a loosely typed JSON record; validation either returns the
    four fields or the "; "-joined list of everything that is wrong with them. */
module Validation {
  import opened Wrappers

  /** The JavaScript values a parsed JSON body can hold (NaN is not modelled). */
  datatype JsValue = Undefined | Null | Num(n: real) | Str(s: string) | Bool(b: bool) | Object

  type Body = map<string, JsValue>

  /** Destructuring `const { x } = body`: a missing key reads as `undefined`. */
  function Field(body: Body, key: string): JsValue
  {
    if key in body then body[key] else Undefined
  }

  /** JavaScript's `!v`. */
  predicate Falsy(v: JsValue)
  {
    match v
    case Undefined => true
    case Null => true
    case Num(n) => n == 0.0
    case Str(s) => s == ""
    case Bool(b) => !b
    case Object => false
  }

  const MinTimestamp: real := 1597625975267.0
  const UriPrefix: string := "spotify:track:"
  const Separator: string := "; "

  const MissingTimestamp: string := "missing timestamp"
  const TimestampNotNumber: string := "timestamp is not a number"
  const TimestampNotMillis: string := "timestamp not in milliseconds"
  const MissingUri: string := "missing uri"
  const UriNotString: string := "uri is not string"
  const ImproperUri: string := "improper uri format"
  const MissingPosition: string := "missing position"
  const PositionNotNumber: string := "position is not a number"
  const MissingPlaying: string := "missing playing state"
  const PlayingNotBoolean: string := "playing is not a boolean"

  /** The timestamp's check chain: falsy, then not a number, then too small. */
  function TimestampError(v: JsValue): Option<string>
  {
    if Falsy(v) then Some(MissingTimestamp)
    else if !v.Num? then Some(TimestampNotNumber)
    else if v.n < MinTimestamp then Some(TimestampNotMillis)
    else None
  }

  /** The uri's check chain: falsy, then not a string, then wrong prefix. */
  function UriError(v: JsValue): Option<string>
  {
    if Falsy(v) then Some(MissingUri)
    else if !v.Str? then Some(UriNotString)
    else if !(UriPrefix <= v.s) then Some(ImproperUri)
    else None
  }

  /** The position is only tested against `undefined`, so `0` passes. */
  function PositionError(v: JsValue): Option<string>
  {
    if v.Undefined? then Some(MissingPosition)
    else if !v.Num? then Some(PositionNotNumber)
    else None
  }

  /** The playing state is only tested against `undefined`, so `false` passes. */
  function PlayingError(v: JsValue): Option<string>
  {
    if v.Undefined? then Some(MissingPlaying)
    else if !v.Bool? then Some(PlayingNotBoolean)
    else None
  }

  function AsList(o: Option<string>): (l: seq<string>)
    ensures |l| <= 1
  {
    if o.Some? then [o.value] else []
  }

  /** The accumulator `errArr`: one optional message per field, in field order. */
  function Errors(body: Body): (errs: seq<string>)
    ensures |errs| <= 4
  {
    AsList(TimestampError(Field(body, "timestamp")))
    + AsList(UriError(Field(body, "uri")))
    + AsList(PositionError(Field(body, "position")))
    + AsList(PlayingError(Field(body, "playing")))
  }

  /** `Array.prototype.join`. */
  function Join(parts: seq<string>, sep: string): string
  {
    if |parts| == 0 then ""
    else if |parts| == 1 then parts[0]
    else parts[0] + sep + Join(parts[1..], sep)
  }

  /** The validated record. */
  datatype Payload = Payload(timestamp: real, uri: string, position: real, playing: bool)

  /** A body that validation accepts, stated without the check chains:
      a numeric timestamp in milliseconds, a Spotify track uri, a numeric
      position and a boolean playing state. */
  predicate WellFormed(body: Body)
  {
    && Field(body, "timestamp").Num? && Field(body, "timestamp").n >= MinTimestamp
    && Field(body, "uri").Str? && UriPrefix <= Field(body, "uri").s
    && Field(body, "position").Num?
    && Field(body, "playing").Bool?
  }

  /** `validateBody`: succeeds exactly when no message was collected, and then
      returns the input's four fields unchanged; otherwise it throws the joined
      messages. */
  function ValidateBody(body: Body): (r: Result<Payload, string>)
    ensures r.Success? <==> Errors(body) == []
    ensures r.Failure? ==> r.error == Join(Errors(body), Separator)
    ensures r.Success? ==>
              && Field(body, "timestamp") == Num(r.value.timestamp)
              && Field(body, "uri") == Str(r.value.uri)
              && Field(body, "position") == Num(r.value.position)
              && Field(body, "playing") == Bool(r.value.playing)
  {
    var errs := Errors(body);
    if |errs| > 0 then Failure(Join(errs, Separator))
    else
      assert TimestampError(Field(body, "timestamp")).None?;
      assert UriError(Field(body, "uri")).None?;
      assert PositionError(Field(body, "position")).None?;
      assert PlayingError(Field(body, "playing")).None?;
      Success(Payload(Field(body, "timestamp").n, Field(body, "uri").s,
                      Field(body, "position").n, Field(body, "playing").b))
  }

  /** Validation succeeds if and only if the body is well formed. */
  lemma ValidateBodyAcceptsExactlyWellFormed(body: Body)
    ensures ValidateBody(body).Success? <==> WellFormed(body)
  {
    var t := Field(body, "timestamp");
    var u := Field(body, "uri");
    if WellFormed(body) {
      assert !Falsy(t) && TimestampError(t).None?;
      assert |UriPrefix| > 0 && !Falsy(u) && UriError(u).None?;
    }
  }

  /** Which field a message belongs to: 0 timestamp, 1 uri, 2 position, 3 playing. */
  function FieldOf(msg: string): int
  {
    if msg in {MissingTimestamp, TimestampNotNumber, TimestampNotMillis} then 0
    else if msg in {MissingUri, UriNotString, ImproperUri} then 1
    else if msg in {MissingPosition, PositionNotNumber} then 2
    else if msg in {MissingPlaying, PlayingNotBoolean} then 3
    else -1
  }

  /** Every message names its field, each field contributes at most one message,
      and the messages come in the fixed order timestamp, uri, position, playing. */
  lemma ErrorsOnePerFieldInOrder(body: Body)
    ensures forall i :: 0 <= i < |Errors(body)| ==> 0 <= FieldOf(Errors(body)[i]) <= 3
    ensures forall i, j :: 0 <= i < j < |Errors(body)| ==> FieldOf(Errors(body)[i]) < FieldOf(Errors(body)[j])
  {
    var a := AsList(TimestampError(Field(body, "timestamp")));
    var b := AsList(UriError(Field(body, "uri")));
    var c := AsList(PositionError(Field(body, "position")));
    var d := AsList(PlayingError(Field(body, "playing")));
    assert forall m :: m in a ==> FieldOf(m) == 0;
    assert forall m :: m in b ==> FieldOf(m) == 1;
    assert forall m :: m in c ==> FieldOf(m) == 2;
    assert forall m :: m in d ==> FieldOf(m) == 3;
    var e := Errors(body);
    assert e == a + b + c + d;
    forall i | 0 <= i < |e|
      ensures FieldOf(e[i]) == if i < |a| then 0 else if i < |a + b| then 1 else if i < |a + b + c| then 2 else 3
    {
      if i < |a| {
        assert e[i] == a[i];
      } else if i < |a + b| {
        assert e[i] == b[i - |a|];
      } else if i < |a + b + c| {
        assert e[i] == c[i - |a + b|];
      } else {
        assert e[i] == d[i - |a + b + c|];
      }
    }
  }

  /** Splits a thrown message back into its parts at every "; ". */
  function SplitMessages(s: string): (parts: seq<string>)
    ensures |parts| >= 1
    decreases |s|
  {
    if |s| < 2 then [s]
    else if s[0] == ';' && s[1] == ' ' then [""] + SplitMessages(s[2..])
    else
      var rest := SplitMessages(s[1..]);
      [[s[0]] + rest[0]] + rest[1..]
  }

  predicate NoSemicolon(m: string)
  {
    ';' !in m
  }

  /** None of the validator's messages contains a semicolon. */
  lemma KnownMessageHasNoSemicolon(m: string)
    requires FieldOf(m) >= 0
    ensures NoSemicolon(m)
  {
    if m == MissingTimestamp { assert NoSemicolon(MissingTimestamp); }
    else if m == TimestampNotNumber { assert NoSemicolon(TimestampNotNumber); }
    else if m == TimestampNotMillis { assert NoSemicolon(TimestampNotMillis); }
    else if m == MissingUri { assert NoSemicolon(MissingUri); }
    else if m == UriNotString { assert NoSemicolon(UriNotString); }
    else if m == ImproperUri { assert NoSemicolon(ImproperUri); }
    else if m == MissingPosition { assert NoSemicolon(MissingPosition); }
    else if m == PositionNotNumber { assert NoSemicolon(PositionNotNumber); }
    else if m == MissingPlaying { assert NoSemicolon(MissingPlaying); }
    else { assert m == PlayingNotBoolean; assert NoSemicolon(PlayingNotBoolean); }
  }

  lemma {:induction false} SplitSingle(m: string)
    requires NoSemicolon(m)
    ensures SplitMessages(m) == [m]
    decreases |m|
  {
    if |m| >= 2 {
      SplitSingle(m[1..]);
      assert [m[0]] + m[1..] == m;
    }
  }

  lemma {:induction false} SplitFirst(m: string, t: string)
    requires NoSemicolon(m)
    ensures SplitMessages(m + Separator + t) == [m] + SplitMessages(t)
    decreases |m|
  {
    var s := m + Separator + t;
    if |m| == 0 {
      assert s == "; " + t;
      assert s[2..] == t;
    } else {
      assert s[1..] == m[1..] + Separator + t;
      SplitFirst(m[1..], t);
      assert [m[0]] + m[1..] == m;
    }
  }

  /** Joining with "; " and splitting again gives back the list, as long as
      no part contains a semicolon. */
  lemma {:induction false} JoinThenSplit(parts: seq<string>)
    requires |parts| >= 1
    requires forall i :: 0 <= i < |parts| ==> NoSemicolon(parts[i])
    ensures SplitMessages(Join(parts, Separator)) == parts
    decreases |parts|
  {
    if |parts| == 1 {
      SplitSingle(parts[0]);
    } else {
      JoinThenSplit(parts[1..]);
      SplitFirst(parts[0], Join(parts[1..], Separator));
      assert [parts[0]] + parts[1..] == parts;
    }
  }

  /** A rejection carries every collected message, recoverable in order from
      the thrown string, and there is at least one of them. */
  lemma FailureListsEveryMessage(body: Body)
    requires ValidateBody(body).Failure?
    ensures 1 <= |Errors(body)| <= 4
    ensures SplitMessages(ValidateBody(body).error) == Errors(body)
  {
    var e := Errors(body);
    ErrorsOnePerFieldInOrder(body);
    forall i | 0 <= i < |e| ensures NoSemicolon(e[i]) {
      KnownMessageHasNoSemicolon(e[i]);
    }
    JoinThenSplit(e);
  }

  /** A numeric truthy timestamp below the millisecond threshold gives exactly
      "timestamp not in milliseconds" as the timestamp's message. */
  lemma SmallTimestampIsNotMillis(body: Body, t: real)
    requires Field(body, "timestamp") == Num(t) && t != 0.0 && t < MinTimestamp
    ensures |Errors(body)| >= 1 && Errors(body)[0] == TimestampNotMillis
  {
  }

  /** `0` and `""` count as missing timestamp and uri. */
  lemma FalsyTimestampAndUriAreMissing(body: Body)
    requires Field(body, "timestamp") == Num(0.0) && Field(body, "uri") == Str("")
    ensures |Errors(body)| >= 2 && Errors(body)[0] == MissingTimestamp && Errors(body)[1] == MissingUri
  {
  }

  /** A truthy non-string uri is "uri is not string"; a string uri without the
      track prefix is "improper uri format". */
  lemma UriMessages(v: JsValue)
    ensures !Falsy(v) && !v.Str? ==> UriError(v) == Some(UriNotString)
    ensures v.Str? && v.s != "" && !(UriPrefix <= v.s) ==> UriError(v) == Some(ImproperUri)
  {
  }

  /** `0` for position and `false` for playing are accepted. */
  lemma ZeroPositionFalsePlayingAccepted(body: Body)
    requires Field(body, "position") == Num(0.0) && Field(body, "playing") == Bool(false)
    ensures PositionError(Field(body, "position")).None? && PlayingError(Field(body, "playing")).None?
  {
  }

  /** The body `{ missing: null }` reports every field missing, in order. */
  lemma AllMissingExample()
    ensures ValidateBody(map["missing" := Null])
            == Failure(Join([MissingTimestamp, MissingUri, MissingPosition, MissingPlaying], Separator))
  {
    var body: Body := map["missing" := Null];
    var e := [MissingTimestamp, MissingUri, MissingPosition, MissingPlaying];
    assert Errors(body) == e;
  }

  /** A body with all four fields of the wrong type reports four type errors. */
  lemma WrongTypesExample()
    ensures ValidateBody(map["timestamp" := Str("not a number"), "uri" := Num(1000.0),
                             "position" := Str("not a number"), "playing" := Str("not a boolean")])
            == Failure(Join([TimestampNotNumber, UriNotString, PositionNotNumber, PlayingNotBoolean], Separator))
  {
    var body: Body := map["timestamp" := Str("not a number"), "uri" := Num(1000.0),
                          "position" := Str("not a number"), "playing" := Str("not a boolean")];
    var e := [TimestampNotNumber, UriNotString, PositionNotNumber, PlayingNotBoolean];
    assert Errors(body) == e;
  }

  /** A valid body comes back field for field. */
  lemma ValidExample()
    ensures ValidateBody(map["timestamp" := Num(2597625975267.0), "uri" := Str("spotify:track:6sFIWsNpZYqfjUpaCgueju"),
                             "position" := Num(0.0), "playing" := Bool(true)])
            == Success(Payload(2597625975267.0, "spotify:track:6sFIWsNpZYqfjUpaCgueju", 0.0, true))
  {
    var body: Body := map["timestamp" := Num(2597625975267.0), "uri" := Str("spotify:track:6sFIWsNpZYqfjUpaCgueju"),
                          "position" := Num(0.0), "playing" := Bool(true)];
    assert UriPrefix <= Field(body, "uri").s;
    assert Errors(body) == [];
  }
}
