/**
  Timestamps on the wire: a time is sent as whole seconds since the epoch and nanoseconds within the
  second, and decoded with range checks.
 */
module Timestamp {
  import opened Common

  /** Nanoseconds since the epoch, negative before it. */
  type Time = int

  const NANOS_PER_SECOND: int := 1_000_000_000

  // the first second of the year -9999 and the last of the year 9999
  const MIN_SECONDS: int := -377_705_116_800
  const MAX_SECONDS: int := 253_402_300_799

  newtype Int64 = x: int | -0x8000_0000_0000_0000 <= x < 0x8000_0000_0000_0000
  newtype Int32 = x: int | -0x8000_0000 <= x < 0x8000_0000

  datatype WireTime = WireTime(seconds: Int64, nanos: Int32)

  datatype Error = InvalidId | MissingTimestamp | InvalidSeconds | InvalidNanos

  predicate Representable(t: Time) {
    MIN_SECONDS * NANOS_PER_SECOND <= t < (MAX_SECONDS + 1) * NANOS_PER_SECOND
  }

  /** `unix_timestamp` rounds down and `nanosecond` counts up from there, before the epoch too. */
  function Encode(t: Time): WireTime
    requires Representable(t)
  {
    WireTime((t / NANOS_PER_SECOND) as Int64, (t % NANOS_PER_SECOND) as Int32)
  }

  /** `nanos as u32`. */
  function AsU32(nanos: Int32): int {
    if nanos < 0 then nanos as int + U32_SIZE else nanos as int
  }

  function Decode(w: WireTime): Result<Time, Error> {
    if !(MIN_SECONDS <= w.seconds as int <= MAX_SECONDS) then Failure(InvalidSeconds)
    else if AsU32(w.nanos) >= NANOS_PER_SECOND then Failure(InvalidNanos)
    else Success(w.seconds as int * NANOS_PER_SECOND + AsU32(w.nanos))
  }

  type Id = nat

  datatype StatusUpdate = StatusUpdate(id: Id, timestamp: Time)

  /** `try_from`; an id that does not parse is None. */
  function TryFrom(id: Option<Id>, timestamp: Option<WireTime>): Result<StatusUpdate, Error> {
    if id.None? then Failure(InvalidId)
    else if timestamp.None? then Failure(MissingTimestamp)
    else
      match Decode(timestamp.value)
      case Failure(e) => Failure(e)
      case Success(t) => Success(StatusUpdate(id.value, t))
  }

  /** What a producer sends is what the deduplicator compares. */
  lemma RoundTrip(id: Id, t: Time)
    requires Representable(t)
    ensures TryFrom(Some(id), Some(Encode(t))) == Success(StatusUpdate(id, t))
  {
    assert t == t / NANOS_PER_SECOND * NANOS_PER_SECOND + t % NANOS_PER_SECOND;
    assert MIN_SECONDS <= t / NANOS_PER_SECOND <= MAX_SECONDS;
  }

  /** Decoding succeeds exactly on encodings of representable times, and is then inverted by encoding. */
  lemma DecodeExactly(w: WireTime)
    ensures Decode(w).Success? <==> exists t :: Representable(t) && Encode(t) == w
    ensures Decode(w).Success? ==> Representable(Decode(w).value) && Encode(Decode(w).value) == w
  {
    if Decode(w).Success? {
      var t := Decode(w).value;
      SecondsAndNanos(w.seconds as int, AsU32(w.nanos));
      assert Representable(t) && Encode(t) == w;
    }
    if t :| Representable(t) && Encode(t) == w {
      RoundTrip(0, t);
    }
  }

  /** What is accepted, as what time, and which error the rest gives, in plain numbers: the years -9999
      to 9999 in seconds, less than a second in nanoseconds. */
  lemma TryFromInNumbers(id: Option<Id>, timestamp: Option<WireTime>)
    ensures TryFrom(id, timestamp) ==
            if id.None? then Failure(InvalidId)
            else if timestamp.None? then Failure(MissingTimestamp)
            else
              var s, n := timestamp.value.seconds as int, timestamp.value.nanos as int;
              if !(-377_705_116_800 <= s <= 253_402_300_799) then Failure(InvalidSeconds)
              else if !(0 <= n <= 999_999_999) then Failure(InvalidNanos)
              else Success(StatusUpdate(id.value, s * 1_000_000_000 + n))
  {
    if timestamp.Some? && timestamp.value.nanos < 0 {
      assert AsU32(timestamp.value.nanos) >= 0x8000_0000;
    }
  }

  lemma SecondsAndNanos(s: int, n: int)
    requires 0 <= n < NANOS_PER_SECOND
    ensures (s * NANOS_PER_SECOND + n) / NANOS_PER_SECOND == s
    ensures (s * NANOS_PER_SECOND + n) % NANOS_PER_SECOND == n
  {
  }

  /** The order of two times is the lexicographic order of their encodings, across the epoch too. */
  lemma OrderPreserved(t: Time, u: Time)
    requires Representable(t) && Representable(u)
    ensures var a, b := Encode(t), Encode(u);
            t < u <==> a.seconds < b.seconds || (a.seconds == b.seconds && a.nanos < b.nanos)
    ensures Encode(t) == Encode(u) <==> t == u
  {
    RoundTrip(0, t);
    RoundTrip(0, u);
  }
}
