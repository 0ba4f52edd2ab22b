/** The `Timestamp` value carried by a consensus state. Its library internals are
    outside this model: a timestamp is a count of unix nanoseconds that fits a
    `u64`, and the protobuf form is the usual (seconds, nanos) pair. */
module Timestamps {
  import opened Outcomes
  import opened Integers

  const NanosPerSecond: nat := 1_000_000_000

  datatype Timestamp = Timestamp(unixNanos: U64)

  /** `google.protobuf.Timestamp`: an `i64` of seconds and an `i32` of nanos. */
  datatype ProtoTimestamp = ProtoTimestamp(seconds: int, nanos: int)

  datatype TryFromTimestampError = TryFromTimestampError

  /** A (seconds, nanos) pair names a representable timestamp. */
  predicate Representable(p: ProtoTimestamp) {
    && 0 <= p.seconds
    && 0 <= p.nanos < NanosPerSecond
    && p.seconds * NanosPerSecond + p.nanos < U64Limit
  }

  /** `Timestamp -> proto`: a normalised pair denoting the same instant. */
  function ToProto(t: Timestamp): (p: ProtoTimestamp)
    ensures Representable(p)
    ensures p.seconds * NanosPerSecond + p.nanos == t.unixNanos
  {
    ProtoTimestamp(t.unixNanos / NanosPerSecond, t.unixNanos % NanosPerSecond)
  }

  /** `proto -> Timestamp`: fails exactly on pairs outside the representable range. */
  function FromProto(p: ProtoTimestamp): (r: Result<Timestamp, TryFromTimestampError>)
    ensures r.Ok? <==> Representable(p)
    ensures r.Ok? ==> r.value.unixNanos == p.seconds * NanosPerSecond + p.nanos
  {
    if Representable(p) then Ok(Timestamp(p.seconds * NanosPerSecond + p.nanos))
    else Err(TryFromTimestampError)
  }

  /** Every timestamp survives the trip through its protobuf form. */
  lemma ProtoRoundTrip(t: Timestamp)
    ensures FromProto(ToProto(t)) == Ok(t)
  {
  }

  /** A representable pair survives the trip through `Timestamp`. */
  lemma {:induction false} ProtoRoundTripBack(p: ProtoTimestamp)
    requires Representable(p)
    ensures ToProto(FromProto(p).value) == p
  {
    var n := p.seconds * NanosPerSecond + p.nanos;
    DivModUnique(n, p.seconds, p.nanos);
  }

  lemma DivModUnique(n: int, q: int, r: int)
    requires 0 <= r < NanosPerSecond
    requires n == q * NanosPerSecond + r
    ensures n / NanosPerSecond == q && n % NanosPerSecond == r
  {
  }

  /** Timestamp from a `u64` of unix nanoseconds: total on its domain. */
  function FromUnixNanos(n: U64): (t: Timestamp)
    ensures AsUnixNanos(t) == n
  {
    Timestamp(n)
  }

  function AsUnixNanos(t: Timestamp): U64 {
    t.unixNanos
  }
}
