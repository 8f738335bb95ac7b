/** One token bucket: refilled continuously at `rate` tokens a second up to `burst`,
    one token a request. Times are whole nanoseconds, tokens are reals. */
module TokenBucket {
  type Time = int

  const SECOND: real := 1000000000.0

  datatype Policy = Policy(rate: real, burst: int) {
    predicate Valid() { rate > 0.0 && burst >= 1 }
  }

  /** last: when tokens was brought up to date. lastSeen: the latest request. */
  datatype Bucket = Bucket(tokens: real, last: Time, lastSeen: Time)

  function NewBucket(p: Policy, now: Time): Bucket { Bucket(p.burst as real, now, now) }

  /** Tokens gained in a span of time. */
  function Gain(p: Policy, elapsed: int): real { elapsed as real / SECOND * p.rate }

  function MinReal(a: real, b: real): real { if a < b then a else b }

  /** The bucket brought up to date; a clock that went back leaves it alone. */
  function Refilled(p: Policy, b: Bucket, now: Time): Bucket {
    if now > b.last then b.(tokens := MinReal(b.tokens + Gain(p, now - b.last), p.burst as real), last := now) else b
  }

  predicate Admits(p: Policy, b: Bucket, now: Time) { Refilled(p, b, now).tokens >= 1.0 }

  function Allowed(p: Policy, b: Bucket, now: Time): Bucket {
    var r := Refilled(p, b, now);
    r.(lastSeen := now, tokens := if r.tokens >= 1.0 then r.tokens - 1.0 else r.tokens)
  }

  predicate Sound(p: Policy, b: Bucket) { 0.0 <= b.tokens <= p.burst as real }

  lemma GainAdds(p: Policy, a: int, b: int)
    requires p.Valid()
    ensures Gain(p, a) + Gain(p, b) == Gain(p, a + b)
    ensures a >= 0 ==> Gain(p, a) >= 0.0
  {
    assert (a + b) as real == a as real + b as real;
    assert (a + b) as real / SECOND * p.rate == a as real / SECOND * p.rate + b as real / SECOND * p.rate;
  }

  lemma AllowKeepsSound(p: Policy, b: Bucket, now: Time)
    requires p.Valid() && Sound(p, b)
    ensures Sound(p, Allowed(p, b, now))
    ensures Sound(p, Refilled(p, b, now))
  {
    GainAdds(p, now - b.last, 0);
  }

  /** How many of a run of requests the bucket admits. */
  function Admitted(p: Policy, b: Bucket, times: seq<Time>): nat
    decreases |times|
  {
    if times == [] then 0
    else (if Admits(p, b, times[0]) then 1 else 0) + Admitted(p, Allowed(p, b, times[0]), times[1..])
  }

  predicate Within(times: seq<Time>, t0: Time, t1: Time) {
    forall i :: 0 <= i < |times| ==> t0 <= times[i] <= t1
  }

  /** Requests admitted, from a bucket already up to date somewhere in the interval. */
  lemma {:induction false} AdmittedFrom(p: Policy, b: Bucket, times: seq<Time>, t0: Time, t1: Time)
    requires p.Valid() && Sound(p, b) && Within(times, t0, t1) && t0 <= t1
    requires b.last <= t1
    ensures Admitted(p, b, times) as real <= b.tokens + Gain(p, t1 - b.last)
    decreases |times|
  {
    if times == [] {
      GainAdds(p, t1 - b.last, 0);
    } else {
      var now, c := times[0], Allowed(p, b, times[0]);
      AllowKeepsSound(p, b, now);
      AdmittedFrom(p, c, times[1..], t0, t1);
      GainAdds(p, c.last - b.last, t1 - c.last);
    }
  }

  /** In any interval, whatever the clock does inside it, a bucket admits at most
      burst + rate * (t1 - t0) requests. */
  lemma AdmissionBound(p: Policy, b: Bucket, times: seq<Time>, t0: Time, t1: Time)
    requires p.Valid() && Sound(p, b) && Within(times, t0, t1) && t0 <= t1
    ensures Admitted(p, b, times) as real <= p.burst as real + Gain(p, t1 - t0)
  {
    GainAdds(p, t1 - t0, 0);
    if times != [] && b.last <= t1 {
      if b.last >= t0 {
        AdmittedFrom(p, b, times, t0, t1);
        GainAdds(p, b.last - t0, t1 - b.last);
      } else {
        var c := Allowed(p, b, times[0]);
        AllowKeepsSound(p, b, times[0]);
        AdmittedFrom(p, c, times[1..], t0, t1);
        GainAdds(p, c.last - t0, t1 - c.last);
      }
    } else if times != [] {
      AdmittedLate(p, b, times, t1);
    }
  }

  /** A bucket dated after the interval gains nothing in it. */
  lemma {:induction false} AdmittedLate(p: Policy, b: Bucket, times: seq<Time>, t1: Time)
    requires p.Valid() && Sound(p, b) && b.last > t1 && (forall i :: 0 <= i < |times| ==> times[i] <= t1)
    ensures Admitted(p, b, times) as real <= b.tokens
    decreases |times|
  {
    if times != [] {
      AdmittedLate(p, Allowed(p, b, times[0]), times[1..], t1);
    }
  }

  function Repeated(now: Time, n: nat): seq<Time> {
    if n == 0 then [] else [now] + Repeated(now, n - 1)
  }

  /** The bound is reached: requests at one instant are admitted one per token held. */
  lemma {:induction false} TokensAreServed(p: Policy, b: Bucket, now: Time, n: nat)
    requires p.Valid() && n as real <= Refilled(p, b, now).tokens
    ensures Admitted(p, b, Repeated(now, n)) == n
    decreases n
  {
    if n > 0 {
      var c := Allowed(p, b, now);
      assert Refilled(p, c, now) == c;
      assert Repeated(now, n)[1..] == Repeated(now, n - 1);
      TokensAreServed(p, c, now, n - 1);
    }
  }
}
