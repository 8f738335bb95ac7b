/** What one token bucket promises a client, over every run of requests: exactly how many
    are admitted, and that a denied request costs nothing. */
module BucketLaw {
  import opened TokenBucket

  // ---------------------------------------------------------------- the books

  /** The bucket after a run of requests. */
  function After(p: Policy, b: Bucket, times: seq<Time>): Bucket {
    if times == [] then b else Allowed(p, After(p, b, times[..|times| - 1]), times[|times| - 1])
  }

  predicate Served(p: Policy, b: Bucket, times: seq<Time>, i: nat)
    requires i < |times|
  {
    Admits(p, After(p, b, times[..i]), times[i])
  }

  /** How many of the requests from j on and before i are admitted. */
  function Count(p: Policy, b: Bucket, times: seq<Time>, j: nat, i: nat): nat
    requires j <= i <= |times|
  {
    if i == j then 0 else Count(p, b, times, j, i - 1) + if Served(p, b, times, i - 1) then 1 else 0
  }

  function MaxTime(a: Time, b: Time): Time { if a < b then b else a }

  /** The latest clock reading of a run, from `last` on. */
  function Latest(last: Time, times: seq<Time>): Time {
    if times == [] then last else MaxTime(Latest(last, times[..|times| - 1]), times[|times| - 1])
  }

  /** The tokens that did not fit when the bucket was refilled. */
  function Spill(p: Policy, b: Bucket, now: Time): real {
    var full := b.tokens + Gain(p, MaxTime(b.last, now) - b.last);
    if full > p.burst as real then full - p.burst as real else 0.0
  }

  function Spilled(p: Policy, b: Bucket, times: seq<Time>): real {
    if times == [] then 0.0
    else Spilled(p, b, times[..|times| - 1]) + Spill(p, After(p, b, times[..|times| - 1]), times[|times| - 1])
  }

  lemma {:induction false} AfterKeepsSound(p: Policy, b: Bucket, times: seq<Time>)
    requires p.Valid() && Sound(p, b)
    ensures Sound(p, After(p, b, times)) && After(p, b, times).last == Latest(b.last, times)
  {
    if times != [] {
      AfterKeepsSound(p, b, times[..|times| - 1]);
      AllowKeepsSound(p, After(p, b, times[..|times| - 1]), times[|times| - 1]);
    }
  }

  lemma {:induction false} CountOnPrefix(p: Policy, b: Bucket, times: seq<Time>, j: nat, i: nat, n: nat)
    requires j <= i <= n <= |times|
    ensures Count(p, b, times[..n], j, i) == Count(p, b, times, j, i)
  {
    if i > j {
      CountOnPrefix(p, b, times, j, i - 1, n);
      assert times[..n][..i - 1] == times[..i - 1];
    }
  }

  lemma OneRequest(p: Policy, b: Bucket, now: Time)
    requires p.Valid() && Sound(p, b)
    ensures Allowed(p, b, now).tokens + (if Admits(p, b, now) then 1.0 else 0.0) + Spill(p, b, now)
         == b.tokens + Gain(p, Allowed(p, b, now).last - b.last)
  {
    GainAdds(p, 0, 0);
  }

  /** The ledger of a bucket, whatever the clock does: the tokens left, the requests
      admitted and the tokens that did not fit are the tokens there were and those
      gained since. While the cap is not exceeded nothing is lost, so every token is held
      or has served a request. */
  lemma {:induction false} TokenLedger(p: Policy, b: Bucket, times: seq<Time>)
    requires p.Valid() && Sound(p, b)
    ensures After(p, b, times).tokens + Count(p, b, times, 0, |times|) as real + Spilled(p, b, times)
         == b.tokens + Gain(p, Latest(b.last, times) - b.last)
  {
    if times == [] {
      GainAdds(p, 0, 0);
    } else {
      var n := |times| - 1;
      var mid := After(p, b, times[..n]);
      TokenLedger(p, b, times[..n]);
      AfterKeepsSound(p, b, times[..n]);
      CountOnPrefix(p, b, times, 0, n, n);
      OneRequest(p, mid, times[n]);
      GainAdds(p, mid.last - b.last, Allowed(p, mid, times[n]).last - mid.last);
    }
  }

  // ---------------------------------------------------------------- exactly who is admitted

  predicate Monotone(times: seq<Time>) {
    forall i, j :: 0 <= i <= j < |times| ==> times[i] <= times[j]
  }

  /** The room an interval that ends with request i leaves: what the bound allows in it,
      less what was admitted in it before. */
  function Room(p: Policy, b: Bucket, times: seq<Time>, j: nat, i: nat): real
    requires j <= i < |times|
  {
    p.burst as real + Gain(p, times[i] - times[j]) - Count(p, b, times, j, i) as real
  }

  predicate Fresh(p: Policy, b: Bucket, times: seq<Time>) {
    b.tokens == p.burst as real && Monotone(times) && (times != [] ==> b.last <= times[0])
  }

  /** The tokens that request i finds. */
  function Found(p: Policy, b: Bucket, times: seq<Time>, i: nat): real
    requires i < |times|
  {
    Refilled(p, After(p, b, times[..i]), times[i]).tokens
  }

  lemma {:induction false} DatedByLast(p: Policy, b: Bucket, times: seq<Time>)
    requires Fresh(p, b, times) && times != []
    ensures After(p, b, times).last == times[|times| - 1]
  {
    var n := |times| - 1;
    if n > 0 {
      DatedByLast(p, b, times[..n]);
    }
  }

  lemma FoundNext(p: Policy, b: Bucket, times: seq<Time>, i: nat)
    requires p.Valid() && Fresh(p, b, times) && i + 1 < |times|
    ensures Found(p, b, times, i + 1)
         == MinReal(Found(p, b, times, i) - (if Served(p, b, times, i) then 1.0 else 0.0) + Gain(p, times[i + 1] - times[i]), p.burst as real)
  {
    var run := times[..i + 1];
    assert run[..i] == times[..i];
    DatedByLast(p, b, run);
    FoundWithin(p, b, times, i);
    GainAdds(p, 0, 0);
  }

  lemma FoundWithin(p: Policy, b: Bucket, times: seq<Time>, i: nat)
    requires p.Valid() && Fresh(p, b, times) && i < |times|
    ensures 0.0 <= Found(p, b, times, i) <= p.burst as real
  {
    AfterKeepsSound(p, b, times[..i]);
    AllowKeepsSound(p, After(p, b, times[..i]), times[i]);
  }

  lemma FoundFirst(p: Policy, b: Bucket, times: seq<Time>)
    requires p.Valid() && Fresh(p, b, times) && times != []
    ensures Found(p, b, times, 0) == p.burst as real
  {
    GainAdds(p, times[0] - b.last, 0);
  }

  lemma RoomNext(p: Policy, b: Bucket, times: seq<Time>, j: nat, i: nat)
    requires p.Valid() && j <= i && i + 1 < |times|
    ensures Room(p, b, times, j, i + 1)
         == Room(p, b, times, j, i) - (if Served(p, b, times, i) then 1.0 else 0.0) + Gain(p, times[i + 1] - times[i])
  {
    GainAdds(p, times[i] - times[j], times[i + 1] - times[i]);
  }

  lemma RoomNow(p: Policy, b: Bucket, times: seq<Time>, i: nat)
    requires p.Valid() && i < |times|
    ensures Room(p, b, times, i, i) == p.burst as real
  {
    GainAdds(p, 0, 0);
  }

  /** What a request finds is the least room of all intervals that end with it. */
  lemma {:induction false} FoundIsLeastRoom(p: Policy, b: Bucket, times: seq<Time>, i: nat) returns (least: nat)
    requires p.Valid() && Fresh(p, b, times) && i < |times|
    ensures least <= i && Found(p, b, times, i) == Room(p, b, times, least, i)
    ensures forall j: nat | j <= i :: Found(p, b, times, i) <= Room(p, b, times, j, i)
  {
    RoomNow(p, b, times, i);
    if i == 0 {
      FoundFirst(p, b, times);
      least := 0;
    } else {
      least := FoundIsLeastRoom(p, b, times, i - 1);
      FoundNext(p, b, times, i - 1);
      forall j: nat | j <= i
        ensures Found(p, b, times, i) <= Room(p, b, times, j, i)
      {
        if j < i {
          RoomNext(p, b, times, j, i - 1);
        }
      }
      RoomNext(p, b, times, least, i - 1);
      if Found(p, b, times, i) != Room(p, b, times, least, i) {
        least := i;
      }
    }
  }

  /** One more than n is no more than burst + rate * span. */
  predicate Bounded(p: Policy, n: nat, span: int) { (n + 1) as real <= p.burst as real + Gain(p, span) }

  /** With request i the interval from request j on holds no more than the bound allows. */
  predicate Fits(p: Policy, b: Bucket, times: seq<Time>, j: nat, i: nat)
    requires j <= i < |times|
  {
    Bounded(p, Count(p, b, times, j, i), times[i] - times[j])
  }

  /** Under a clock that does not go back, a bucket that was full admits a request if and
      only if no interval that ends with it would then hold more than burst + rate * length
      admitted requests. So it never admits one too many, and never turns one away
      that the bound leaves room for. */
  lemma AdmittedIff(p: Policy, b: Bucket, times: seq<Time>, i: nat)
    requires p.Valid() && Fresh(p, b, times) && i < |times|
    ensures Served(p, b, times, i) <==> forall j: nat | j <= i :: Fits(p, b, times, j, i)
  {
    var least := FoundIsLeastRoom(p, b, times, i);
    if Served(p, b, times, i) {
      forall j: nat | j <= i
        ensures Fits(p, b, times, j, i)
      {
        assert Found(p, b, times, i) <= Room(p, b, times, j, i);
      }
    } else {
      assert !Fits(p, b, times, least, i);
    }
  }

  // ---------------------------------------------------------------- denials

  function Answers(p: Policy, b: Bucket, times: seq<Time>): (r: seq<bool>)
    ensures |r| == |times|
    decreases |times|
  {
    if times == [] then [] else [Admits(p, b, times[0])] + Answers(p, Allowed(p, b, times[0]), times[1..])
  }

  function Without<T>(s: seq<T>, k: nat): seq<T>
    requires k < |s|
  {
    s[..k] + s[k + 1..]
  }

  lemma WithoutLater<T>(x: T, s: seq<T>, k: nat)
    requires k < |s|
    ensures Without([x] + s, k + 1) == [x] + Without(s, k)
  {
  }

  lemma AnswersCons(p: Policy, b: Bucket, now: Time, rest: seq<Time>)
    ensures Answers(p, b, [now] + rest) == [Admits(p, b, now)] + Answers(p, Allowed(p, b, now), rest)
  {
    assert ([now] + rest)[1..] == rest;
  }

  /** c is b as brought up to date somewhat later. */
  predicate Ahead(p: Policy, b: Bucket, c: Bucket) {
    b.last <= c.last && Refilled(p, b, c.last).tokens == c.tokens
  }

  lemma RefillTwice(p: Policy, b: Bucket, t: Time, now: Time)
    requires p.Valid() && t <= now
    ensures Refilled(p, Refilled(p, b, t), now).tokens == Refilled(p, b, now).tokens
    ensures Refilled(p, Refilled(p, b, t), now).last == Refilled(p, b, now).last
  {
    if b.last < t < now {
      GainAdds(p, t - b.last, now - t);
      GainAdds(p, now - t, 0);
    }
  }

  lemma AheadAnswersAlike(p: Policy, b: Bucket, c: Bucket, now: Time)
    requires p.Valid() && Ahead(p, b, c) && c.last <= now
    ensures Admits(p, b, now) <==> Admits(p, c, now)
    ensures Ahead(p, Allowed(p, b, now), Allowed(p, c, now))
  {
    RefillTwice(p, b, c.last, now);
  }

  predicate Forward(b: Bucket, times: seq<Time>) { Monotone(times) && (times != [] ==> b.last <= times[0]) }

  lemma ForwardOn(p: Policy, b: Bucket, times: seq<Time>)
    requires Forward(b, times) && times != []
    ensures Forward(Allowed(p, b, times[0]), times[1..])
  {
  }

  lemma {:induction false} AheadRunsAlike(p: Policy, b: Bucket, c: Bucket, times: seq<Time>)
    requires p.Valid() && Ahead(p, b, c) && Forward(c, times)
    ensures Answers(p, b, times) == Answers(p, c, times)
    decreases |times|
  {
    if times != [] {
      AheadAnswersAlike(p, b, c, times[0]);
      ForwardOn(p, c, times);
      AheadRunsAlike(p, Allowed(p, b, times[0]), Allowed(p, c, times[0]), times[1..]);
    }
  }

  /** A denied request costs nothing: under a clock that does not go back, the run without
      it gets the same answers. */
  lemma {:induction false} DenialCostsNothing(p: Policy, b: Bucket, times: seq<Time>, k: nat)
    requires p.Valid() && Forward(b, times) && k < |times| && !Answers(p, b, times)[k]
    ensures Answers(p, b, Without(times, k)) == Without(Answers(p, b, times), k)
    decreases |times|
  {
    var now, rest := times[0], times[1..];
    var c := Allowed(p, b, now);
    ForwardOn(p, b, times);
    if k == 0 {
      AheadRunsAlike(p, b, c, rest);
      assert Without(times, 0) == rest && Without(Answers(p, b, times), 0) == Answers(p, c, rest);
    } else {
      DenialCostsNothing(p, c, rest, k - 1);
      assert times == [now] + rest;
      WithoutLater(now, rest, k - 1);
      AnswersCons(p, b, now, Without(rest, k - 1));
      WithoutLater(Admits(p, b, now), Answers(p, c, rest), k - 1);
    }
  }

  lemma {:induction false} AfterFirst(p: Policy, b: Bucket, times: seq<Time>)
    requires times != []
    ensures After(p, b, times) == After(p, Allowed(p, b, times[0]), times[1..])
  {
    var n := |times| - 1;
    if n > 0 {
      AfterFirst(p, b, times[..n]);
      assert times[..n][1..] == times[1..][..n - 1];
    }
  }

  /** The answers are who is served, so AdmittedIff and TokenLedger are about them. */
  lemma {:induction false} AnswersAreServed(p: Policy, b: Bucket, times: seq<Time>, i: nat)
    requires i < |times|
    ensures Answers(p, b, times)[i] == Served(p, b, times, i)
    decreases i
  {
    if i > 0 {
      AnswersAreServed(p, Allowed(p, b, times[0]), times[1..], i - 1);
      AfterFirst(p, b, times[..i]);
      assert times[..i][1..] == times[1..][..i - 1];
    }
  }
}
