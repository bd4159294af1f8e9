/** The per-credential token-bucket limiter of src/ratelimit.rs.

    `Limiter.Check` is the in-place form: it charges one request against a map
    of buckets that forgets idle callers. `CheckStep` is its specification on
    values. What a caller can observe is captured by `Level`, the number of
    tokens a key would have at a given time: forgetting an idle caller does not
    change it, which is why the forgetting map answers like one that never
    forgets. Instants and token counts are reals. */
module RateLimit {
  import opened Basics

  const IDLE_EVICTION: real := 600.0
  const SWEEP_EVERY: nat := 512
  const MAX_TRACKED: nat := 10_000

  type Key = string

  datatype Bucket = Bucket(tokens: real, last: real)

  type Buckets = map<Key, Bucket>

  datatype Inner = Inner(buckets: Buckets, sinceSweep: nat)

  datatype Limits = Limits(refill: real, burst: real)

  datatype Answer = Accepted | Throttled(retryAfterSecs: nat)

  /** One check: the map afterwards, the answer, and whether the refusal came
      from the tracking ceiling rather than from the key's own bucket. */
  datatype Checked = Checked(inner: Inner, answer: Answer, atCeiling: bool)

  /** A request as it reaches the lock: who, and the clock it read. */
  datatype Query = Query(key: Key, now: real)

  function Min(a: real, b: real): real { if a <= b then a else b }

  function Max(a: real, b: real): real { if a >= b then a else b }

  function Ceil(x: real): int { -((-x).Floor) }

  // A rate of 0 disables limiting; otherwise burst is a tenth of the minute's
  // budget, at least 10.
  function New(perMinute: nat): Option<Limits> {
    if perMinute == 0 then None
    else Some(Limits(perMinute as real / 60.0, Max(perMinute as real / 10.0, 10.0)))
  }

  /** The limits `New` can produce, by the three facts the proofs use. The
      last one is tight at one request a minute: 600 / 60 = 10 = burst. */
  ghost predicate Sound(lim: Limits) {
    && lim.refill >= 1.0 / 60.0
    && lim.burst >= 10.0
    && IDLE_EVICTION * lim.refill >= lim.burst
  }

  lemma NewIsValid(perMinute: nat)
    ensures New(perMinute).None? <==> perMinute == 0
    ensures New(perMinute).Some? ==> Sound(New(perMinute).value)
    ensures New(perMinute).Some? ==> New(perMinute).value.refill * 60.0 == perMinute as real
    ensures New(perMinute).Some? ==>
              New(perMinute).value.burst == if perMinute <= 100 then 10.0 else perMinute as real / 10.0
    ensures perMinute == 1 ==> 600.0 * New(perMinute).value.refill == New(perMinute).value.burst
  {
    if perMinute > 0 {
      assert perMinute as real >= 1.0;
    }
  }

  // `duration_since` saturates at zero.
  function Elapsed(now: real, last: real): real { if now >= last then now - last else 0.0 }

  /** Tokens that flow into a bucket in `span` seconds. */
  function Inflow(lim: Limits, span: real): real { span * lim.refill }

  function Refilled(lim: Limits, b: Bucket, now: real): real {
    Min(b.tokens + Inflow(lim, Elapsed(now, b.last)), lim.burst)
  }

  /** A clock reading from before a bucket was last touched adds nothing to it. */
  lemma NoRefillBackwards(lim: Limits, b: Bucket, now: real)
    requires now <= b.last && b.tokens <= lim.burst
    ensures Refilled(lim, b, now) == b.tokens
  {
  }

  function Sweep(bs: Buckets, now: real): Buckets {
    map k | k in bs && Elapsed(now, bs[k].last) < IDLE_EVICTION :: bs[k]
  }

  function RetryAfter(lim: Limits, tokens: real): nat
    requires lim.refill > 0.0
  {
    var secs := Ceil((1.0 - tokens) / lim.refill);
    if secs > 1 then secs else 1
  }

  // The tail of `check`: refill the bucket, then take a token or refuse.
  function Settle(lim: Limits, st: Inner, key: Key, b: Bucket, now: real): Checked
    requires lim.refill > 0.0
  {
    var tokens := Refilled(lim, b, now);
    if tokens >= 1.0 then
      Checked(st.(buckets := st.buckets[key := Bucket(tokens - 1.0, now)]), Accepted, false)
    else
      Checked(st.(buckets := st.buckets[key := Bucket(tokens, now)]), Throttled(RetryAfter(lim, tokens)), false)
  }

  // Every `SWEEP_EVERY` checks, idle buckets are dropped.
  function Ticked(st: Inner, now: real): Inner {
    if st.sinceSweep + 1 >= SWEEP_EVERY then Inner(Sweep(st.buckets, now), 0)
    else Inner(st.buckets, st.sinceSweep + 1)
  }

  // So they are when a new caller finds the map full.
  function Relieved(st: Inner, now: real): Inner {
    if |st.buckets| >= MAX_TRACKED then st.(buckets := Sweep(st.buckets, now)) else st
  }

  function CheckStep(lim: Limits, st: Inner, key: Key, now: real): Checked
    requires lim.refill > 0.0
  {
    var st1 := Ticked(st, now);
    if key in st1.buckets then Settle(lim, st1, key, st1.buckets[key], now)
    else
      var st2 := Relieved(st1, now);
      if |st2.buckets| >= MAX_TRACKED then Checked(st2, Throttled(60), true)
      else Settle(lim, st2, key, Bucket(lim.burst, now), now)
  }

  // ------------------------------------------------------------- the level --

  /** Tokens `key` would have at `now`. A key nobody tracks has a full bucket. */
  function Level(lim: Limits, bs: Buckets, key: Key, now: real): real {
    if key in bs then Refilled(lim, bs[key], now) else lim.burst
  }

  /** Every bucket holds between none and a burst of tokens, stamped no later
      than `clock`. */
  ghost predicate Sane(lim: Limits, bs: Buckets, clock: real) {
    forall k <- bs :: 0.0 <= bs[k].tokens <= lim.burst && bs[k].last <= clock
  }

  lemma SaneLater(lim: Limits, bs: Buckets, s: real, t: real)
    requires Sane(lim, bs, s) && s <= t
    ensures Sane(lim, bs, t)
  {}

  lemma MulMono(a: real, b: real, c: real)
    requires a <= b && c >= 0.0
    ensures a * c <= b * c
  {}

  lemma InflowAdds(lim: Limits, a: real, b: real)
    ensures Inflow(lim, a + b) == Inflow(lim, a) + Inflow(lim, b)
  {}

  lemma InflowMono(lim: Limits, a: real, b: real)
    requires lim.refill >= 0.0 && a <= b
    ensures Inflow(lim, a) <= Inflow(lim, b) && Inflow(lim, 0.0) == 0.0
  {
    MulMono(a, b, lim.refill);
  }

  /** Between checks a level rises at the refill rate and stops at the burst. */
  lemma LevelFlows(lim: Limits, bs: Buckets, key: Key, s: real, t: real)
    requires Sound(lim) && Sane(lim, bs, s) && s <= t
    ensures Level(lim, bs, key, t) == Min(Level(lim, bs, key, s) + Inflow(lim, t - s), lim.burst)
    ensures 0.0 <= Level(lim, bs, key, s) <= lim.burst
  {
    hide Inflow;
    InflowMono(lim, 0.0, t - s);
    if key in bs {
      var b := bs[key];
      InflowAdds(lim, s - b.last, t - s);
      assert (s - b.last) + (t - s) == t - b.last;
      InflowMono(lim, 0.0, s - b.last);
    }
  }

  /** Idleness refills any bucket, so forgetting an idle caller is invisible. */
  lemma SweepKeepsLevels(lim: Limits, bs: Buckets, key: Key, now: real)
    requires Sound(lim) && Sane(lim, bs, now)
    ensures Level(lim, Sweep(bs, now), key, now) == Level(lim, bs, key, now)
    ensures Sane(lim, Sweep(bs, now), now)
  {
    if key in bs && key !in Sweep(bs, now) {
      InflowMono(lim, IDLE_EVICTION, now - bs[key].last);
    }
  }

  lemma SweepShrinks(bs: Buckets, now: real)
    ensures |Sweep(bs, now)| <= |bs| && Sweep(bs, now).Keys <= bs.Keys
  {
    SubsetSize(Sweep(bs, now).Keys, bs.Keys);
  }

  lemma {:induction false} SubsetSize(a: set<Key>, b: set<Key>)
    requires a <= b
    ensures |a| <= |b|
  {
    if a != {} {
      var x :| x in a;
      SubsetSize(a - {x}, b - {x});
    }
  }

  /** What a check that reached the key's own bucket answers, from its level alone. */
  function Verdict(lim: Limits, level: real): Answer
    requires lim.refill > 0.0
  {
    if level >= 1.0 then Accepted else Throttled(RetryAfter(lim, level))
  }

  function Cost(answer: Answer): real { if answer.Accepted? then 1.0 else 0.0 }

  lemma SettleOnLevels(lim: Limits, st: Inner, key: Key, b: Bucket, now: real, other: Key)
    requires Sound(lim) && Sane(lim, st.buckets, now)
    requires 0.0 <= b.tokens <= lim.burst && b.last <= now
    requires Refilled(lim, b, now) == Level(lim, st.buckets, key, now)
    ensures var c := Settle(lim, st, key, b, now);
            && !c.atCeiling && key in c.inner.buckets && c.inner.buckets[key].last == now
            && Sane(lim, c.inner.buckets, now)
            && c.answer == Verdict(lim, Level(lim, st.buckets, key, now))
            && Level(lim, c.inner.buckets, key, now) == Level(lim, st.buckets, key, now) - Cost(c.answer)
            && (other != key ==> Level(lim, c.inner.buckets, other, now) == Level(lim, st.buckets, other, now))
  {
    hide RetryAfter, Inflow;
    InflowMono(lim, 0.0, now - b.last);
  }

  /** One check, in terms of levels: a refusal at the ceiling changes none; any
      other answer is decided by the caller's level and, when it is an
      acceptance, costs that caller one token and nobody else anything. */
  lemma CheckOnLevels(lim: Limits, st: Inner, key: Key, now: real, other: Key)
    requires Sound(lim) && Sane(lim, st.buckets, now)
    ensures var c := CheckStep(lim, st, key, now);
            && Sane(lim, c.inner.buckets, now)
            && (!c.atCeiling ==>
                  && c.answer == Verdict(lim, Level(lim, st.buckets, key, now))
                  && key in c.inner.buckets && c.inner.buckets[key].last == now)
            && (c.atCeiling ==> c.answer == Throttled(60) && key !in c.inner.buckets)
            && Level(lim, c.inner.buckets, key, now) == Level(lim, st.buckets, key, now) - Cost(c.answer)
            && (other != key ==> Level(lim, c.inner.buckets, other, now) == Level(lim, st.buckets, other, now))
  {
    hide Refilled, Settle, Verdict, Ticked, Relieved;
    var st1 := Ticked(st, now);
    DropsKeepLevels(lim, st, key, now);
    DropsKeepLevels(lim, st, other, now);
    if key in st1.buckets {
      SettleOnLevels(lim, st1, key, st1.buckets[key], now, other);
    } else {
      DropsKeepLevels(lim, st1, key, now);
      DropsKeepLevels(lim, st1, other, now);
      var st2 := Relieved(st1, now);
      if |st2.buckets| < MAX_TRACKED {
        FullBucket(lim, now);
        SettleOnLevels(lim, st2, key, Bucket(lim.burst, now), now, other);
      }
    }
  }

  lemma DropsKeepLevels(lim: Limits, st: Inner, key: Key, now: real)
    requires Sound(lim) && Sane(lim, st.buckets, now)
    ensures Level(lim, Ticked(st, now).buckets, key, now) == Level(lim, st.buckets, key, now)
    ensures Level(lim, Relieved(st, now).buckets, key, now) == Level(lim, st.buckets, key, now)
    ensures Sane(lim, Ticked(st, now).buckets, now) && Sane(lim, Relieved(st, now).buckets, now)
    ensures key !in st.buckets ==> key !in Relieved(st, now).buckets
  {
    SweepKeepsLevels(lim, st.buckets, key, now);
  }

  lemma FullBucket(lim: Limits, now: real)
    requires Sound(lim)
    ensures Refilled(lim, Bucket(lim.burst, now), now) == lim.burst
  {}

  /** The map never tracks more than the ceiling. */
  lemma CheckBoundsTracking(lim: Limits, st: Inner, key: Key, now: real)
    requires Sound(lim) && |st.buckets| <= MAX_TRACKED
    ensures |CheckStep(lim, st, key, now).inner.buckets| <= MAX_TRACKED
  {
    hide Sweep, Settle, Ticked, Relieved;
    var st1 := Ticked(st, now);
    var st2 := Relieved(st1, now);
    DropsShrink(st, now);
    DropsShrink(st1, now);
    if key in st1.buckets {
      SettleKeys(lim, st1, key, st1.buckets[key], now);
      assert st1.buckets.Keys + {key} == st1.buckets.Keys;
    } else {
      SettleKeys(lim, st2, key, Bucket(lim.burst, now), now);
    }
  }

  lemma DropsShrink(st: Inner, now: real)
    ensures |Ticked(st, now).buckets| <= |st.buckets| && |Relieved(st, now).buckets| <= |st.buckets|
  {
    SweepShrinks(st.buckets, now);
  }

  lemma SettleKeys(lim: Limits, st: Inner, key: Key, b: Bucket, now: real)
    requires Sound(lim)
    ensures Settle(lim, st, key, b, now).inner.buckets.Keys == st.buckets.Keys + {key}
    ensures |Settle(lim, st, key, b, now).inner.buckets| == |st.buckets.Keys + {key}|
  {
    hide RetryAfter, Refilled;
    assert Settle(lim, st, key, b, now).inner.buckets.Keys == st.buckets.Keys + {key};
  }

  // ------------------------------------------------------------------ runs --

  ghost predicate Nondecreasing(qs: seq<Query>, clock: real) {
    && (forall i | 0 <= i < |qs| :: clock <= qs[i].now)
    && (forall i, j | 0 <= i < j < |qs| :: qs[i].now <= qs[j].now)
  }

  function Final(lim: Limits, st: Inner, qs: seq<Query>): Inner
    requires lim.refill > 0.0
    decreases |qs|
  {
    if qs == [] then st
    else Final(lim, CheckStep(lim, st, qs[0].key, qs[0].now).inner, qs[1..])
  }

  /** The queries of a run that the tracking ceiling did not refuse, and what
      those were answered. */
  function Admitted(lim: Limits, st: Inner, qs: seq<Query>): seq<Query>
    requires lim.refill > 0.0
    decreases |qs|
  {
    if qs == [] then []
    else
      var c := CheckStep(lim, st, qs[0].key, qs[0].now);
      (if c.atCeiling then [] else [qs[0]]) + Admitted(lim, c.inner, qs[1..])
  }

  function AdmittedAnswers(lim: Limits, st: Inner, qs: seq<Query>): seq<Answer>
    requires lim.refill > 0.0
    decreases |qs|
  {
    if qs == [] then []
    else
      var c := CheckStep(lim, st, qs[0].key, qs[0].now);
      (if c.atCeiling then [] else [c.answer]) + AdmittedAnswers(lim, c.inner, qs[1..])
  }

  // The reference: one bucket per caller, kept for ever.
  function KeptTokens(lim: Limits, bs: Buckets, q: Query): real {
    if q.key in bs then Refilled(lim, bs[q.key], q.now) else lim.burst
  }

  function KeptAnswer(lim: Limits, bs: Buckets, q: Query): Answer
    requires lim.refill > 0.0
  {
    if KeptTokens(lim, bs, q) >= 1.0 then Accepted else Throttled(RetryAfter(lim, KeptTokens(lim, bs, q)))
  }

  function KeptAfter(lim: Limits, bs: Buckets, q: Query): Buckets {
    var tokens := KeptTokens(lim, bs, q);
    bs[q.key := Bucket(if tokens >= 1.0 then tokens - 1.0 else tokens, q.now)]
  }

  function NeverEvicting(lim: Limits, bs: Buckets, qs: seq<Query>): seq<Answer>
    requires lim.refill > 0.0
    decreases |qs|
  {
    if qs == [] then []
    else [KeptAnswer(lim, bs, qs[0])] + NeverEvicting(lim, KeptAfter(lim, bs, qs[0]), qs[1..])
  }

  lemma KeptOnLevels(lim: Limits, bs: Buckets, q: Query, other: Key)
    requires Sound(lim) && Sane(lim, bs, q.now)
    ensures var after := KeptAfter(lim, bs, q);
            var level := Level(lim, bs, q.key, q.now);
            && Sane(lim, after, q.now)
            && KeptAnswer(lim, bs, q) == Verdict(lim, level)
            && Level(lim, after, q.key, q.now) == level - Cost(KeptAnswer(lim, bs, q))
            && (other != q.key ==> Level(lim, after, other, q.now) == Level(lim, bs, other, q.now))
  {
    hide RetryAfter, Inflow;
    LevelFlows(lim, bs, q.key, q.now, q.now);
    InflowMono(lim, 0.0, 0.0);
  }

  ghost predicate SameLevels(lim: Limits, a: Buckets, b: Buckets, at: real) {
    forall k :: Level(lim, a, k, at) == Level(lim, b, k, at)
  }

  lemma SameLevelsFlow(lim: Limits, a: Buckets, b: Buckets, s: real, t: real)
    requires Sound(lim) && Sane(lim, a, s) && Sane(lim, b, s) && s <= t && SameLevels(lim, a, b, s)
    ensures SameLevels(lim, a, b, t)
  {
    forall k ensures Level(lim, a, k, t) == Level(lim, b, k, t) {
      LevelFlows(lim, a, k, s, t);
      LevelFlows(lim, b, k, s, t);
    }
  }

  lemma {:induction false} SameLevelsSameAnswers(lim: Limits, st: Inner, kept: Buckets, clock: real, qs: seq<Query>)
    requires Sound(lim) && Sane(lim, st.buckets, clock) && Sane(lim, kept, clock)
    requires SameLevels(lim, st.buckets, kept, clock)
    requires Nondecreasing(qs, clock)
    ensures AdmittedAnswers(lim, st, qs) == NeverEvicting(lim, kept, Admitted(lim, st, qs))
    decreases |qs|
  {
    hide CheckStep, Level, Verdict, KeptAfter, KeptAnswer, Sane;
    if qs == [] {
    } else {
      var q := qs[0];
      var c := CheckStep(lim, st, q.key, q.now);
      SameLevelsFlow(lim, st.buckets, kept, clock, q.now);
      SaneLater(lim, st.buckets, clock, q.now);
      SaneLater(lim, kept, clock, q.now);
      CheckOnLevels(lim, st, q.key, q.now, q.key);
      KeptOnLevels(lim, kept, q, q.key);
      var kept' := if c.atCeiling then kept else KeptAfter(lim, kept, q);
      forall k ensures Level(lim, c.inner.buckets, k, q.now) == Level(lim, kept', k, q.now) {
        CheckOnLevels(lim, st, q.key, q.now, k);
        KeptOnLevels(lim, kept, q, k);
      }
      SameLevelsSameAnswers(lim, c.inner, kept', q.now, qs[1..]);
      var rest := Admitted(lim, c.inner, qs[1..]);
      assert c.atCeiling ==> Admitted(lim, st, qs) == rest;
      assert !c.atCeiling ==> Admitted(lim, st, qs)[1..] == rest;
    }
  }

  /** From an empty map, over every non-decreasing clock trace: the limiter that
      forgets idle callers answers every check the ceiling let through exactly
      as the one that never forgets. */
  lemma EvictionIsInvisible(perMinute: nat, qs: seq<Query>, clock: real)
    requires perMinute > 0 && Nondecreasing(qs, clock)
    ensures var lim := New(perMinute).value;
            lim.refill > 0.0 &&
            AdmittedAnswers(lim, Inner(map[], 0), qs) == NeverEvicting(lim, map[], Admitted(lim, Inner(map[], 0), qs))
  {
    NewIsValid(perMinute);
    SameLevelsSameAnswers(New(perMinute).value, Inner(map[], 0), map[], clock, qs);
  }

  /** In no run, whatever its clock readings, does the map outgrow the ceiling. */
  lemma {:induction false} TrackingIsBounded(perMinute: nat, st: Inner, qs: seq<Query>)
    requires perMinute > 0 && |st.buckets| <= 10_000
    ensures New(perMinute).value.refill > 0.0 && |Final(New(perMinute).value, st, qs).buckets| <= 10_000
    decreases |qs|
  {
    NewIsValid(perMinute);
    if qs == [] {
    } else {
      hide CheckStep;
      var lim := New(perMinute).value;
      CheckBoundsTracking(lim, st, qs[0].key, qs[0].now);
      TrackingIsBounded(perMinute, CheckStep(lim, st, qs[0].key, qs[0].now).inner, qs[1..]);
    }
  }

  /** Requests of `key` accepted in a run. */
  function AcceptedCount(lim: Limits, st: Inner, qs: seq<Query>, key: Key): nat
    requires lim.refill > 0.0
    decreases |qs|
  {
    if qs == [] then 0
    else
      var c := CheckStep(lim, st, qs[0].key, qs[0].now);
      (if qs[0].key == key && c.answer.Accepted? then 1 else 0) + AcceptedCount(lim, c.inner, qs[1..], key)
  }

  /** Conservation: what was accepted, plus what is left, is at most what was
      there plus what flowed in. */
  lemma {:induction false} TokensAreConserved(
    lim: Limits, st: Inner, clock: real, qs: seq<Query>, key: Key, until: real)
    requires Sound(lim) && Sane(lim, st.buckets, clock)
    requires Nondecreasing(qs, clock) && clock <= until && forall q <- qs :: q.now <= until
    ensures AcceptedCount(lim, st, qs, key) as real + Level(lim, Final(lim, st, qs).buckets, key, until)
            <= Level(lim, st.buckets, key, clock) + Inflow(lim, until - clock)
    decreases |qs|
  {
    hide CheckStep, Level, Sane, Inflow;
    if qs == [] {
      LevelFlows(lim, st.buckets, key, clock, until);
    } else {
      var q := qs[0];
      var c := CheckStep(lim, st, q.key, q.now);
      LevelFlows(lim, st.buckets, key, clock, q.now);
      SaneLater(lim, st.buckets, clock, q.now);
      CheckOnLevels(lim, st, q.key, q.now, key);
      TokensAreConserved(lim, c.inner, q.now, qs[1..], key, until);
      InflowAdds(lim, q.now - clock, until - q.now);
    }
  }

  lemma {:induction false} SuffixOfRun(lim: Limits, st: Inner, clock: real, qs: seq<Query>, i: nat)
    requires Sound(lim) && Sane(lim, st.buckets, clock) && Nondecreasing(qs, clock) && i <= |qs|
    ensures var at := if i == 0 then clock else qs[i - 1].now;
            Sane(lim, Final(lim, st, qs[..i]).buckets, at) && Nondecreasing(qs[i..], at)
    decreases i
  {
    if i > 0 {
      var c := CheckStep(lim, st, qs[0].key, qs[0].now);
      CheckOnLevels(lim, st, qs[0].key, qs[0].now, qs[0].key);
      SuffixOfRun(lim, c.inner, qs[0].now, qs[1..], i - 1);
      assert qs[..i][1..] == qs[1..][..i - 1];
      assert qs[1..][i - 1..] == qs[i..];
    }
  }

  lemma StretchBound(lim: Limits, st: Inner, qs: seq<Query>, at: real, key: Key, from: real, to: real)
    requires Sound(lim) && Sane(lim, st.buckets, at) && Nondecreasing(qs, at) && from <= at <= to
    requires forall q <- qs :: q.now <= to
    ensures AcceptedCount(lim, st, qs, key) as real <= lim.burst + Inflow(lim, to - from)
  {
    hide CheckStep, Level, Final, Inflow, AcceptedCount;
    TokensAreConserved(lim, st, at, qs, key, to);
    LevelFlows(lim, st.buckets, key, at, at);
    WindowSlack(lim, at, from, to);
    RunStaysSane(lim, st, at, qs, to);
    LevelFlows(lim, Final(lim, st, qs).buckets, key, to, to);
  }

  lemma WindowBoundIn(lim: Limits, qs: seq<Query>, clock: real, i: nat, j: nat, key: Key, from: real, to: real)
    requires Sound(lim) && Nondecreasing(qs, clock) && i <= j <= |qs|
    requires forall m | i <= m < j :: from <= qs[m].now <= to
    requires from <= to
    ensures AcceptedCount(lim, Final(lim, Inner(map[], 0), qs[..i]), qs[i..j], key) as real
            <= lim.burst + Inflow(lim, to - from)
  {
    hide CheckStep, Level, Final, Inflow;
    InflowMono(lim, 0.0, to - from);
    var st, some := Final(lim, Inner(map[], 0), qs[..i]), qs[i..j];
    if i < j {
      SuffixOfRun(lim, Inner(map[], 0), clock, qs, i);
      assert forall m | 0 <= m < j - i :: some[m] == qs[i + m];
      assert Nondecreasing(some, qs[i].now);
      SaneLater(lim, st.buckets, if i == 0 then clock else qs[i - 1].now, qs[i].now);
      hide AcceptedCount, Sane;
      StretchBound(lim, st, some, qs[i].now, key, from, to);
    }
  }

  /** In every stretch `qs[i..j]` of every run from an empty map, the requests
      of `key` accepted between times `from` and `to` number at most the burst, a
      tenth of the minute's budget and at least ten, plus the rate times the length
      of that window. */
  lemma WindowBound(perMinute: nat, qs: seq<Query>, clock: real, i: nat, j: nat, key: Key, from: real, to: real)
    requires perMinute > 0 && Nondecreasing(qs, clock) && i <= j <= |qs|
    requires forall m | i <= m < j :: from <= qs[m].now <= to
    requires from <= to
    ensures var lim := New(perMinute).value;
            lim.refill > 0.0 &&
            AcceptedCount(lim, Final(lim, Inner(map[], 0), qs[..i]), qs[i..j], key) as real
            <= (if perMinute <= 100 then 10.0 else perMinute as real / 10.0) + perMinute as real * (to - from) / 60.0
  {
    hide *;
    NewIsValid(perMinute);
    var lim := New(perMinute).value;
    WindowBoundIn(lim, qs, clock, i, j, key, from, to);
    InflowInMinutes(lim, perMinute, to - from);
  }

  lemma InflowInMinutes(lim: Limits, perMinute: nat, span: real)
    requires lim.refill * 60.0 == perMinute as real
    ensures Inflow(lim, span) == perMinute as real * span / 60.0
  {
  }

  lemma WindowSlack(lim: Limits, at: real, from: real, to: real)
    requires Sound(lim) && from <= at <= to
    ensures Inflow(lim, to - at) <= Inflow(lim, to - from)
  {
    InflowMono(lim, to - at, to - from);
  }

  lemma {:induction false} RunStaysSane(lim: Limits, st: Inner, clock: real, qs: seq<Query>, until: real)
    requires Sound(lim) && Sane(lim, st.buckets, clock)
    requires Nondecreasing(qs, clock) && clock <= until && forall q <- qs :: q.now <= until
    ensures Sane(lim, Final(lim, st, qs).buckets, until)
    decreases |qs|
  {
    if qs == [] {
    } else {
      CheckOnLevels(lim, st, qs[0].key, qs[0].now, qs[0].key);
      RunStaysSane(lim, CheckStep(lim, st, qs[0].key, qs[0].now).inner, qs[0].now, qs[1..], until);
    }
  }

  // ---------------------------------------------------------- the burst is had --

  function AtOnce(key: Key, now: real, n: nat): (qs: seq<Query>)
    ensures |qs| == n
  {
    if n == 0 then [] else [Query(key, now)] + AtOnce(key, now, n - 1)
  }

  function Least(a: int, b: int): int { if a <= b then a else b }

  /** Of checks of one caller at one instant, as many are accepted as there are
      whole tokens. */
  lemma {:induction false} AcceptedAtOnce(lim: Limits, st: Inner, key: Key, now: real, n: nat)
    requires Sound(lim) && Sane(lim, st.buckets, now) && |st.buckets| < MAX_TRACKED
    requires forall k <- st.buckets :: k == key
    ensures AcceptedCount(lim, st, AtOnce(key, now, n), key) == Least(n, Level(lim, st.buckets, key, now).Floor)
    decreases n
  {
    hide CheckStep, Level, Inflow, Sane;
    LevelFlows(lim, st.buckets, key, now, now);
    if n == 0 {
    } else {
      var c := CheckStep(lim, st, key, now);
      CheckOnLevels(lim, st, key, now, key);
      OnlyOneTracked(lim, st, key, now);
      assert AtOnce(key, now, n)[1..] == AtOnce(key, now, n - 1);
      AcceptedAtOnce(lim, c.inner, key, now, n - 1);
      LevelFlows(lim, c.inner.buckets, key, now, now);
      var level := Level(lim, st.buckets, key, now);
      assert level >= 1.0 ==> (level - 1.0).Floor == level.Floor - 1;
    }
  }

  lemma OnlyOneTracked(lim: Limits, st: Inner, key: Key, now: real)
    requires Sound(lim) && |st.buckets| < MAX_TRACKED && forall k <- st.buckets :: k == key
    ensures var c := CheckStep(lim, st, key, now);
            !c.atCeiling && |c.inner.buckets| < MAX_TRACKED && forall k <- c.inner.buckets :: k == key
  {
    hide Refilled, RetryAfter;
    var c := CheckStep(lim, st, key, now);
    SweepShrinks(st.buckets, now);
    SweepShrinks(Ticked(st, now).buckets, now);
    assert c.inner.buckets.Keys <= {key};
    SubsetSize(c.inner.buckets.Keys, {key});
  }

  /** The burst is there to be had: from an empty map, of `n` checks of one caller at
      one instant exactly the first so many are accepted as fit the burst. */
  lemma BurstIsReached(perMinute: nat, key: Key, now: real, n: nat)
    requires perMinute > 0
    ensures var lim := New(perMinute).value;
            lim.refill > 0.0 &&
            AcceptedCount(lim, Inner(map[], 0), AtOnce(key, now, n), key)
            == if perMinute <= 100 then Least(n, 10) else Least(n, (perMinute as real / 10.0).Floor)
  {
    NewIsValid(perMinute);
    AcceptedAtOnce(New(perMinute).value, Inner(map[], 0), key, now, n);
  }

  // ----------------------------------------------------------- retry-after --

  /** No query of the run is both for `key` and accepted. */
  ghost predicate NoneAccepted(lim: Limits, st: Inner, qs: seq<Query>, key: Key)
    requires lim.refill > 0.0
  {
    AcceptedCount(lim, st, qs, key) == 0
  }

  /** Rejected checks, and everybody else's, leave a caller's level flowing as
      if nothing had happened. */
  lemma {:induction false} LevelThroughRejections(
    lim: Limits, st: Inner, clock: real, qs: seq<Query>, key: Key, until: real)
    requires Sound(lim) && Sane(lim, st.buckets, clock)
    requires Nondecreasing(qs, clock) && clock <= until && forall q <- qs :: q.now <= until
    requires NoneAccepted(lim, st, qs, key)
    ensures Level(lim, Final(lim, st, qs).buckets, key, until) == Level(lim, st.buckets, key, until)
    decreases |qs|
  {
    if qs == [] {
    } else {
      hide CheckStep, Level, Sane, Inflow;
      var q := qs[0];
      SaneLater(lim, st.buckets, clock, q.now);
      var c := CheckStep(lim, st, q.key, q.now);
      CheckOnLevels(lim, st, q.key, q.now, key);
      LevelThroughRejections(lim, c.inner, q.now, qs[1..], key, until);
      LevelFlows(lim, c.inner.buckets, key, q.now, until);
      LevelFlows(lim, st.buckets, key, q.now, until);
    }
  }

  lemma RetryBounds(lim: Limits, level: real)
    requires Sound(lim) && 0.0 <= level < 1.0
    ensures var w := RetryAfter(lim, level);
            && 1 <= w <= 60
            && level + Inflow(lim, w as real) >= 1.0
            && (w > 1 ==> level + Inflow(lim, w as real - 1.0) < 1.0)
  {
    var need := (1.0 - level) / lim.refill;
    var w := RetryAfter(lim, level);
    assert Inflow(lim, need) == 1.0 - level;
    assert Inflow(lim, 60.0) >= 1.0;
    hide Inflow;
    InflowReflects(lim, need, 60.0);
    CeilBounds(need);
    InflowMono(lim, need, w as real);
    if w > 1 && level + Inflow(lim, w as real - 1.0) >= 1.0 {
      InflowReflects(lim, need, w as real - 1.0);
    }
  }

  lemma CeilBounds(x: real)
    ensures x <= Ceil(x) as real < x + 1.0
  {}

  lemma InflowReflects(lim: Limits, a: real, b: real)
    requires lim.refill > 0.0 && Inflow(lim, a) <= Inflow(lim, b)
    ensures a <= b
  {
    QuotientBound(a, b, lim.refill);
  }

  lemma QuotientBound(q: real, bound: real, c: real)
    requires c > 0.0 && q * c <= bound * c
    ensures q <= bound
  {}

  /** A caller refused by its own bucket at `now` and told to wait `w` seconds:
      whatever rejected checks and other callers' checks come in between, a
      check at `later >= now + w` is accepted (unless the caller was away long
      enough to be forgotten, `later >= now + 600`, and the map is full); and
      when `w > 1`, no wait of `w - 1` seconds or less is enough. `w` is
      between 1 and 60. */
  lemma RetryAfterIsRight(lim: Limits, st: Inner, key: Key, now: real, between: seq<Query>, later: real)
    requires Sound(lim) && Sane(lim, st.buckets, now)
    requires Nondecreasing(between, now) && now <= later && forall q <- between :: q.now <= later
    ensures var c := CheckStep(lim, st, key, now);
            var retry := CheckStep(lim, Final(lim, c.inner, between), key, later);
            c.answer.Throttled? && !c.atCeiling && NoneAccepted(lim, c.inner, between, key) ==>
              var w := c.answer.retryAfterSecs;
              && 1 <= w <= 60
              && (later >= now + w as real && !retry.atCeiling ==> retry.answer.Accepted?)
              && (later >= now + w as real && later < now + 600.0 ==> retry.answer.Accepted?)
              && (w > 1 && later <= now + (w - 1) as real ==> retry.answer.Throttled?)
  {
    hide CheckStep, Level, RetryAfter, Final, AcceptedCount, Sane, Inflow;
    var c := CheckStep(lim, st, key, now);
    if c.answer.Throttled? && !c.atCeiling && NoneAccepted(lim, c.inner, between, key) {
      var w := c.answer.retryAfterSecs;
      CheckOnLevels(lim, st, key, now, key);
      LevelFlows(lim, st.buckets, key, now, now);
      RetryBounds(lim, Level(lim, st.buckets, key, now));
      LevelThroughRejections(lim, c.inner, now, between, key, later);
      LevelFlows(lim, c.inner.buckets, key, now, later);
      RunStaysSane(lim, c.inner, now, between, later);
      CheckOnLevels(lim, Final(lim, c.inner, between), key, later, key);
      if later >= now + w as real {
        InflowMono(lim, w as real, later - now);
        if later < now + IDLE_EVICTION {
          StaysTracked(lim, c.inner, now, between, key, later);
        }
      } else if w > 1 && later <= now + (w - 1) as real {
        InflowMono(lim, later - now, w as real - 1.0);
      }
    }
  }

  /** A bucket touched less than the idle span ago is still in the map. */
  lemma {:induction false} StaysTracked(lim: Limits, st: Inner, since: real, qs: seq<Query>, key: Key, later: real)
    requires Sound(lim)
    requires key in st.buckets && since <= st.buckets[key].last <= later < since + 600.0
    requires Nondecreasing(qs, since) && forall q <- qs :: q.now <= later
    ensures var st' := Final(lim, st, qs);
            key in st'.buckets && !CheckStep(lim, st', key, later).atCeiling
    decreases |qs|
  {
    if qs == [] {
    } else {
      var q := qs[0];
      var c := CheckStep(lim, st, q.key, q.now);
      assert key in Sweep(st.buckets, q.now);
      StaysTracked(lim, c.inner, since, qs[1..], key, later);
    }
  }

  // ------------------------------------------------- the ceiling, from the trace --

  /** The map agrees with the admitted queries `seen` up to `clock`: every bucket is
      stamped by one, and every caller it does not hold has been away for the idle
      span. */
  ghost predicate Matches(bs: Buckets, seen: seq<Query>, clock: real) {
    && (forall k <- bs :: exists q <- seen :: q.key == k && q.now == bs[k].last)
    && (forall q <- seen ::
          q.now <= clock && if q.key in bs then q.now <= bs[q.key].last else clock - q.now >= IDLE_EVICTION)
  }

  lemma MatchesSwept(bs: Buckets, seen: seq<Query>, clock: real, now: real)
    requires Matches(bs, seen, clock) && clock <= now
    ensures Matches(bs, seen, now) && Matches(Sweep(bs, now), seen, now)
  {
  }

  lemma MatchesStamped(bs: Buckets, seen: seq<Query>, q: Query, tokens: real)
    requires Matches(bs, seen, q.now)
    ensures Matches(bs[q.key := Bucket(tokens, q.now)], seen + [q], q.now)
  {
    var bs', seen' := bs[q.key := Bucket(tokens, q.now)], seen + [q];
    assert seen'[|seen|] == q;
    forall k <- bs' ensures exists p <- seen' :: p.key == k && p.now == bs'[k].last {
      if k != q.key {
        var p :| p in seen && p.key == k && p.now == bs[k].last;
        assert p in seen';
      }
    }
    forall p <- seen'
      ensures p.now <= q.now && if p.key in bs' then p.now <= bs'[p.key].last else q.now - p.now >= IDLE_EVICTION
    {
      assert p in seen || p == q;
    }
  }

  lemma MatchesSettled(lim: Limits, st: Inner, seen: seq<Query>, q: Query, b: Bucket)
    requires lim.refill > 0.0 && Matches(st.buckets, seen, q.now)
    ensures Matches(Settle(lim, st, q.key, b, q.now).inner.buckets, seen + [q], q.now)
  {
    hide Matches, RetryAfter, Refilled;
    var tokens := Refilled(lim, b, q.now);
    MatchesStamped(st.buckets, seen, q, tokens - 1.0);
    MatchesStamped(st.buckets, seen, q, tokens);
  }

  lemma MatchesChecked(lim: Limits, st: Inner, seen: seq<Query>, clock: real, q: Query)
    requires lim.refill > 0.0 && Matches(st.buckets, seen, clock) && clock <= q.now
    ensures var c := CheckStep(lim, st, q.key, q.now);
            Matches(c.inner.buckets, if c.atCeiling then seen else seen + [q], q.now)
  {
    hide Matches, Settle, Sweep;
    MatchesSwept(st.buckets, seen, clock, q.now);
    var st1 := Ticked(st, q.now);
    MatchesSwept(st1.buckets, seen, q.now, q.now);
    var st2 := Relieved(st1, q.now);
    if q.key in st1.buckets {
      MatchesSettled(lim, st1, seen, q, st1.buckets[q.key]);
      NotAtCeiling(lim, st1, q.key, st1.buckets[q.key], q.now);
    } else {
      MatchesSettled(lim, st2, seen, q, Bucket(lim.burst, q.now));
      NotAtCeiling(lim, st2, q.key, Bucket(lim.burst, q.now), q.now);
    }
  }

  lemma NotAtCeiling(lim: Limits, st: Inner, key: Key, b: Bucket, now: real)
    requires lim.refill > 0.0
    ensures !Settle(lim, st, key, b, now).atCeiling
  {
  }

  lemma {:induction false} MatchesRun(
    lim: Limits, st: Inner, seen: seq<Query>, clock: real, qs: seq<Query>, until: real)
    requires lim.refill > 0.0 && Matches(st.buckets, seen, clock)
    requires Nondecreasing(qs, clock) && clock <= until && forall q <- qs :: q.now <= until
    ensures Matches(Final(lim, st, qs).buckets, seen + Admitted(lim, st, qs), until)
    decreases |qs|
  {
    hide Matches, CheckStep;
    if qs == [] {
      assert seen + [] == seen;
      MatchesSwept(st.buckets, seen, clock, until);
    } else {
      var q := qs[0];
      var c := CheckStep(lim, st, q.key, q.now);
      MatchesChecked(lim, st, seen, clock, q);
      var seen' := if c.atCeiling then seen else seen + [q];
      MatchesRun(lim, c.inner, seen', q.now, qs[1..], until);
      assert seen' + Admitted(lim, c.inner, qs[1..]) == seen + Admitted(lim, st, qs);
    }
  }

  /** The callers admitted to their own bucket less than the idle span before `now`. */
  ghost function Recent(seen: seq<Query>, now: real): set<Key> {
    set q <- seen | now - q.now < 600.0 :: q.key
  }

  lemma SweptAreRecent(bs: Buckets, seen: seq<Query>, now: real)
    requires Matches(bs, seen, now)
    ensures Sweep(bs, now).Keys == Recent(seen, now)
  {
    forall k ensures k in Sweep(bs, now) <==> k in Recent(seen, now) {
      if k in Sweep(bs, now) {
        var q :| q in seen && q.key == k && q.now == bs[k].last;
        assert k in Recent(seen, now);
      }
      if k in Recent(seen, now) {
        var q :| q in seen && q.key == k && now - q.now < IDLE_EVICTION;
      }
    }
  }

  lemma SubsetOfSize(a: set<Key>, b: set<Key>)
    requires a <= b && |a| >= |b|
    ensures a == b
  {
    SubsetSize(a, b);
    assert b == a + (b - a);
    assert |b - a| == |b| - |a|;
  }

  lemma SweptTwice(bs: Buckets, now: real)
    ensures Sweep(Sweep(bs, now), now) == Sweep(bs, now)
  {
  }

  lemma CeilingIs(lim: Limits, st: Inner, key: Key, now: real)
    requires lim.refill > 0.0
    ensures CheckStep(lim, st, key, now).atCeiling <==>
              key !in Ticked(st, now).buckets && |Sweep(st.buckets, now)| >= MAX_TRACKED
  {
    hide Sweep, Settle;
    SweptTwice(st.buckets, now);
    SweepShrinks(st.buckets, now);
    var st1 := Ticked(st, now);
    if key in st1.buckets {
      NotAtCeiling(lim, st1, key, st1.buckets[key], now);
    } else {
      NotAtCeiling(lim, Relieved(st1, now), key, Bucket(lim.burst, now), now);
    }
  }

  lemma CeilingHere(lim: Limits, st: Inner, seen: seq<Query>, key: Key, now: real)
    requires lim.refill > 0.0 && Matches(st.buckets, seen, now) && |st.buckets| <= MAX_TRACKED
    ensures CheckStep(lim, st, key, now).atCeiling <==>
              key !in Recent(seen, now) && |Recent(seen, now)| >= MAX_TRACKED
  {
    var swept, recent := Sweep(st.buckets, now), Recent(seen, now);
    SweptAreRecent(st.buckets, seen, now);
    SweepShrinks(st.buckets, now);
    CeilingIs(lim, st, key, now);
    hide Matches, Recent, Sweep, CheckStep;
    assert |swept.Keys| == |swept| && |st.buckets.Keys| == |st.buckets|;
    if |recent| >= MAX_TRACKED {
      SubsetOfSize(recent, st.buckets.Keys);
    }
  }

  /** Over every run from an empty map: a check is refused by the tracking ceiling
      if and only if its caller was not admitted in the last 600 seconds and 10,000
      others were. */
  lemma CeilingIff(perMinute: nat, qs: seq<Query>, clock: real, key: Key, now: real)
    requires perMinute > 0 && Nondecreasing(qs, clock) && clock <= now && forall q <- qs :: q.now <= now
    ensures var lim := New(perMinute).value;
            && lim.refill > 0.0
            && var recent := Recent(Admitted(lim, Inner(map[], 0), qs), now);
               CheckStep(lim, Final(lim, Inner(map[], 0), qs), key, now).atCeiling <==>
                 key !in recent && |recent| >= 10_000
  {
    NewIsValid(perMinute);
    var lim := New(perMinute).value;
    var empty := Inner(map[], 0);
    TrackingIsBounded(perMinute, empty, qs);
    MatchesRun(lim, empty, [], clock, qs, now);
    var seen := Admitted(lim, empty, qs);
    assert [] + seen == seen;
    hide Matches, Final, CheckStep, Recent, Admitted, Sound;
    CeilingHere(lim, Final(lim, empty, qs), seen, key, now);
  }

  lemma {:induction false} FinalAppends(lim: Limits, st: Inner, a: seq<Query>, b: seq<Query>)
    requires lim.refill > 0.0
    ensures Final(lim, st, a + b) == Final(lim, Final(lim, st, a), b)
    decreases |a|
  {
    hide CheckStep;
    if a == [] {
      assert a + b == b;
    } else {
      assert (a + b)[0] == a[0] && (a + b)[1..] == a[1..] + b;
      FinalAppends(lim, CheckStep(lim, st, a[0].key, a[0].now).inner, a[1..], b);
    }
  }

  lemma FinalThen(lim: Limits, st: Inner, qs: seq<Query>, q: Query, between: seq<Query>)
    requires lim.refill > 0.0
    ensures Final(lim, st, qs + [q] + between)
            == Final(lim, CheckStep(lim, Final(lim, st, qs), q.key, q.now).inner, between)
  {
    hide CheckStep;
    FinalAppends(lim, st, qs + [q], between);
    FinalAppends(lim, st, qs, [q]);
    assert [q][1..] == [];
  }

  lemma WholeTrace(qs: seq<Query>, clock: real, q: Query, between: seq<Query>, later: real)
    requires Nondecreasing(qs, clock) && clock <= q.now && (forall p <- qs :: p.now <= q.now)
    requires Nondecreasing(between, q.now) && q.now <= later && forall p <- between :: p.now <= later
    ensures var all := qs + [q] + between;
            Nondecreasing(all, clock) && forall p <- all :: p.now <= later
  {
  }

  /** Over every run from an empty map: a caller refused by its own bucket who waits
      the stated seconds, without being accepted meanwhile, is then accepted if and
      only if it was admitted in the last 600 seconds or fewer than 10,000 callers
      were. */
  lemma RetryAcceptedIff(
    perMinute: nat, qs: seq<Query>, clock: real, key: Key, now: real, between: seq<Query>, later: real)
    requires perMinute > 0 && Nondecreasing(qs, clock) && clock <= now && (forall q <- qs :: q.now <= now)
    requires Nondecreasing(between, now) && now <= later && forall q <- between :: q.now <= later
    ensures var lim := New(perMinute).value;
            && lim.refill > 0.0
            && var st := Final(lim, Inner(map[], 0), qs);
               var c := CheckStep(lim, st, key, now);
               var recent := Recent(Admitted(lim, Inner(map[], 0), qs + [Query(key, now)] + between), later);
               c.answer.Throttled? && !c.atCeiling && NoneAccepted(lim, c.inner, between, key)
               && later >= now + c.answer.retryAfterSecs as real ==>
                 (CheckStep(lim, Final(lim, c.inner, between), key, later).answer.Accepted? <==>
                    key in recent || |recent| < 10_000)
  {
    NewIsValid(perMinute);
    var lim := New(perMinute).value;
    var empty, q := Inner(map[], 0), Query(key, now);
    assert Sane(lim, empty.buckets, clock);
    RunStaysSane(lim, empty, clock, qs, now);
    WholeTrace(qs, clock, q, between, later);
    hide Final, CheckStep, Recent, Admitted, Sane, Nondecreasing, NoneAccepted;
    RetryAfterIsRight(lim, Final(lim, empty, qs), key, now, between, later);
    FinalThen(lim, empty, qs, q, between);
    CeilingIff(perMinute, qs + [q] + between, clock, key, later);
    CeilingRefuses(lim, Final(lim, empty, qs + [q] + between), key, later);
  }

  lemma CeilingRefuses(lim: Limits, st: Inner, key: Key, now: real)
    requires lim.refill > 0.0
    ensures CheckStep(lim, st, key, now).atCeiling ==> !CheckStep(lim, st, key, now).answer.Accepted?
  {
    hide Sweep, Refilled, RetryAfter;
  }

  // ------------------------------------------------------- the limiter itself --

  class Limiter {
    const lim: Limits
    var buckets: Buckets
    var sinceSweep: nat
    /** The latest clock reading that reached the lock. */
    ghost var clock: real

    ghost predicate Valid()
      reads this
    {
      Sound(lim) && Sane(lim, buckets, clock) && |buckets| <= MAX_TRACKED
    }

    constructor (perMinute: nat, ghost start: real)
      requires perMinute > 0
      ensures Valid() && lim == New(perMinute).value && buckets == map[] && sinceSweep == 0 && clock == start
    {
      NewIsValid(perMinute);
      lim := New(perMinute).value;
      buckets := map[];
      sinceSweep := 0;
      clock := start;
    }

    method Check(key: Key, now: real) returns (answer: Answer)
      requires Valid() && clock <= now
      modifies this
      ensures Valid() && clock == now
      ensures var c := CheckStep(lim, Inner(old(buckets), old(sinceSweep)), key, now);
              answer == c.answer && Inner(buckets, sinceSweep) == c.inner
    {
      ghost var before := Inner(buckets, sinceSweep);
      SaneLater(lim, buckets, clock, now);
      CheckOnLevels(lim, before, key, now, key);
      CheckBoundsTracking(lim, before, key, now);
      hide Sane, Level, Verdict, Settle, Sweep, Sound;
      clock := now;
      sinceSweep := sinceSweep + 1;
      if sinceSweep >= SWEEP_EVERY {
        sinceSweep := 0;
        buckets := Sweep(buckets, now);
      }
      if key in buckets {
        answer := Take(key, buckets[key], now);
      } else {
        if |buckets| >= MAX_TRACKED {
          buckets := Sweep(buckets, now);
        }
        if |buckets| >= MAX_TRACKED {
          return Throttled(60);
        }
        answer := Take(key, Bucket(lim.burst, now), now);
      }
    }

    /** Refill the bucket, store it, and take a token from it or refuse. */
    method Take(key: Key, bucket: Bucket, now: real) returns (answer: Answer)
      requires lim.refill > 0.0
      modifies `buckets
      ensures var c := Settle(lim, Inner(old(buckets), sinceSweep), key, bucket, now);
              answer == c.answer && buckets == c.inner.buckets
    {
      hide Inflow;
      var tokens := Min(bucket.tokens + Inflow(lim, Elapsed(now, bucket.last)), lim.burst);
      if tokens >= 1.0 {
        buckets := buckets[key := Bucket(tokens - 1.0, now)];
        return Accepted;
      }
      buckets := buckets[key := Bucket(tokens, now)];
      var secs := Ceil((1.0 - tokens) / lim.refill);
      return Throttled(if secs > 1 then secs else 1);
    }
  }
}
