/** `Proxy::long_wait`, src/proxy.rs: a wait longer than the bus serves in one
    request is made of slices, each resuming where the one before stopped. Time
    is in seconds. What the bus answers, and how long it takes, is given. */
module LongWait {
  import opened Basics

  const SERVER_WAIT_LIMIT: int := 55
  const SERVER_WAIT_SLICE: int := 50
  const PROXY_MAX_WAIT: int := 1800

  type Position = nat

  /** One `wait_for_updates` as the bus receives it. */
  datatype Ask = Ask(timeout: Option<int>, since: Option<Position>)

  /** What came of one: how long it took until the next clock reading, whether the
      host had cancelled by then, and the fields of the result that matter. */
  datatype Answer =
    | Reply(lasted: real, cancelled: bool, woke: Option<bool>, resume: Option<Position>)
    | Failure(lasted: real)

  /** The requests made so far, the time on the clock, and the answer returned,
      `None` while the wait is still in progress. */
  datatype Outcome = Outcome(asks: seq<Ask>, end: real, answer: Option<Answer>)

  predicate Woke(a: Answer) { a.Reply? && (a.woke.Some? ==> a.woke.value) }

  // Whole seconds left, never negative.
  function Left(deadline: real, now: real): (n: int)
    ensures 0 <= n
    ensures deadline >= now ==> n as real <= deadline - now < n as real + 1.0
  {
    if deadline < now then 0 else (deadline - now).Floor
  }

  function Slice(left: int): int {
    if left < 5 then 5 else if left > SERVER_WAIT_SLICE then SERVER_WAIT_SLICE else left
  }

  predicate Ends(a: Answer, left: int) {
    a.Failure? || Woke(a) || left <= SERVER_WAIT_SLICE || a.cancelled
  }

  function Resumed(a: Answer, since: Option<Position>): Option<Position> {
    if a.Reply? && a.resume.Some? then a.resume else since
  }

  /** The slices made from `now` on, if the bus answers them in turn. */
  function Sliced(deadline: real, now: real, since: Option<Position>, answers: seq<Answer>): Outcome
    decreases |answers|
  {
    if answers == [] then Outcome([], now, None)
    else
      var left := Left(deadline, now);
      var ask := Ask(Some(Slice(left)), since);
      var a := answers[0];
      if Ends(a, left) then Outcome([ask], now + a.lasted, Some(a))
      else
        var rest := Sliced(deadline, now + a.lasted, Resumed(a, since), answers[1..]);
        rest.(asks := [ask] + rest.asks)
  }

  predicate Long(timeout: Option<int>) { timeout.Some? && timeout.value > SERVER_WAIT_LIMIT }

  function Capped(total: int): int { if total < PROXY_MAX_WAIT then total else PROXY_MAX_WAIT }

  /** The whole call: forwarded unchanged unless it is longer than the bus serves. */
  function Wait(request: Ask, start: real, answers: seq<Answer>): Outcome {
    if Long(request.timeout)
    then Sliced(start + Capped(request.timeout.value) as real, start, request.since, answers)
    else if answers == [] then Outcome([], start, None)
    else Outcome([request], start + answers[0].lasted, Some(answers[0]))
  }

  lemma SlicedOnce(deadline: real, now: real, since: Option<Position>, a: Answer)
    ensures var left := Left(deadline, now);
            Sliced(deadline, now, since, [a])
            == Outcome([Ask(Some(Slice(left)), since)], now + a.lasted, if Ends(a, left) then Some(a) else None)
  {
    hide Left, Slice, Ends, Resumed;
    assert [a][1..] == [];
  }

  lemma {:induction false} SlicedSnoc(
    deadline: real, now: real, since: Option<Position>, answers: seq<Answer>, a: Answer)
    ensures var o := Sliced(deadline, now, since, answers);
            var o' := Sliced(deadline, now, since, answers + [a]);
            && (o.answer.Some? ==> o' == o)
            && (o.answer.None? ==>
                  var left := Left(deadline, o.end);
                  && o'.asks == o.asks + [Ask(Some(Slice(left)), SinceAfter(since, answers))]
                  && o'.end == o.end + a.lasted
                  && o'.answer == if Ends(a, left) then Some(a) else None)
    decreases |answers|
  {
    var more := answers + [a];
    if answers == [] {
      assert more == [a];
      SlicedOnce(deadline, now, since, a);
    } else {
      hide Left, Slice, Ends, Resumed;
      assert more[0] == answers[0] && more[1..] == answers[1..] + [a];
      SlicedSnoc(deadline, now + answers[0].lasted, Resumed(answers[0], since), answers[1..], a);
    }
  }

  /** Where the slice after `answers` resumes. */
  function SinceAfter(since: Option<Position>, answers: seq<Answer>): Option<Position>
    decreases |answers|
  {
    if answers == [] then since else SinceAfter(Resumed(answers[0], since), answers[1..])
  }

  lemma {:induction false} SinceSnoc(since: Option<Position>, answers: seq<Answer>, a: Answer)
    ensures SinceAfter(since, answers + [a]) == Resumed(a, SinceAfter(since, answers))
    decreases |answers|
  {
    if answers == [] {
      assert (answers + [a])[1..] == [];
    } else {
      assert (answers + [a])[1..] == answers[1..] + [a];
      SinceSnoc(Resumed(answers[0], since), answers[1..], a);
    }
  }

  /** The loop, taking the bus's answers in turn. */
  method LongWait(request: Ask, start: real, answers: seq<Answer>) returns (o: Outcome)
    ensures o == Wait(request, start, answers)
  {
    if !Long(request.timeout) {
      return if answers == [] then Outcome([], start, None)
             else Outcome([request], start + answers[0].lasted, Some(answers[0]));
    }
    var since := request.since;
    var deadline := start + Capped(request.timeout.value) as real;
    var now := start;
    var asks: seq<Ask> := [];
    var i := 0;
    assert answers[..0] == [];
    while i < |answers|
      invariant 0 <= i <= |answers|
      invariant Sliced(deadline, start, request.since, answers[..i]) == Outcome(asks, now, None)
      invariant since == SinceAfter(request.since, answers[..i])
    {
      var left := Left(deadline, now);
      var ask := Ask(Some(Slice(left)), since);
      asks := asks + [ask];
      var a := answers[i];
      SlicedSnoc(deadline, start, request.since, answers[..i], a);
      SinceSnoc(request.since, answers[..i], a);
      assert answers[..i + 1] == answers[..i] + [a];
      now := now + a.lasted;
      i := i + 1;
      if Ends(a, left) {
        o := Outcome(asks, now, Some(a));
        SlicedPrefix(deadline, start, request.since, answers, i);
        return;
      }
      since := Resumed(a, since);
    }
    assert answers[..i] == answers;
    o := Outcome(asks, now, None);
  }

  /** Once the wait is over, later answers mean nothing. */
  lemma {:induction false} SlicedPrefix(
    deadline: real, now: real, since: Option<Position>, answers: seq<Answer>, n: nat)
    requires n <= |answers|
    ensures var o := Sliced(deadline, now, since, answers[..n]);
            o.answer.Some? ==> Sliced(deadline, now, since, answers) == o
    decreases |answers| - n
  {
    if n == |answers| {
      assert answers[..n] == answers;
    } else {
      assert answers[..n + 1] == answers[..n] + [answers[n]];
      SlicedSnoc(deadline, now, since, answers[..n], answers[n]);
      SlicedPrefix(deadline, now, since, answers, n + 1);
    }
  }

  // ------------------------------------------------------------------- time --

  predicate Quiet(answers: seq<Answer>) {
    forall i | 0 <= i < |answers| :: answers[i].Reply? && !Woke(answers[i]) && !answers[i].cancelled
  }

  /** Each request took its stated time, and at most `slack` more. */
  ghost predicate Timely(asks: seq<Ask>, answers: seq<Answer>, slack: real) {
    && |asks| <= |answers|
    && forall i | 0 <= i < |asks| ::
         && asks[i].timeout.Some?
         && asks[i].timeout.value as real <= answers[i].lasted <= asks[i].timeout.value as real + slack
  }

  lemma TimelyTail(asks: seq<Ask>, answers: seq<Answer>, slack: real)
    requires asks != [] && Timely(asks, answers, slack)
    ensures Timely(asks[1..], answers[1..], slack)
  {
    forall i | 0 <= i < |asks| - 1 ensures asks[1..][i] == asks[i + 1] && answers[1..][i] == answers[i + 1] {
    }
  }

  lemma {:induction false} AskCount(deadline: real, now: real, since: Option<Position>, answers: seq<Answer>)
    ensures var o := Sliced(deadline, now, since, answers);
            && |o.asks| <= |answers|
            && (o.answer.None? ==> |o.asks| == |answers|)
            && (o.answer.Some? ==> o.asks != [] && o.answer == Some(answers[|o.asks| - 1]))
    decreases |answers|
  {
    if answers == [] {
    } else if !Ends(answers[0], Left(deadline, now)) {
      AskCount(deadline, now + answers[0].lasted, Resumed(answers[0], since), answers[1..]);
    }
  }

  /** Quiet slices from `now`: `k` more of them are enough once `50 k` seconds
      cover what is left, and the last one ends within a second before the deadline
      and four seconds and twice the slack after it. */
  lemma {:induction false} QuietSlices(
    deadline: real, now: real, since: Option<Position>, answers: seq<Answer>, slack: real, k: nat)
    requires Quiet(answers) && slack >= 0.0 && deadline - now >= 1.0 - slack
    requires k > 0 && Left(deadline, now) <= 50 * k && |answers| >= k
    ensures var o := Sliced(deadline, now, since, answers);
            Timely(o.asks, answers, slack) ==>
              && o.answer.Some? && |o.asks| <= k
              && deadline - 1.0 < o.end <= deadline + 4.0 + 2.0 * slack
    decreases k
  {
    var o := Sliced(deadline, now, since, answers);
    var left := Left(deadline, now);
    var a := answers[0];
    if Timely(o.asks, answers, slack) {
      if Ends(a, left) {
        assert o.asks[0] == Ask(Some(Slice(left)), since);
        assert deadline < now ==> left == 0;
      } else {
        assert left > 50;
        assert o.asks[0] == Ask(Some(50), since);
        var rest := Sliced(deadline, now + a.lasted, Resumed(a, since), answers[1..]);
        assert rest.asks == o.asks[1..];
        TimelyTail(o.asks, answers, slack);
        assert deadline - (now + a.lasted) <= (deadline - now) - 50.0;
        assert left as real <= deadline - now < left as real + 1.0;
        QuietSlices(deadline, now + a.lasted, Resumed(a, since), answers[1..], slack, k - 1);
      }
    }
  }

  /** When the slices take their stated times exactly, a wait for a whole number of
      seconds is never cut short. */
  lemma {:induction false} ExactSlices(
    deadline: real, now: real, since: Option<Position>, answers: seq<Answer>, left: int)
    requires Quiet(answers) && deadline - now == left as real
    ensures var o := Sliced(deadline, now, since, answers);
            Timely(o.asks, answers, 0.0) && o.answer.Some? ==> o.end >= deadline
    decreases |answers|
  {
    var o := Sliced(deadline, now, since, answers);
    if Timely(o.asks, answers, 0.0) && o.answer.Some? && left >= 0 {
      assert Left(deadline, now) == left;
      var a := answers[0];
      assert o.asks[0] == Ask(Some(Slice(left)), since);
      if !Ends(a, left) {
        var rest := Sliced(deadline, now + a.lasted, Resumed(a, since), answers[1..]);
        assert rest.asks == o.asks[1..];
        TimelyTail(o.asks, answers, 0.0);
        ExactSlices(deadline, now + a.lasted, Resumed(a, since), answers[1..], left - 50);
      }
    } else if left < 0 {
      EndsLater(deadline, now, since, answers);
    }
  }

  lemma {:induction false} EndsLater(deadline: real, now: real, since: Option<Position>, answers: seq<Answer>)
    ensures var o := Sliced(deadline, now, since, answers);
            Timely(o.asks, answers, 0.0) && deadline <= now ==> o.end >= now
    decreases |answers|
  {
    if answers == [] {
    } else {
      var o := Sliced(deadline, now, since, answers);
      assert o.asks[0].timeout == Some(Slice(Left(deadline, now)));
      assert deadline <= now ==> Left(deadline, now) == 0;
    }
  }

  /** A quiet wait of `total` seconds takes at most 36 requests. If each takes its
      stated time and up to `slack` more, the wait ends less than a second early and
      at most four seconds and twice the slack late; with no slack, never early. */
  lemma QuietWaitLasts(request: Ask, start: real, answers: seq<Answer>, slack: real)
    requires Long(request.timeout) && Quiet(answers) && slack >= 0.0 && |answers| >= 36
    ensures var o := Wait(request, start, answers);
            var total := (if request.timeout.value <= 1800 then request.timeout.value else 1800) as real;
            Timely(o.asks, answers, slack) ==>
              && o.answer.Some? && |o.asks| <= 36
              && total - 1.0 < o.end - start <= total + 4.0 + 2.0 * slack
              && (slack == 0.0 ==> total <= o.end - start <= total + 4.0)
  {
    var total := Capped(request.timeout.value);
    var deadline := start + total as real;
    QuietSlices(deadline, start, request.since, answers, slack, 36);
    ExactSlices(deadline, start, request.since, answers, total);
  }

  // ------------------------------------------------------------ an early end --

  /** By how much the first `n` requests together took longer than asked. */
  function Overrun(asks: seq<Ask>, answers: seq<Answer>, n: nat): real
    requires n <= |asks| && n <= |answers|
  {
    if n == 0 || asks[n - 1].timeout.None? then 0.0
    else Overrun(asks, answers, n - 1) + answers[n - 1].lasted - asks[n - 1].timeout.value as real
  }

  lemma {:induction false} OverrunTail(asks: seq<Ask>, answers: seq<Answer>, n: nat)
    requires 0 < n <= |asks| && n <= |answers| && forall i | 0 <= i < |asks| :: asks[i].timeout.Some?
    ensures Overrun(asks, answers, n)
            == answers[0].lasted - asks[0].timeout.value as real + Overrun(asks[1..], answers[1..], n - 1)
    decreases n
  {
    if n == 1 {
      assert Overrun(asks, answers, 0) == 0.0 && Overrun(asks[1..], answers[1..], 0) == 0.0;
    } else {
      assert asks[1..][n - 2] == asks[n - 1] && answers[1..][n - 2] == answers[n - 1];
      OverrunTail(asks, answers, n - 1);
    }
  }

  /** When the last request starts: after the slices before it, fifty seconds each,
      and what they overran. */
  function LastStart(now: real, asks: seq<Ask>, answers: seq<Answer>): real
    requires 0 < |asks| <= |answers|
  {
    now + 50.0 * (|asks| - 1) as real + Overrun(asks, answers, |asks| - 1)
  }

  lemma LastStartTail(now: real, asks: seq<Ask>, answers: seq<Answer>)
    requires 1 < |asks| <= |answers| && forall i | 0 <= i < |asks| :: asks[i].timeout.Some?
    requires asks[0].timeout == Some(50)
    ensures LastStart(now, asks, answers) == LastStart(now + answers[0].lasted, asks[1..], answers[1..])
  {
    OverrunTail(asks, answers, |asks| - 1);
  }

  lemma {:induction false} LastSlice(deadline: real, now: real, since: Option<Position>, answers: seq<Answer>)
    requires Quiet(answers)
    ensures var o := Sliced(deadline, now, since, answers);
            o.answer.Some? ==>
              && 0 < |o.asks| <= |answers|
              && var at := LastStart(now, o.asks, answers);
                 && o.asks[|o.asks| - 1].timeout == Some(Slice(Left(deadline, at)))
                 && Left(deadline, at) <= SERVER_WAIT_SLICE
                 && o.end == at + answers[|o.asks| - 1].lasted
    decreases |answers|
  {
    AskCount(deadline, now, since, answers);
    SlicesAreServed(deadline, now, since, answers);
    var o := Sliced(deadline, now, since, answers);
    if answers == [] || Ends(answers[0], Left(deadline, now)) {
    } else {
      var later, next := now + answers[0].lasted, Resumed(answers[0], since);
      LastSlice(deadline, later, next, answers[1..]);
      AskCount(deadline, later, next, answers[1..]);
      var rest := Sliced(deadline, later, next, answers[1..]);
      assert o == rest.(asks := [Ask(Some(50), since)] + rest.asks);
      hide Sliced, Left, Quiet, LastStart, Overrun, Slice;
      assert o.asks[1..] == rest.asks;
      if o.answer.Some? {
        LastStartTail(now, o.asks, answers);
      }
    }
  }

  /** What cutting a time to whole seconds takes off: so much of a second as the
      overruns stand short of a whole number of them. */
  function CutOff(overrun: real): real { (-((-overrun).Floor)) as real - overrun }

  lemma CutOffIs(deadline: real, at: real, whole: int, overrun: real)
    requires deadline - at == whole as real - overrun && deadline >= at
    ensures deadline - at - Left(deadline, at) as real == CutOff(overrun)
  {
    assert (whole as real - overrun).Floor == whole + (-overrun).Floor;
  }

  /** Exactly when a quiet wait whose requests take at least their stated times
      ends before its time: when five seconds or more are left for the last
      request, and what was cut off in stating them, which is what the overruns
      before it lack of whole seconds, is more than that request's own overrun. */
  lemma EndsEarlyIff(request: Ask, start: real, answers: seq<Answer>, slack: real)
    requires Long(request.timeout) && Quiet(answers) && slack >= 0.0 && |answers| >= 36
    ensures var o := Wait(request, start, answers);
            var total := if request.timeout.value <= 1800 then request.timeout.value else 1800;
            Timely(o.asks, answers, slack) ==>
              var n := |o.asks|;
              && 0 < n <= 36 && o.asks[n - 1].timeout.Some?
              && var before := Overrun(o.asks, answers, n - 1);
                 var own := answers[n - 1].lasted - o.asks[n - 1].timeout.value as real;
                 o.end < start + total as real <==>
                   total as real - 50.0 * (n - 1) as real - before >= 5.0 && own < CutOff(before)
  {
    var o := Wait(request, start, answers);
    var total := Capped(request.timeout.value);
    var deadline := start + total as real;
    if Timely(o.asks, answers, slack) {
      QuietWaitLasts(request, start, answers, slack);
      LastSlice(deadline, start, request.since, answers);
      hide Sliced, Quiet, Overrun;
      var n := |o.asks|;
      var before := Overrun(o.asks, answers, n - 1);
      var at := LastStart(start, o.asks, answers);
      assert deadline - at == (total - 50 * (n - 1)) as real - before;
      if deadline - at >= 5.0 {
        CutOffIs(deadline, at, total - 50 * (n - 1), before);
      }
    }
  }

  /** It does happen: a minute's wait whose first slice takes half a second too
      long ends half a second early. */
  lemma EndsEarly(since: Option<Position>)
    ensures var late := Reply(50.5, false, Some(false), None);
            var last := Reply(9.0, false, Some(false), None);
            var o := Wait(Ask(Some(60), since), 0.0, [late, last]);
            && o.asks == [Ask(Some(50), since), Ask(Some(9), since)]
            && Timely(o.asks, [late, last], 0.5)
            && o.answer == Some(last) && o.end == 59.5
  {
    var late := Reply(50.5, false, Some(false), None);
    var last := Reply(9.0, false, Some(false), None);
    assert Left(60.0, 0.0) == 60 && Left(60.0, 50.5) == 9;
    assert [late, last][1..] == [last];
    assert Sliced(60.0, 50.5, since, [last]) == Outcome([Ask(Some(9), since)], 59.5, Some(last));
  }

  // -------------------------------------------------------------- requests --

  /** A short wait is passed on as it is; a long one only ever asks the bus for
      what it serves in one request, from the caller's own position first. */
  lemma {:induction false} SlicesAreServed(deadline: real, now: real, since: Option<Position>, answers: seq<Answer>)
    ensures var o := Sliced(deadline, now, since, answers);
            && (forall i | 0 <= i < |o.asks| ::
                  o.asks[i].timeout.Some? && 5 <= o.asks[i].timeout.value <= SERVER_WAIT_SLICE)
            && (o.asks != [] ==> o.asks[0].since == since)
    decreases |answers|
  {
    if answers == [] {
    } else if !Ends(answers[0], Left(deadline, now)) {
      SlicesAreServed(deadline, now + answers[0].lasted, Resumed(answers[0], since), answers[1..]);
    }
  }

  /** A wait is passed on as it is if and only if it asks for no time or at most 55
      seconds; any longer one is made of requests the bus serves. */
  lemma PassedOnIff(request: Ask, start: real, answers: seq<Answer>)
    requires answers != []
    ensures var o := Wait(request, start, answers);
            && o.asks != []
            && (o.asks[0] == request <==> request.timeout.None? || request.timeout.value <= 55)
            && (request.timeout.None? || request.timeout.value <= 55 ==>
                  o.asks == [request] && o.answer == Some(answers[0]))
            && (request.timeout.Some? && request.timeout.value > 55 ==>
                  && o.asks[0].since == request.since
                  && forall i | 0 <= i < |o.asks| ::
                       o.asks[i].timeout.Some? && 5 <= o.asks[i].timeout.value <= 50)
  {
    if Long(request.timeout) {
      var deadline := start + Capped(request.timeout.value) as real;
      SlicesAreServed(deadline, start, request.since, answers);
      AskCount(deadline, start, request.since, answers);
    }
  }

  // ------------------------------------------------------------------ no gap --

  /** The part of the bus's log one request looked at: from its `since`, or else
      from wherever the log ended when it arrived, up to where it stopped. */
  datatype Span = Span(from: Position, to: Position)

  /** The bus's contract for one request: it looks from `since` if given, says
      where it stopped, and wakes exactly when an event the caller wants to hear of
      is in its span. */
  ghost predicate Serves(ask: Ask, a: Answer, span: Span, wanted: Position -> bool) {
    && a.Reply?
    && (ask.since.Some? ==> span.from == ask.since.value)
    && span.from <= span.to
    && a.resume == Some(span.to)
    && (Woke(a) <==> exists p | span.from <= p < span.to :: wanted(p))
  }

  ghost predicate ServesAll(asks: seq<Ask>, answers: seq<Answer>, spans: seq<Span>, wanted: Position -> bool) {
    && |asks| <= |answers| && |asks| <= |spans|
    && forall i | 0 <= i < |asks| :: Serves(asks[i], answers[i], spans[i], wanted)
  }

  lemma ServesTail(asks: seq<Ask>, answers: seq<Answer>, spans: seq<Span>, wanted: Position -> bool)
    requires asks != [] && ServesAll(asks, answers, spans, wanted)
    ensures Serves(asks[0], answers[0], spans[0], wanted)
    ensures ServesAll(asks[1..], answers[1..], spans[1..], wanted)
  {
    hide Serves;
    forall i | 0 <= i < |asks| - 1 ensures Serves(asks[1..][i], answers[1..][i], spans[1..][i], wanted) {
      assert asks[1..][i] == asks[i + 1] && answers[1..][i] == answers[i + 1] && spans[1..][i] == spans[i + 1];
    }
  }

  /** Each span after the first starts where the one before stopped. */
  ghost predicate Chained(spans: seq<Span>, n: nat)
    requires n <= |spans|
  {
    forall i | 1 <= i < n :: spans[i].from == spans[i - 1].to
  }

  /** The slices chain, and every one but the last found nothing. */
  lemma {:induction false} SlicesChain(
    deadline: real, now: real, since: Option<Position>, answers: seq<Answer>, spans: seq<Span>,
    wanted: Position -> bool)
    ensures var o := Sliced(deadline, now, since, answers);
            ServesAll(o.asks, answers, spans, wanted) ==>
              && Chained(spans, |o.asks|)
              && (o.asks != [] && since.Some? ==> spans[0].from == since.value)
              && (forall i | 0 <= i < |o.asks| - 1 :: !Woke(answers[i]))
    decreases |answers|
  {
    var o := Sliced(deadline, now, since, answers);
    if o.asks == [] {
    } else if ServesAll(o.asks, answers, spans, wanted) {
      ServesTail(o.asks, answers, spans, wanted);
      hide ServesAll;
      if !Ends(answers[0], Left(deadline, now)) {
        var next := Resumed(answers[0], since);
        var rest := Sliced(deadline, now + answers[0].lasted, next, answers[1..]);
        assert rest.asks == o.asks[1..];
        SlicesChain(deadline, now + answers[0].lasted, next, answers[1..], spans[1..], wanted);
        forall i | 1 <= i < |o.asks| ensures spans[i].from == spans[i - 1].to {
          assert spans[i] == spans[1..][i - 1];
          assert i > 1 ==> spans[i - 1] == spans[1..][i - 2];
        }
        forall i | 0 <= i < |o.asks| - 1 ensures !Woke(answers[i]) {
          assert i > 0 ==> answers[i] == answers[1..][i - 1];
        }
      }
    }
  }

  /** Chained spans that found nothing cover a stretch with nothing in it. */
  lemma {:induction false} ChainCovers(
    asks: seq<Ask>, answers: seq<Answer>, spans: seq<Span>, wanted: Position -> bool, n: nat)
    requires 0 < n <= |asks| && ServesAll(asks, answers, spans, wanted) && Chained(spans, n)
    requires forall i | 0 <= i < n - 1 :: !Woke(answers[i])
    ensures spans[0].from <= spans[n - 1].from
    ensures forall p | spans[0].from <= p < spans[n - 1].from :: !wanted(p)
    decreases n
  {
    if n > 1 {
      ChainCovers(asks, answers, spans, wanted, n - 1);
      assert Serves(asks[n - 2], answers[n - 2], spans[n - 2], wanted);
      hide ServesAll;
    }
  }

  /** A finished wait, long or short, tells its caller of every wanted event from
      the position it started at to the one it stopped at: it woke exactly if there
      is one, and then all of them are in the span of the answer returned. */
  lemma NothingGoesUnreported(
    request: Ask, start: real, answers: seq<Answer>, spans: seq<Span>, wanted: Position -> bool)
    ensures var o := Wait(request, start, answers);
            o.answer.Some? && ServesAll(o.asks, answers, spans, wanted) ==>
              && o.asks != []
              && var n := |o.asks|;
                 && (request.since.Some? ==> spans[0].from == request.since.value)
                 && o.answer == Some(answers[n - 1])
                 && (Woke(answers[n - 1]) <==> exists p | spans[0].from <= p < spans[n - 1].to :: wanted(p))
                 && (forall p | spans[0].from <= p < spans[n - 1].to && wanted(p) :: spans[n - 1].from <= p)
  {
    var o := Wait(request, start, answers);
    if o.answer.Some? && ServesAll(o.asks, answers, spans, wanted) {
      if Long(request.timeout) {
        var deadline := start + Capped(request.timeout.value) as real;
        AskCount(deadline, start, request.since, answers);
        SlicesChain(deadline, start, request.since, answers, spans, wanted);
      }
      var n := |o.asks|;
      ChainCovers(o.asks, answers, spans, wanted, n);
      assert Serves(o.asks[0], answers[0], spans[0], wanted);
      assert Serves(o.asks[n - 1], answers[n - 1], spans[n - 1], wanted);
    }
  }
}
