/** The circuit breaker of apps/api/src/bank/circuit-breaker.ts, over a clock that does not run
    backwards. The failure threshold (at least 1) and OPEN_MS (at least 0) are configuration. */
module Breakers {
  datatype CircuitState = Closed | Open | HalfOpen

  datatype Breaker = Breaker(state: CircuitState, openedAt: int, failures: nat)

  datatype Limits = Limits(threshold: nat, openMs: nat)

  ghost predicate ValidLimits(k: Limits) {
    k.threshold >= 1
  }

  function Initial(now: int): Breaker {
    Breaker(Closed, now, 0)
  }

  function Allow(k: Limits, b: Breaker, now: int): (r: (Breaker, bool)) {
    match b.state
    case Closed => (b, true)
    case Open => if now - b.openedAt >= k.openMs then (b.(state := HalfOpen), true) else (b, false)
    case HalfOpen => (b, false)
  }

  function Record(k: Limits, b: Breaker, success: bool, now: int): Breaker {
    if success then b.(state := Closed, failures := 0)
    else if b.state == HalfOpen || b.failures + 1 >= k.threshold then Breaker(Open, now, b.failures + 1)
    else b.(failures := b.failures + 1)
  }

  class CircuitBreaker {
    const limits: Limits
    var state: CircuitState
    var openedAt: int
    var failures: nat

    ghost function View(): Breaker
      reads this
    {
      Breaker(state, openedAt, failures)
    }

    constructor (limits: Limits, now: int)
      ensures this.limits == limits && View() == Initial(now)
    {
      this.limits := limits;
      state := Closed;
      openedAt := now;
      failures := 0;
    }

    method AllowCall(now: int) returns (granted: bool)
      modifies this
      ensures (View(), granted) == Allow(limits, old(View()), now)
    {
      match state {
        case Closed => granted := true;
        case Open =>
          if now - openedAt >= limits.openMs {
            state := HalfOpen;
            granted := true;
          } else {
            granted := false;
          }
        case HalfOpen => granted := false;
      }
    }

    method RecordResult(success: bool, now: int)
      modifies this
      ensures View() == Record(limits, old(View()), success, now)
    {
      if success {
        state := Closed;
        failures := 0;
      } else {
        failures := failures + 1;
        if state == HalfOpen {
          state := Open;
          openedAt := now;
        } else if failures >= limits.threshold {
          state := Open;
          openedAt := now;
        }
      }
    }
  }

  // ------------------------------------------------------- against history

  /** One call of the breaker, with the instant it was made. */
  datatype Op = Ask(at: int) | Report(success: bool, at: int)

  function Apply(k: Limits, b: Breaker, op: Op): Breaker {
    match op
    case Ask(at) => Allow(k, b, at).0
    case Report(success, at) => Record(k, b, success, at)
  }

  function After(k: Limits, b: Breaker, ops: seq<Op>): Breaker {
    if |ops| == 0 then b else Apply(k, After(k, b, ops[..|ops| - 1]), ops[|ops| - 1])
  }

  /** Length of the trailing run of reported failures; questions in between do not count. */
  function TrailingFailures(ops: seq<Op>): nat {
    if |ops| == 0 then 0 else
    match ops[|ops| - 1]
    case Ask(_) => TrailingFailures(ops[..|ops| - 1])
    case Report(success, _) => if success then 0 else TrailingFailures(ops[..|ops| - 1]) + 1
  }

  lemma {:induction false} FailuresAreTheTrailingRun(k: Limits, now: int, ops: seq<Op>)
    requires ValidLimits(k)
    ensures After(k, Initial(now), ops).failures == TrailingFailures(ops)
    ensures After(k, Initial(now), ops).state.Closed? <==> TrailingFailures(ops) < k.threshold
  {
    if |ops| > 0 {
      FailuresAreTheTrailingRun(k, now, ops[..|ops| - 1]);
    }
  }

  /** When the latest failure was reported. */
  function LastFailureAt(ops: seq<Op>, start: int): int {
    if |ops| == 0 then start else
    match ops[|ops| - 1]
    case Report(false, at) => at
    case _ => LastFailureAt(ops[..|ops| - 1], start)
  }

  /** A question was granted after the latest report. */
  ghost predicate Probed(k: Limits, ops: seq<Op>, start: int)
    decreases |ops|, 0
  {
    |ops| > 0 &&
    match ops[|ops| - 1]
    case Report(_, _) => false
    case Ask(at) => Probed(k, ops[..|ops| - 1], start) || Entitled(k, ops[..|ops| - 1], start, at)
  }

  /** Who may call the bank, told from the history alone: everybody while the trailing run of failures is
      below the threshold; then one call, at or after OPEN_MS from the latest failure. */
  ghost predicate Entitled(k: Limits, ops: seq<Op>, start: int, now: int)
    decreases |ops|, 1
  {
    || TrailingFailures(ops) < k.threshold
    || (!Probed(k, ops, start) && now - LastFailureAt(ops, start) >= k.openMs)
  }

  /** The breaker's three fields are exactly that history, so it grants exactly whoever is entitled: after
      the failure that trips it, be it the threshold-th or a failed probe, nobody before OPEN_MS has passed,
      and the first who asks from then on. */
  lemma {:induction false} GrantsExactlyTheEntitled(k: Limits, start: int, ops: seq<Op>, now: int)
    requires ValidLimits(k)
    ensures Allow(k, After(k, Initial(start), ops), now).1 <==> Entitled(k, ops, start, now)
    ensures var b := After(k, Initial(start), ops);
            TrailingFailures(ops) >= k.threshold ==>
              && b.openedAt == LastFailureAt(ops, start)
              && (b.state.HalfOpen? <==> Probed(k, ops, start))
  {
    FailuresAreTheTrailingRun(k, start, ops);
    if |ops| > 0 {
      var init := ops[..|ops| - 1];
      FailuresAreTheTrailingRun(k, start, init);
      GrantsExactlyTheEntitled(k, start, init, ops[|ops| - 1].at);
    }
  }

  /** A breaker that is closed grants, whatever the clock says; so a run of calls is refused only
      after `threshold` consecutive failures. */
  lemma {:induction false} RefusedOnlyAfterThreshold(k: Limits, start: int, ops: seq<Op>, now: int)
    requires ValidLimits(k)
    requires !Allow(k, After(k, Initial(start), ops), now).1
    ensures TrailingFailures(ops) >= k.threshold
  {
    FailuresAreTheTrailingRun(k, start, ops);
  }

  // ------------------------------------------------------ spacing of probes

  ghost predicate Ordered(ops: seq<Op>) {
    forall i, j | 0 <= i < j < |ops| :: ops[i].at <= ops[j].at
  }

  ghost predicate NoSuccess(ops: seq<Op>) {
    forall i | 0 <= i < |ops| :: ops[i].Report? ==> !ops[i].success
  }

  ghost predicate Granted(k: Limits, b: Breaker, ops: seq<Op>, i: nat)
    requires i < |ops|
  {
    ops[i].Ask? && Allow(k, After(k, b, ops[..i]), ops[i].at).1
  }

  /** Instants at which a probe was let through. */
  ghost function Grants(k: Limits, b: Breaker, ops: seq<Op>): seq<int> {
    if |ops| == 0 then [] else
    var n := |ops| - 1;
    Grants(k, b, ops[..n]) + (if Granted(k, b, ops, n) then [ops[n].at] else [])
  }

  /** While nothing succeeds the breaker stays away from CLOSED, and once it granted a probe at
      `g` it is HALF-OPEN or was opened again no earlier than `g`. */
  lemma {:induction false} SinceLastGrant(k: Limits, b: Breaker, ops: seq<Op>)
    requires ValidLimits(k) && !b.state.Closed? && b.failures >= k.threshold
    requires Ordered(ops) && NoSuccess(ops)
    ensures var c := After(k, b, ops); !c.state.Closed? && c.failures >= k.threshold
    ensures forall i | 0 <= i < |Grants(k, b, ops)| :: Grants(k, b, ops)[i] <= ops[|ops| - 1].at
    ensures var c := After(k, b, ops); var gs := Grants(k, b, ops);
            |gs| > 0 ==> c.state.HalfOpen? || c.openedAt >= gs[|gs| - 1]
  {
    if |ops| > 0 {
      var n := |ops| - 1;
      SinceLastGrant(k, b, ops[..n]);
      if n > 0 {
        assert ops[..n][n - 1] == ops[n - 1];
        assert ops[n - 1].at <= ops[n].at;
      }
    }
  }

  ghost predicate Spaced(gs: seq<int>, gap: nat) {
    forall i, j | 0 <= i < j < |gs| && j == i + 1 :: gs[j] - gs[i] >= gap
  }

  lemma {:induction false} GrantsSpacedFrom(k: Limits, b: Breaker, ops: seq<Op>)
    requires ValidLimits(k) && !b.state.Closed? && b.failures >= k.threshold
    requires Ordered(ops) && NoSuccess(ops)
    ensures Spaced(Grants(k, b, ops), k.openMs)
  {
    if |ops| > 0 {
      var n := |ops| - 1;
      GrantsSpacedFrom(k, b, ops[..n]);
      SinceLastGrant(k, b, ops[..n]);
    }
  }

  lemma {:induction false} SpacedSpan(gs: seq<int>, gap: nat)
    requires |gs| > 0 && Spaced(gs, gap)
    ensures gs[|gs| - 1] - gs[0] >= (|gs| - 1) * gap
  {
    var n := |gs| - 1;
    if n > 0 {
      SpacedSpan(gs[..n], gap);
      assert gs[n] - gs[n - 1] >= gap;
      assert (n - 1) * gap + gap == n * gap;
    }
  }

  /** Whatever happened before, once the breaker is not CLOSED the grants of a stretch without
      success are at least OPEN_MS apart. */
  lemma GrantsSpaced(k: Limits, start: int, before: seq<Op>, ops: seq<Op>)
    requires ValidLimits(k) && Ordered(ops) && NoSuccess(ops)
    requires !After(k, Initial(start), before).state.Closed?
    ensures Spaced(Grants(k, After(k, Initial(start), before), ops), k.openMs)
  {
    FailuresAreTheTrailingRun(k, start, before);
    GrantsSpacedFrom(k, After(k, Initial(start), before), ops);
  }

  /** So in a window of W milliseconds an unhealthy bank is probed at most W / OPEN_MS + 1 times. */
  lemma ProbesPerWindow(k: Limits, start: int, before: seq<Op>, ops: seq<Op>, window: nat)
    requires ValidLimits(k) && k.openMs > 0 && Ordered(ops) && NoSuccess(ops)
    requires !After(k, Initial(start), before).state.Closed?
    requires forall i, j | 0 <= i < j < |ops| :: ops[j].at - ops[i].at <= window
    ensures |Grants(k, After(k, Initial(start), before), ops)| <= window / k.openMs + 1
  {
    hide After, Grants, Spaced, TrailingFailures;
    var b := After(k, Initial(start), before);
    var gs := Grants(k, b, ops);
    if |gs| > 1 {
      GrantsSpaced(k, start, before, ops);
      FailuresAreTheTrailingRun(k, start, before);
      SinceLastGrant(k, b, ops);
      GrantsAfterFirst(k, b, ops);
      NoGrantsWithoutOps(k, b, ops);
      assert gs[|gs| - 1] - gs[0] <= window;
      SpacedFits(gs, k.openMs, window);
    }
  }

  lemma NoGrantsWithoutOps(k: Limits, b: Breaker, ops: seq<Op>)
    ensures |Grants(k, b, ops)| > 0 ==> |ops| > 0
  {
  }

  lemma SpacedFits(gs: seq<int>, gap: nat, window: nat)
    requires |gs| > 0 && gap > 0 && Spaced(gs, gap) && gs[|gs| - 1] - gs[0] <= window
    ensures |gs| <= window / gap + 1
  {
    hide Spaced;
    SpacedSpan(gs, gap);
    QuotientBound(|gs| - 1, gap, window);
  }

  lemma {:induction false} GrantsAfterFirst(k: Limits, b: Breaker, ops: seq<Op>)
    requires Ordered(ops)
    ensures forall i | 0 <= i < |Grants(k, b, ops)| :: ops[0].at <= Grants(k, b, ops)[i]
  {
    if |ops| > 0 {
      var n := |ops| - 1;
      GrantsAfterFirst(k, b, ops[..n]);
      if n > 0 {
        assert ops[..n][0] == ops[0];
        assert ops[0].at <= ops[n].at;
      }
    }
  }

  lemma {:induction false} QuotientBound(q: nat, d: nat, n: nat)
    requires d > 0 && q * d <= n
    ensures q <= n / d
  {
    assert n < (n / d + 1) * d by { assert (n / d + 1) * d == (n / d) * d + d; }
    MulGap(n / d + 1, q, d);
  }

  lemma MulGap(x: nat, y: nat, d: nat)
    ensures y >= x ==> y * d >= x * d
  {
    if y >= x { assert y * d == x * d + (y - x) * d; }
  }

  // ------------------------------------------- workers sharing one breaker

  /** The breaker of one worker process and the jobs whose granted bank call has not been recorded. */
  datatype Gate = Gate(breaker: Breaker, outstanding: set<nat>)

  /** What a job of the process can do: ask and, if granted, call; record the answer or the
      timeout; or leave with an error that is neither, which records nothing. */
  datatype GateStep = Enter(job: nat, at: int) | Answer(job: nat, success: bool, at: int) | Escape(job: nat)

  ghost predicate GateEnabled(g: Gate, a: GateStep) {
    match a
    case Enter(j, _) => j !in g.outstanding
    case Answer(j, _, _) => j in g.outstanding
    case Escape(j) => j in g.outstanding
  }

  function GateApply(k: Limits, g: Gate, a: GateStep): Gate {
    match a
    case Enter(j, at) =>
      var (b, granted) := Allow(k, g.breaker, at);
      Gate(b, if granted then g.outstanding + {j} else g.outstanding)
    case Answer(j, success, at) => Gate(Record(k, g.breaker, success, at), g.outstanding - {j})
    case Escape(j) => g.(outstanding := g.outstanding - {j})
  }

  ghost predicate GateRun(k: Limits, g: Gate, steps: seq<GateStep>)
    decreases |steps|
  {
    |steps| > 0 ==> GateEnabled(g, steps[0]) && GateRun(k, GateApply(k, g, steps[0]), steps[1..])
  }

  ghost function GateAfter(k: Limits, g: Gate, steps: seq<GateStep>): Gate
    decreases |steps|
  {
    if |steps| == 0 then g else GateAfter(k, GateApply(k, g, steps[0]), steps[1..])
  }

  ghost predicate ProbeOutstanding(g: Gate) {
    g.breaker.state.HalfOpen? ==> g.outstanding != {}
  }

  /** If the bank only answers or times out, a HALF-OPEN breaker always has a call that will record. */
  lemma {:induction false} HalfOpenHasProbe(k: Limits, g: Gate, steps: seq<GateStep>)
    requires ProbeOutstanding(g) && GateRun(k, g, steps)
    requires forall i | 0 <= i < |steps| :: !steps[i].Escape?
    ensures ProbeOutstanding(GateAfter(k, g, steps))
    decreases |steps|
  {
    if |steps| > 0 {
      var g' := GateApply(k, g, steps[0]);
      assert ProbeOutstanding(g') by {
        if steps[0].Enter? { assert steps[0].job in g.outstanding + {steps[0].job}; }
      }
      HalfOpenHasProbe(k, g', steps[1..]);
    }
  }

  ghost predicate Wedged(g: Gate) {
    g.breaker.state.HalfOpen? && g.outstanding == {}
  }

  /** The process can still get a bank call through: some continuation ends with a grant. */
  ghost predicate CanGrant(k: Limits, g: Gate) {
    exists steps, at :: GateRun(k, g, steps) && Allow(k, GateAfter(k, g, steps).breaker, at).1
  }

  lemma {:induction false} WedgedForever(k: Limits, g: Gate, steps: seq<GateStep>)
    requires Wedged(g) && GateRun(k, g, steps)
    ensures Wedged(GateAfter(k, g, steps))
    decreases |steps|
  {
    if |steps| > 0 {
      WedgedForever(k, GateApply(k, g, steps[0]), steps[1..]);
    }
  }

  /** The breaker can open up again exactly when it is not HALF-OPEN with every call gone. An
      error other than a timeout can cause that state, and then no continuation leaves it. */
  lemma {:induction false} CanGrantIffNotWedged(k: Limits, g: Gate)
    ensures CanGrant(k, g) <==> !Wedged(g)
  {
    if Wedged(g) {
      forall steps | GateRun(k, g, steps) ensures Wedged(GateAfter(k, g, steps)) {
        WedgedForever(k, g, steps);
      }
    } else if g.breaker.state.HalfOpen? {
      var j :| j in g.outstanding;
      var steps := [Answer(j, true, 0)];
      var g' := GateApply(k, g, steps[0]);
      assert GateRun(k, g', steps[1..]) && GateAfter(k, g', steps[1..]) == g';
      assert GateRun(k, g, steps) && Allow(k, GateAfter(k, g, steps).breaker, 0).1;
    } else {
      var at := g.breaker.openedAt + k.openMs;
      assert GateRun(k, g, []) && Allow(k, GateAfter(k, g, []).breaker, at).1;
    }
  }

  lemma {:induction false} GateRunAppend(k: Limits, g: Gate, steps: seq<GateStep>, a: GateStep)
    requires GateRun(k, g, steps) && GateEnabled(GateAfter(k, g, steps), a)
    ensures GateRun(k, g, steps + [a]) && GateAfter(k, g, steps + [a]) == GateApply(k, GateAfter(k, g, steps), a)
    decreases |steps|
  {
    hide GateEnabled, GateApply;
    if |steps| == 0 {
      assert steps + [a] == [a];
      assert [a][1..] == [];
      var t := GateApply(k, g, a);
      assert GateRun(k, t, []) && GateAfter(k, t, []) == t;
    } else {
      assert (steps + [a])[0] == steps[0] && (steps + [a])[1..] == steps[1..] + [a];
      GateRunAppend(k, GateApply(k, g, steps[0]), steps[1..], a);
    }
  }

  /** `n` calls that fail one after the other. */
  function Failing(n: nat, now: int): seq<GateStep> {
    if n == 0 then [] else Failing(n - 1, now) + [Enter(0, now)] + [Answer(0, false, now)]
  }

  lemma {:induction false} FailingRuns(k: Limits, now: int, n: nat)
    requires ValidLimits(k) && n <= k.threshold
    ensures GateRun(k, Gate(Initial(now), {}), Failing(n, now))
    ensures GateAfter(k, Gate(Initial(now), {}), Failing(n, now)) ==
              Gate(Breaker(if n < k.threshold then Closed else Open, now, n), {})
  {
    if n > 0 {
      FailingRuns(k, now, n - 1);
      GateRunAppend(k, Gate(Initial(now), {}), Failing(n - 1, now), Enter(0, now));
      GateRunAppend(k, Gate(Initial(now), {}), Failing(n - 1, now) + [Enter(0, now)], Answer(0, false, now));
    }
  }

  /** Under all limits a wedge is reachable from the start: a threshold of failures, then a probe that
      leaves without recording. */
  lemma {:induction false} WedgeHappens(k: Limits, now: int)
    requires ValidLimits(k)
    ensures var g := Gate(Initial(now), {});
            exists steps :: GateRun(k, g, steps) && Wedged(GateAfter(k, g, steps))
  {
    var g := Gate(Initial(now), {});
    var failing := Failing(k.threshold, now);
    var probe := Enter(0, now + k.openMs);
    FailingRuns(k, now, k.threshold);
    GateRunAppend(k, g, failing, probe);
    GateRunAppend(k, g, failing + [probe], Escape(0));
    assert Wedged(GateAfter(k, g, failing + [probe] + [Escape(0)]));
  }
}
