/** What the attempts of a delivery say about the POSTs made for it, in every reachable state. */
module WebhookCounts {
  import opened Options
  import opened Names
  import opened Deliveries
  import opened Webhooks

  /** The calls between their POST and their write. */
  function InFlight(s: State, d: Id): set<nat> {
    set c | c in s.calls && s.calls[c].stage.Sent? && s.calls[c].job.delivery == d
  }

  /** The attempts a call read and has still to count from. */
  ghost predicate Holds(s: State, c: nat, d: Id, snapshot: Row) {
    && c in s.calls && s.calls[c].job.delivery == d
    && (s.calls[c].stage.Sending? || s.calls[c].stage.Sent?) && s.calls[c].stage.snapshot == snapshot
  }

  /** The attempts count the writes until one is stale, and lag behind for ever after. */
  ghost predicate AttemptsTally(s: State, d: Id)
    requires Known(s, d)
  {
    var log := s.logs[d];
    && (if log.stale == 0 then s.rows[d].attempts == log.writes else s.rows[d].attempts < log.writes)
    && forall c, snapshot | Holds(s, c, d, snapshot) ::
         if log.stale == 0 then snapshot.attempts <= log.writes else snapshot.attempts < log.writes
  }

  /** Every POST was written, lost with its call, or is still to be written. */
  ghost predicate PostsTally(s: State, d: Id)
    requires Known(s, d)
  {
    s.logs[d].posts == s.logs[d].writes + s.logs[d].lost + |InFlight(s, d)|
  }

  ghost predicate Tallied(s: State) {
    forall d | Known(s, d) :: AttemptsTally(s, d) && PostsTally(s, d)
  }

  /** A snapshot is read once and then kept. */
  lemma StepOnHolds(s: State, a: Step, d: Id, c: nat, snapshot: Row)
    requires Enabled(s, a) && Holds(Apply(s, a), c, d, snapshot)
    ensures Holds(s, c, d, snapshot) || (d in s.rows && snapshot == s.rows[d])
  {
    hide Add, Write;
  }

  lemma StepKeepsAttemptsTally(s: State, a: Step, d: Id)
    requires Enabled(s, a) && Known(s, d) && AttemptsTally(s, d)
    ensures Known(Apply(s, a), d) && AttemptsTally(Apply(s, a), d)
  {
    StepOnRow(s, a, d);
    if a.Commit? && s.calls[a.c].job.delivery == d { assert Holds(s, a.c, d, s.calls[a.c].stage.snapshot); }
    hide Apply;
    var t := Apply(s, a);
    forall c, snapshot | Holds(t, c, d, snapshot)
      ensures if t.logs[d].stale == 0 then snapshot.attempts <= t.logs[d].writes
              else snapshot.attempts < t.logs[d].writes
    {
      StepOnHolds(s, a, d, c, snapshot);
    }
  }

  /** The one call a step puts in flight or takes out of it. */
  lemma StepOnInFlight(s: State, a: Step, d: Id)
    requires Enabled(s, a)
    ensures var t := Apply(s, a);
            InFlight(t, d) ==
              if a.Post? && s.calls[a.c].job.delivery == d then InFlight(s, d) + {a.c}
              else if a.Commit? || a.Crash? || a.Throw? then InFlight(s, d) - {a.c}
              else InFlight(s, d)
  {
    hide Write, Add;
  }

  /** What a step does to the count of POSTs less those accounted for. */
  lemma StepOnPosts(s: State, a: Step, d: Id)
    requires Enabled(s, a) && Known(s, d)
    ensures Known(Apply(s, a), d)
    ensures var (log, log') := (s.logs[d], Apply(s, a).logs[d]);
            && log'.posts == log.posts + (if a.Post? && s.calls[a.c].job.delivery == d then 1 else 0)
            && log'.writes + log'.lost == log.writes + log.lost +
                 if (a.Commit? || a.Crash? || a.Throw?) && a.c in InFlight(s, d) then 1 else 0
  {
    StepOnRow(s, a, d);
    hide Apply;
  }

  lemma SendersAreNotInFlight(s: State, a: Step, d: Id)
    requires Enabled(s, a) && a.Post?
    ensures a.c !in InFlight(s, d)
  {
  }

  lemma CardinalityMoves(x: set<nat>, c: nat)
    ensures |x + {c}| == |x| + if c in x then 0 else 1
    ensures |x - {c}| == |x| - if c in x then 1 else 0
  {
    if c in x {
      assert x + {c} == x;
    } else {
      assert x - {c} == x;
    }
  }

  lemma StepKeepsPostsTally(s: State, a: Step, d: Id)
    requires RowsOk(s) && Enabled(s, a) && Known(s, d) && PostsTally(s, d)
    ensures Known(Apply(s, a), d) && PostsTally(Apply(s, a), d)
  {
    hide Enabled, Apply, RowsOk, InFlight;
    StepOnInFlight(s, a, d);
    StepOnPosts(s, a, d);
    if a.Post? || a.Commit? || a.Crash? || a.Throw? { CardinalityMoves(InFlight(s, d), a.c); }
    if a.Post? { SendersAreNotInFlight(s, a, d); }
  }

  lemma NoHoldersOfUnknown(s: State, d: Id)
    requires Sound(s) && !Known(s, d)
    ensures forall c, snapshot :: !Holds(s, c, d, snapshot)
  {
    hide JobsOk, PromisesOk;
    forall c, snapshot ensures !Holds(s, c, d, snapshot) {
      if c in s.calls { assert CallOk(s, s.calls[c]); }
    }
  }

  lemma NewRowsAreTallied(s: State, a: Step, d: Id)
    requires Sound(s) && Enabled(s, a) && !Known(s, d) && Known(Apply(s, a), d)
    ensures AttemptsTally(Apply(s, a), d) && PostsTally(Apply(s, a), d)
  {
    NoHoldersOfUnknown(s, d);
    hide Add, Write, Sound;
    var t := Apply(s, a);
    assert forall c, snapshot :: Holds(t, c, d, snapshot) ==> Holds(s, c, d, snapshot);
    assert forall c :: c in InFlight(t, d) ==> Holds(t, c, d, t.calls[c].stage.snapshot);
    assert InFlight(t, d) == {};
  }

  lemma StepKeepsTallied(s: State, a: Step)
    requires Sound(s) && Enabled(s, a) && Tallied(s)
    ensures Tallied(Apply(s, a))
  {
    assert RowsOk(s);
    hide Enabled, Apply, AttemptsTally, PostsTally, Sound, Known, RowsOk;
    var t := Apply(s, a);
    forall d | Known(t, d) ensures AttemptsTally(t, d) && PostsTally(t, d) {
      if Known(s, d) {
        StepKeepsAttemptsTally(s, a, d);
        StepKeepsPostsTally(s, a, d);
      } else {
        NewRowsAreTallied(s, a, d);
      }
    }
  }

  lemma {:induction false} RunKeepsTallied(s: State, steps: seq<Step>)
    requires Sound(s) && Tallied(s) && Run(s, steps)
    ensures Tallied(After(s, steps))
    decreases |steps|
  {
    hide Enabled, Apply, Sound, Tallied;
    if |steps| > 0 {
      StepKeepsSound(s, steps[0]);
      StepKeepsTallied(s, steps[0]);
      RunKeepsTallied(Apply(s, steps[0]), steps[1..]);
    }
  }

  lemma ReachableIsTallied(s: State)
    requires Reachable(s)
    ensures Tallied(s)
  {
    hide Enabled, Apply, Sound;
    var maxAttempts: nat, steps :|
      maxAttempts >= 1 && Run(Initial(maxAttempts), steps) && After(Initial(maxAttempts), steps) == s;
    InitialIsSound(maxAttempts);
    RunKeepsTallied(Initial(maxAttempts), steps);
  }

  /** However calls overlap and crash, the attempts never exceed the POSTs made, and equal them exactly when
      no failure was written from outdated attempts, no call ended between its POST and its write, and none
      is there now. A delivered row had a successful POST, a dead one at least the maximum of POSTs. */
  lemma AttemptsCountPosts(s: State, d: Id)
    requires Reachable(s) && d in s.rows
    ensures d in s.logs
    ensures var row := s.rows[d]; var log := s.logs[d];
            && row.attempts <= log.posts
            && (row.attempts == log.posts <==> log.stale == 0 && log.lost == 0 && InFlight(s, d) == {})
            && (row.status.Delivered? ==> log.successes >= 1)
            && (row.status.Dead? ==> log.posts >= s.maxAttempts)
  {
    hide Reachable, Enabled, CallsOk, PromisesOk, JobsOk, InFlight, Holds;
    ReachableIsSound(s);
    ReachableIsTallied(s);
    assert AttemptsTally(s, d) && PostsTally(s, d);
    assert |InFlight(s, d)| == 0 <==> InFlight(s, d) == {};
  }
}
