/** When a delivery has a single driver: exactly which runs keep it, and what it guarantees. */
module SingleDriving {
  import opened Options
  import opened Names
  import opened Deliveries
  import opened Webhooks
  import opened WebhookCounts

  /** The job is the one its row names, and the row is open. */
  ghost predicate Fits(s: State, j: Job) {
    Open(s, j.delivery) && j == Rebuilt(j.delivery, s.rows[j.delivery])
  }

  /** A call that may still POST or write. */
  predicate Driving(stage: Stage) {
    stage == Started || stage.Sending? || stage.Sent?
  }

  ghost predicate Owns(s: State, c: nat) {
    c in s.calls && s.calls[c].job in s.jobs && s.jobs[s.calls[c].job] == Active(c)
  }

  ghost predicate DrivesAlone(s: State, c: nat)
    requires c in s.calls
  {
    var Call(j, stage) := s.calls[c];
    && Fits(s, j) && Owns(s, c)
    && (stage.Sending? || stage.Sent? ==> stage.snapshot == s.rows[j.delivery])
  }

  /** An open delivery is driven by no job but the one its row names, waiting or worked on by the one call
      that may still write; an ended delivery is driven by none. Jobs past their write drive nothing. */
  ghost predicate Single(s: State) {
    && (forall j | j in s.jobs && s.jobs[j].Waiting? :: Fits(s, j))
    && (forall c | c in s.calls && Driving(s.calls[c].stage) :: DrivesAlone(s, c))
  }

  /** Two drivers of one delivery are the same call, and exclude a waiting job. */
  lemma SingleMeansOne(s: State, c: nat, c': nat, j: Job)
    requires Single(s) && c in s.calls && Driving(s.calls[c].stage)
    ensures c' in s.calls && Driving(s.calls[c'].stage) && s.calls[c'].job.delivery == s.calls[c].job.delivery ==>
              c' == c
    ensures j in s.jobs && s.jobs[j].Waiting? ==> j.delivery != s.calls[c].job.delivery
  {
    assert DrivesAlone(s, c);
    if c' in s.calls && Driving(s.calls[c'].stage) { assert DrivesAlone(s, c'); }
    if j in s.jobs && s.jobs[j].Waiting? { assert Fits(s, j); }
  }

  // --------------------------------------------------------- order of events

  /** The row was written again after `seen` writes. */
  ghost predicate Overtaken(s: State, d: Id, seen: nat) {
    d in s.logs && s.logs[d].writes > seen
  }

  /** The step is no enqueue that was overtaken and finds its id free, no redelivery of a job whose call
      goes on, and no crash after the call's own write. */
  ghost predicate InOrder(s: State, a: Step)
    requires Enabled(s, a)
  {
    match a
    case AddFirst(d) => First(d) in s.jobs || !Overtaken(s, d, 0)
    case AddPick(k) =>
      JobOf(s.picks[k].pick) in s.jobs || !Overtaken(s, s.picks[k].pick.delivery, s.picks[k].seen)
    case AddNext(c) =>
      var d := s.calls[c].job.delivery;
      Next(d, s.calls[c].stage.attempts) in s.jobs || !Overtaken(s, d, s.calls[c].stage.seen)
    case Crash(c) => Driving(s.calls[c].stage) || !Owns(s, c)
    case Stall(_) => false
    case _ => true
  }

  function Counted(j: Job): nat {
    if j.First? then 0 else j.attempts
  }

  ghost predicate PastCallOk(s: State, c: nat)
    requires c in s.calls
  {
    var Call(j, stage) := s.calls[c];
    && (stage.Adding? ==> stage.attempts == stage.seen)
    && (!Driving(stage) && Owns(s, c) ==> Known(s, j.delivery) && Counted(j) < s.logs[j.delivery].writes)
  }

  /** What holds while driving has been single all along: no write was stale, every enqueue to come counts
      the writes, and a job past its write is outdated. */
  ghost predicate Unbroken(s: State) {
    && (forall d | Known(s, d) :: s.logs[d].stale == 0 && s.rows[d].attempts <= s.maxAttempts)
    && (forall k | k in s.picks :: s.picks[k].pick.row.attempts == s.picks[k].seen)
    && (forall c | c in s.calls :: PastCallOk(s, c))
  }

  ghost predicate History(s: State) {
    Sound(s) && Tallied(s) && Unbroken(s) && Single(s)
  }

  lemma PromisedFitsIff(s: State, p: Pick, seen: nat)
    requires Tallied(s) && Unbroken(s) && Known(s, p.delivery)
    requires IsPast(s, p.delivery, p.row, seen) && !IsTerminal(p.row) && p.row.attempts == seen
    ensures Fits(s, JobOf(p)) <==> !Overtaken(s, p.delivery, seen)
  {
    assert AttemptsTally(s, p.delivery);
  }

  /** Adding a job keeps single driving exactly when its id is taken or it fits. */
  lemma AddKeepsSingleIff(s: State, t: State, j: Job)
    requires Single(s) && t.rows == s.rows && t.jobs == Add(s.jobs, j)
    requires forall c | c in t.calls && Driving(t.calls[c].stage) :: c in s.calls && t.calls[c] == s.calls[c]
    ensures Single(t) <==> j in s.jobs || Fits(s, j)
  {
    forall c | c in t.calls && Driving(t.calls[c].stage) ensures DrivesAlone(t, c) {
      assert DrivesAlone(s, c);
    }
    forall i | i in s.jobs && s.jobs[i].Waiting? ensures Fits(t, i) { assert Fits(s, i); }
    if j !in s.jobs { assert t.jobs[j].Waiting?; }
  }

  lemma FirstsArePicks(s: State, d: Id)
    requires RowsOk(s) && PromisesOk(s) && d in s.firsts
    ensures Known(s, d) && IsPast(s, d, NEW_ROW, 0)
  {
  }

  /** Enqueues keep single driving exactly when they are in order. */
  lemma EnqueueKeepsSingleIff(s: State, a: Step)
    requires History(s) && Enabled(s, a) && (a.AddFirst? || a.AddPick? || a.AddNext?)
    ensures Single(Apply(s, a)) <==> InOrder(s, a)
  {
    hide Single, Tallied, Fits, RowOk, Add;
    var t := Apply(s, a);
    match a
    case AddFirst(d) =>
      FirstsArePicks(s, d);
      PromisedFitsIff(s, Pick(d, NEW_ROW), 0);
      AddKeepsSingleIff(s, t, First(d));
    case AddPick(k) =>
      assert PromiseOk(s, s.picks[k]);
      PromisedFitsIff(s, s.picks[k].pick, s.picks[k].seen);
      AddKeepsSingleIff(s, t, JobOf(s.picks[k].pick));
    case AddNext(c) =>
      assert CallOk(s, s.calls[c]) && PastCallOk(s, c);
      var d := s.calls[c].job.delivery;
      PromisedFitsIff(s, Pick(d, Row(Failed, s.calls[c].stage.attempts)), s.calls[c].stage.seen);
      AddKeepsSingleIff(s, t, Next(d, s.calls[c].stage.attempts));
  }

  /** A job delivered again beside its call, or after its own write, is a second driver or outdated. */
  lemma RedeliveryBreaksSingle(s: State, a: Step)
    requires History(s) && Enabled(s, a) && (a.Stall? || a.Crash?) && !InOrder(s, a)
    ensures !Single(Apply(s, a))
  {
    hide Add, CallsOk, PromisesOk, RowsOk, PostsTally;
    var t := Apply(s, a);
    var j := if a.Stall? then a.j else s.calls[a.c].job;
    var c := if a.Stall? then s.jobs[j].call else a.c;
    assert c in s.calls && s.calls[c].job == j && Owns(s, c);
    assert PastCallOk(s, c);
    assert t.jobs[j].Waiting? && t.rows == s.rows;
    if Driving(s.calls[c].stage) {
      assert c in t.calls && !DrivesAlone(t, c);
    } else {
      assert AttemptsTally(s, j.delivery);
      assert !Fits(t, j);
    }
  }

  /** A write changes one row, whose only driver was the call that wrote it. */
  lemma CommitKeepsSingle(s: State, c: nat)
    requires Single(s) && Enabled(s, Commit(c))
    ensures Single(Apply(s, Commit(c)))
  {
    hide Write, Rebuilt;
    var t := Apply(s, Commit(c));
    var d := s.calls[c].job.delivery;
    forall b | b in t.calls && Driving(t.calls[b].stage) ensures DrivesAlone(t, b) {
      SingleMeansOne(s, c, b, s.calls[c].job);
      assert DrivesAlone(s, b);
    }
    forall j | j in t.jobs && t.jobs[j].Waiting? ensures Fits(t, j) {
      SingleMeansOne(s, c, c, j);
      assert Fits(s, j);
    }
  }

  /** A call that is taken, reads or posts is still the only driver of its delivery. */
  lemma CallStepKeepsSingle(s: State, a: Step)
    requires Single(s) && JobsOk(s) && Enabled(s, a) && (a.Take? || a.Read? || a.Post?)
    ensures Single(Apply(s, a))
  {
    hide Rebuilt;
    var t := Apply(s, a);
    if !a.Take? { assert Driving(s.calls[a.c].stage) && DrivesAlone(s, a.c); }
    if a.Take? { assert Fits(s, a.j); }
    forall c | c in t.calls && Driving(t.calls[c].stage) ensures DrivesAlone(t, c) {
      if c in s.calls { assert DrivesAlone(s, c); }
    }
  }

  /** Fewer jobs and calls, and more rows, take no single driver away. */
  lemma FewerKeepSingle(s: State, t: State)
    requires Single(s) && (forall d | d in s.rows :: d in t.rows && t.rows[d] == s.rows[d])
    requires forall j | j in t.jobs && t.jobs[j].Waiting? :: Fits(s, j)
    requires forall c | c in t.calls :: c in s.calls && t.calls[c] == s.calls[c]
    requires forall c | c in t.calls && Owns(s, c) :: Owns(t, c)
    ensures Single(t)
  {
    forall c | c in t.calls && Driving(t.calls[c].stage) ensures DrivesAlone(t, c) { assert DrivesAlone(s, c); }
  }

  lemma LeaveKeepsSingle(s: State, a: Step)
    requires Sound(s) && Single(s) && Enabled(s, a) && InOrder(s, a) && (a.Return? || a.Crash? || a.Throw?)
    ensures Single(Apply(s, a))
  {
    hide RowsOk, CallsOk, PromisesOk, Rebuilt;
    if a.Crash? && Driving(s.calls[a.c].stage) { assert DrivesAlone(s, a.c); }
    var t := Apply(s, a);
    assert forall j | j in t.jobs && t.jobs[j].Waiting? :: Fits(s, j);
    hide Single, Fits;
    FewerKeepSingle(s, t);
  }

  lemma OtherStepKeepsSingle(s: State, a: Step)
    requires Single(s) && Enabled(s, a)
    requires a.Insert? || a.ForgetFirst? || a.Select? || a.ForgetPick? || a.Lose?
    ensures Single(Apply(s, a))
  {
    hide Rebuilt;
    var t := Apply(s, a);
    assert forall j | j in t.jobs && t.jobs[j].Waiting? :: Fits(s, j);
    assert forall c | c in t.calls && Owns(s, c) :: Owns(t, c);
    hide Single, Fits;
    FewerKeepSingle(s, t);
  }

  lemma SoundJobs(s: State)
    requires Sound(s)
    ensures JobsOk(s)
  {
  }

  lemma StepKeepsSingleIff(s: State, a: Step)
    requires History(s) && Enabled(s, a)
    ensures Single(Apply(s, a)) <==> InOrder(s, a)
  {
    assert Sound(s) && Single(s);
    hide History, Sound, Single, Apply, Enabled;
    if a.AddFirst? || a.AddPick? || a.AddNext? {
      EnqueueKeepsSingleIff(s, a);
    } else if !InOrder(s, a) {
      RedeliveryBreaksSingle(s, a);
    } else if a.Commit? {
      CommitKeepsSingle(s, a.c);
    } else if a.Take? || a.Read? || a.Post? {
      assert JobsOk(s) by { SoundJobs(s); }
      CallStepKeepsSingle(s, a);
    } else if a.Return? || a.Crash? || a.Throw? {
      LeaveKeepsSingle(s, a);
    } else {
      OtherStepKeepsSingle(s, a);
    }
  }

  // ----------------------------------------------------------------- runs

  lemma WrittenCallStaysUnbroken(s: State, c: nat)
    requires History(s) && Enabled(s, Commit(c))
    ensures c in Apply(s, Commit(c)).calls && PastCallOk(Apply(s, Commit(c)), c)
  {
    hide PromisesOk, PostsTally, CallsOk, JobsOk, RowsOk;
    assert DrivesAlone(s, c) && AttemptsTally(s, s.calls[c].job.delivery);
    hide Single, Tallied;
  }

  lemma MovedCallStaysUnbroken(s: State, a: Step)
    requires Single(s) && Enabled(s, a) && (a.Take? || a.Read? || a.Post? || a.AddNext?)
    requires a.c in s.calls ==> PastCallOk(s, a.c)
    ensures a.c in Apply(s, a).calls && PastCallOk(Apply(s, a), a.c)
  {
    if !a.Take? && Driving(s.calls[a.c].stage) { assert DrivesAlone(s, a.c); }
    hide Single;
  }

  lemma OtherCallStaysUnbroken(s: State, a: Step, c: nat)
    requires Enabled(s, a) && Keeps(s, Apply(s, a)) && !Moves(a, c) && c in Apply(s, a).calls
    requires c in s.calls && PastCallOk(s, c)
    ensures PastCallOk(Apply(s, a), c)
  {
    hide Write;
  }

  lemma StepKeepsCallsUnbroken(s: State, a: Step, c: nat)
    requires History(s) && Enabled(s, a) && c in Apply(s, a).calls
    ensures PastCallOk(Apply(s, a), c)
  {
    StepKeeps(s, a);
    assert Single(s) && forall b | b in s.calls :: PastCallOk(s, b);
    hide Enabled, Apply, History, PastCallOk, Single;
    if a == Commit(c) {
      WrittenCallStaysUnbroken(s, c);
    } else if Moves(a, c) {
      MovedCallStaysUnbroken(s, a);
    } else {
      OtherCallsStay(s, a, c);
      OtherCallStaysUnbroken(s, a, c);
    }
  }

  lemma StepKeepsRowUnbroken(s: State, a: Step, d: Id)
    requires Single(s) && Enabled(s, a) && Known(s, d) && RowOk(s.maxAttempts, s.rows[d])
    requires s.maxAttempts >= 1 && s.logs[d].stale == 0 && s.rows[d].attempts <= s.maxAttempts
    ensures var t := Apply(s, a); Known(t, d) && t.logs[d].stale == 0 && t.rows[d].attempts <= t.maxAttempts
  {
    StepOnRow(s, a, d);
    if a.Commit? { assert DrivesAlone(s, a.c); }
    hide Apply, Single;
  }

  lemma StepKeepsRowsUnbroken(s: State, a: Step, d: Id)
    requires History(s) && Enabled(s, a) && Known(Apply(s, a), d)
    ensures Apply(s, a).logs[d].stale == 0 && Apply(s, a).rows[d].attempts <= Apply(s, a).maxAttempts
  {
    hide Enabled, Apply, Tallied, PastCallOk, CallsOk, PromisesOk, JobsOk, Single;
    if Known(s, d) {
      StepKeepsRowUnbroken(s, a, d);
    } else {
      StepOnMaximum(s, a);
      StepOnNewRow(s, a, d);
    }
  }

  lemma StepKeepsPicksUnbroken(s: State, a: Step, k: nat)
    requires History(s) && Enabled(s, a) && k in Apply(s, a).picks
    ensures Apply(s, a).picks[k].pick.row.attempts == Apply(s, a).picks[k].seen
  {
    StepOnPick(s, a, k);
    if a.Select? { assert AttemptsTally(s, a.d); }
    hide Apply, Sound, Tallied, Single, PastCallOk;
  }

  lemma StepKeepsHistory(s: State, a: Step)
    requires History(s) && Enabled(s, a) && InOrder(s, a)
    ensures History(Apply(s, a))
  {
    StepKeepsSound(s, a);
    StepKeepsTallied(s, a);
    StepKeepsSingleIff(s, a);
    hide Enabled, Apply, Sound, Tallied, Single, PastCallOk, Known, InOrder;
    forall d | Known(Apply(s, a), d)
      ensures Apply(s, a).logs[d].stale == 0 && Apply(s, a).rows[d].attempts <= Apply(s, a).maxAttempts
    {
      StepKeepsRowsUnbroken(s, a, d);
    }
    forall k | k in Apply(s, a).picks
      ensures Apply(s, a).picks[k].pick.row.attempts == Apply(s, a).picks[k].seen
    {
      StepKeepsPicksUnbroken(s, a, k);
    }
    forall c | c in Apply(s, a).calls ensures PastCallOk(Apply(s, a), c) {
      StepKeepsCallsUnbroken(s, a, c);
    }
  }

  /** Driving is single in every state of the run. */
  ghost predicate AlwaysSingle(s: State, steps: seq<Step>)
    requires Run(s, steps)
    decreases |steps|
  {
    Single(s) && (|steps| > 0 ==> AlwaysSingle(Apply(s, steps[0]), steps[1..]))
  }

  ghost predicate Orderly(s: State, steps: seq<Step>)
    requires Run(s, steps)
    decreases |steps|
  {
    |steps| > 0 ==> InOrder(s, steps[0]) && Orderly(Apply(s, steps[0]), steps[1..])
  }

  lemma {:induction false} SingleIffOrderlyFrom(s: State, steps: seq<Step>)
    requires History(s) && Run(s, steps)
    ensures AlwaysSingle(s, steps) <==> Orderly(s, steps)
    ensures Orderly(s, steps) ==> History(After(s, steps))
    decreases |steps|
  {
    assert Single(s);
    hide Enabled, Apply, InOrder, History, Single;
    if |steps| > 0 {
      StepKeepsSingleIff(s, steps[0]);
      if InOrder(s, steps[0]) {
        StepKeepsHistory(s, steps[0]);
        SingleIffOrderlyFrom(Apply(s, steps[0]), steps[1..]);
      } else {
        assert !AlwaysSingle(Apply(s, steps[0]), steps[1..]);
      }
    }
  }

  lemma InitialHistory(maxAttempts: nat)
    requires maxAttempts >= 1
    ensures History(Initial(maxAttempts))
  {
  }

  /** Over every run, each state has single driving exactly when no enqueue, be it the dispatcher's, the
      processor's or the reaper's, came after another write of its row and found its id free, no job was
      redelivered beside its call, and no call crashed between its write and its return. */
  lemma SingleIffOrderly(maxAttempts: nat, steps: seq<Step>)
    requires maxAttempts >= 1 && Run(Initial(maxAttempts), steps)
    ensures AlwaysSingle(Initial(maxAttempts), steps) <==> Orderly(Initial(maxAttempts), steps)
  {
    InitialHistory(maxAttempts);
    SingleIffOrderlyFrom(Initial(maxAttempts), steps);
  }

  // ------------------------------------------------- what single driving buys

  /** A POST of this delivery that succeeded and is still to be written. */
  ghost predicate Landing(s: State, d: Id) {
    exists c :: c in s.calls && s.calls[c].job.delivery == d && s.calls[c].stage.Sent? && s.calls[c].stage.ok
  }

  ghost predicate SuccessesTally(s: State, d: Id)
    requires Known(s, d)
  {
    s.logs[d].lost == 0 ==>
      s.logs[d].successes == (if s.rows[d].status.Delivered? then 1 else 0) + if Landing(s, d) then 1 else 0
  }

  /** Under single driving the call that POSTs or writes has its delivery to itself. */
  lemma AloneInFlight(s: State, c: nat, b: nat)
    requires Single(s) && c in s.calls && Driving(s.calls[c].stage) && b in s.calls && b != c
    ensures s.calls[b].stage.Sent? ==> s.calls[b].job.delivery != s.calls[c].job.delivery
    ensures Open(s, s.calls[c].job.delivery)
  {
    SingleMeansOne(s, c, b, s.calls[c].job);
    assert DrivesAlone(s, c);
  }

  lemma PostKeepsSuccessesTally(s: State, c: nat, ok: bool)
    requires Single(s) && Enabled(s, Post(c, ok)) && SuccessesTally(s, s.calls[c].job.delivery)
    ensures var d := s.calls[c].job.delivery;
            Known(Apply(s, Post(c, ok)), d) && SuccessesTally(Apply(s, Post(c, ok)), d)
  {
    var d := s.calls[c].job.delivery;
    var t := Apply(s, Post(c, ok));
    assert DrivesAlone(s, c);
    forall b | b in s.calls && b != c ensures s.calls[b].stage.Sent? ==> s.calls[b].job.delivery != d {
      AloneInFlight(s, c, b);
    }
    hide Single;
    assert !Landing(s, d);
    assert t.calls[c] == Call(s.calls[c].job, Sent(s.calls[c].stage.snapshot, ok));
    assert Landing(t, d) <==> ok;
  }

  lemma CommitKeepsSuccessesTally(s: State, c: nat)
    requires Single(s) && Enabled(s, Commit(c)) && SuccessesTally(s, s.calls[c].job.delivery)
    ensures var d := s.calls[c].job.delivery;
            Known(Apply(s, Commit(c)), d) && SuccessesTally(Apply(s, Commit(c)), d)
  {
    var d := s.calls[c].job.delivery;
    var t := Apply(s, Commit(c));
    assert DrivesAlone(s, c);
    forall b | b in s.calls && b != c ensures s.calls[b].stage.Sent? ==> s.calls[b].job.delivery != d {
      AloneInFlight(s, c, b);
    }
    hide Single;
    assert Landing(s, d) <==> s.calls[c].stage.ok;
    assert !Landing(t, d);
  }

  lemma OtherStepsLeaveLanding(s: State, a: Step, d: Id)
    requires Enabled(s, a) && !((a.Post? || a.Commit?) && s.calls[a.c].job.delivery == d)
    requires (a.Crash? || a.Throw?) && s.calls[a.c].job.delivery == d ==> !s.calls[a.c].stage.Sent?
    ensures Landing(Apply(s, a), d) <==> Landing(s, d)
  {
    hide Add, Write, Landing;
    var t := Apply(s, a);
    SameFlightsSameLanding(s, t, d) by {
      assert forall c :: c in s.calls && s.calls[c].job.delivery == d && s.calls[c].stage.Sent? ==>
          c in t.calls && t.calls[c] == s.calls[c];
      assert forall c :: c in t.calls && t.calls[c].job.delivery == d && t.calls[c].stage.Sent? ==>
          c in s.calls && t.calls[c] == s.calls[c];
    }
  }

  lemma SameFlightsSameLanding(s: State, t: State, d: Id)
    requires forall c :: c in s.calls && s.calls[c].job.delivery == d && s.calls[c].stage.Sent? ==>
               c in t.calls && t.calls[c] == s.calls[c]
    requires forall c :: c in t.calls && t.calls[c].job.delivery == d && t.calls[c].stage.Sent? ==>
               c in s.calls && t.calls[c] == s.calls[c]
    ensures Landing(t, d) <==> Landing(s, d)
  {
  }

  lemma OtherStepsLeaveSuccesses(s: State, a: Step, d: Id)
    requires Enabled(s, a) && Known(s, d) && SuccessesTally(s, d)
    requires !((a.Post? || a.Commit?) && s.calls[a.c].job.delivery == d)
    ensures Known(Apply(s, a), d) && SuccessesTally(Apply(s, a), d)
  {
    StepOnRow(s, a, d);
    hide Apply, Landing;
    if Apply(s, a).logs[d].lost == 0 { OtherStepsLeaveLanding(s, a, d); }
  }

  ghost predicate SuccessesTallied(s: State) {
    forall d | Known(s, d) :: SuccessesTally(s, d)
  }

  lemma NewRowsHaveNoSuccess(s: State, a: Step, d: Id)
    requires Sound(s) && Enabled(s, a) && !Known(s, d) && Known(Apply(s, a), d)
    ensures SuccessesTally(Apply(s, a), d)
  {
    NoHoldersOfUnknown(s, d);
    hide Add, Write, Sound;
    var t := Apply(s, a);
    assert forall c :: c in t.calls && t.calls[c].job.delivery == d && t.calls[c].stage.Sent? ==>
        Holds(s, c, d, t.calls[c].stage.snapshot);
  }

  lemma StepKeepsSuccessesTallied(s: State, a: Step)
    requires Sound(s) && Single(s) && Enabled(s, a) && SuccessesTallied(s)
    ensures SuccessesTallied(Apply(s, a))
  {
    assert (a.Post? || a.Commit?) ==> Known(s, s.calls[a.c].job.delivery);
    hide Apply, Enabled, SuccessesTally, Sound, Single, Known;
    var t := Apply(s, a);
    forall d | Known(t, d) ensures SuccessesTally(t, d) {
      if !Known(s, d) {
        NewRowsHaveNoSuccess(s, a, d);
      } else if a.Post? && s.calls[a.c].job.delivery == d {
        PostKeepsSuccessesTally(s, a.c, a.ok);
      } else if a.Commit? && s.calls[a.c].job.delivery == d {
        CommitKeepsSuccessesTally(s, a.c);
      } else {
        OtherStepsLeaveSuccesses(s, a, d);
      }
    }
  }

  lemma {:induction false} OrderlyKeepsTallied(s: State, steps: seq<Step>)
    requires History(s) && SuccessesTallied(s) && Run(s, steps) && Orderly(s, steps)
    ensures History(After(s, steps)) && SuccessesTallied(After(s, steps))
    decreases |steps|
  {
    assert Sound(s) && Single(s);
    hide Enabled, Apply, InOrder, History, Single, Sound, SuccessesTallied;
    if |steps| > 0 {
      StepKeepsHistory(s, steps[0]);
      StepKeepsSuccessesTallied(s, steps[0]);
      OrderlyKeepsTallied(Apply(s, steps[0]), steps[1..]);
    }
  }

  lemma FlightsOfSingle(s: State, d: Id)
    requires History(s) && Known(s, d)
    ensures |InFlight(s, d)| <= 1
    ensures InFlight(s, d) != {} ==> !IsTerminal(s.rows[d]) && s.rows[d].attempts < s.maxAttempts
  {
    hide Tallied, Unbroken, CallsOk, PromisesOk, JobsOk;
    if InFlight(s, d) != {} {
      var c :| c in InFlight(s, d);
      assert DrivesAlone(s, c);
      forall b | b in InFlight(s, d) ensures b == c { SingleMeansOne(s, c, b, s.calls[c].job); }
      assert InFlight(s, d) == {c};
    }
  }

  /** In a run whose driving is always single no write is stale, attempts and rows stay within the maximum,
      and at most one call at a time works on a delivery. Unless a call ended between its POST and its
      write, the attempts count the POSTs, of which there are at most the maximum; and then, between calls,
      a delivery is delivered exactly when one POST succeeded, and dead exactly when the maximum was made
      and none did. */
  lemma SingleRunsConverge(maxAttempts: nat, steps: seq<Step>, d: Id)
    requires maxAttempts >= 1 && Run(Initial(maxAttempts), steps) && AlwaysSingle(Initial(maxAttempts), steps)
    requires d in After(Initial(maxAttempts), steps).rows
    ensures var t := After(Initial(maxAttempts), steps);
            && d in t.logs && t.logs[d].stale == 0 && t.rows[d].attempts <= t.maxAttempts
            && |InFlight(t, d)| <= 1
            && (t.logs[d].lost == 0 ==>
                  && t.logs[d].posts == t.rows[d].attempts + |InFlight(t, d)| <= t.maxAttempts
                  && t.logs[d].successes <= 1)
            && (t.logs[d].lost == 0 && InFlight(t, d) == {} ==>
                  && (t.rows[d].status.Delivered? <==> t.logs[d].successes == 1)
                  && (t.rows[d].status.Dead? <==> t.logs[d].successes == 0 && t.logs[d].posts == t.maxAttempts))
  {
    InitialHistory(maxAttempts);
    SingleIffOrderlyFrom(Initial(maxAttempts), steps);
    OrderlyKeepsTallied(Initial(maxAttempts), steps);
    hide Run, After, Orderly, AlwaysSingle, Initial;
    var t := After(Initial(maxAttempts), steps);
    FlightsOfSingle(t, d);
    ConvergedCounts(t, d);
  }

  lemma ConvergedCounts(t: State, d: Id)
    requires History(t) && SuccessesTallied(t) && d in t.rows && |InFlight(t, d)| <= 1
    requires InFlight(t, d) != {} ==> !IsTerminal(t.rows[d]) && t.rows[d].attempts < t.maxAttempts
    ensures d in t.logs && t.logs[d].stale == 0 && t.rows[d].attempts <= t.maxAttempts
    ensures t.logs[d].lost == 0 ==>
              && t.logs[d].posts == t.rows[d].attempts + |InFlight(t, d)| <= t.maxAttempts
              && t.logs[d].successes <= 1
    ensures t.logs[d].lost == 0 && InFlight(t, d) == {} ==>
              && (t.rows[d].status.Delivered? <==> t.logs[d].successes == 1)
              && (t.rows[d].status.Dead? <==> t.logs[d].successes == 0 && t.logs[d].posts == t.maxAttempts)
  {
    hide Single, CallsOk, PromisesOk, JobsOk;
    assert AttemptsTally(t, d) && PostsTally(t, d) && SuccessesTally(t, d);
    assert Landing(t, d) ==> InFlight(t, d) != {} by {
      if Landing(t, d) {
        var c :| c in t.calls && t.calls[c].job.delivery == d && t.calls[c].stage.Sent? && t.calls[c].stage.ok;
        assert c in InFlight(t, d);
      }
    }
  }

  /** And while driving stays single, ended deliveries are final and get no further POST. */
  lemma {:induction false} SingleKeepsEnded(s: State, steps: seq<Step>, d: Id)
    requires History(s) && Run(s, steps) && AlwaysSingle(s, steps) && Known(s, d) && IsTerminal(s.rows[d])
    ensures var t := After(s, steps);
            Known(t, d) && t.rows[d] == s.rows[d] && t.logs[d].posts == s.logs[d].posts
    decreases |steps|
  {
    SingleIffOrderlyFrom(s, steps);
    hide Apply, Enabled, History, InOrder, Single;
    if |steps| > 0 {
      StepKeepsEnded(s, steps[0], d);
      StepKeepsHistory(s, steps[0]);
      SingleKeepsEnded(Apply(s, steps[0]), steps[1..], d);
    }
  }

  lemma StepKeepsEnded(s: State, a: Step, d: Id)
    requires History(s) && Enabled(s, a) && Known(s, d) && IsTerminal(s.rows[d])
    ensures Known(Apply(s, a), d) && Apply(s, a).rows[d] == s.rows[d] && Apply(s, a).logs[d].posts == s.logs[d].posts
  {
    StepOnRow(s, a, d);
    if a.Post? || a.Commit? { assert DrivesAlone(s, a.c); }
    hide Apply, Sound, Tallied, Unbroken, Single, Write;
  }
}
