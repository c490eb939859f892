/** Charges after the end: exactly which uncharged payments can still be charged, and by whom. */
module LateCharges {
  import opened Options
  import opened Names
  import opened FreshNames
  import opened Statuses
  import opened Banks
  import opened Tables
  import opened JobIds
  import opened Pipeline
  import opened PipelineInvariant
  import opened PipelineSteps
  import opened PipelineTheorems
  import opened Recovery
  import Money

  /** Some run charges the payment. */
  ghost predicate Chargeable(s: State, p: Id) {
    exists steps :: Run(s, steps) && p in After(s, steps).bank.store
  }

  ghost predicate NeverCharged(s: State, p: Id) {
    forall steps | Run(s, steps) :: p !in After(s, steps).bank.store
  }

  lemma NeverIsNotChargeable(s: State, p: Id)
    ensures NeverCharged(s, p) <==> !Chargeable(s, p)
  {
  }

  ghost predicate CallsSpent(s: State, p: Id) {
    forall c | c in s.calls && s.calls[c].order.paymentId == p :: s.calls[c].answer.Some?
  }

  /** A call of `process` that has passed the bank and has nothing left to enqueue. */
  ghost predicate PastBank(pc: Pc) {
    pc.Calling? || pc.Decided? || pc == Returned
  }

  ghost predicate WorkersSpent(s: State, p: Id) {
    forall w | On(s, w, p) :: PastBank(s.workers[w].pc)
  }

  ghost predicate JobsSpent(s: State, p: Id) {
    forall j | j in s.jobs && s.jobs[j].order.paymentId == p :: s.jobs[j].status.Completed? || s.jobs[j].status.Failed?
  }

  ghost predicate ReapersSpent(s: State, p: Id) {
    forall r, order | r in s.reapers && order in s.reapers[r] :: order.paymentId != p
  }

  /** Nothing in the system can bring the payment to the bank again: no call is open, no worker is on
      its way there or about to enqueue, no job is left, and no reaper holds its order. */
  ghost predicate Spent(s: State, p: Id) {
    CallsSpent(s, p) && WorkersSpent(s, p) && JobsSpent(s, p) && ReapersSpent(s, p)
  }

  // --------------------------------------- a submission's job is always there

  /** A payment that has left PENDING did so through the job of its submission. */
  ghost predicate SubmissionsAdded(s: State) {
    forall p, o | LeftPending(s.db, p) && SubmittedRow(s.db, p, o) :: Submission(o) in s.jobs
  }

  lemma StepKeepsSubmissionsAdded(s: State, a: Step)
    requires Inv(s) && Enabled(s, a) && SubmissionsAdded(s)
    ensures SubmissionsAdded(Apply(s, a))
  {
    hide Inv, Enabled, Apply, Evolves, LeftPending;
    var t := Apply(s, a);
    StepKeepsJobs(s, a);
    StepEvolves(s, a);
    forall p, o | LeftPending(t.db, p) && SubmittedRow(t.db, p, o) ensures Submission(o) in t.jobs {
      WhoeverLeftWasAdded(s, a, p, o);
    }
  }

  lemma WhoeverLeftWasAdded(s: State, a: Step, p: Id, o: Id)
    requires Inv(s) && Enabled(s, a) && SubmissionsAdded(s) && Evolves(s.db, Apply(s, a).db)
    requires var t := Apply(s, a); LeftPending(t.db, p) && SubmittedRow(t.db, p, o)
    ensures Submission(o) in s.jobs
  {
    hide Inv, Enabled, Apply, Attended;
    var t := Apply(s, a);
    StepKeepsInv(s, a);
    OldPaymentsOnly(s.db, t.db, p);
    var o' := SubmissionOf(s, p);
    RowSurvives(s.db, t.db, p, o');
    var o'' := SubmissionOf(t, p);
    if s.db.payments[p].status == PENDING {
      if !Attended(s, p) { UnattendedStaysPending(s, a, p); }
      AttendedWasAdded(s, p, o);
    }
  }

  lemma OldPaymentsOnly(db: Db, db': Db, p: Id)
    requires Evolves(db, db') && LeftPending(db', p)
    ensures p in db.payments
  {
  }

  lemma AttendedWasAdded(s: State, p: Id, o: Id)
    requires Inv(s) && Attended(s, p) && SubmittedRow(s.db, p, o)
    requires p in s.db.payments && s.db.payments[p].status == PENDING
    ensures Submission(o) in s.jobs
  {
    var w :| On(s, w, p);
    assert WorkerOk(s, w) by {
      hide DbSound, JobsInv, StatusInv, RetryIdsInv, CallsInv, RelaysInv, PublishedInv, ReapersInv;
      hide CompletedInv, BankInv;
    }
    hide Inv;
    PendingHasOneJob(s, s.workers[w].job, p, o);
  }

  lemma {:induction false} RunKeepsSubmissionsAdded(s: State, steps: seq<Step>)
    requires Inv(s) && SubmissionsAdded(s) && Run(s, steps)
    ensures SubmissionsAdded(After(s, steps))
    decreases |steps|
  {
    hide Inv, Enabled, Apply, SubmissionsAdded;
    if |steps| > 0 {
      StepKeepsInv(s, steps[0]);
      StepKeepsSubmissionsAdded(s, steps[0]);
      RunKeepsSubmissionsAdded(Apply(s, steps[0]), steps[1..]);
    }
  }

  lemma ReachableSubmissionsAdded(s: State)
    requires Reachable(s)
    ensures SubmissionsAdded(s)
  {
    hide Inv, Enabled, Apply;
    var maxRetries, steps :| Run(Initial(maxRetries), steps) && After(Initial(maxRetries), steps) == s;
    InitialInv(maxRetries);
    RunKeepsSubmissionsAdded(Initial(maxRetries), steps);
  }

  // ------------------------------------------------- spent payments stay spent

  /** A FAILED payment that is spent, with its submission's job there. */
  ghost predicate Settled(s: State, p: Id) {
    && p in s.db.payments && s.db.payments[p].status == FAILED
    && p !in s.bank.store && Spent(s, p)
    && (forall o | SubmittedRow(s.db, p, o) :: Submission(o) in s.jobs)
  }

  lemma StepKeepsJobsSpent(s: State, a: Step, p: Id)
    requires Inv(s) && Enabled(s, a) && Settled(s, p)
    ensures JobsSpent(Apply(s, a), p)
  {
    hide Inv, Apply, Leave, Locked, Selectable, Reapable, FreshId, CallsSpent, Stranded;
    StepOnJobs(s, a);
    if a.RelayAdd? { RelayRowIsSubmission(s, a.r, a.o); }
    if a.Return? { LeaveKeepsJobsSpent(s, a.w, Completed, p); }
    if a.Throw? { LeaveKeepsJobsSpent(s, a.w, JobStatus.Failed, p); }
    if a.Crash? { LeaveKeepsJobsSpent(s, a.w, Waiting, p); }
  }

  lemma LeaveKeepsJobsSpent(s: State, w: nat, outcome: JobStatus, p: Id)
    requires w in s.workers && JobsSpent(s, p)
    ensures JobsSpent(Leave(s, w, outcome), p)
  {
  }

  lemma RelayRowIsSubmission(s: State, r: nat, o: Id)
    requires Inv(s) && r in s.relays && o in s.relays[r].rows
    ensures o in s.db.outbox && SubmittedRow(s.db, s.db.outbox[o].order.paymentId, o)
  {
    hide RowsSound, IdemSound, OutboxUnique, OutboxCovers, JobsInv, StatusInv, RetryIdsInv, CallsInv, WorkersInv;
    hide PublishedInv, ReapersInv, CompletedInv, BankInv;
    assert RelayOk(s, s.relays[r]);
    assert OutboxRowSound(s.db, o);
  }

  lemma WorkerComesFrom(s: State, a: Step, w: nat)
    requires Enabled(s, a) && w in Apply(s, a).workers
    ensures var worker := Apply(s, a).workers[w];
            || (w in s.workers && worker == s.workers[w])
            || (MovesWorker(a) && a.w == w && w in s.workers && worker == s.workers[w].(pc := NextPc(s, a)))
            || (a.Dequeue? && a.w == w && worker == Worker(a.j, s.jobs[a.j].order, Start))
  {
    StepOnWorkers(s, a);
    hide Apply, NextPc;
  }

  lemma StepKeepsWorkersSpent(s: State, a: Step, p: Id)
    requires Inv(s) && Enabled(s, a) && Settled(s, p)
    ensures WorkersSpent(Apply(s, a), p)
  {
    hide Inv, Apply, NextPc, CallsSpent, ReapersSpent;
    var t := Apply(s, a);
    forall w | On(t, w, p) ensures PastBank(t.workers[w].pc) {
      WorkerComesFrom(s, a, w);
      assert On(s, w, p);
      if MovesWorker(a) && a.w == w { MovesPastBank(s, a, p); }
    }
  }

  lemma MovesPastBank(s: State, a: Step, p: Id)
    requires Enabled(s, a) && MovesWorker(a) && On(s, a.w, p) && PastBank(s.workers[a.w].pc)
    requires p in s.db.payments && s.db.payments[p].status == FAILED
    ensures PastBank(NextPc(s, a))
  {
  }

  lemma StepKeepsCallsSpent(s: State, a: Step, p: Id)
    requires Inv(s) && Enabled(s, a) && Settled(s, p)
    ensures CallsSpent(Apply(s, a), p)
  {
    hide Inv, Apply, Authorize, SetConfig, JobsSpent, ReapersSpent;
    StepOnBank(s, a);
    if a.CallBank? { assert !On(s, a.w, p); }
  }

  lemma StepKeepsReapersSpent(s: State, a: Step, p: Id)
    requires Inv(s) && Enabled(s, a) && Settled(s, p)
    ensures ReapersSpent(Apply(s, a), p)
  {
    hide Inv, Apply, ReapTxn, JobsSpent, CallsSpent, WorkersSpent;
    StepOnReapers(s, a);
    if a.ReapCommit? { StuckAreNot(s, a.stuck, p); }
  }

  lemma StepKeepsUncharged(s: State, a: Step, p: Id)
    requires Enabled(s, a) && Settled(s, p)
    ensures p !in Apply(s, a).bank.store
  {
    hide Apply, JobsSpent, ReapersSpent, WorkersSpent;
    StepOnBank(s, a);
  }

  lemma StuckAreNot(s: State, stuck: set<Id>, p: Id)
    requires Inv(s) && p in s.db.payments && s.db.payments[p].status == FAILED
    requires forall q | q in stuck :: Reapable(s, q)
    ensures forall q | q in stuck && q in s.db.payments :: OrderOf(s.db.payments[q]).paymentId != p
  {
    hide Inv;
    forall q | q in stuck && q in s.db.payments ensures OrderOf(s.db.payments[q]).paymentId != p {
      assert Reapable(s, q);
      PaymentOf(s, q);
    }
  }

  lemma StepKeepsSettled(s: State, a: Step, p: Id)
    requires Inv(s) && SubmissionsAdded(s) && Enabled(s, a) && Settled(s, p)
    ensures Settled(Apply(s, a), p)
  {
    hide Inv, Enabled, Apply, CallsSpent, WorkersSpent, JobsSpent, ReapersSpent, KeepsTables, KeepsPayment, Evolves;
    var t := Apply(s, a);
    StepKeepsJobsSpent(s, a, p);
    StepKeepsWorkersSpent(s, a, p);
    StepKeepsCallsSpent(s, a, p);
    StepKeepsReapersSpent(s, a, p);
    StepKeepsUncharged(s, a, p);
    StepEvolves(s, a);
    EvolvesKeepsTables(s.db, t.db);
    FailedStays(s.db, t.db, p);
    StepKeepsSubmissionsAdded(s, a);
  }

  lemma FailedStays(db: Db, db': Db, p: Id)
    requires KeepsTables(db, db') && p in db.payments && db.payments[p].status == FAILED
    ensures p in db'.payments && db'.payments[p].status == FAILED
  {
    assert KeepsPayment(db, db', p);
  }

  lemma {:induction false} SettledIsNeverCharged(s: State, steps: seq<Step>, p: Id)
    requires Inv(s) && SubmissionsAdded(s) && Settled(s, p) && Run(s, steps)
    ensures p !in After(s, steps).bank.store
    decreases |steps|
  {
    hide Inv, Enabled, Apply, SubmissionsAdded, Spent;
    if |steps| > 0 {
      StepKeepsInv(s, steps[0]);
      StepKeepsSubmissionsAdded(s, steps[0]);
      StepKeepsSettled(s, steps[0], p);
      SettledIsNeverCharged(Apply(s, steps[0]), steps[1..], p);
    }
  }

  // ------------------------------------------------ whatever is left can charge

  lemma ChargeableBefore(s: State, a: Step, p: Id)
    requires Enabled(s, a) && Chargeable(Apply(s, a), p)
    ensures Chargeable(s, p)
  {
    hide Enabled, Apply;
    var steps :| Run(Apply(s, a), steps) && p in After(Apply(s, a), steps).bank.store;
    var all := [a] + steps;
    assert all[0] == a && all[1..] == steps;
    assert Run(s, all) && After(s, all) == After(Apply(s, a), steps);
  }

  lemma ChargedIsChargeable(s: State, p: Id)
    requires p in s.bank.store
    ensures Chargeable(s, p)
  {
    assert Run(s, []) && After(s, []) == s;
  }

  /** An operator turns the bank to authorising, and it sees the call. */
  lemma OpenCallCharges(s: State, c: nat, p: Id)
    requires c in s.calls && s.calls[c].answer == None && s.calls[c].order.paymentId == p
    ensures Chargeable(s, p)
  {
    var a := ConfigureBank(Some(AlwaysAuthorize), None);
    var s1 := Apply(s, a);
    ChargedIsChargeable(Apply(s1, BankEvaluates(c)), p);
    ChargeableBefore(s1, BankEvaluates(c), p);
    ChargeableBefore(s, a, p);
  }

  lemma ReadyCharges(s: State, w: nat, p: Id)
    requires On(s, w, p) && s.workers[w].pc == Ready
    ensures Chargeable(s, p)
  {
    hide Chargeable;
    var c := FreshNat(s.calls.Keys);
    OpenCallCharges(Apply(s, CallBank(w, c)), c, p);
    ChargeableBefore(s, CallBank(w, c), p);
  }

  lemma StartCharges(s: State, w: nat, p: Id)
    requires On(s, w, p) && (s.workers[w].pc == Start || s.workers[w].pc.Read?)
    ensures Chargeable(s, p)
  {
    hide Chargeable, ClaimCas;
    if s.workers[w].pc == Start {
      var s1 := Apply(s, ReadRow(w));
      ReadyCharges(Apply(s1, Claim(w)), w, p);
      ChargeableBefore(s1, Claim(w), p);
      ChargeableBefore(s, ReadRow(w), p);
    } else {
      ReadyCharges(Apply(s, Claim(w)), w, p);
      ChargeableBefore(s, Claim(w), p);
    }
  }

  /** A job that waits is taken; one that is active stalls first. */
  lemma JobCharges(s: State, j: JobId, p: Id)
    requires j in s.jobs && s.jobs[j].order.paymentId == p && (s.jobs[j].status == Waiting || s.jobs[j].status.Active?)
    ensures Chargeable(s, p)
  {
    hide Chargeable;
    var w := FreshNat(s.workers.Keys);
    if s.jobs[j].status == Waiting {
      StartCharges(Apply(s, Dequeue(w, j)), w, p);
      ChargeableBefore(s, Dequeue(w, j), p);
    } else {
      var s1 := Apply(s, Stall(j));
      StartCharges(Apply(s1, Dequeue(w, j)), w, p);
      ChargeableBefore(s1, Dequeue(w, j), p);
      ChargeableBefore(s, Stall(j), p);
    }
  }

  lemma EnqueueCharges(s: State, w: nat, p: Id)
    requires Reachable(s) && On(s, w, p) && s.workers[w].pc.Enqueue?
    ensures Chargeable(s, p)
  {
    hide Chargeable, Reachable;
    RetryIsNeverDropped(s, w);
    JobCharges(Apply(s, EnqueueRetry(w)), JobIds.Retry(p, s.workers[w].pc.attempt), p);
    ChargeableBefore(s, EnqueueRetry(w), p);
  }

  lemma ReaperCharges(s: State, r: nat, order: Request)
    requires r in s.reapers && order in s.reapers[r]
    ensures Chargeable(s, order.paymentId)
  {
    hide Chargeable;
    var p := order.paymentId;
    var used := set j | j in s.jobs && j.Reap? :: j.at;
    var at := FreshNat(used);
    assert forall j | j in s.jobs && j.Reap? :: j.at in used;
    assert Reap(p, at) !in s.jobs;
    JobCharges(Apply(s, ReapAdd(r, order, at)), Reap(p, at), p);
    ChargeableBefore(s, ReapAdd(r, order, at), p);
  }

  /** Whoever is not spent can be charged, whatever its status. */
  lemma UnspentIsChargeable(s: State, p: Id)
    requires Reachable(s) && !Spent(s, p)
    ensures Chargeable(s, p)
  {
    hide Chargeable, Reachable;
    if !CallsSpent(s, p) {
      var c :| c in s.calls && s.calls[c].order.paymentId == p && s.calls[c].answer.None?;
      OpenCallCharges(s, c, p);
    } else if !WorkersSpent(s, p) {
      var w :| On(s, w, p) && !PastBank(s.workers[w].pc);
      if s.workers[w].pc == Ready {
        ReadyCharges(s, w, p);
      } else if s.workers[w].pc.Enqueue? {
        EnqueueCharges(s, w, p);
      } else {
        StartCharges(s, w, p);
      }
    } else if !JobsSpent(s, p) {
      var j :| j in s.jobs && s.jobs[j].order.paymentId == p
            && !s.jobs[j].status.Completed? && !s.jobs[j].status.Failed?;
      JobCharges(s, j, p);
    } else {
      var r, order :| r in s.reapers && order in s.reapers[r] && order.paymentId == p;
      ReaperCharges(s, r, order);
    }
  }

  // -------------------------------------------------------------- theorems

  /** A payment that FAILED without a charge stays uncharged in every run exactly when it is spent. */
  lemma FailedStaysUnchargedIffSpent(s: State, p: Id)
    requires Reachable(s) && p in s.db.payments && s.db.payments[p].status == FAILED && p !in s.bank.store
    ensures NeverCharged(s, p) <==> Spent(s, p)
  {
    hide Inv, Enabled, Apply, Spent, SubmissionsAdded;
    if Spent(s, p) {
      ReachableInv(s);
      ReachableSubmissionsAdded(s);
      SubmissionsOf(s, p);
      forall steps | Run(s, steps) ensures p !in After(s, steps).bank.store {
        SettledIsNeverCharged(s, steps, p);
      }
    } else {
      UnspentIsChargeable(s, p);
      NeverIsNotChargeable(s, p);
    }
  }

  lemma SubmissionsOf(s: State, p: Id)
    requires SubmissionsAdded(s) && LeftPending(s.db, p)
    ensures forall o | SubmittedRow(s.db, p, o) :: Submission(o) in s.jobs
  {
  }

  /** Altogether, an uncharged payment is never charged exactly when it is stranded, or has FAILED and
      is spent. */
  lemma NeverChargedIff(s: State, p: Id)
    requires Reachable(s) && p in s.db.payments && p !in s.bank.store
    ensures NeverCharged(s, p) <==> Stranded(s, p) || (s.db.payments[p].status == FAILED && Spent(s, p))
  {
    hide Inv, Enabled, Apply, Spent, Stranded;
    ReachableInv(s);
    match s.db.payments[p].status
    case COMPLETED => ChargedExactlyOnce(s);
    case FAILED =>
      FailedStaysUnchargedIffSpent(s, p);
      StrandedIsPending(s, p);
    case _ =>
      if Stranded(s, p) {
        forall steps | Run(s, steps) ensures p !in After(s, steps).bank.store {
          StrandedForever(s, steps, p);
          StrandedIsPending(After(s, steps), p);
          RunKeepsInv(s, steps);
          if p in After(s, steps).bank.store { ChargedHasLeftPending(After(s, steps), p); }
        }
      } else {
        OpenIsChargeable(s, p);
        NeverIsNotChargeable(s, p);
      }
  }

  /** Once the bank authorises, an open payment can be completed, and so charged. */
  lemma OpenIsChargeable(s: State, p: Id)
    requires Reachable(s) && p in s.db.payments && !IsTerminal(s.db.payments[p].status) && !Stranded(s, p)
    ensures Chargeable(s, p)
  {
    var a := ConfigureBank(Some(AlwaysAuthorize), None);
    var t := Apply(s, a);
    assert !Stranded(t, p) by { assert forall w :: On(t, w, p) <==> On(s, w, p); }
    hide Inv, Enabled, Apply, Stranded;
    ReachableStep(s, a);
    CompletableIff(t, p);
    var steps :| Drives(t, steps, p, {COMPLETED});
    RunKeepsReachable(t, steps);
    ChargedExactlyOnce(After(t, steps));
    ChargeableBefore(s, a, p);
  }

  // ------------------------------------------------- these things do happen

  ghost predicate SameBut(s: State, t: State) {
    t.maxRetries == s.maxRetries && t.bank == s.bank && t.calls == s.calls
  }

  /** The job of this call is still its own. */
  ghost predicate Holds(s: State, w: nat) {
    w in s.workers && s.workers[w].job in s.jobs && s.jobs[s.workers[w].job] == Job(s.workers[w].order, Active(w))
  }

  ghost predicate Counted(s: State, p: Id, n: nat) {
    p in s.db.payments && s.db.payments[p].attemptCount == n
  }

  lemma ReadStage(s: State, w: nat, p: Id, status: Status)
    requires AtPlace(s, w, p, Start, status) && Holds(s, w)
    ensures Enabled(s, ReadRow(w))
    ensures var t := Apply(s, ReadRow(w));
            AtPlace(t, w, p, Read(Some(status)), status) && Holds(t, w) && SameBut(s, t) && t.db == s.db
  {
  }

  lemma ClaimStage(s: State, w: nat, p: Id, status: Status, n: nat)
    requires AtPlace(s, w, p, Read(Some(status)), status) && HasRow(s.db, p) && CanTransition(status, PROCESSING)
    requires Holds(s, w) && Counted(s, p, n)
    ensures Enabled(s, Claim(w))
    ensures var t := Apply(s, Claim(w));
            AtPlace(t, w, p, Ready, PROCESSING) && Holds(t, w) && SameBut(s, t) && Counted(t, p, n)
  {
  }

  lemma CallStage(s: State, w: nat, p: Id, c: nat)
    requires AtPlace(s, w, p, Ready, PROCESSING) && c !in s.calls
    ensures Enabled(s, CallBank(w, c))
    ensures var t := Apply(s, CallBank(w, c));
            && AtPlace(t, w, p, Calling(c), PROCESSING) && c in t.calls && t.calls[c].answer == None
            && t.bank == s.bank && t.maxRetries == s.maxRetries && t.db == s.db
  {
  }

  lemma RefuseStage(s: State, w: nat, p: Id)
    requires AtPlace(s, w, p, Ready, PROCESSING) && Holds(s, w)
    ensures Enabled(s, BreakerRefuses(w))
    ensures var t := Apply(s, BreakerRefuses(w));
            && AtPlace(t, w, p, Decided(TryAgain(CircuitOpen)), PROCESSING) && Holds(t, w)
            && SameBut(s, t) && t.db == s.db
  {
  }

  lemma TimeOutStage(s: State, w: nat, p: Id, c: nat)
    requires AtPlace(s, w, p, Calling(c), PROCESSING)
    ensures Enabled(s, TimeOut(w))
    ensures var t := Apply(s, TimeOut(w));
            AtPlace(t, w, p, Decided(TryAgain(BankTimeout)), PROCESSING) && SameBut(s, t) && t.db == s.db
  {
  }

  lemma RetryStage(s: State, w: nat, p: Id, reason: Reason, n: nat)
    requires AtPlace(s, w, p, Decided(TryAgain(reason)), PROCESSING) && HasRow(s.db, p)
    requires Counted(s, p, n) && n < s.maxRetries
    ensures Enabled(s, CommitRetry(w))
    ensures var t := Apply(s, CommitRetry(w));
            AtPlace(t, w, p, Enqueue(n + 1), RETRYING) && Counted(t, p, n + 1) && SameBut(s, t)
  {
  }

  lemma ExhaustStage(s: State, w: nat, p: Id, reason: Reason)
    requires AtPlace(s, w, p, Decided(TryAgain(reason)), PROCESSING) && HasRow(s.db, p)
    requires s.db.payments[p].attemptCount >= s.maxRetries
    ensures Enabled(s, CommitRetry(w))
    ensures var t := Apply(s, CommitRetry(w));
            && AtPlace(t, w, p, Returned, FAILED) && SameBut(s, t)
            && (Holds(s, w) ==> Holds(t, w))
  {
  }

  lemma EnqueueStage(s: State, w: nat, p: Id, n: nat)
    requires AtPlace(s, w, p, Enqueue(n), RETRYING) && JobIds.Retry(p, n) !in s.jobs
    ensures Enabled(s, EnqueueRetry(w))
    ensures var t := Apply(s, EnqueueRetry(w)); var j := JobIds.Retry(p, n);
            && j in t.jobs && t.jobs[j] == Job(s.workers[w].order, Waiting)
            && SameBut(s, t) && t.db == s.db
  {
  }

  lemma DequeueStage(s: State, w: nat, j: JobId, p: Id, status: Status)
    requires w !in s.workers && j in s.jobs && s.jobs[j].status == Waiting && s.jobs[j].order.paymentId == p
    requires p in s.db.payments && s.db.payments[p].status == status
    ensures Enabled(s, Dequeue(w, j))
    ensures var t := Apply(s, Dequeue(w, j));
            AtPlace(t, w, p, Start, status) && Holds(t, w) && SameBut(s, t) && t.db == s.db
  {
  }

  lemma CrashStage(s: State, w: nat)
    requires Holds(s, w)
    ensures Enabled(s, Crash(w))
    ensures var t := Apply(s, Crash(w)); var j := s.workers[w].job;
            j in t.jobs && t.jobs[j] == Job(s.workers[w].order, Waiting) && SameBut(s, t) && t.db == s.db
  {
  }

  lemma LateStage(s: State, c: nat)
    requires c in s.calls && s.calls[c].answer == None
    requires var p := s.calls[c].order.paymentId; p !in s.bank.store && WouldAuthorise(s.bank, p)
    ensures Enabled(s, BankEvaluates(c))
    ensures var t := Apply(s, BankEvaluates(c));
            && t.db == s.db && t.maxRetries == s.maxRetries
            && s.calls[c].order.paymentId in t.bank.store && t.bank.charges == s.bank.charges + 1
  {
  }

  /** On its (n + 1)-th attempt, before the bank has ever been called. */
  ghost predicate Trying(s: State, w: nat, p: Id, n: nat) {
    && Reachable(s) && s.bank == INITIAL_BANK && s.calls == map[]
    && AtPlace(s, w, p, Ready, PROCESSING) && Holds(s, w) && Counted(s, p, n)
  }

  lemma ReachableHasRow(s: State, p: Id)
    requires Reachable(s) && p in s.db.payments
    ensures HasRow(s.db, p) && (s.db.payments[p].status == PENDING ==> Counted(s, p, 0))
  {
    hide Reachable;
    ReachableRow(s, p);
    PendingIsFresh(s.maxRetries, s.db.payments[p], s.db.events[p]);
  }

  lemma FirstTry(maxRetries: nat, form: Form, key: Token, hash: Token) returns (s: State, w: nat)
    requires Money.ParseAmount(form.amount).Ok?
    ensures s.maxRetries == maxRetries && Trying(s, w, 1, 0)
  {
    hide Enabled, Apply, Reachable, HasRow;
    StartedRun(maxRetries, form, key, hash);
    var s0 :| Reachable(s0) && s0.maxRetries == maxRetries && s0.bank == INITIAL_BANK && s0.calls == map[]
              && SoleAttendant(s0, 0, 1, Start, PENDING);
    w := 0;
    SoleAttendantHolds(s0);
    s := Claimed(s0, w, 1, PENDING, 0);
  }

  lemma SoleAttendantHolds(s: State)
    requires Reachable(s) && SoleAttendant(s, 0, 1, Start, PENDING)
    ensures Holds(s, 0) && Counted(s, 1, 0)
  {
    ReachableHasRow(s, 1);
    ReachableInv(s);
    hide DbSound, JobsInv, StatusInv, RetryIdsInv, CallsInv, RelaysInv, PublishedInv, ReapersInv, CompletedInv;
    hide BankInv;
    assert WorkerOk(s, 0);
  }

  lemma Claimed(s: State, w: nat, p: Id, status: Status, n: nat) returns (t: State)
    requires Reachable(s) && s.bank == INITIAL_BANK && s.calls == map[]
    requires AtPlace(s, w, p, Start, status) && Holds(s, w) && Counted(s, p, n) && CanTransition(status, PROCESSING)
    ensures t.maxRetries == s.maxRetries && Trying(t, w, p, n)
  {
    hide Enabled, Apply, Reachable, HasRow, CanTransition;
    ReadStage(s, w, p, status);
    ReachableStep(s, ReadRow(w));
    var s1 := Apply(s, ReadRow(w));
    ReachableHasRow(s1, p);
    ClaimStage(s1, w, p, status, n);
    ReachableStep(s1, Claim(w));
    t := Apply(s1, Claim(w));
  }

  /** The breaker refuses, and the next attempt is under way. */
  lemma NextTry(s: State, w: nat, p: Id, n: nat) returns (t: State, v: nat)
    requires Trying(s, w, p, n) && n < s.maxRetries
    ensures t.maxRetries == s.maxRetries && Trying(t, v, p, n + 1)
  {
    hide Enabled, Apply, Reachable, HasRow;
    RefuseStage(s, w, p);
    ReachableStep(s, BreakerRefuses(w));
    var s1 := Apply(s, BreakerRefuses(w));
    ReachableHasRow(s1, p);
    RetryStage(s1, w, p, CircuitOpen, n);
    ReachableStep(s1, CommitRetry(w));
    var s2 := Apply(s1, CommitRetry(w));
    EnqueueIsFree(s2, w, p, n + 1);
    EnqueueStage(s2, w, p, n + 1);
    ReachableStep(s2, EnqueueRetry(w));
    var s3 := Apply(s2, EnqueueRetry(w));
    v := FreshNat(s3.workers.Keys);
    DequeueStage(s3, v, JobIds.Retry(p, n + 1), p, RETRYING);
    ReachableStep(s3, Dequeue(v, JobIds.Retry(p, n + 1)));
    t := Claimed(Apply(s3, Dequeue(v, JobIds.Retry(p, n + 1))), v, p, RETRYING, n + 1);
  }

  lemma EnqueueIsFree(s: State, w: nat, p: Id, n: nat)
    requires Reachable(s) && AtPlace(s, w, p, Enqueue(n), RETRYING)
    ensures JobIds.Retry(p, n) !in s.jobs
  {
    hide Reachable;
    RetryIsNeverDropped(s, w);
  }

  lemma {:induction false} LaterTry(maxRetries: nat, form: Form, key: Token, hash: Token, n: nat)
    returns (s: State, w: nat)
    requires Money.ParseAmount(form.amount).Ok? && n <= maxRetries
    ensures s.maxRetries == maxRetries && Trying(s, w, 1, n)
    decreases n
  {
    hide Trying;
    if n == 0 {
      s, w := FirstTry(maxRetries, form, key, hash);
    } else {
      s, w := LaterTry(maxRetries, form, key, hash, n - 1);
      s, w := NextTry(s, w, 1, n - 1);
    }
  }

  lemma CallOfWorker(s: State, w: nat)
    requires Inv(s) && w in s.workers && s.workers[w].pc.Calling?
    ensures var c := s.workers[w].pc.call; c in s.calls && s.calls[c].order == s.workers[w].order
  {
    hide DbSound, JobsInv, StatusInv, RetryIdsInv, CallsInv, RelaysInv, PublishedInv, ReapersInv, CompletedInv;
    hide BankInv, LeftPending;
    assert WorkerOk(s, w);
  }

  lemma CallIsFor(s: State, w: nat, p: Id, c: nat)
    requires Reachable(s) && AtPlace(s, w, p, Calling(c), PROCESSING)
    ensures c in s.calls && s.calls[c].order.paymentId == p && HasRow(s.db, p)
  {
    hide Inv, Reachable;
    ReachableHasRow(s, p);
    ReachableInv(s);
    CallOfWorker(s, w);
  }

  /** A timed-out call is abandoned, not cancelled: on the last attempt the payment fails, and the
      charge lands afterwards. */
  lemma LateChargeOfFailedPayment(s: State, w: nat, p: Id, c: nat)
    requires Reachable(s) && AtPlace(s, w, p, Calling(c), PROCESSING) && c in s.calls && s.calls[c].answer == None
    requires p !in s.bank.store && WouldAuthorise(s.bank, p) && s.db.payments[p].attemptCount >= s.maxRetries
    ensures exists t :: Reachable(t) && t.maxRetries == s.maxRetries
              && p in t.db.payments && t.db.payments[p].status == FAILED
              && p in t.bank.store && t.bank.charges == s.bank.charges + 1
  {
    CallIsFor(s, w, p, c);
    hide Inv, Enabled, Apply;
    TimeOutStage(s, w, p, c);
    var s1 := Apply(s, TimeOut(w));
    ReachableStep(s, TimeOut(w));
    ExhaustStage(s1, w, p, BankTimeout);
    var s2 := Apply(s1, CommitRetry(w));
    ReachableStep(s1, CommitRetry(w));
    LateStage(s2, c);
    ReachableStep(s2, BankEvaluates(c));
    var t := Apply(s2, BankEvaluates(c));
    assert Reachable(t);
  }

  /** Hence "charged implies completed" is false under every retry budget: one slow answer on the last
      attempt is enough. */
  lemma ChargedButFailedHappens(maxRetries: nat, form: Form, key: Token, hash: Token)
    requires Money.ParseAmount(form.amount).Ok?
    ensures exists t :: Reachable(t) && t.maxRetries == maxRetries
              && 1 in t.bank.store && 1 in t.db.payments && t.db.payments[1].status == FAILED
  {
    hide Inv, Enabled, Apply, Reachable;
    var s, w := LaterTry(maxRetries, form, key, hash, maxRetries);
    CallStage(s, w, 1, 0);
    ReachableStep(s, CallBank(w, 0));
    LateChargeOfFailedPayment(Apply(s, CallBank(w, 0)), w, 1, 0);
  }

  /** No slow answer is needed: a worker that crashes between failing the payment and finishing its job
      has the job redelivered, and its next call of `process` charges a payment the bank never saw. */
  lemma RedeliveryChargesFailedPayment(maxRetries: nat, form: Form, key: Token, hash: Token)
    requires Money.ParseAmount(form.amount).Ok?
    ensures exists t :: Reachable(t) && t.maxRetries == maxRetries && t.calls == map[]
              && 1 in t.db.payments && t.db.payments[1].status == FAILED
              && 1 !in t.bank.store && Chargeable(t, 1)
  {
    hide Inv, Enabled, Apply, Reachable, Chargeable;
    var s, w := LaterTry(maxRetries, form, key, hash, maxRetries);
    RefuseStage(s, w, 1);
    ReachableStep(s, BreakerRefuses(w));
    var s1 := Apply(s, BreakerRefuses(w));
    ReachableHasRow(s1, 1);
    ExhaustStage(s1, w, 1, CircuitOpen);
    ReachableStep(s1, CommitRetry(w));
    var s2 := Apply(s1, CommitRetry(w));
    CrashStage(s2, w);
    ReachableStep(s2, Crash(w));
    var t := Apply(s2, Crash(w));
    JobCharges(t, s2.workers[w].job, 1);
    assert Reachable(t) && t.calls == map[];
  }
}
