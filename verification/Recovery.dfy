/** Recoverability: which payments can still reach a terminal status, and by what. */
module Recovery {
  import opened Options
  import opened Names
  import opened FreshNames
  import opened Statuses
  import opened Banks
  import opened Tables
  import opened JobIds
  import opened Pipeline
  import opened PipelineInvariant
  import opened PipelineSteps
  import opened PipelineTheorems
  import Money

  /** Ordinary progress of relays, reapers, workers and the bank: no submission, no operator, no
      failure, no redelivery. */
  ghost predicate IsProgress(a: Step) {
    || a.RelaySelect? || a.RelayAdd? || a.Dequeue? || a.ReadRow? || a.Claim? || a.CallBank? || a.BankEvaluates?
    || a.ReceiveAnswer? || a.CommitRetry? || a.CommitVerdict? || a.ReapCommit? || a.ReapAdd?
  }

  ghost predicate Drives(s: State, steps: seq<Step>, p: Id, goal: set<Status>) {
    && (forall i | 0 <= i < |steps| :: IsProgress(steps[i]))
    && Run(s, steps)
    && p in After(s, steps).db.payments && After(s, steps).db.payments[p].status in goal
  }

  ghost predicate CanReach(s: State, p: Id, goal: set<Status>) {
    exists steps :: Drives(s, steps, p, goal)
  }

  /** A PENDING payment whose only job failed before its txn 1 claimed, with no call of `process`
      still under way for it: the id of its submission is taken and nothing reaps PENDING rows. */
  ghost predicate Stranded(s: State, p: Id) {
    && p in s.db.payments && s.db.payments[p].status == PENDING
    && (exists o :: SubmittedRow(s.db, p, o) && Submission(o) in s.jobs && s.jobs[Submission(o)].status == Failed)
    && !Attended(s, p)
  }

  ghost predicate On(s: State, w: nat, p: Id) {
    w in s.workers && s.workers[w].order.paymentId == p
  }

  ghost predicate Attended(s: State, p: Id) {
    exists w :: On(s, w, p)
  }

  /** The bank would authorise this payment now. */
  ghost predicate WouldAuthorise(b: Bank, p: Id) {
    p in b.store || b.mode.AlwaysAuthorize? || (b.mode.FailNThenAuthorize? && b.failCount >= b.failN)
  }

  /** The bank authorises this payment, now or after enough further attempts. */
  ghost predicate CanAuthorise(b: Bank, p: Id) {
    p in b.store || b.mode.AlwaysAuthorize? || b.mode.FailNThenAuthorize?
  }

  /** The failures it still has to count before that. */
  ghost function Distance(b: Bank, p: Id): nat {
    if p !in b.store && b.mode.FailNThenAuthorize? && b.failCount < b.failN then b.failN - b.failCount else 0
  }

  /** Where a drive ends: COMPLETED if the bank is known to authorise, else any terminal status. */
  ghost function Goal(healthy: bool): set<Status> {
    if healthy then {COMPLETED} else {COMPLETED, FAILED}
  }

  // --------------------------------------------------------- building runs

  lemma Arrived(s: State, p: Id, goal: set<Status>)
    requires p in s.db.payments && s.db.payments[p].status in goal
    ensures CanReach(s, p, goal)
  {
    assert After(s, []) == s;
    assert Drives(s, [], p, goal);
  }

  lemma Prepend(s: State, a: Step, p: Id, goal: set<Status>)
    requires Enabled(s, a) && IsProgress(a) && CanReach(Apply(s, a), p, goal)
    ensures CanReach(s, p, goal)
  {
    hide Enabled, Apply;
    var steps :| Drives(Apply(s, a), steps, p, goal);
    var all := [a] + steps;
    assert all[0] == a && all[1..] == steps;
    assert Run(s, all) && After(s, all) == After(Apply(s, a), steps);
    assert Drives(s, all, p, goal);
  }

  ghost function Budget(s: State, p: Id): nat
    requires p in s.db.payments
  {
    if s.db.payments[p].attemptCount <= s.maxRetries then s.maxRetries - s.db.payments[p].attemptCount + 1 else 0
  }

  ghost predicate AtPlace(s: State, w: nat, p: Id, pc: Pc, status: Status) {
    On(s, w, p) && s.workers[w].pc == pc && p in s.db.payments && s.db.payments[p].status == status
  }

  lemma PaymentOf(s: State, p: Id)
    requires Inv(s) && p in s.db.payments
    ensures HasRow(s.db, p)
  {
    hide OutboxSound, IdemSound, JobsInv, WorkersInv, StatusInv, RetryIdsInv, CallsInv, RelaysInv, PublishedInv;
    hide ReapersInv, CompletedInv, BankInv, Consistent;
    assert RowSound(s.maxRetries, s.db, p);
  }

  lemma FreshOutboxId(db: Db) returns (oid: Id)
    ensures FreshId(db, oid)
  {
    oid := FreshNat(db.payments.Keys + db.outbox.Keys);
  }

  /** A decided worker commits; a retry within the budget goes round again. */
  lemma {:induction false} FromDecided(s: State, w: nat, p: Id, d: Disposition, healthy: bool)
    requires Inv(s) && AtPlace(s, w, p, Decided(d), PROCESSING)
    requires healthy ==> d.Settle? && d.verdict.Complete?
    ensures CanReach(s, p, Goal(healthy))
    decreases Distance(s.bank, p), Budget(s, p), 0, 0
  {
    hide Inv, CanReach;
    PaymentOf(s, p);
    if d.Settle? {
      var oid := FreshOutboxId(s.db);
      var a := CommitVerdict(w, oid);
      Arrived(Apply(s, a), p, Goal(healthy));
      Prepend(s, a, p, Goal(healthy));
    } else {
      var a := CommitRetry(w);
      var s1 := Apply(s, a);
      StepKeepsInv(s, a);
      if s1.db.payments[p].status == FAILED {
        Arrived(s1, p, Goal(healthy));
      } else {
        FromRetrying(s1, p, healthy);
      }
      Prepend(s, a, p, Goal(healthy));
    }
  }

  /** A worker whose call the bank has not seen yet gets its answer. A bank that still counts failures
      has counted one more; then the reaper starts the payment over, which costs no retry. */
  lemma {:induction false} FromCalling(s: State, w: nat, p: Id, c: nat, healthy: bool)
    requires Inv(s) && AtPlace(s, w, p, Calling(c), PROCESSING)
    requires c in s.calls && s.calls[c] == BankCall(s.workers[w].order, None)
    requires healthy ==> CanAuthorise(s.bank, p)
    ensures CanReach(s, p, Goal(healthy))
    decreases Distance(s.bank, p), Budget(s, p), 1
  {
    hide Inv, CanReach;
    var a := BankEvaluates(c);
    StepKeepsInv(s, a);
    var s1 := Apply(s, a);
    StoredAreAuthorised(s);
    if healthy && !s1.calls[c].answer.value.Authorized? {
      FromProcessing(s1, p, true);
    } else {
      FromAnswer(s1, w, p, c, healthy);
    }
    Prepend(s, a, p, Goal(healthy));
  }

  lemma {:induction false} FromAnswer(s: State, w: nat, p: Id, c: nat, healthy: bool)
    requires Inv(s) && AtPlace(s, w, p, Calling(c), PROCESSING)
    requires c in s.calls && s.calls[c].answer.Some? && (healthy ==> s.calls[c].answer.value.Authorized?)
    ensures CanReach(s, p, Goal(healthy))
    decreases Distance(s.bank, p), Budget(s, p), 0, 1
  {
    hide Inv, CanReach;
    var a := ReceiveAnswer(w);
    StepKeepsInv(s, a);
    FromDecided(Apply(s, a), w, p, DispositionOf(s.calls[c].answer.value), healthy);
    Prepend(s, a, p, Goal(healthy));
  }

  /** A worker past txn 1 asks the bank. */
  lemma {:induction false} FromReady(s: State, w: nat, p: Id, healthy: bool)
    requires Inv(s) && AtPlace(s, w, p, Ready, PROCESSING)
    requires healthy ==> CanAuthorise(s.bank, p)
    ensures CanReach(s, p, Goal(healthy))
    decreases Distance(s.bank, p), Budget(s, p), 2
  {
    hide Inv, CanReach, Authorize, DispositionOf;
    var c := FreshNat(s.calls.Keys);
    var a := CallBank(w, c);
    StepKeepsInv(s, a);
    FromCalling(Apply(s, a), w, p, c, healthy);
    Prepend(s, a, p, Goal(healthy));
  }

  lemma StoredAreAuthorised(s: State)
    requires Inv(s)
    ensures forall k | k in s.bank.store :: s.bank.store[k].Authorized?
  {
    hide DbSound, JobsInv, WorkersInv, StatusInv, RetryIdsInv, CallsInv, RelaysInv, PublishedInv, ReapersInv;
    hide CompletedInv;
  }

  /** A worker that read the current status claims. */
  lemma {:induction false} FromRead(s: State, w: nat, p: Id, status: Status, healthy: bool)
    requires Inv(s) && AtPlace(s, w, p, Read(Some(status)), status) && CanTransition(status, PROCESSING)
    requires healthy ==> CanAuthorise(s.bank, p)
    ensures CanReach(s, p, Goal(healthy))
    decreases Distance(s.bank, p), Budget(s, p), 3
  {
    hide Inv, CanReach;
    PaymentOf(s, p);
    var a := Claim(w);
    StepKeepsInv(s, a);
    FromReady(Apply(s, a), w, p, healthy);
    Prepend(s, a, p, Goal(healthy));
  }

  lemma {:induction false} FromStart(s: State, w: nat, p: Id, status: Status, healthy: bool)
    requires Inv(s) && AtPlace(s, w, p, Start, status) && CanTransition(status, PROCESSING)
    requires healthy ==> CanAuthorise(s.bank, p)
    ensures CanReach(s, p, Goal(healthy))
    decreases Distance(s.bank, p), Budget(s, p), 4
  {
    hide Inv, CanReach;
    var a := ReadRow(w);
    StepKeepsInv(s, a);
    FromRead(Apply(s, a), w, p, status, healthy);
    Prepend(s, a, p, Goal(healthy));
  }

  /** Any waiting job of a claimable payment is enough. */
  lemma {:induction false} FromJob(s: State, j: JobId, p: Id, healthy: bool)
    requires Inv(s) && p in s.db.payments && CanTransition(s.db.payments[p].status, PROCESSING)
    requires j in s.jobs && s.jobs[j].status == Waiting && s.jobs[j].order.paymentId == p
    requires healthy ==> CanAuthorise(s.bank, p)
    ensures CanReach(s, p, Goal(healthy))
    decreases Distance(s.bank, p), Budget(s, p), 5
  {
    hide Inv, CanReach;
    var w := FreshNat(s.workers.Keys);
    var a := Dequeue(w, j);
    StepKeepsInv(s, a);
    FromStart(Apply(s, a), w, p, s.db.payments[p].status, healthy);
    Prepend(s, a, p, Goal(healthy));
  }

  /** A RETRYING payment is picked up by the reaper, whatever happened to its retry job. */
  lemma {:induction false} FromRetrying(s: State, p: Id, healthy: bool)
    requires Inv(s) && p in s.db.payments && s.db.payments[p].status == RETRYING
    requires healthy ==> CanAuthorise(s.bank, p)
    ensures CanReach(s, p, Goal(healthy))
    decreases Distance(s.bank, p), Budget(s, p), 7
  {
    hide Inv, CanReach;
    PaymentOf(s, p);
    var r := FreshNat(s.reapers.Keys);
    var a1 := ReapCommit(r, {p});
    StepKeepsInv(s, a1);
    var s1 := Apply(s, a1);
    var order := OrderOf(s.db.payments[p]);
    assert order in s1.reapers[r];
    FromReaper(s1, r, order, healthy);
    Prepend(s, a1, p, Goal(healthy));
  }

  lemma {:induction false} FromReaper(s: State, r: nat, order: Request, healthy: bool)
    requires Inv(s) && r in s.reapers && order in s.reapers[r]
    requires var p := order.paymentId; p in s.db.payments && s.db.payments[p].status == RETRYING
    requires healthy ==> CanAuthorise(s.bank, order.paymentId)
    ensures CanReach(s, order.paymentId, Goal(healthy))
    decreases Distance(s.bank, order.paymentId), Budget(s, order.paymentId), 6
  {
    hide Inv, CanReach;
    var p := order.paymentId;
    var used := set j | j in s.jobs && j.Reap? :: j.at;
    var at := FreshNat(used);
    assert forall j | j in s.jobs && j.Reap? :: j.at in used;
    assert Reap(p, at) !in s.jobs;
    var a := ReapAdd(r, order, at);
    StepKeepsInv(s, a);
    FromJob(Apply(s, a), Reap(p, at), p, healthy);
    Prepend(s, a, p, Goal(healthy));
  }

  /** A PROCESSING payment, held by whomever, is first un-stranded. */
  lemma {:induction false} FromProcessing(s: State, p: Id, healthy: bool)
    requires Inv(s) && p in s.db.payments && s.db.payments[p].status == PROCESSING
    requires healthy ==> CanAuthorise(s.bank, p)
    ensures CanReach(s, p, Goal(healthy))
    decreases Distance(s.bank, p), Budget(s, p), 8
  {
    hide Inv, CanReach;
    PaymentOf(s, p);
    var r := FreshNat(s.reapers.Keys);
    var a := ReapCommit(r, {p});
    StepKeepsInv(s, a);
    FromRetrying(Apply(s, a), p, healthy);
    Prepend(s, a, p, Goal(healthy));
  }

  /** While a payment is PENDING a call of `process` for it has not passed its claim. */
  lemma PendingIsUnclaimed(s: State, w: nat, p: Id)
    requires Inv(s) && On(s, w, p) && p in s.db.payments && s.db.payments[p].status == PENDING
    ensures s.workers[w].pc == Start || s.workers[w].pc == Read(Some(PENDING))
  {
    hide DbSound, JobsInv, StatusInv, RetryIdsInv, CallsInv, RelaysInv, PublishedInv, ReapersInv, CompletedInv;
    hide BankInv;
    assert WorkerOk(s, w);
  }

  /** A submission row whose job was never added gets it from a relay. */
  lemma {:induction false} FromUnadded(s: State, p: Id, o: Id, healthy: bool)
    requires Inv(s) && p in s.db.payments && s.db.payments[p].status == PENDING
    requires SubmittedRow(s.db, p, o) && !s.db.outbox[o].published && Submission(o) !in s.jobs
    requires healthy ==> CanAuthorise(s.bank, p)
    ensures CanReach(s, p, Goal(healthy))
  {
    hide Inv, CanReach;
    if Locked(s, o) {
      var r :| r in s.relays && s.relays[r].live && o in s.relays[r].rows;
      LandedIsAdded(s, r);
      FromRelay(s, r, p, o, healthy);
    } else {
      var r := FreshNat(s.relays.Keys);
      var a := RelaySelect(r, {o});
      StepKeepsInv(s, a);
      FromRelay(Apply(s, a), r, p, o, healthy);
      Prepend(s, a, p, Goal(healthy));
    }
  }

  lemma LandedIsAdded(s: State, r: nat)
    requires Inv(s) && r in s.relays
    ensures forall o | o in s.relays[r].landed :: Submission(o) in s.jobs
  {
    hide DbSound, JobsInv, StatusInv, RetryIdsInv, CallsInv, WorkersInv, PublishedInv, ReapersInv, CompletedInv;
    hide BankInv;
    assert RelayOk(s, s.relays[r]);
  }

  lemma {:induction false} FromRelay(s: State, r: nat, p: Id, o: Id, healthy: bool)
    requires Inv(s) && p in s.db.payments && s.db.payments[p].status == PENDING
    requires SubmittedRow(s.db, p, o) && Submission(o) !in s.jobs
    requires r in s.relays && o in s.relays[r].rows - s.relays[r].landed
    requires healthy ==> CanAuthorise(s.bank, p)
    ensures CanReach(s, p, Goal(healthy))
  {
    hide Inv, CanReach;
    RowCarriesOrder(s, p, o);
    var a := RelayAdd(r, o);
    StepKeepsInv(s, a);
    FromJob(Apply(s, a), Submission(o), p, healthy);
    Prepend(s, a, p, Goal(healthy));
  }

  lemma RowCarriesOrder(s: State, p: Id, o: Id)
    requires Inv(s) && SubmittedRow(s.db, p, o)
    ensures s.db.outbox[o].order.paymentId == p
  {
    hide RowsSound, IdemSound, OutboxUnique, OutboxCovers, JobsInv, StatusInv, RetryIdsInv, CallsInv;
    hide WorkersInv, PublishedInv, ReapersInv, CompletedInv, BankInv, RelaysInv;
    assert OutboxRowSound(s.db, o);
  }

  lemma {:induction false} FromPending(s: State, p: Id, healthy: bool)
    requires Inv(s) && p in s.db.payments && s.db.payments[p].status == PENDING && !Stranded(s, p)
    requires healthy ==> CanAuthorise(s.bank, p)
    ensures CanReach(s, p, Goal(healthy))
  {
    hide Inv, CanReach;
    var o := SubmissionOf(s, p);
    if Attended(s, p) {
      var w :| On(s, w, p);
      PendingIsUnclaimed(s, w, p);
      if s.workers[w].pc == Start {
        FromStart(s, w, p, PENDING, healthy);
      } else {
        FromRead(s, w, p, PENDING, healthy);
      }
    } else if Submission(o) in s.jobs {
      ActiveIsAttended(s, Submission(o));
      FromJob(s, Submission(o), p, healthy);
    } else {
      FromUnadded(s, p, o, healthy);
    }
  }

  lemma ActiveIsAttended(s: State, j: JobId)
    requires Inv(s) && j in s.jobs
    ensures s.jobs[j].status.Active? ==> Attended(s, s.jobs[j].order.paymentId)
  {
    hide DbSound, JobsInv, RetryIdsInv, CallsInv, PublishedInv, ReapersInv, CompletedInv, BankInv, RelaysInv;
    if s.jobs[j].status.Active? {
      assert WorkerOk(s, s.jobs[j].status.worker);
      assert On(s, s.jobs[j].status.worker, s.jobs[j].order.paymentId);
    }
  }

  lemma {:induction false} NotStrandedRecovers(s: State, p: Id, healthy: bool)
    requires Inv(s) && p in s.db.payments && !IsTerminal(s.db.payments[p].status) && !Stranded(s, p)
    requires healthy ==> CanAuthorise(s.bank, p)
    ensures CanReach(s, p, Goal(healthy))
  {
    hide Inv, CanReach;
    match s.db.payments[p].status
    case PENDING => FromPending(s, p, healthy);
    case RETRYING => FromRetrying(s, p, healthy);
    case PROCESSING => FromProcessing(s, p, healthy);
  }

  // ----------------------------------------------------------- stranding

  /** Transactions on one payment leave the rows of all others. */
  lemma OtherRowsUntouched(db: Db, maxRetries: nat, order: Request, seen: Option<Status>, reason: Reason, v: Verdict,
      oid: Id, p: Id)
    requires p in db.payments && (order.paymentId in db.payments ==> db.payments[order.paymentId].id != p)
    ensures p in ClaimCas(db, order.paymentId, seen).payments
    ensures ClaimCas(db, order.paymentId, seen).payments[p] == db.payments[p]
    ensures p in RetryTxn(db, maxRetries, order.paymentId, reason).0.payments
    ensures RetryTxn(db, maxRetries, order.paymentId, reason).0.payments[p] == db.payments[p]
    ensures p in FinaliseTxn(db, order, v, oid).payments
    ensures FinaliseTxn(db, order, v, oid).payments[p] == db.payments[p]
  {
  }

  /** The tables' side: only a worker attending a PENDING payment changes its row. */
  lemma UnattendedStaysPending(s: State, a: Step, p: Id)
    requires Inv(s) && Enabled(s, a)
    requires p in s.db.payments && s.db.payments[p].status == PENDING && !Attended(s, p)
    ensures var t := Apply(s, a); p in t.db.payments && t.db.payments[p].status == PENDING
  {
    hide Inv, ClaimCas, RetryTxn, FinaliseTxn, Authorize, SetConfig, Add, DispositionOf, Locked, Selectable;
    StepOnTables(s, a);
    hide Apply;
    match a
    case SubmitForm(id, oid, form, key, hash) =>
    case RelayMark(r) =>
    case Claim(w) =>
      NotOn(s, w, p);
      OtherRowsUntouched(s.db, 0, s.workers[w].order, s.workers[w].pc.seen, BankTimeout, Refuse(BankTimeout), 0, p);
    case CommitRetry(w) =>
      NotOn(s, w, p);
      OtherRowsUntouched(s.db, s.maxRetries, s.workers[w].order, None, s.workers[w].pc.disposition.reason,
          Refuse(BankTimeout), 0, p);
    case CommitVerdict(w, oid) =>
      NotOn(s, w, p);
      OtherRowsUntouched(s.db, 0, s.workers[w].order, None, BankTimeout, s.workers[w].pc.disposition.verdict, oid, p);
    case ReapCommit(r, stuck) => assert p in stuck ==> Reapable(s, p);
    case _ =>
  }

  lemma NotOn(s: State, w: nat, p: Id)
    requires Inv(s) && w in s.workers && p in s.db.payments && !Attended(s, p)
    ensures s.workers[w].order.paymentId != p
    ensures s.workers[w].order.paymentId in s.db.payments ==> s.db.payments[s.workers[w].order.paymentId].id != p
  {
    hide DbSound, JobsInv, WorkersInv, StatusInv, RetryIdsInv, CallsInv, RelaysInv, PublishedInv, ReapersInv;
    hide CompletedInv, BankInv;
    assert !On(s, w, p);
    if s.workers[w].order.paymentId in s.db.payments { PaymentOf(s, s.workers[w].order.paymentId); }
  }

  /** The queue's side: a failed job stays failed. */
  lemma FailedStaysFailed(s: State, a: Step, j: JobId)
    requires Enabled(s, a) && j in s.jobs && s.jobs[j].status == Failed
    ensures j in Apply(s, a).jobs && Apply(s, a).jobs[j].status == Failed
  {
    StepOnJobs(s, a);
    hide Apply;
  }

  /** Who starts attending a payment dequeued one of its jobs. */
  lemma AttendanceByDequeue(s: State, a: Step, p: Id)
    requires Enabled(s, a) && !Attended(s, p) && Attended(Apply(s, a), p)
    ensures a.Dequeue? && s.jobs[a.j].order.paymentId == p
  {
    StepOnWorkers(s, a);
    hide Enabled, Apply, NextPc, Goto;
    var t := Apply(s, a);
    var w :| On(t, w, p);
    assert !On(s, w, p);
  }

  /** All jobs of a PENDING payment are its submission. */
  lemma PendingHasOneJob(s: State, j: JobId, p: Id, o: Id)
    requires Inv(s) && j in s.jobs && s.jobs[j].order.paymentId == p
    requires p in s.db.payments && s.db.payments[p].status == PENDING && SubmittedRow(s.db, p, o)
    ensures j == Submission(o)
  {
    hide RowsSound, IdemSound, OutboxRowsSound, OutboxCovers, WorkersInv, StatusInv, RetryIdsInv, CallsInv;
    hide RelaysInv, PublishedInv, ReapersInv, CompletedInv, BankInv;
    assert JobOk(s.db, j, s.jobs[j].order);
  }

  lemma StepStaysStranded(s: State, a: Step, p: Id)
    requires Inv(s) && Enabled(s, a) && Stranded(s, p)
    ensures Stranded(Apply(s, a), p)
  {
    hide Inv, Enabled, Apply, Attended, Evolves;
    var o :| SubmittedRow(s.db, p, o) && Submission(o) in s.jobs && s.jobs[Submission(o)].status == Failed;
    UnattendedStaysPending(s, a, p);
    FailedStaysFailed(s, a, Submission(o));
    StepEvolves(s, a);
    RowSurvives(s.db, Apply(s, a).db, p, o);
    if Attended(Apply(s, a), p) {
      AttendanceByDequeue(s, a, p);
      DequeueTakesWaiting(s, a);
      PendingHasOneJob(s, a.j, p, o);
      assert false;
    }
  }

  lemma DequeueTakesWaiting(s: State, a: Step)
    requires Enabled(s, a) && a.Dequeue?
    ensures a.j in s.jobs && s.jobs[a.j].status == Waiting
  {
  }

  lemma RowSurvives(db: Db, db': Db, p: Id, o: Id)
    requires Evolves(db, db') && SubmittedRow(db, p, o)
    ensures SubmittedRow(db', p, o)
  {
  }

  /** No run at all, with crashes, redeliveries and operators included, rescues a stranded payment. */
  lemma {:induction false} StrandedForever(s: State, steps: seq<Step>, p: Id)
    requires Inv(s) && Run(s, steps) && Stranded(s, p)
    ensures Stranded(After(s, steps), p)
    decreases |steps|
  {
    hide Inv, Enabled, Apply, Stranded;
    if |steps| > 0 {
      StepKeepsInv(s, steps[0]);
      StepStaysStranded(s, steps[0], p);
      StrandedForever(Apply(s, steps[0]), steps[1..], p);
    }
  }

  // -------------------------------------------------------------- theorems

  /** From every reachable state, a payment that has not ended can still be driven to an end by
      relays, reapers, workers and the bank alone, exactly when it is not stranded. */
  lemma RecoverableIffNotStranded(s: State, p: Id)
    requires Reachable(s) && p in s.db.payments && !IsTerminal(s.db.payments[p].status)
    ensures CanReach(s, p, {COMPLETED, FAILED}) <==> !Stranded(s, p)
  {
    hide Inv, Enabled, Apply;
    ReachableInv(s);
    if Stranded(s, p) {
      forall steps | Run(s, steps) ensures Stranded(After(s, steps), p) {
        StrandedForever(s, steps, p);
      }
    } else {
      NotStrandedRecovers(s, p, false);
    }
  }

  /** No call of `process` fails before its txn 1 has claimed. */
  ghost predicate ErrorsOnlyAfterClaim(s: State, steps: seq<Step>)
    requires Run(s, steps)
    decreases |steps|
  {
    |steps| > 0 ==>
      && (steps[0].Throw? ==> s.workers[steps[0].w].pc != Start && !s.workers[steps[0].w].pc.Read?)
      && ErrorsOnlyAfterClaim(Apply(s, steps[0]), steps[1..])
  }

  ghost predicate FailedWereClaimed(s: State) {
    forall j | j in s.jobs && s.jobs[j].status == Failed :: LeftPending(s.db, s.jobs[j].order.paymentId)
  }

  lemma StepKeepsFailedClaimed(s: State, a: Step)
    requires Reachable(s) && Enabled(s, a) && FailedWereClaimed(s)
    requires a.Throw? ==> s.workers[a.w].pc != Start && !s.workers[a.w].pc.Read?
    ensures FailedWereClaimed(Apply(s, a))
  {
    hide Inv, Enabled, Apply, LeftPending, Evolves;
    var t := Apply(s, a);
    ReachableInv(s);
    StepEvolves(s, a);
    EvolvesPersists(s.db, t.db);
    StepKeepsJobs(s, a);
    forall j | j in t.jobs && t.jobs[j].status == Failed ensures LeftPending(t.db, t.jobs[j].order.paymentId) {
      if j !in s.jobs {
        NewJobsWait(s, a, j);
      } else if s.jobs[j].status != Failed && !LeftPending(s.db, s.jobs[j].order.paymentId) {
        PendingJobFailsOnlyBeforeClaim(s, a, j);
      }
    }
  }

  lemma NewJobsWait(s: State, a: Step, j: JobId)
    requires Enabled(s, a) && j !in s.jobs && j in Apply(s, a).jobs
    ensures Apply(s, a).jobs[j].status == Waiting
  {
    StepOnJobs(s, a);
    hide Apply;
  }

  lemma {:induction false} RunKeepsFailedClaimed(s: State, steps: seq<Step>)
    requires Reachable(s) && FailedWereClaimed(s) && Run(s, steps) && ErrorsOnlyAfterClaim(s, steps)
    ensures FailedWereClaimed(After(s, steps))
    decreases |steps|
  {
    hide Enabled, Apply, Reachable, FailedWereClaimed;
    if |steps| > 0 {
      StepKeepsFailedClaimed(s, steps[0]);
      ReachableStep(s, steps[0]);
      RunKeepsFailedClaimed(Apply(s, steps[0]), steps[1..]);
    }
  }

  /** Hence no payment is ever lost in a run whose calls of `process` crash as they like but raise
      no error before their claim: every payment that has not ended can still reach an end. */
  lemma NothingIsLostWithoutEarlyErrors(maxRetries: nat, steps: seq<Step>, p: Id)
    requires Run(Initial(maxRetries), steps) && ErrorsOnlyAfterClaim(Initial(maxRetries), steps)
    requires p in After(Initial(maxRetries), steps).db.payments
    ensures var s := After(Initial(maxRetries), steps);
            IsTerminal(s.db.payments[p].status) || CanReach(s, p, {COMPLETED, FAILED})
  {
    hide Inv, Enabled, Apply, CanReach, ErrorsOnlyAfterClaim;
    var s := After(Initial(maxRetries), steps);
    InitialIsReachable(maxRetries);
    RunKeepsFailedClaimed(Initial(maxRetries), steps);
    assert Reachable(s);
    if !IsTerminal(s.db.payments[p].status) {
      ReachableInv(s);
      var o := SubmissionOf(s, p);
      RecoverableIffNotStranded(s, p);
    }
  }

  /** Progress alone neither reconfigures the bank nor stores anything it would not authorise. */
  lemma ProgressKeepsRefusing(s: State, a: Step, p: Id)
    requires Enabled(s, a) && IsProgress(a) && !CanAuthorise(s.bank, p)
    ensures !CanAuthorise(Apply(s, a).bank, p)
  {
    StepOnBank(s, a);
    hide Apply;
  }

  lemma {:induction false} ProgressNeverAuthorises(s: State, steps: seq<Step>, p: Id)
    requires Run(s, steps) && !CanAuthorise(s.bank, p) && forall i | 0 <= i < |steps| :: IsProgress(steps[i])
    ensures !CanAuthorise(After(s, steps).bank, p)
    decreases |steps|
  {
    hide Enabled, Apply, CanAuthorise, IsProgress;
    if |steps| > 0 {
      ProgressKeepsRefusing(s, steps[0], p);
      ProgressNeverAuthorises(Apply(s, steps[0]), steps[1..], p);
    }
  }

  lemma CompletedIsStored(s: State, p: Id)
    requires Inv(s) && p in s.db.payments && s.db.payments[p].status == COMPLETED
    ensures p in s.bank.store
  {
    hide DbSound, JobsInv, WorkersInv, StatusInv, RetryIdsInv, CallsInv, RelaysInv, PublishedInv, ReapersInv, BankInv;
    assert CompletedOk(s.db, s.bank, p);
  }

  /** It can be driven to COMPLETED by progress alone exactly when it is not stranded and was charged
      already or the bank does not always refuse: a bank that counts failures is worn down, whatever
      the retry budget, because re-driving by the reaper never exhausts it. */
  lemma CompletableIff(s: State, p: Id)
    requires Reachable(s) && p in s.db.payments && !IsTerminal(s.db.payments[p].status)
    ensures CanReach(s, p, {COMPLETED}) <==> !Stranded(s, p) && CanAuthorise(s.bank, p)
  {
    hide Inv, Enabled, Apply, CanAuthorise, Stranded;
    ReachableInv(s);
    if !Stranded(s, p) && CanAuthorise(s.bank, p) {
      NotStrandedRecovers(s, p, true);
    } else if CanReach(s, p, {COMPLETED}) {
      var steps :| Drives(s, steps, p, {COMPLETED});
      var t := After(s, steps);
      RunKeepsInv(s, steps);
      CompletedIsStored(t, p);
      assert CanAuthorise(t.bank, p) by { StoredCanAuthorise(t.bank, p); }
      if Stranded(s, p) {
        StrandedForever(s, steps, p);
        StrandedIsPending(t, p);
      } else {
        ProgressNeverAuthorises(s, steps, p);
      }
    }
  }

  lemma StoredCanAuthorise(b: Bank, p: Id)
    requires p in b.store
    ensures CanAuthorise(b, p)
  {
  }

  lemma StrandedIsPending(s: State, p: Id)
    ensures Stranded(s, p) ==> p in s.db.payments && s.db.payments[p].status == PENDING
  {
  }

  lemma ChargedHasLeftPending(s: State, p: Id)
    requires Inv(s) && p in s.bank.store
    ensures p in s.db.payments && s.db.payments[p].status != PENDING
  {
    hide DbSound, JobsInv, StatusInv, RetryIdsInv, CallsInv, WorkersInv, PublishedInv, ReapersInv, CompletedInv;
    hide RelaysInv;
    var i :| ChargedAt(s.bank.ledger, p, i);
    assert OrderOk(s.db, s.bank.ledger[i]) && LeftPending(s.db, s.bank.ledger[i].paymentId);
  }

  /** A charged payment can be brought to COMPLETED exactly when it has not FAILED; a charge that
      lands after the failure is never matched by the payment's status. */
  lemma ChargedCompletesUnlessFailed(s: State, p: Id)
    requires Reachable(s) && p in s.bank.store
    ensures p in s.db.payments
    ensures CanReach(s, p, {COMPLETED}) <==> s.db.payments[p].status != FAILED
  {
    hide Inv, Enabled, Apply;
    ReachableInv(s);
    ChargedHasLeftPending(s, p);
    if s.db.payments[p].status == COMPLETED {
      Arrived(s, p, {COMPLETED});
    } else if s.db.payments[p].status == FAILED {
      forall steps | Run(s, steps)
        ensures var t := After(s, steps); p in t.db.payments ==> t.db.payments[p].status == FAILED
      {
        TerminalIsFrozen(s, steps, p);
      }
    } else {
      NotStrandedRecovers(s, p, true);
    }
  }

  // ------------------------------------------------- these things do happen

  /** The one call of `process` for a payment, with its job still its own. */
  ghost predicate SoleAttendant(s: State, w: nat, p: Id, pc: Pc, status: Status) {
    && AtPlace(s, w, p, pc, status)
    && s.workers[w].job.Submission? && SubmittedRow(s.db, p, s.workers[w].job.outboxId)
    && s.workers[w].job in s.jobs && s.jobs[s.workers[w].job].status == Active(w)
    && (forall v | On(s, v, p) :: v == w)
  }

  /** One error inside txn 1 strands the payment for good. */
  lemma ThrowBeforeClaimStrands(s: State, w: nat, p: Id, pc: Pc)
    requires SoleAttendant(s, w, p, pc, PENDING) && (pc == Start || pc.Read?)
    ensures Enabled(s, Throw(w)) && Stranded(Apply(s, Throw(w)), p)
  {
    var t := Apply(s, Throw(w));
    var o := s.workers[w].job.outboxId;
    assert SubmittedRow(t.db, p, o) && t.jobs[Submission(o)].status == Failed;
    assert forall v :: On(t, v, p) ==> On(s, v, p) && v != w;
  }

  /** A fresh system that took one submission and started on it. */
  lemma StartedRun(maxRetries: nat, form: Form, key: Token, hash: Token)
    requires Money.ParseAmount(form.amount).Ok?
    ensures exists s :: Reachable(s) && s.maxRetries == maxRetries && s.bank == INITIAL_BANK && s.calls == map[]
                      && SoleAttendant(s, 0, 1, Start, PENDING)
  {
    var s1 := SubmittedRun(maxRetries, form, key, hash);
    hide Submit;
    var s2 := Apply(s1, RelaySelect(0, {2}));
    ReachableStep(s1, RelaySelect(0, {2}));
    var s3 := Apply(s2, RelayAdd(0, 2));
    ReachableStep(s2, RelayAdd(0, 2));
    var s4 := Apply(s3, Dequeue(0, Submission(2)));
    ReachableStep(s3, Dequeue(0, Submission(2)));
    assert SoleAttendant(s4, 0, 1, Start, PENDING);
  }

  lemma SubmittedRun(maxRetries: nat, form: Form, key: Token, hash: Token) returns (s: State)
    requires Money.ParseAmount(form.amount).Ok?
    ensures Reachable(s) && s == Initial(maxRetries).(db := s.db)
    ensures SubmittedRow(s.db, 1, 2) && !s.db.outbox[2].published && s.db.outbox[2].order.paymentId == 1
    ensures 1 in s.db.payments && s.db.payments[1].status == PENDING
  {
    var s0 := Initial(maxRetries);
    var a := SubmitForm(1, 2, form, Some(key), hash);
    InitialIsReachable(maxRetries);
    ReachableStep(s0, a);
    s := Apply(s0, a);
  }

  lemma InitialIsReachable(maxRetries: nat)
    ensures Reachable(Initial(maxRetries))
  {
    assert Run(Initial(maxRetries), []) && After(Initial(maxRetries), []) == Initial(maxRetries);
  }

  /** So a stranded payment is reachable, under any configuration. */
  lemma StrandingHappens(maxRetries: nat, form: Form, key: Token, hash: Token)
    requires Money.ParseAmount(form.amount).Ok?
    ensures exists s :: Reachable(s) && s.maxRetries == maxRetries && Stranded(s, 1)
  {
    StartedRun(maxRetries, form, key, hash);
    var s :| Reachable(s) && s.maxRetries == maxRetries && s.bank == INITIAL_BANK && s.calls == map[]
        && SoleAttendant(s, 0, 1, Start, PENDING);
    ThrowBeforeClaimStrands(s, 0, 1, Start);
    ReachableStep(s, Throw(0));
    assert Reachable(Apply(s, Throw(0)));
  }
}
