/** The services, run without interference, are paths of the step system: a call of `process`, a tick of
    the relay and a tick of the reaper each end where a run of their own steps ends. Interference
    between them is what the step system itself describes. */
module Refinement {
  import opened Options
  import opened Names
  import opened Sequences
  import opened Statuses
  import opened Banks
  import Breakers
  import opened Tables
  import opened JobIds
  import opened Pipeline
  import opened Services

  /** The worker stands here; the tables, the queue and the bank are these. */
  ghost predicate Stands(s: State, w: nat, order: Request, pc: Pc, db: Db, jobs: map<JobId, Job>, bank: Bank) {
    && w in s.workers && s.workers[w].order == order && s.workers[w].pc == pc
    && s.db == db && s.jobs == jobs && s.bank == bank
  }

  lemma ClaimPath(s: State, w: nat, order: Request) returns (t: State)
    requires Stands(s, w, order, Start, s.db, s.jobs, s.bank)
    ensures LeadsTo(s, t) && t.calls == s.calls && t.maxRetries == s.maxRetries
    ensures var claimed := ClaimCas(s.db, order.paymentId, SeenStatus(s.db, order.paymentId));
            Stands(t, w, order, Ready, claimed, s.jobs, s.bank)
  {
    hide ClaimCas, LeadsTo;
    LeadsToItself(s);
    LeadsOn(s, s, ReadRow(w));
    var s1 := Apply(s, ReadRow(w));
    LeadsOn(s, s1, Claim(w));
    t := Apply(s1, Claim(w));
  }

  lemma RefusedPath(s0: State, s: State, w: nat, order: Request) returns (t: State)
    requires LeadsTo(s0, s) && Stands(s, w, order, Ready, s.db, s.jobs, s.bank)
    ensures LeadsTo(s0, t) && t.maxRetries == s.maxRetries
    ensures Stands(t, w, order, Decided(TryAgain(CircuitOpen)), s.db, s.jobs, s.bank)
  {
    hide LeadsTo;
    LeadsOn(s0, s, BreakerRefuses(w));
    t := Apply(s, BreakerRefuses(w));
  }

  lemma CallPath(s0: State, s: State, w: nat, order: Request, c: nat) returns (t: State)
    requires LeadsTo(s0, s) && Stands(s, w, order, Ready, s.db, s.jobs, s.bank) && c !in s.calls
    ensures LeadsTo(s0, t) && t.maxRetries == s.maxRetries
    ensures Stands(t, w, order, Calling(c), s.db, s.jobs, Authorize(s.bank, order).0)
    ensures c in t.calls && t.calls[c].answer == Some(Authorize(s.bank, order).1)
  {
    hide LeadsTo, Authorize;
    LeadsOn(s0, s, CallBank(w, c));
    var s1 := Apply(s, CallBank(w, c));
    LeadsOn(s0, s1, BankEvaluates(c));
    t := Apply(s1, BankEvaluates(c));
  }

  lemma AnswerPath(s0: State, s: State, w: nat, order: Request, c: nat, late: bool, outcome: Outcome) returns (t: State)
    requires LeadsTo(s0, s) && Stands(s, w, order, Calling(c), s.db, s.jobs, s.bank)
    requires c in s.calls && s.calls[c].answer == Some(outcome)
    ensures LeadsTo(s0, t) && t.maxRetries == s.maxRetries
    ensures var d := if late then TryAgain(BankTimeout) else DispositionOf(outcome);
            Stands(t, w, order, Decided(d), s.db, s.jobs, s.bank)
  {
    hide LeadsTo, DispositionOf;
    var a := if late then TimeOut(w) else ReceiveAnswer(w);
    LeadsOn(s0, s, a);
    t := Apply(s, a);
  }

  lemma SettlePath(s0: State, s: State, w: nat, order: Request, d: Disposition, oid: Id) returns (t: State)
    requires LeadsTo(s0, s) && Stands(s, w, order, Decided(d), s.db, s.jobs, s.bank) && FreshId(s.db, oid)
    ensures LeadsTo(s0, t)
    ensures var (db, jobs) := CommitDecision(s.db, s.jobs, s.maxRetries, order, d, oid);
            Stands(t, w, order, Returned, db, jobs, s.bank)
  {
    hide LeadsTo, FinaliseTxn, RetryTxn, FreshId;
    if d.Settle? {
      LeadsOn(s0, s, CommitVerdict(w, oid));
      t := Apply(s, CommitVerdict(w, oid));
    } else {
      LeadsOn(s0, s, CommitRetry(w));
      t := Apply(s, CommitRetry(w));
      if t.workers[w].pc.Enqueue? {
        var s1 := t;
        LeadsOn(s0, s1, EnqueueRetry(w));
        t := Apply(s1, EnqueueRetry(w));
      }
    }
  }

  lemma ClaimAddsNoIds(db: Db, p: Id, seen: Option<Status>, oid: Id)
    requires FreshId(db, oid) && (p in db.payments ==> db.payments[p].id == p)
    ensures FreshId(ClaimCas(db, p, seen), oid)
  {
  }

  /** Every undisturbed call of `process` is a run of its worker's own steps, with the same tables,
      queue and bank at the end. */
  lemma ProcessIsAPath(s: State, w: nat, limits: Breakers.Limits, breaker: Breakers.Breaker, order: Request,
      e: Surroundings, c: nat)
    requires Stands(s, w, order, Start, s.db, s.jobs, s.bank) && c !in s.calls && FreshId(s.db, e.oid)
    requires order.paymentId in s.db.payments ==> s.db.payments[order.paymentId].id == order.paymentId
    ensures var world := ProcessAlone(World(s.db, s.jobs, s.bank, breaker), s.maxRetries, limits, order, e);
            exists t :: LeadsTo(s, t) && Stands(t, w, order, Returned, world.db, world.jobs, world.bank)
  {
    hide LeadsTo, ClaimCas, CommitDecision, Authorize, Breakers.Record, DispositionOf, FreshId;
    var t := ClaimPath(s, w, order);
    var (asked, granted) := Breakers.Allow(limits, breaker, e.askedAt);
    ClaimAddsNoIds(s.db, order.paymentId, SeenStatus(s.db, order.paymentId), e.oid);
    var d := Decide(s.bank, breaker, limits, order, e).2;
    if !granted {
      t := RefusedPath(s, t, w, order);
    } else {
      t := CallPath(s, t, w, order, c);
      t := AnswerPath(s, t, w, order, c, e.late, Authorize(s.bank, order).1);
    }
    assert Stands(t, w, order, Decided(d), t.db, s.jobs, t.bank);
    t := SettlePath(s, t, w, order, d, e.oid);
    assert LeadsTo(s, t);
  }

  // ------------------------------------------------- what one call leads to

  /** A payment that a call of `process` can claim. */
  ghost predicate Claimable(w: World, p: Id) {
    HasRow(w.db, p) && (w.db.payments[p].status == PENDING || w.db.payments[p].status == RETRYING)
  }

  /** Tables and queue. */
  datatype Store = Store(db: Db, jobs: map<JobId, Job>)

  /** The row, its last event and the outbox and queue after a call that settled the payment. */
  ghost predicate EndsAs(w: Store, w': Store, order: Request, oid: Id, status: Status, meta: Meta, kind: EventKind) {
    var p := order.paymentId;
    && p in w'.db.payments && p in w'.db.events && |w'.db.events[p]| > 0
    && w'.db.payments[p].status == status
    && Last(w'.db.events[p]) == Event(Some(PROCESSING), status, meta)
    && w'.db.outbox == w.db.outbox[oid := OutboxRow(kind, p, order, Some(status), false)]
    && w'.jobs == w.jobs
  }

  /** After a call that is to be tried again: within the budget a RETRYING payment with its next job, beyond
      it a FAILED one; no outbox row in either case. */
  ghost predicate TriedAgain(w: Store, w': Store, maxRetries: nat, order: Request, reason: Reason) {
    var p := order.paymentId;
    && p in w.db.payments && p in w'.db.payments && p in w'.db.events && |w'.db.events[p]| > 0
    && var (row, row') := (w.db.payments[p], w'.db.payments[p]);
       var n := row.attemptCount + 1;
       && row'.attemptCount == n && row'.lastError == Some(reason)
       && w'.db.outbox == w.db.outbox
       && if n <= maxRetries
          then && row'.status == RETRYING
               && Last(w'.db.events[p]) == Event(Some(PROCESSING), RETRYING, Retried(reason, n))
               && JobIds.Retry(p, n) in w'.jobs
               && (JobIds.Retry(p, n) !in w.jobs ==> w'.jobs == w.jobs[JobIds.Retry(p, n) := Job(order, Waiting)])
          else && row'.status == FAILED
               && Last(w'.db.events[p]) == Event(Some(PROCESSING), FAILED, Exhausted(reason))
               && w'.jobs == w.jobs
  }

  /** A claim that succeeds changes neither the attempts nor the outbox. */
  lemma ClaimSucceeds(db: Db, p: Id)
    requires HasRow(db, p) && (db.payments[p].status == PENDING || db.payments[p].status == RETRYING)
    ensures var db' := ClaimCas(db, p, SeenStatus(db, p));
            && HasRow(db', p) && db'.payments[p].status == PROCESSING
            && db'.payments[p].attemptCount == db.payments[p].attemptCount
            && db'.outbox == db.outbox
  {
  }

  lemma VerdictEndsAs(w: Store, order: Request, v: Verdict, oid: Id)
    requires HasRow(w.db, order.paymentId) && w.db.payments[order.paymentId].status == PROCESSING
    ensures var w' := Store(FinaliseTxn(w.db, order, v, oid), w.jobs);
            if v.Complete? then EndsAs(w, w', order, oid, COMPLETED, Settled(v.bankRef), PaymentCompleted)
            else EndsAs(w, w', order, oid, FAILED, Refused(v.reason), PaymentFailed)
  {
  }

  lemma RetryTriesAgain(w: Store, maxRetries: nat, order: Request, reason: Reason)
    requires HasRow(w.db, order.paymentId) && w.db.payments[order.paymentId].status == PROCESSING
    ensures var (db, jobs) := CommitDecision(w.db, w.jobs, maxRetries, order, TryAgain(reason), 0);
            TriedAgain(w, Store(db, jobs), maxRetries, order, reason)
  {
  }

  /** Both depend on what was there before only through the attempts, the outbox and the queue. */
  lemma SameBefore(w: Store, v: Store, w': Store, order: Request, oid: Id)
    requires order.paymentId in w.db.payments && order.paymentId in v.db.payments && w.jobs == v.jobs
    requires v.db.payments[order.paymentId].attemptCount == w.db.payments[order.paymentId].attemptCount
    requires v.db.outbox == w.db.outbox
    ensures forall status, meta, kind ::
              EndsAs(v, w', order, oid, status, meta, kind) ==> EndsAs(w, w', order, oid, status, meta, kind)
    ensures forall maxRetries, reason ::
              TriedAgain(v, w', maxRetries, order, reason) ==> TriedAgain(w, w', maxRetries, order, reason)
  {
  }

  /** What one undisturbed call makes of a claimable payment, by the breaker's and the bank's answer: an
      authorization completes it, a decline or a final error fails it, each with its event and its outbox
      row; a retryable error, a refused call and a late answer are tried again within the budget. */
  lemma OutcomeDecides(w: World, maxRetries: nat, limits: Breakers.Limits, order: Request, e: Surroundings)
    requires Claimable(w, order.paymentId)
    ensures var world := ProcessAlone(w, maxRetries, limits, order, e);
            var (before, after) := (Store(w.db, w.jobs), Store(world.db, world.jobs));
            var granted := Breakers.Allow(limits, w.breaker, e.askedAt).1;
            var outcome := Authorize(w.bank, order).1;
            if !granted then TriedAgain(before, after, maxRetries, order, CircuitOpen)
            else if e.late then TriedAgain(before, after, maxRetries, order, BankTimeout)
            else match outcome
              case Authorized(ref) => EndsAs(before, after, order, e.oid, COMPLETED, Settled(ref), PaymentCompleted)
              case Declined(reason) => EndsAs(before, after, order, e.oid, FAILED, Refused(reason), PaymentFailed)
              case Error(retryable, reason) =>
                if retryable then TriedAgain(before, after, maxRetries, order, reason)
                else EndsAs(before, after, order, e.oid, FAILED, Refused(reason), PaymentFailed)
  {
    var p := order.paymentId;
    var claimed := Store(ClaimCas(w.db, p, SeenStatus(w.db, p)), w.jobs);
    var d := Decide(w.bank, w.breaker, limits, order, e).2;
    var world := ProcessAlone(w, maxRetries, limits, order, e);
    hide Authorize, Breakers.Record, Breakers.Allow, ClaimCas, TriedAgain, EndsAs, FinaliseTxn, RetryTxn, Pipeline.Add;
    ClaimSucceeds(w.db, p);
    SameBefore(Store(w.db, w.jobs), claimed, Store(world.db, world.jobs), order, e.oid);
    if d.Settle? {
      VerdictEndsAs(claimed, order, d.verdict, e.oid);
    } else {
      RetryTriesAgain(claimed, maxRetries, order, d.reason);
    }
  }

  /** So an undisturbed call never leaves a claimable payment in PROCESSING: it ends COMPLETED exactly when
      the breaker granted the call, the answer came in time, and it was an authorization. */
  lemma AloneNeverStrands(w: World, maxRetries: nat, limits: Breakers.Limits, order: Request, e: Surroundings)
    requires Claimable(w, order.paymentId)
    ensures var p := order.paymentId;
            p in ProcessAlone(w, maxRetries, limits, order, e).db.payments
    ensures var p := order.paymentId;
            var status := ProcessAlone(w, maxRetries, limits, order, e).db.payments[p].status;
            && status in {COMPLETED, FAILED, RETRYING}
            && (status == COMPLETED <==>
                  Breakers.Allow(limits, w.breaker, e.askedAt).1 && !e.late && Authorize(w.bank, order).1.Authorized?)
            && (status == RETRYING ==> w.db.payments[p].attemptCount < maxRetries)
  {
    OutcomeDecides(w, maxRetries, limits, order, e);
    hide ProcessAlone, Authorize, Breakers.Allow;
  }

  /** What it tells the breaker and the bank: a refused call asks nobody and reports nothing; any other asks
      the bank once, and reports a failure exactly when it is to be tried again. */
  lemma BreakerHearsRetries(w: World, maxRetries: nat, limits: Breakers.Limits, order: Request, e: Surroundings)
    ensures var w' := ProcessAlone(w, maxRetries, limits, order, e);
            var (asked, granted) := Breakers.Allow(limits, w.breaker, e.askedAt);
            var (bank, outcome) := Authorize(w.bank, order);
            if !granted then w'.bank == w.bank && w'.breaker == asked
            else && w'.bank == bank
                 && if e.late || (outcome.Error? && outcome.retryable)
                    then w'.breaker.failures == w.breaker.failures + 1
                    else w'.breaker.failures == 0 && w'.breaker.state.Closed?
  {
    hide Authorize, ClaimCas, CommitDecision;
    match Authorize(w.bank, order).1
    case Authorized(_) =>
    case Declined(_) =>
    case Error(_, _) =>
  }

  /** The same for the step system: what a call decides when its answer arrives, when it gives up waiting,
      and when the breaker refuses it. */
  lemma AnswerDecides(s: State, w: nat)
    ensures Enabled(s, ReceiveAnswer(w)) ==>
              var answer := s.calls[s.workers[w].pc.call].answer.value;
              var pc := Apply(s, ReceiveAnswer(w)).workers[w].pc;
              match answer
              case Authorized(ref) => pc == Decided(Settle(Complete(ref)))
              case Declined(reason) => pc == Decided(Settle(Refuse(reason)))
              case Error(retryable, reason) =>
                pc == Decided(if retryable then TryAgain(reason) else Settle(Refuse(reason)))
    ensures Enabled(s, TimeOut(w)) ==> Apply(s, TimeOut(w)).workers[w].pc == Decided(TryAgain(BankTimeout))
    ensures Enabled(s, BreakerRefuses(w)) ==>
              Apply(s, BreakerRefuses(w)).workers[w].pc == Decided(TryAgain(CircuitOpen))
  {
  }

  /** A settled verdict commits its status, event and outbox row to a payment in PROCESSING, and nothing to
      any other. */
  lemma VerdictCommits(s: State, w: nat, oid: Id)
    requires Enabled(s, CommitVerdict(w, oid)) && HasRow(s.db, s.workers[w].order.paymentId)
    ensures var t := Apply(s, CommitVerdict(w, oid));
            var order := s.workers[w].order; var p := order.paymentId; var v := s.workers[w].pc.disposition.verdict;
            && t.jobs == s.jobs && t.workers[w].pc == Returned
            && if s.db.payments[p].status != PROCESSING then t.db == s.db
               else if v.Complete?
               then EndsAs(StoreOf(s), StoreOf(t), order, oid, COMPLETED, Settled(v.bankRef), PaymentCompleted)
               else EndsAs(StoreOf(s), StoreOf(t), order, oid, FAILED, Refused(v.reason), PaymentFailed)
  {
  }

  /** A retry commits within the budget and exhausts beyond it; its job follows with the next step. */
  lemma RetryCommits(s: State, w: nat)
    requires Enabled(s, CommitRetry(w)) && HasRow(s.db, s.workers[w].order.paymentId)
    ensures var t := Apply(s, CommitRetry(w));
            var p := s.workers[w].order.paymentId; var reason := s.workers[w].pc.disposition.reason;
            var n := s.db.payments[p].attemptCount + 1;
            && t.jobs == s.jobs && t.db.outbox == s.db.outbox
            && if s.db.payments[p].status != PROCESSING then t.db == s.db && t.workers[w].pc == Returned
               else && t.db.payments[p].attemptCount == n && t.db.payments[p].lastError == Some(reason)
                    && if n <= s.maxRetries
                       then && t.db.payments[p].status == RETRYING && t.workers[w].pc == Enqueue(n)
                            && Last(t.db.events[p]) == Event(Some(PROCESSING), RETRYING, Retried(reason, n))
                       else && t.db.payments[p].status == FAILED && t.workers[w].pc == Returned
                            && Last(t.db.events[p]) == Event(Some(PROCESSING), FAILED, Exhausted(reason))
  {
  }

  /** How a call leaves the queue: returning completes its job, an error fails it, a crash has it wait
      again, unless the job is no longer its own; no other job changes. */
  lemma LeavingMovesJob(s: State, w: nat)
    requires w in s.workers
    ensures var j := s.workers[w].job; var own := j in s.jobs && s.jobs[j].status == Active(w);
            && (Enabled(s, Return(w)) ==> Left(s, Apply(s, Return(w)), w, own, Completed))
            && Left(s, Apply(s, Throw(w)), w, own, JobStatus.Failed)
            && Left(s, Apply(s, Crash(w)), w, own, Waiting)
  {
  }

  ghost predicate Left(s: State, t: State, w: nat, own: bool, status: JobStatus)
    requires w in s.workers
  {
    && w !in t.workers && t.db == s.db && t.jobs.Keys == s.jobs.Keys
    && forall i | i in s.jobs ::
         t.jobs[i] == if own && i == s.workers[w].job then Job(s.jobs[i].order, status) else s.jobs[i]
  }

  function StoreOf(s: State): Store {
    Store(s.db, s.jobs)
  }

  // ------------------------------------------------------------- the relay

  /** The relay has added the jobs of the first `n` rows. */
  ghost predicate Adding(s: State, t: State, r: nat, rows: seq<Id>, n: nat) {
    && n <= |rows| && (forall o | o in rows :: o in s.db.outbox)
    && LeadsTo(s, t)
    && t.db == s.db && t.bank == s.bank
    && t.jobs == AddSubmissions(s.jobs, s.db.outbox, rows[..n])
    && r in t.relays && t.relays[r] == Relay(RowSet(rows), RowSet(rows[..n]), true)
  }

  lemma SelectPath(s: State, r: nat, rows: seq<Id>) returns (t: State)
    requires r !in s.relays && forall o | o in rows :: Selectable(s, o)
    ensures Adding(s, t, r, rows, 0)
  {
    hide LeadsTo, Locked;
    assert forall o | o in rows :: Selectable(s, o);
    LeadsToItself(s);
    LeadsOn(s, s, RelaySelect(r, RowSet(rows)));
    t := Apply(s, RelaySelect(r, RowSet(rows)));
    assert rows[..0] == [];
  }

  lemma AddPath(s: State, t0: State, r: nat, rows: seq<Id>, n: nat) returns (t: State)
    requires Adding(s, t0, r, rows, n) && n < |rows| && Distinct(rows)
    ensures Adding(s, t, r, rows, n + 1)
  {
    hide LeadsTo;
    var o := rows[n];
    assert o in rows;
    assert o !in rows[..n];
    assert rows[..n + 1][..n] == rows[..n];
    assert RowSet(rows[..n + 1]) == RowSet(rows[..n]) + {o};
    LeadsOn(s, t0, RelayAdd(r, o));
    t := Apply(t0, RelayAdd(r, o));
  }

  lemma {:induction false} AddAllPath(s: State, t0: State, r: nat, rows: seq<Id>, n: nat) returns (t: State)
    requires Adding(s, t0, r, rows, n) && Distinct(rows)
    ensures Adding(s, t, r, rows, |rows|)
    decreases |rows| - n
  {
    hide Adding, Distinct;
    t := t0;
    if n < |rows| {
      t := AddPath(s, t, r, rows, n);
      t := AddAllPath(s, t, r, rows, n + 1);
    } else {
      assert n == |rows| by { AddingIsWithin(s, t, r, rows, n); }
    }
  }

  lemma AddingIsWithin(s: State, t: State, r: nat, rows: seq<Id>, n: nat)
    requires Adding(s, t, r, rows, n)
    ensures n <= |rows|
  {
  }

  /** Every undisturbed tick of the relay, on the rows its select locked, is a run of its own steps. */
  lemma RelayTickIsAPath(s: State, r: nat, rows: seq<Id>)
    requires r !in s.relays && Distinct(rows) && forall o | o in rows :: Selectable(s, o)
    ensures forall o | o in rows :: o in s.db.outbox
    ensures exists t :: LeadsTo(s, t) && t.db == MarkPublished(s.db, RowSet(rows))
              && t.jobs == AddSubmissions(s.jobs, s.db.outbox, rows) && t.bank == s.bank
              && forall o | o in rows :: o in t.db.outbox && t.db.outbox[o].published && !Selectable(t, o)
  {
    MarksExactly(s.db, RowSet(rows));
    var t := SelectPath(s, r, rows);
    t := AddAllPath(s, t, r, rows, 0);
    hide LeadsTo, Distinct, Selectable, MarkPublished, AddSubmissions;
    assert rows[..|rows|] == rows;
    LeadsOn(s, t, RelayMark(r));
    t := Apply(t, RelayMark(r));
    assert LeadsTo(s, t);
  }

  // ------------------------------------------------------------ the reaper

  ghost predicate Rows(db: Db, ids: seq<Id>) {
    forall p | p in ids :: p in db.payments && db.payments[p].id == p
  }

  /** The orders of these payments. */
  function Orders(payments: map<Id, Payment>, stuck: seq<Id>): set<Request>
    requires forall p | p in stuck :: p in payments
  {
    set p | p in stuck :: OrderOf(payments[p])
  }

  /** The reaper's transaction is done, and the first `n` payments are enqueued. */
  ghost predicate Redriving(s: State, t: State, r: nat, stuck: seq<Id>, now: nat, n: nat) {
    && n <= |stuck| && Rows(s.db, stuck) && Rows(s.db, stuck[..n]) && Rows(s.db, stuck[n..])
    && LeadsTo(s, t)
    && t.db == ReapTxn(s.db, RowSet(stuck)) && t.bank == s.bank
    && t.jobs == AddReaps(s.jobs, s.db.payments, stuck[..n], now)
    && r in t.reapers && t.reapers[r] == Orders(s.db.payments, stuck[n..])
  }

  lemma CommitPath(s: State, r: nat, stuck: seq<Id>, now: nat) returns (t: State)
    requires r !in s.reapers && Rows(s.db, stuck) && forall p | p in stuck :: Reapable(s, p)
    ensures Redriving(s, t, r, stuck, now, 0)
  {
    hide LeadsTo, ReapTxn, OrderOf;
    assert forall p | p in stuck :: Reapable(s, p);
    LeadsToItself(s);
    LeadsOn(s, s, ReapCommit(r, RowSet(stuck)));
    t := Apply(s, ReapCommit(r, RowSet(stuck)));
    assert stuck[..0] == [] && stuck[0..] == stuck;
    assert t.reapers[r] == Orders(s.db.payments, stuck);
  }

  lemma OrdersShrink(payments: map<Id, Payment>, stuck: seq<Id>, n: nat)
    requires n < |stuck| && Distinct(stuck) && forall p | p in stuck :: p in payments && payments[p].id == p
    ensures Orders(payments, stuck[n + 1..]) == Orders(payments, stuck[n..]) - {OrderOf(payments[stuck[n]])}
    ensures OrderOf(payments[stuck[n]]) in Orders(payments, stuck[n..])
  {
    var rest := stuck[n + 1..];
    assert stuck[n..] == [stuck[n]] + rest;
    assert stuck[n] in stuck[n..];
    forall p | p in rest ensures p in stuck && p != stuck[n] {
      var i :| 0 <= i < |rest| && rest[i] == p;
      assert stuck[n + 1 + i] == p;
    }
  }

  lemma ReapAddStage(s: State, r: nat, order: Request, at: nat)
    requires r in s.reapers && order in s.reapers[r]
    ensures Enabled(s, ReapAdd(r, order, at))
    ensures var t := Apply(s, ReapAdd(r, order, at));
            && t.db == s.db && t.bank == s.bank && t.jobs == Add(s.jobs, Reap(order.paymentId, at), order)
            && r in t.reapers && t.reapers[r] == s.reapers[r] - {order}
  {
  }

  lemma RedrivePath(s: State, t0: State, r: nat, stuck: seq<Id>, now: nat, n: nat) returns (t: State)
    requires Redriving(s, t0, r, stuck, now, n) && n < |stuck| && Distinct(stuck)
    ensures Redriving(s, t, r, stuck, now, n + 1)
  {
    hide Enabled, Apply, LeadsTo, ReapTxn, Distinct;
    OrdersShrink(s.db.payments, stuck, n);
    hide Orders;
    assert stuck[n] in stuck;
    var order := OrderOf(s.db.payments[stuck[n]]);
    assert stuck[..n + 1][..n] == stuck[..n];
    ReapAddStage(t0, r, order, now);
    LeadsOn(s, t0, ReapAdd(r, order, now));
    t := Apply(t0, ReapAdd(r, order, now));
  }

  lemma {:induction false} RedriveAllPath(s: State, t0: State, r: nat, stuck: seq<Id>, now: nat, n: nat)
      returns (t: State)
    requires Redriving(s, t0, r, stuck, now, n) && Distinct(stuck)
    ensures Redriving(s, t, r, stuck, now, |stuck|)
    decreases |stuck| - n
  {
    hide Redriving, Distinct;
    t := t0;
    if n < |stuck| {
      t := RedrivePath(s, t, r, stuck, now, n);
      t := RedriveAllPath(s, t, r, stuck, now, n + 1);
    } else {
      assert n == |stuck| by { RedrivingIsWithin(s, t, r, stuck, now, n); }
    }
  }

  lemma RedrivingIsWithin(s: State, t: State, r: nat, stuck: seq<Id>, now: nat, n: nat)
    requires Redriving(s, t, r, stuck, now, n)
    ensures n <= |stuck|
  {
  }

  /** And every undisturbed tick of the reaper, on the rows its select locked. */
  lemma ReaperTickIsAPath(s: State, r: nat, stuck: seq<Id>, now: nat)
    requires r !in s.reapers && Distinct(stuck) && Rows(s.db, stuck) && forall p | p in stuck :: Reapable(s, p)
    ensures exists t :: LeadsTo(s, t) && t.db == ReapTxn(s.db, RowSet(stuck))
              && t.jobs == AddReaps(s.jobs, s.db.payments, stuck, now) && t.bank == s.bank
  {
    var t := CommitPath(s, r, stuck, now);
    t := RedriveAllPath(s, t, r, stuck, now, 0);
    hide LeadsTo, Distinct, Reapable, ReapTxn, AddReaps;
    assert stuck[..|stuck|] == stuck;
    assert LeadsTo(s, t);
  }
}
