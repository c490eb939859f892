/** What the repository promises of the payment pipeline, for every reachable state and every run. */
module PipelineTheorems {
  import opened Options
  import opened Names
  import opened Statuses
  import opened Banks
  import opened Tables
  import opened Histories
  import opened JobIds
  import opened Pipeline
  import opened PipelineInvariant
  import opened PipelineSteps
  import Money
  import Backoff

  // ---------------------------------------------------- what no run undoes

  ghost predicate KeepsPayment(db: Db, db': Db, p: Id)
    requires p in db.payments
  {
    && p in db.events && p in db'.payments && p in db'.events
    && Original(db'.payments[p]) == Original(db.payments[p])
    && (IsTerminal(db.payments[p].status) ==>
          db'.payments[p] == db.payments[p] && db'.events[p] == db.events[p])
  }

  ghost predicate KeepsTables(db: Db, db': Db) {
    && (forall p | p in db.payments :: KeepsPayment(db, db', p))
    && (forall k | k in db.idem :: k in db'.idem && db'.idem[k] == db.idem[k])
    && (forall o | o in db.outbox :: o in db'.outbox && SameOutboxRow(db.outbox[o], db'.outbox[o]))
  }

  ghost predicate KeepsJobs(jobs: map<JobId, Job>, jobs': map<JobId, Job>) {
    forall j | j in jobs :: j in jobs' && jobs'[j].order == jobs[j].order
  }

  ghost predicate Keeps(s: State, t: State) {
    KeepsTables(s.db, t.db) && KeepsJobs(s.jobs, t.jobs) && Extends(s.bank, t.bank)
  }

  lemma EvolvesKeepsTables(db: Db, db': Db)
    requires Evolves(db, db')
    ensures KeepsTables(db, db')
  {
    forall p | p in db.payments ensures KeepsPayment(db, db', p) {
      assert OneEdge(db.payments[p], db.events[p], db'.payments[p], db'.events[p]);
      MapShape(db.payments[p].status);
    }
  }

  lemma StepKeepsJobs(s: State, a: Step)
    requires Enabled(s, a)
    ensures KeepsJobs(s.jobs, Apply(s, a).jobs)
  {
    StepOnJobs(s, a);
    hide Apply;
  }

  lemma StepExtendsBank(s: State, a: Step)
    requires Inv(s) && Enabled(s, a)
    ensures Extends(s.bank, Apply(s, a).bank)
  {
    hide Apply, Authorize, SetConfig, Extends, Balanced;
    hide DbSound, JobsInv, WorkersInv, StatusInv, RetryIdsInv, CallsInv, RelaysInv, PublishedInv, ReapersInv;
    hide CompletedInv;
    StepOnBank(s, a);
    SameStoreKeepsBalance(s.bank, s.bank);
    if a.BankEvaluates? {
      AuthorizeKeepsBalance(s.bank, s.calls[a.c].order);
    } else if a.ConfigureBank? {
      SetConfigKeepsBalance(s.bank, a.mode, a.failN, None);
    }
  }

  lemma KeepsTablesTrans(a: Db, b: Db, c: Db)
    requires KeepsTables(a, b) && KeepsTables(b, c)
    ensures KeepsTables(a, c)
  {
    forall p | p in a.payments ensures KeepsPayment(a, c, p) {
      assert KeepsPayment(a, b, p) && KeepsPayment(b, c, p);
    }
  }

  lemma {:induction false} RunKeeps(s: State, steps: seq<Step>)
    requires Inv(s) && Run(s, steps)
    ensures Inv(After(s, steps)) && Keeps(s, After(s, steps)) && After(s, steps).maxRetries == s.maxRetries
    decreases |steps|
  {
    hide Evolves, KeepsTables, KeepsPayment, Extends, DbSound, JobsInv, WorkersInv, StatusInv, RetryIdsInv;
    hide CallsInv, RelaysInv, PublishedInv, ReapersInv, CompletedInv, BankInv;
    RunKeepsInv(s, steps);
    if |steps| == 0 {
      NothingKeepsTables(s);
    } else {
      var a := steps[0];
      var s1 := Apply(s, a);
      StepKeepsInv(s, a);
      StepEvolves(s, a);
      EvolvesKeepsTables(s.db, s1.db);
      StepKeepsJobs(s, a);
      StepExtendsBank(s, a);
      RunKeeps(s1, steps[1..]);
      var t := After(s, steps);
      KeepsTablesTrans(s.db, s1.db, t.db);
      ExtendsTrans(s.bank, s1.bank, t.bank);
    }
  }

  lemma NothingKeepsTables(s: State)
    requires Inv(s)
    ensures KeepsTables(s.db, s.db) && Extends(s.bank, s.bank)
  {
    hide OutboxSound, IdemSound, RowSound;
    EvolvesKeepsTables(s.db, s.db) by { UnchangedEvolves(s.db); }
  }

  // ------------------------------------------------------- the state machine

  /** Every step of every process leaves a payment alone or moves it along one edge of the
      transition map, with its audit event and its version. */
  lemma EveryStepIsOneEdge(s: State, a: Step, p: Id)
    requires Reachable(s) && Enabled(s, a) && p in s.db.payments
    ensures var t := Apply(s, a);
            && p in s.db.events && p in t.db.payments && p in t.db.events
            && OneEdge(s.db.payments[p], s.db.events[p], t.db.payments[p], t.db.events[p])
  {
    hide Inv;
    ReachableInv(s);
    StepEvolves(s, a);
  }

  /** Hence the audit trail of a payment is one unbroken legal path from its submission to its
      status, and version, attempt count and number of events follow from it. */
  lemma AuditTrail(s: State, p: Id)
    requires Reachable(s) && p in s.db.payments
    ensures p in s.db.events && s.db.payments[p].id == p
    ensures var row := s.db.payments[p]; var h := s.db.events[p];
            && |h| > 0 && h[0] == SUBMITTED_EVENT && Last(h).to == row.status
            && (forall i | 0 < i < |h| :: h[i].from == Some(h[i - 1].to) && CanTransition(h[i - 1].to, h[i].to))
            && row.version == |h| - 1
            && row.attemptCount == Retries(h) + ExhaustedCount(h)
            && row.lastError == LastReason(h)
            && |h| <= 3 + 2 * s.maxRetries + 2 * Reaps(h)
  {
    ReachableRow(s, p);
    LegalIsUnbroken(s.maxRetries, s.db.events[p]);
    LegalBound(s.maxRetries, s.db.events[p]);
  }

  lemma ReachableRow(s: State, p: Id)
    requires Reachable(s) && p in s.db.payments
    ensures RowSound(s.maxRetries, s.db, p)
  {
    hide OutboxSound, IdemSound, JobsInv, WorkersInv, StatusInv, RetryIdsInv, CallsInv, RelaysInv, PublishedInv;
    hide ReapersInv, CompletedInv, BankInv, RowSound;
    ReachableInv(s);
  }

  /** The retries a worker scheduled for one payment are numbered upwards within the budget, and
      their delays together stay within one full set of retries. */
  lemma RetryLedger(s: State, p: Id, base: real, cap: real, draws: seq<real>)
    requires Reachable(s) && p in s.db.payments && base >= 0.0 && cap >= 0.0
    requires |draws| == |Attempts(EventsOf(s.db, p))| && forall i | 0 <= i < |draws| :: 0.0 <= draws[i] < 1.0
    ensures var attempts := Attempts(EventsOf(s.db, p));
            && Backoff.StrictlyIncreasing(attempts)
            && (forall i | 0 <= i < |attempts| :: 1 <= attempts[i] <= s.maxRetries)
            && Retries(EventsOf(s.db, p)) == |attempts| + Reaps(EventsOf(s.db, p))
            && Backoff.TotalDelay(base, cap, attempts, draws) <= Backoff.SumExp(base, cap, s.maxRetries)
            && Backoff.TotalDelay(base, cap, attempts, draws) <= s.maxRetries as real * cap
            && Backoff.TotalDelay(base, cap, attempts, draws) <= base * (Backoff.Pow2(s.maxRetries) as real - 1.0)
  {
    hide Legal, Retries, Attempts, Reaps, Backoff.TotalDelay, Backoff.SumExp, Backoff.Pow2;
    hide Backoff.StrictlyIncreasing;
    ReachableRow(s, p);
    LegalAttempts(s.maxRetries, s.db.events[p]);
    LegalDelay(s.maxRetries, s.db.events[p], base, cap, draws);
  }

  // ------------------------------------------------------------ terminality

  /** Once COMPLETED or FAILED, nothing changes the row, its trail or its terminal outbox row,
      whatever workers with old dispositions still do. */
  lemma TerminalIsFrozen(s: State, steps: seq<Step>, p: Id)
    requires Reachable(s) && Run(s, steps) && p in s.db.payments && IsTerminal(s.db.payments[p].status)
    ensures var t := After(s, steps);
            && p in t.db.payments && t.db.payments[p] == s.db.payments[p]
            && EventsOf(t.db, p) == EventsOf(s.db, p)
            && forall o :: TerminalRow(t.db, p, o) <==> TerminalRow(s.db, p, o)
  {
    hide Inv, Enabled;
    ReachableInv(s);
    RunKeeps(s, steps);
    var t := After(s, steps);
    assert KeepsPayment(s.db, t.db, p);
    assert Emitted(t.db, p) <==> Emitted(s.db, p);
    forall o ensures TerminalRow(t.db, p, o) <==> TerminalRow(s.db, p, o) {
      if TerminalRow(t.db, p, o) {
        EmissionIs(t, p, o);
        EmissionExists(s, p);
        var o' :| TerminalRow(s.db, p, o');
        EmissionUnique(t, p, o, o');
      }
    }
  }

  lemma EmissionIs(s: State, p: Id, o: Id)
    requires Inv(s) && TerminalRow(s.db, p, o)
    ensures Emitted(s.db, p) && OutboxRowSound(s.db, o)
  {
    hide RowsSound, IdemSound, OutboxUnique, OutboxCovers, JobsInv, WorkersInv, StatusInv, RetryIdsInv;
    hide CallsInv, RelaysInv, PublishedInv, ReapersInv, CompletedInv, BankInv;
    assert OutboxRowSound(s.db, o);
  }

  lemma EmissionExists(s: State, p: Id)
    requires Inv(s) && Emitted(s.db, p)
    ensures exists o :: TerminalRow(s.db, p, o)
  {
    hide RowsSound, IdemSound, OutboxUnique, OutboxRowsSound, JobsInv, WorkersInv, StatusInv, RetryIdsInv;
    hide CallsInv, RelaysInv, PublishedInv, ReapersInv, CompletedInv, BankInv;
  }

  lemma EmissionUnique(s: State, p: Id, o: Id, o': Id)
    requires Inv(s) && TerminalRow(s.db, p, o) && TerminalRow(s.db, p, o')
    ensures o == o'
  {
    hide RowsSound, IdemSound, OutboxRowsSound, OutboxCovers, JobsInv, WorkersInv, StatusInv, RetryIdsInv;
    hide CallsInv, RelaysInv, PublishedInv, ReapersInv, CompletedInv, BankInv;
  }

  /** A payment has a terminal outbox row exactly when it ended through txn 2; it is then the only
      one, of the type and status of the row, with the amount of the row. A payment that failed by
      exhausting its retries has none. */
  lemma EmitsExactlyOnce(s: State, p: Id)
    requires Reachable(s) && p in s.db.payments
    ensures (exists o :: TerminalRow(s.db, p, o)) <==>
              IsTerminal(s.db.payments[p].status) && ExhaustedCount(EventsOf(s.db, p)) == 0
    ensures forall o, o' | TerminalRow(s.db, p, o) && TerminalRow(s.db, p, o') :: o == o'
    ensures forall o | TerminalRow(s.db, p, o) ::
              && !s.db.outbox[o].kind.PaymentSubmitted?
              && (s.db.outbox[o].kind.PaymentCompleted? <==> s.db.payments[p].status == COMPLETED)
              && s.db.outbox[o].status == Some(s.db.payments[p].status)
              && Carries(s.db.outbox[o].order, s.db.payments[p])
  {
    hide Inv, Legal, Retries, Evolves;
    ReachableRow(s, p);
    ReachableInv(s);
    if Emitted(s.db, p) { EmissionExists(s, p); }
    forall o | TerminalRow(s.db, p, o) ensures Emitted(s.db, p) && OutboxRowSound(s.db, o) { EmissionIs(s, p, o); }
    forall o, o' | TerminalRow(s.db, p, o) && TerminalRow(s.db, p, o') ensures o == o' { EmissionUnique(s, p, o, o'); }
  }

  // ------------------------------------------------------------ one charge

  /** The bank's counter, its store and its ledger agree; a payment is charged at most once, with
      exactly the amount of its row; and a COMPLETED payment is one that was charged, under the
      reference its audit trail shows. */
  lemma ChargedExactlyOnce(s: State)
    requires Reachable(s)
    ensures s.bank.charges == |s.bank.store| == |s.bank.ledger|
    ensures forall i, j | 0 <= i < |s.bank.ledger| && 0 <= j < |s.bank.ledger|
                && s.bank.ledger[i].paymentId == s.bank.ledger[j].paymentId :: i == j
    ensures forall i | 0 <= i < |s.bank.ledger| ::
              CarriesItsRow(s.db, s.bank.ledger[i])
    ensures forall p | p in s.db.payments && s.db.payments[p].status == COMPLETED ::
              && p in s.bank.store && s.bank.store[p] == Authorized(BankRef(p))
              && EventsOf(s.db, p) != [] && Last(EventsOf(s.db, p)).meta == Settled(BankRef(p))
              && exists i :: ChargedAt(s.bank.ledger, p, i)
  {
    hide DbSound, JobsInv, WorkersInv, StatusInv, RetryIdsInv, CallsInv, RelaysInv, PublishedInv, ReapersInv;
    ReachableInv(s);
    forall p | p in s.db.payments && s.db.payments[p].status == COMPLETED ensures CompletedOk(s.db, s.bank, p) {}
    assert forall i | 0 <= i < |s.bank.ledger| :: OrderOk(s.db, s.bank.ledger[i]);
  }

  /** A stored outcome never changes and no charge is taken back, over any run. */
  lemma ChargesArePermanent(s: State, steps: seq<Step>, p: Id)
    requires Reachable(s) && Run(s, steps) && p in s.bank.store
    ensures var t := After(s, steps);
            p in t.bank.store && t.bank.store[p] == s.bank.store[p] && s.bank.ledger <= t.bank.ledger
  {
    hide Inv, KeepsTables;
    ReachableInv(s);
    RunKeeps(s, steps);
  }

  // ------------------------------------------------------- amount integrity

  /** Every request in flight carries exactly the amount of its payment's row ... */
  lemma AmountsAgree(s: State)
    requires Reachable(s)
    ensures forall j | j in s.jobs :: CarriesItsRow(s.db, s.jobs[j].order)
    ensures forall w | w in s.workers :: CarriesItsRow(s.db, s.workers[w].order)
    ensures forall c | c in s.calls :: CarriesItsRow(s.db, s.calls[c].order)
    ensures forall o | o in s.db.outbox ::
              CarriesItsRow(s.db, s.db.outbox[o].order) && s.db.outbox[o].order.paymentId == s.db.outbox[o].aggregate
    ensures forall r, order | r in s.reapers && order in s.reapers[r] :: CarriesItsRow(s.db, order)
  {
    hide RowsSound, IdemSound, OutboxUnique, OutboxCovers, StatusInv, RetryIdsInv, RelaysInv, PublishedInv;
    hide CompletedInv, BankInv;
    ReachableInv(s);
    forall j | j in s.jobs ensures OrderOk(s.db, s.jobs[j].order) { assert JobOk(s.db, j, s.jobs[j].order); }
    forall w | w in s.workers ensures OrderOk(s.db, s.workers[w].order) { assert WorkerOk(s, w); }
    forall o | o in s.db.outbox
      ensures OrderOk(s.db, s.db.outbox[o].order) && s.db.outbox[o].order.paymentId == s.db.outbox[o].aggregate
    {
      assert OutboxRowSound(s.db, o);
    }
  }

  /** ... which no run changes after submission. */
  lemma AmountIsPermanent(s: State, steps: seq<Step>, p: Id)
    requires Reachable(s) && Run(s, steps) && p in s.db.payments
    ensures var t := After(s, steps);
            && p in t.db.payments
            && var (row, row') := (s.db.payments[p], t.db.payments[p]);
               && row'.cents == row.cents && row'.currency == row.currency && row'.customer == row.customer
               && row'.source == row.source && row'.destination == row.destination && row'.reference == row.reference
  {
    hide Inv;
    ReachableInv(s);
    RunKeeps(s, steps);
    var t := After(s, steps);
    assert KeepsPayment(s.db, t.db, p);
    OriginalKeepsTerms(s.db.payments[p], t.db.payments[p]);
  }

  lemma OriginalKeepsTerms(row: Payment, row': Payment)
    requires Original(row') == Original(row)
    ensures row'.cents == row.cents && row'.currency == row.currency && row'.customer == row.customer
    ensures row'.source == row.source && row'.destination == row.destination && row'.reference == row.reference
    ensures row'.id == row.id
  {
    var a, b := Original(row), Original(row');
    assert a.cents == row.cents && b.cents == row'.cents && a.currency == row.currency && b.currency == row'.currency;
    assert a.customer == row.customer && b.customer == row'.customer && a.source == row.source;
    assert b.source == row'.source && a.destination == row.destination && b.destination == row'.destination;
    assert a.reference == row.reference && b.reference == row'.reference && a.id == row.id && b.id == row'.id;
  }

  /** The submitted currency is ignored: an accepted payment has the requested currency exactly
      when the form asked for none or for USD. */
  lemma CurrencyHonouredIffUsd(db: Db, id: Id, oid: Id, form: Form, key: Option<Token>, hash: Token)
    requires Submit(db, id, oid, form, key, hash).1.Accepted?
    ensures var body := Submit(db, id, oid, form, key, hash).1.body;
            (form.currency.Some? ==> body.currency == form.currency.value) <==> form.currency in {None, Some(USD)}
  {
  }

  // ---------------------------------------------------- outbox conservation

  /** A submission row is marked published only if its job was added; each payment has exactly one
      such row. While the payment is PENDING the row is still unpublished, or its job is there and
      has not completed. */
  lemma SubmissionIsNeverLost(s: State, p: Id)
    requires Reachable(s) && p in s.db.payments
    ensures exists o ::
              && SubmittedRow(s.db, p, o)
              && (forall o' | SubmittedRow(s.db, p, o') :: o' == o)
              && (s.db.outbox[o].published ==> Submission(o) in s.jobs)
              && (s.db.payments[p].status == PENDING && Submission(o) in s.jobs ==>
                    !s.jobs[Submission(o)].status.Completed?)
  {
    hide Inv;
    ReachableInv(s);
    var o := SubmissionOf(s, p);
  }

  lemma SubmissionOf(s: State, p: Id) returns (o: Id)
    requires Inv(s) && p in s.db.payments
    ensures SubmittedRow(s.db, p, o)
    ensures forall o' | SubmittedRow(s.db, p, o') :: o' == o
    ensures s.db.outbox[o].published ==> Submission(o) in s.jobs
    ensures s.db.payments[p].status == PENDING && Submission(o) in s.jobs ==> !s.jobs[Submission(o)].status.Completed?
    ensures Submission(o) in s.jobs ==> s.jobs[Submission(o)].order.paymentId == p
  {
    hide RowsSound, IdemSound, OutboxRowsSound, WorkersInv, RetryIdsInv, RelaysInv, CompletedInv, BankInv;
    hide CallsInv, ReapersInv;
    o :| SubmittedRow(s.db, p, o);
    if Submission(o) in s.jobs {
      assert JobOk(s.db, Submission(o), s.jobs[Submission(o)].order);
    }
  }

  lemma OnlyThrowFails(s: State, a: Step, j: JobId)
    requires Enabled(s, a) && j in s.jobs && s.jobs[j].status != Failed
    requires var t := Apply(s, a); j in t.jobs && t.jobs[j].status == Failed
    ensures a.Throw? && a.w in s.workers && s.workers[a.w].job == j
  {
    StepOnJobs(s, a);
    hide Apply;
  }

  /** A job of a PENDING payment fails only by an error before txn 1 has claimed. */
  lemma PendingJobFailsOnlyBeforeClaim(s: State, a: Step, j: JobId)
    requires Reachable(s) && Enabled(s, a) && j in s.jobs && s.jobs[j].status != Failed
    requires var t := Apply(s, a);
             j in t.jobs && t.jobs[j].status == Failed && !LeftPending(s.db, s.jobs[j].order.paymentId)
    ensures a.Throw? && a.w in s.workers && s.workers[a.w].job == j
    ensures s.workers[a.w].pc == Start || s.workers[a.w].pc.Read?
  {
    hide DbSound, StatusInv, RetryIdsInv, CallsInv, RelaysInv, PublishedInv, ReapersInv, CompletedInv, BankInv;
    hide LeftPending;
    hide ClaimCas, RetryTxn, FinaliseTxn, MarkPublished, Submit, ReapTxn, Authorize, SetConfig, DispositionOf;
    hide OrderOf, FreshId, Reapable, Selectable, Locked;
    OnlyThrowFails(s, a, j);
    assert WorkerOk(s, a.w) by { hide Apply; ReachableInv(s); }
  }

  // ------------------------------------------------------------- retry jobs

  /** Enqueueing a retry is never dropped by the queue: its id is free, so the job is added ... */
  lemma RetryIsNeverDropped(s: State, w: nat)
    requires Reachable(s) && Enabled(s, EnqueueRetry(w))
    ensures var wk := s.workers[w];
            var j := JobIds.Retry(wk.order.paymentId, wk.pc.attempt);
            && j !in s.jobs
            && Apply(s, EnqueueRetry(w)).jobs == s.jobs[j := Job(wk.order, Waiting)]
  {
    hide Inv;
    ReachableInv(s);
    EnqueueRetryKeeps(s, w);
  }

  /** ... and in any run it is added at most once. */
  lemma RetryIsAddedOnce(s: State, w: nat, steps: seq<Step>, w': nat)
    requires Reachable(s) && Enabled(s, EnqueueRetry(w)) && Run(Apply(s, EnqueueRetry(w)), steps)
    requires var t := After(Apply(s, EnqueueRetry(w)), steps);
             Enabled(t, EnqueueRetry(w')) && t.workers[w'].order.paymentId == s.workers[w].order.paymentId
    ensures After(Apply(s, EnqueueRetry(w)), steps).workers[w'].pc.attempt != s.workers[w].pc.attempt
  {
    hide Inv, KeepsTables, Extends;
    ReachableInv(s);
    StepKeepsInv(s, EnqueueRetry(w));
    var s1 := Apply(s, EnqueueRetry(w));
    RunKeeps(s1, steps);
    EnqueueRetryKeeps(After(s1, steps), w');
    assert JobIds.Retry(s.workers[w].order.paymentId, s.workers[w].pc.attempt) in s1.jobs;
  }

  // ----------------------------------------------------------- submissions

  /** Every payment was created by exactly one submission: it belongs to one (customer, key), which
      owns no other payment, and the body stored for replays is its row as inserted. */
  lemma OneSubmissionPerPayment(s: State, p: Id)
    requires Reachable(s) && p in s.db.payments
    ensures exists k :: Owns(s.db, k, p) && (forall k' | Owns(s.db, k', p) :: k' == k)
              && s.db.idem[k].body == Original(s.db.payments[p]) && s.db.payments[p].customer == k.0
    ensures forall i | 0 <= i < |EventsOf(s.db, p)| :: EventsOf(s.db, p)[i].to == PENDING <==> i == 0
  {
    hide Legal, Retries, OutboxSound, JobsInv, WorkersInv, StatusInv, RetryIdsInv, CallsInv, RelaysInv;
    hide PublishedInv, ReapersInv, CompletedInv, BankInv;
    AuditTrail(s, p);
    var h := s.db.events[p];
    forall i | 0 <= i < |h| ensures h[i].to == PENDING <==> i == 0 {
      MapShape(h[i].to);
      if i > 0 { assert CanTransition(h[i - 1].to, h[i].to); }
    }
    ReachableInv(s);
    var k :| Owns(s.db, k, p);
    assert IdemRowSound(s.db, k);
  }

  /** Over any run, submitting the same customer and key again changes nothing: the same hash gets
      the first response, whatever has become of the payment, and another hash conflicts. */
  lemma ReplaysAreStable(s: State, steps: seq<Step>, id: Id, oid: Id, form: Form, key: Token, hash: Token)
    requires Reachable(s) && Run(s, steps) && (form.customer, key) in s.db.idem && Money.ParseAmount(form.amount).Ok?
    ensures var first := s.db.idem[(form.customer, key)];
            var t := After(s, steps);
            Submit(t.db, id, oid, form, Some(key), hash) ==
              (t.db, if hash == first.hash then Replayed(first.body) else Conflict)
  {
    hide Inv;
    ReachableInv(s);
    RunKeeps(s, steps);
  }

  /** The same from the acceptance on: whatever happens afterwards, every repetition with the same hash
      is answered with the body of the first response. */
  lemma FirstResponseIsReplayed(
    s: State, id: Id, oid: Id, form: Form, key: Token, hash: Token, steps: seq<Step>,
    id': Id, oid': Id, form': Form, hash': Token)
    requires Reachable(s) && Enabled(s, SubmitForm(id, oid, form, Some(key), hash))
    requires Submit(s.db, id, oid, form, Some(key), hash).1.Accepted?
    requires Run(Apply(s, SubmitForm(id, oid, form, Some(key), hash)), steps)
    requires form'.customer == form.customer && Money.ParseAmount(form'.amount).Ok?
    ensures var first := Submit(s.db, id, oid, form, Some(key), hash).1.body;
            var t := After(Apply(s, SubmitForm(id, oid, form, Some(key), hash)), steps);
            && Submit(t.db, id', oid', form', Some(key), hash') ==
                 (t.db, if hash' == hash then Replayed(first) else Conflict)
            && id in t.db.payments && Original(t.db.payments[id]) == first
  {
    hide Inv, KeepsPayment;
    var a := SubmitForm(id, oid, form, Some(key), hash);
    ReachableInv(s);
    StepKeepsInv(s, a);
    RunKeeps(Apply(s, a), steps);
    assert KeepsPayment(Apply(s, a).db, After(Apply(s, a), steps).db, id);
    SameOriginal(Apply(s, a).db, After(Apply(s, a), steps).db, id);
  }

  lemma SameOriginal(db: Db, db': Db, p: Id)
    requires p in db.payments && KeepsPayment(db, db', p)
    ensures p in db'.payments && Original(db'.payments[p]) == Original(db.payments[p])
  {
  }

  /** The step is a submission under this (customer, key) that is accepted. */
  ghost predicate Accepts(s: State, a: Step, k: (Token, Token)) {
    && a.SubmitForm? && a.key.Some? && (a.form.customer, a.key.value) == k
    && Submit(s.db, a.id, a.oid, a.form, a.key, a.hash).1.Accepted?
  }

  ghost function Acceptances(s: State, steps: seq<Step>, k: (Token, Token)): nat
    requires Run(s, steps)
    decreases |steps|
  {
    if |steps| == 0 then 0
    else (if Accepts(s, steps[0], k) then 1 else 0) + Acceptances(Apply(s, steps[0]), steps[1..], k)
  }

  ghost function Known(db: Db, k: (Token, Token)): nat {
    if k in db.idem then 1 else 0
  }

  lemma StepOnIdem(s: State, a: Step, k: (Token, Token))
    requires Enabled(s, a)
    ensures Known(Apply(s, a).db, k) == Known(s.db, k) + if Accepts(s, a, k) then 1 else 0
  {
    StepOnTables(s, a);
    hide Apply;
    hide Locked, Selectable, Reapable, Authorize, SetConfig, Add, DispositionOf, Money.ParseAmount;
  }

  lemma {:induction false} RunOnIdem(s: State, steps: seq<Step>, k: (Token, Token))
    requires Run(s, steps)
    ensures Known(After(s, steps).db, k) == Known(s.db, k) + Acceptances(s, steps, k)
    decreases |steps|
  {
    hide Enabled, Apply, Accepts, Known;
    if |steps| > 0 {
      StepOnIdem(s, steps[0], k);
      RunOnIdem(Apply(s, steps[0]), steps[1..], k);
    }
  }

  /** Over any run, however submissions race, a (customer, key) is accepted at most once, and exactly
      if it is known afterwards. */
  lemma AcceptedAtMostOnce(maxRetries: nat, steps: seq<Step>, k: (Token, Token))
    requires Run(Initial(maxRetries), steps)
    ensures Acceptances(Initial(maxRetries), steps, k) ==
              if k in After(Initial(maxRetries), steps).db.idem then 1 else 0
  {
    hide Enabled, Apply, Run, After, Acceptances;
    RunOnIdem(Initial(maxRetries), steps, k);
  }

  // -------------------------------------------- what a submission leads to

  /** The answer to a submission, and the rows of an accepted one, in terms of the form: the key must be
      there and the amount must parse; the payment has the parsed amount and the form's parties. */
  lemma SubmissionFollowsForm(db: Db, id: Id, oid: Id, form: Form, key: Option<Token>, hash: Token)
    ensures var (db', r) := Submit(db, id, oid, form, key, hash); var amount := Money.ParseAmount(form.amount);
            && (r.MissingKey? <==> key.None?)
            && (r.BadAmount? <==> key.Some? && amount.Err?) && (r.BadAmount? ==> r.error == amount.error)
            && (r.Accepted? <==> key.Some? && amount.Ok? && (form.customer, key.value) !in db.idem)
            && (!r.Accepted? ==> db' == db)
            && (r.Accepted? ==>
                  && ReflectsForm(r.body, id, form, amount.value)
                  && db'.payments == db.payments[id := r.body]
                  && db'.events == db.events[id := [SUBMITTED_EVENT]]
                  && db'.idem == db.idem[(form.customer, key.value) := IdempotencyRow(hash, id, r.body)]
                  && var asked := Request(id, amount.value, USD);
                     db'.outbox == db.outbox[oid := OutboxRow(PaymentSubmitted, id, asked, None, false)])
  {
  }

  /** A new payment, with what the form says. */
  ghost predicate ReflectsForm(row: Payment, id: Id, form: Form, cents: nat) {
    && row.id == id && row.cents == cents && row.currency == USD
    && row.customer == form.customer && row.source == form.source && row.destination == form.destination
    && row.reference == form.reference
    && row.status == PENDING && row.version == 0 && row.attemptCount == 0 && row.lastError == None
  }

  /** Over any run from its acceptance on, a payment keeps the parties of its form, and whatever is
      queued, asked of the bank, published or charged for it is exactly the amount the form's text
      denotes. */
  lemma ChargedAsSubmitted(s: State, id: Id, oid: Id, form: Form, key: Token, hash: Token, steps: seq<Step>)
    requires Reachable(s) && Enabled(s, SubmitForm(id, oid, form, Some(key), hash))
    requires Submit(s.db, id, oid, form, Some(key), hash).1.Accepted?
    requires Run(Apply(s, SubmitForm(id, oid, form, Some(key), hash)), steps)
    ensures Money.ParseAmount(form.amount).Ok?
    ensures var t := After(Apply(s, SubmitForm(id, oid, form, Some(key), hash)), steps);
            var asked := Request(id, Money.ParseAmount(form.amount).value, USD);
            && id in t.db.payments && Carries(asked, t.db.payments[id])
            && t.db.payments[id].customer == form.customer && t.db.payments[id].source == form.source
            && t.db.payments[id].destination == form.destination && t.db.payments[id].reference == form.reference
            && (forall i | 0 <= i < |t.bank.ledger| && t.bank.ledger[i].paymentId == id :: t.bank.ledger[i] == asked)
            && (forall c | c in t.calls && t.calls[c].order.paymentId == id :: t.calls[c].order == asked)
            && (forall j | j in t.jobs && t.jobs[j].order.paymentId == id :: t.jobs[j].order == asked)
            && (forall o | o in t.db.outbox && t.db.outbox[o].aggregate == id :: t.db.outbox[o].order == asked)
  {
    var a := SubmitForm(id, oid, form, Some(key), hash);
    SubmissionFollowsForm(s.db, id, oid, form, Some(key), hash);
    var s1 := Apply(s, a);
    assert s1.db.payments[id] == Submit(s.db, id, oid, form, Some(key), hash).1.body;
    hide Enabled, Apply, Submit, Reachable;
    AfterKeepsReachable(s, a, steps);
    var t := After(s1, steps);
    ReachableStep(s, a);
    AmountIsPermanent(s1, steps, id);
    AuditTrail(t, id);
    AmountsAgree(t);
    ChargedExactlyOnce(t);
  }

  lemma ReachableStep(s: State, a: Step)
    requires Reachable(s) && Enabled(s, a)
    ensures Reachable(Apply(s, a))
  {
    hide Enabled, Apply;
    var maxRetries, steps :| Run(Initial(maxRetries), steps) && After(Initial(maxRetries), steps) == s;
    RunAppend(Initial(maxRetries), steps, a);
    assert Run(Initial(maxRetries), steps + [a]);
  }

  lemma {:induction false} RunKeepsReachable(s: State, steps: seq<Step>)
    requires Reachable(s) && Run(s, steps)
    ensures Reachable(After(s, steps))
    decreases |steps|
  {
    hide Enabled, Apply, Reachable;
    if |steps| > 0 {
      ReachableStep(s, steps[0]);
      RunKeepsReachable(Apply(s, steps[0]), steps[1..]);
    }
  }

  lemma AfterKeepsReachable(s: State, a: Step, steps: seq<Step>)
    requires Reachable(s) && Enabled(s, a) && Run(Apply(s, a), steps)
    ensures Reachable(After(Apply(s, a), steps))
  {
    hide Enabled, Apply, Reachable;
    ReachableStep(s, a);
    RunKeepsReachable(Apply(s, a), steps);
  }

  // ------------------------------------------------------------- publishing

  /** A relay's mark sets exactly its own rows to published. */
  lemma MarkPublishesExactly(s: State, r: nat)
    requires Enabled(s, RelayMark(r))
    ensures var t := Apply(s, RelayMark(r));
            && t.db.outbox.Keys == s.db.outbox.Keys
            && (forall o | o in s.db.outbox && o in s.relays[r].rows ::
                  t.db.outbox[o] == s.db.outbox[o].(published := true))
            && (forall o | o in s.db.outbox && o !in s.relays[r].rows :: t.db.outbox[o] == s.db.outbox[o])
            && t.db.payments == s.db.payments && t.db.events == s.db.events && t.db.idem == s.db.idem
            && r !in t.relays
  {
    MarksExactly(s.db, s.relays[r].rows);
    hide MarkPublished;
  }

  /** A row once published is selected by no relay again, whatever happens. */
  lemma PublishedIsNeverSelected(s: State, steps: seq<Step>, o: Id)
    requires Reachable(s) && Run(s, steps) && o in s.db.outbox && s.db.outbox[o].published
    ensures var t := After(s, steps); o in t.db.outbox && t.db.outbox[o].published && !Selectable(t, o)
  {
    hide Inv, Locked;
    ReachableInv(s);
    RunKeeps(s, steps);
  }
}
