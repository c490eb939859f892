/** The inductive invariant of the pipeline, and its preservation by every step. */
module PipelineInvariant {
  import opened Options
  import opened Names
  import opened Statuses
  import opened Banks
  import opened Tables
  import opened JobIds
  import opened Pipeline

  // ------------------------------------------------------------ invariant

  /** The request is for a payment and carries exactly the amount of its row. */
  ghost predicate OrderOk(db: Db, order: Request) {
    order.paymentId in db.payments && order == OrderOf(db.payments[order.paymentId])
  }

  ghost predicate LeftPending(db: Db, p: Id) {
    p in db.payments && db.payments[p].status != PENDING
  }

  ghost predicate CountReached(db: Db, p: Id, n: nat) {
    LeftPending(db, p) && 1 <= n <= db.payments[p].attemptCount
  }

  /** A job belongs to the payment its id names, which justifies its kind. */
  ghost predicate JobOk(db: Db, j: JobId, order: Request) {
    && OrderOk(db, order)
    && match j
       case Submission(o) => SubmittedRow(db, order.paymentId, o)
       case Retry(p, n) => p == order.paymentId && CountReached(db, p, n)
       case Reap(p, _) => p == order.paymentId && LeftPending(db, p)
  }

  ghost predicate Authorised(bank: Bank, p: Id, ref: BankRef) {
    p in bank.store && ref == BankRef(p)
  }

  ghost predicate PcOk(db: Db, bank: Bank, calls: map<nat, BankCall>, order: Request, pc: Pc) {
    var p := order.paymentId;
    match pc
    case Start => true
    case Read(seen) => seen.Some? && (seen.value != PENDING ==> LeftPending(db, p))
    case Ready => LeftPending(db, p)
    case Calling(c) => LeftPending(db, p) && c in calls && calls[c].order == order
    case Decided(d) =>
      LeftPending(db, p) && (d.Settle? && d.verdict.Complete? ==> Authorised(bank, p, d.verdict.bankRef))
    case Enqueue(n) => CountReached(db, p, n)
    case Returned => LeftPending(db, p)
  }

  ghost predicate WorkerOk(s: State, w: nat)
    requires w in s.workers
  {
    var wk := s.workers[w];
    && wk.job in s.jobs && s.jobs[wk.job].order == wk.order
    && PcOk(s.db, s.bank, s.calls, wk.order, wk.pc)
  }

  /** The worker is about to add this retry job. */
  ghost predicate Adding(s: State, w: nat, p: Id, n: nat) {
    w in s.workers && s.workers[w].pc == Enqueue(n) && s.workers[w].order.paymentId == p
  }

  ghost predicate JobsInv(s: State) {
    forall j | j in s.jobs :: JobOk(s.db, j, s.jobs[j].order)
  }

  ghost predicate WorkersInv(s: State) {
    forall w | w in s.workers :: WorkerOk(s, w)
  }

  /** An active job is held by its worker; a completed one has moved its payment on. */
  ghost predicate StatusInv(s: State) {
    forall j | j in s.jobs ::
      match s.jobs[j].status
      case Active(w) => w in s.workers && s.workers[w].job == j
      case Completed => LeftPending(s.db, s.jobs[j].order.paymentId)
      case _ => true
  }

  /** A retry id is about to be added by at most one worker, and only while it is still free. */
  ghost predicate RetryIdsInv(s: State) {
    && (forall w, p, n | Adding(s, w, p, n) :: JobIds.Retry(p, n) !in s.jobs)
    && (forall w, w', p, n | Adding(s, w, p, n) && Adding(s, w', p, n) :: w == w')
  }

  ghost predicate CallsInv(s: State) {
    forall c | c in s.calls ::
      && OrderOk(s.db, s.calls[c].order) && LeftPending(s.db, s.calls[c].order.paymentId)
      && (s.calls[c].answer.Some? && s.calls[c].answer.value.Authorized? ==>
            Authorised(s.bank, s.calls[c].order.paymentId, s.calls[c].answer.value.bankRef))
  }

  ghost predicate RelayOk(s: State, r: Relay) {
    && r.landed <= r.rows
    && (forall o | o in r.rows :: o in s.db.outbox && s.db.outbox[o].kind == PaymentSubmitted)
    && (forall o | o in r.landed :: Submission(o) in s.jobs)
    && (r.live ==> forall o | o in r.rows && o in s.db.outbox :: !s.db.outbox[o].published)
  }

  ghost predicate RelaysInv(s: State) {
    && (forall r | r in s.relays :: RelayOk(s, s.relays[r]))
    && (forall r, r', o | r in s.relays && r' in s.relays && s.relays[r].live && s.relays[r'].live
          && o in s.relays[r].rows && o in s.relays[r'].rows :: r == r')
  }

  /** A row is marked published only when its job was added. */
  ghost predicate PublishedInv(s: State) {
    forall o | o in s.db.outbox && s.db.outbox[o].published :: Submission(o) in s.jobs
  }

  ghost predicate ReapersInv(s: State) {
    forall r, order | r in s.reapers && order in s.reapers[r] ::
      OrderOk(s.db, order) && LeftPending(s.db, order.paymentId)
  }

  ghost predicate BankInv(s: State) {
    && Balanced(s.bank)
    && forall i | 0 <= i < |s.bank.ledger| ::
         OrderOk(s.db, s.bank.ledger[i]) && LeftPending(s.db, s.bank.ledger[i].paymentId)
  }

  ghost predicate CompletedOk(db: Db, bank: Bank, p: Id)
    requires p in db.payments
  {
    db.payments[p].status == COMPLETED ==>
      p in bank.store && p in db.events && |db.events[p]| > 0 && Last(db.events[p]).meta == Settled(BankRef(p))
  }

  /** A completed payment is one the bank authorised, under the reference in its audit trail. */
  ghost predicate CompletedInv(s: State) {
    forall p | p in s.db.payments :: CompletedOk(s.db, s.bank, p)
  }

  ghost predicate Inv(s: State) {
    && DbSound(s.maxRetries, s.db)
    && JobsInv(s) && WorkersInv(s) && StatusInv(s) && RetryIdsInv(s)
    && CallsInv(s) && RelaysInv(s) && PublishedInv(s) && ReapersInv(s)
    && BankInv(s) && CompletedInv(s)
  }

  // ----------------------------------------------------------- persistence

  /** What a change of the tables can not take back. */
  ghost predicate Persists(db: Db, db': Db) {
    && (forall order | OrderOk(db, order) :: OrderOk(db', order))
    && (forall p | LeftPending(db, p) :: LeftPending(db', p))
    && (forall p, n | CountReached(db, p, n) :: CountReached(db', p, n))
    && (forall p, o | SubmittedRow(db, p, o) :: SubmittedRow(db', p, o))
  }

  lemma EvolvesPersists(db: Db, db': Db)
    requires Evolves(db, db')
    ensures Persists(db, db')
  {
    forall order | OrderOk(db, order) ensures OrderOk(db', order) {
      var p := order.paymentId;
      assert OrderOf(Original(db.payments[p])) == OrderOf(db.payments[p]);
      assert OrderOf(Original(db'.payments[p])) == OrderOf(db'.payments[p]);
    }
    forall p | LeftPending(db, p) ensures LeftPending(db', p) {
      assert OneEdge(db.payments[p], db.events[p], db'.payments[p], db'.events[p]);
      MapShape(db'.payments[p].status);
    }
  }

  /** Everything but the tables, the workers' places and the marks survives a table change. */
  lemma TablesChange(s: State, db': Db)
    requires Inv(s) && DbSound(s.maxRetries, db') && Evolves(s.db, db')
    ensures var s' := s.(db := db');
            && JobsInv(s') && WorkersInv(s') && StatusInv(s') && RetryIdsInv(s')
            && CallsInv(s') && ReapersInv(s') && BankInv(s')
  {
    hide DbSound, Evolves, OrderOk, LeftPending, CountReached, SubmittedRow, Balanced, RelaysInv, PublishedInv;
    hide CompletedInv;
    EvolvesPersists(s.db, db');
    var s' := s.(db := db');
    forall j | j in s.jobs ensures JobOk(db', j, s.jobs[j].order) {
      assert JobOk(s.db, j, s.jobs[j].order);
    }
    forall w | w in s.workers ensures WorkerOk(s', w) {
      assert WorkerOk(s, w);
    }
    assert forall w, p, n :: Adding(s', w, p, n) <==> Adding(s, w, p, n);
  }

  // ------------------------------------------------- changes of the tables

  ghost predicate NoNewCompletion(db: Db, db': Db) {
    forall p | p in db'.payments && db'.payments[p].status == COMPLETED ::
      p in db.payments && db.payments[p].status == COMPLETED && p in db.events && p in db'.events
          && db'.events[p] == db.events[p]
  }

  ghost predicate NoNewMarks(db: Db, db': Db) {
    forall o | o in db'.outbox && db'.outbox[o].published :: o in db.outbox && db.outbox[o].published
  }

  lemma RelaysSurvive(s: State, db': Db)
    requires RelaysInv(s) && PublishedInv(s) && Evolves(s.db, db') && NoNewMarks(s.db, db')
    ensures RelaysInv(s.(db := db')) && PublishedInv(s.(db := db'))
  {
    hide OneEdge;
    var s' := s.(db := db');
    forall r | r in s'.relays ensures RelayOk(s', s'.relays[r]) {
      assert RelayOk(s, s.relays[r]);
    }
  }

  lemma QuietTablesStep(s: State, db': Db)
    requires Inv(s) && DbSound(s.maxRetries, db') && Evolves(s.db, db')
    requires NoNewCompletion(s.db, db') && NoNewMarks(s.db, db')
    ensures Inv(s.(db := db'))
  {
    hide DbSound, Evolves, JobsInv, WorkersInv, StatusInv, RetryIdsInv, CallsInv, RelaysInv, PublishedInv;
    hide ReapersInv, BankInv;
    TablesChange(s, db');
    RelaysSurvive(s, db');
    assert CompletedInv(s.(db := db')) by {
      forall p | p in db'.payments ensures CompletedOk(db', s.bank, p) {
        if db'.payments[p].status == COMPLETED { assert CompletedOk(s.db, s.bank, p); }
      }
    }
  }

  // ----------------------------------------------- changes of one component

  /** A worker moves on to a place its facts allow; `Enqueue` needs a retry id nobody has. */
  lemma GotoKeeps(s: State, w: nat, pc: Pc)
    requires Inv(s) && w in s.workers && PcOk(s.db, s.bank, s.calls, s.workers[w].order, pc)
    requires pc.Enqueue? ==>
               var p := s.workers[w].order.paymentId;
               JobIds.Retry(p, pc.attempt) !in s.jobs && forall w' :: !Adding(s, w', p, pc.attempt)
    ensures Inv(Goto(s, w, pc))
  {
    hide DbSound, JobsInv, PcOk, CallsInv, RelaysInv, PublishedInv, ReapersInv, BankInv, CompletedInv, JobOk;
    var s' := Goto(s, w, pc);
    assert WorkersInv(s') by {
      forall v | v in s'.workers ensures WorkerOk(s', v) { assert WorkerOk(s, v); }
    }
    assert forall v, p, n | v != w :: Adding(s', v, p, n) <==> Adding(s, v, p, n);
    assert forall j | j in s.jobs :: s'.jobs[j] == s.jobs[j];
    SameContextKeeps(s, s');
  }

  lemma SameContextKeeps(s: State, s': State)
    requires Inv(s) && s'.db == s.db && s'.maxRetries == s.maxRetries && s'.jobs == s.jobs && s'.bank == s.bank
    requires s'.calls == s.calls && s'.relays == s.relays && s'.reapers == s.reapers
    ensures JobsInv(s') && CallsInv(s') && RelaysInv(s') && PublishedInv(s') && ReapersInv(s') && BankInv(s')
        && CompletedInv(s')
  {
    hide DbSound, JobOk, OrderOk, Balanced, CompletedOk, Authorised;
    forall r | r in s'.relays ensures RelayOk(s', s'.relays[r]) { assert RelayOk(s, s.relays[r]); }
  }

  /** `queue.add` of a job that is justified, and not a retry another worker is about to add. */
  lemma AddKeeps(s: State, j: JobId, order: Request)
    requires Inv(s) && JobOk(s.db, j, order)
    requires j.Retry? ==> forall w :: !Adding(s, w, j.paymentId, j.attempt)
    ensures Inv(s.(jobs := Add(s.jobs, j, order)))
  {
    hide DbSound, JobOk, PcOk, Balanced, CompletedInv, OrderOk, LeftPending;
    var s' := s.(jobs := Add(s.jobs, j, order));
    forall i | i in s'.jobs ensures JobOk(s'.db, i, s'.jobs[i].order) {
      if i in s.jobs { assert JobOk(s.db, i, s.jobs[i].order); }
    }
    assert WorkersInv(s') by {
      forall w | w in s'.workers ensures WorkerOk(s', w) { assert WorkerOk(s, w); }
    }
    assert forall w, p, n :: Adding(s', w, p, n) <==> Adding(s, w, p, n);
    assert RelaysInv(s') by {
      forall r | r in s'.relays ensures RelayOk(s', s'.relays[r]) { assert RelayOk(s, s.relays[r]); }
    }
    assert CompletedInv(s') by { SameCompleted(s, s'); }
  }

  lemma SameCompleted(s: State, s': State)
    requires CompletedInv(s) && s'.db == s.db && s'.bank == s.bank
    ensures CompletedInv(s')
  {
  }
}
