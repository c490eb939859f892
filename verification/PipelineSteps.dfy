/** Every step of the pipeline keeps the invariant, and moves each payment by at most one edge. */
module PipelineSteps {
  import opened Options
  import opened Names
  import opened Statuses
  import opened Banks
  import opened Tables
  import opened JobIds
  import opened Pipeline
  import opened PipelineInvariant

  // ------------------------------------------------------ workers and jobs

  lemma LeaveKeeps(s: State, w: nat, outcome: JobStatus)
    requires Inv(s) && w in s.workers && !outcome.Active?
    requires outcome.Completed? ==> LeftPending(s.db, s.workers[w].order.paymentId)
    ensures Inv(Leave(s, w, outcome))
  {
    hide DbSound, JobOk, PcOk, CallsInv, ReapersInv, BankInv, CompletedInv, OrderOk, LeftPending;
    var s' := Leave(s, w, outcome);
    assert WorkerOk(s, w);
    assert s'.jobs.Keys == s.jobs.Keys;
    assert forall j | j in s.jobs :: s'.jobs[j].order == s.jobs[j].order;
    assert WorkersInv(s') by {
      forall v | v in s'.workers ensures WorkerOk(s', v) { assert WorkerOk(s, v); }
    }
    assert forall v, p, n :: Adding(s', v, p, n) ==> Adding(s, v, p, n);
    SameButQueueKeeps(s, s');
  }

  lemma SameButQueueKeeps(s: State, s': State)
    requires Inv(s) && s'.db == s.db && s'.maxRetries == s.maxRetries && s'.bank == s.bank
    requires s'.calls == s.calls && s'.relays == s.relays && s'.reapers == s.reapers
    requires s'.jobs.Keys == s.jobs.Keys && forall j | j in s.jobs :: s'.jobs[j].order == s.jobs[j].order
    ensures JobsInv(s') && CallsInv(s') && RelaysInv(s') && PublishedInv(s') && ReapersInv(s') && BankInv(s')
        && CompletedInv(s')
  {
    hide DbSound, JobOk, OrderOk, Balanced, CompletedOk, Authorised, LeftPending;
    forall r | r in s'.relays ensures RelayOk(s', s'.relays[r]) { assert RelayOk(s, s.relays[r]); }
  }

  lemma DequeueKeeps(s: State, w: nat, j: JobId)
    requires w !in s.workers && j in s.jobs && s.jobs[j].status == Waiting && Inv(s)
    ensures Inv(ApplyDequeue(s, w, j))
  {
    hide DbSound, JobOk, CallsInv, ReapersInv, BankInv, CompletedInv, OrderOk, LeftPending, RelaysInv, PublishedInv;
    var s' := ApplyDequeue(s, w, j);
    assert WorkersInv(s') by {
      forall v | v in s'.workers ensures WorkerOk(s', v) {
        if v != w { assert WorkerOk(s, v); }
      }
    }
    assert forall v, p, n :: Adding(s', v, p, n) ==> Adding(s, v, p, n);
    SameButQueueKeeps(s, s');
  }

  lemma StallKeeps(s: State, j: JobId)
    requires j in s.jobs && s.jobs[j].status.Active? && Inv(s)
    ensures Inv(ApplyStall(s, j))
  {
    hide DbSound, JobOk, PcOk, CallsInv, ReapersInv, BankInv, CompletedInv, OrderOk, LeftPending, RelaysInv;
    hide PublishedInv;
    var s' := ApplyStall(s, j);
    assert WorkersInv(s') by {
      forall v | v in s'.workers ensures WorkerOk(s', v) { assert WorkerOk(s, v); }
    }
    assert forall v, p, n :: Adding(s', v, p, n) <==> Adding(s, v, p, n);
    SameButQueueKeeps(s, s');
  }

  // --------------------------------------------------------------- bank

  /** The bank only gained: stored outcomes and answers given stay. */
  lemma BankGrows(s: State, bank: Bank, calls: map<nat, BankCall>)
    requires Inv(s) && Balanced(bank) && Extends(s.bank, bank)
    requires forall i | 0 <= i < |bank.ledger| ::
               OrderOk(s.db, bank.ledger[i]) && LeftPending(s.db, bank.ledger[i].paymentId)
    requires forall c | c in s.calls :: c in calls && calls[c].order == s.calls[c].order
    requires CallsInv(s.(bank := bank, calls := calls))
    ensures Inv(s.(bank := bank, calls := calls))
  {
    hide DbSound, JobsInv, OrderOk, Balanced, PublishedInv, ReapersInv, LeftPending, CountReached, RetryIdsInv;
    hide StatusInv, RelaysInv;
    var s' := s.(bank := bank, calls := calls);
    assert WorkersInv(s') by {
      forall w | w in s'.workers ensures WorkerOk(s', w) { assert WorkerOk(s, w); }
    }
    assert CompletedInv(s') by {
      forall p | p in s'.db.payments ensures CompletedOk(s'.db, bank, p) { assert CompletedOk(s.db, s.bank, p); }
    }
    SameContextButBankKeeps(s, s');
  }

  lemma SameContextButBankKeeps(s: State, s': State)
    requires Inv(s) && s'.db == s.db && s'.jobs == s.jobs && s'.workers == s.workers
    requires s'.relays == s.relays && s'.reapers == s.reapers
    ensures JobsInv(s') && StatusInv(s') && RetryIdsInv(s') && RelaysInv(s') && PublishedInv(s') && ReapersInv(s')
  {
    hide DbSound, JobOk, OrderOk, LeftPending, WorkersInv, CompletedInv, BankInv, CallsInv;
    forall r | r in s'.relays ensures RelayOk(s', s'.relays[r]) { assert RelayOk(s, s.relays[r]); }
    assert forall w, p, n :: Adding(s', w, p, n) <==> Adding(s, w, p, n);
  }

  lemma BankEvaluatesKeeps(s: State, c: nat)
    requires c in s.calls && s.calls[c].answer == None && Inv(s)
    ensures Inv(ApplyBankEvaluates(s, c))
  {
    hide DbSound, JobsInv, WorkersInv, StatusInv, RetryIdsInv, RelaysInv, PublishedInv, ReapersInv;
    hide CompletedInv, OrderOk, Authorize, Balanced;
    var order := s.calls[c].order;
    var (bank, outcome) := Authorize(s.bank, order);
    AuthorizeKeepsBalance(s.bank, order);
    var s' := ApplyBankEvaluates(s, c);
    assert outcome.Authorized? ==> Authorised(bank, order.paymentId, outcome.bankRef)
        by { StoredIsOwnRef(bank, order.paymentId); }
    BankGrows(s, bank, s'.calls);
  }

  lemma StoredIsOwnRef(b: Bank, p: Id)
    requires Balanced(b)
    ensures p in b.store ==> b.store[p] == Authorized(BankRef(p))
  {
  }

  lemma CallBankKeeps(s: State, w: nat, c: nat)
    requires w in s.workers && s.workers[w].pc == Ready && c !in s.calls && Inv(s)
    ensures Inv(ApplyCallBank(s, w, c))
  {
    hide DbSound, StatusInv, RetryIdsInv, RelaysInv, PublishedInv, ReapersInv, CompletedInv, Balanced, OrderOk;
    assert WorkerOk(s, w) && JobOk(s.db, s.workers[w].job, s.workers[w].order);
    var calls := s.calls[c := BankCall(s.workers[w].order, None)];
    BankGrows(s, s.bank, calls);
    GotoKeeps(s.(calls := calls), w, Calling(c));
  }

  lemma ReceiveKeeps(s: State, w: nat)
    requires Enabled(s, ReceiveAnswer(w)) && Inv(s)
    ensures Inv(Apply(s, ReceiveAnswer(w)))
  {
    hide DbSound, JobsInv, StatusInv, RetryIdsInv, RelaysInv, PublishedInv, ReapersInv, CompletedInv, BankInv;
    hide OrderOk;
    assert WorkerOk(s, w);
    GotoKeeps(s, w, Decided(DispositionOf(s.calls[s.workers[w].pc.call].answer.value)));
  }

  // --------------------------------------------------------------- relays

  lemma RelaysChange(s: State, relays: map<nat, Relay>)
    requires Inv(s) && RelaysInv(s.(relays := relays))
    ensures Inv(s.(relays := relays))
  {
    hide DbSound, JobOk, PcOk, OrderOk, Balanced, CompletedOk, LeftPending, RelaysInv, Authorised;
    var s' := s.(relays := relays);
    assert WorkersInv(s') by {
      forall w | w in s'.workers ensures WorkerOk(s', w) { assert WorkerOk(s, w); }
    }
    assert forall w, p, n :: Adding(s', w, p, n) <==> Adding(s, w, p, n);
  }

  lemma RelaySelectKeeps(s: State, r: nat, rows: set<Id>)
    requires Inv(s) && Enabled(s, RelaySelect(r, rows))
    ensures Inv(Apply(s, RelaySelect(r, rows)))
  {
    hide DbSound, JobsInv, WorkersInv, StatusInv, RetryIdsInv, CallsInv, PublishedInv, ReapersInv, BankInv;
    hide CompletedInv;
    var s' := Apply(s, RelaySelect(r, rows));
    assert RelaysInv(s') by {
      forall q | q in s'.relays ensures RelayOk(s', s'.relays[q]) {
        if q != r { assert RelayOk(s, s.relays[q]); } else { assert forall o | o in rows :: Selectable(s, o); }
      }
      forall q, o | q in s.relays && s.relays[q].live && o in s.relays[q].rows ensures o !in rows {
        assert Locked(s, o);
      }
    }
    RelaysChange(s, s'.relays);
  }

  lemma RelayShrinks(s: State, r: nat, relays: map<nat, Relay>)
    requires Inv(s) && r in s.relays
    requires relays == s.relays - {r} || relays == s.relays[r := s.relays[r].(live := false)]
    ensures Inv(s.(relays := relays))
  {
    hide DbSound, JobsInv, WorkersInv, StatusInv, RetryIdsInv, CallsInv, PublishedInv, ReapersInv, BankInv;
    hide CompletedInv;
    var s' := s.(relays := relays);
    assert RelaysInv(s') by {
      forall q | q in s'.relays ensures RelayOk(s', s'.relays[q]) { assert RelayOk(s, s.relays[q]); }
    }
    RelaysChange(s, relays);
  }

  lemma RelayAddKeeps(s: State, r: nat, o: Id)
    requires r in s.relays && o in s.relays[r].rows && o in s.db.outbox && Inv(s)
    ensures Inv(ApplyRelayAdd(s, r, o))
  {
    hide JobsInv, WorkersInv, StatusInv, RetryIdsInv, CallsInv, PublishedInv, ReapersInv, BankInv, CompletedInv;
    hide RowsSound, IdemSound, OutboxUnique, OutboxCovers;
    assert RelayOk(s, s.relays[r]);
    assert OutboxRowSound(s.db, o);
    AddKeeps(s, Submission(o), s.db.outbox[o].order);
    var s1 := s.(jobs := Add(s.jobs, Submission(o), s.db.outbox[o].order));
    var relays := s.relays[r := s.relays[r].(landed := s.relays[r].landed + {o})];
    var s' := s1.(relays := relays);
    assert RelaysInv(s') by {
      forall q | q in s'.relays ensures RelayOk(s', s'.relays[q]) { assert RelayOk(s1, s1.relays[q]); }
    }
    RelaysChange(s1, relays);
    assert ApplyRelayAdd(s, r, o) == s';
  }

  lemma RelayMarkKeeps(s: State, r: nat)
    requires Inv(s) && Enabled(s, RelayMark(r))
    ensures Inv(Apply(s, RelayMark(r)))
  {
    hide DbSound, JobsInv, WorkersInv, StatusInv, RetryIdsInv, CallsInv, ReapersInv, BankInv, CompletedInv, Evolves;
    var rows := s.relays[r].rows;
    var s0 := s.(relays := s.relays - {r});
    RelayShrinks(s, r, s0.relays);
    var db' := MarkPublished(s.db, rows);
    MarkKeepsTables(s.maxRetries, s.db, rows);
    TablesChange(s0, db');
    var s' := s0.(db := db');
    assert RelayOk(s, s.relays[r]);
    assert PublishedInv(s');
    assert RelaysInv(s') by {
      forall q | q in s'.relays ensures RelayOk(s', s'.relays[q]) { assert RelayOk(s, s.relays[q]); }
    }
    assert CompletedInv(s') by { MarkKeepsCompleted(s0, rows); }
    assert s' == Apply(s, RelayMark(r));
  }

  lemma MarkKeepsCompleted(s: State, rows: set<Id>)
    requires CompletedInv(s)
    ensures CompletedInv(s.(db := MarkPublished(s.db, rows)))
  {
  }

  // --------------------------------------------------------------- reapers

  lemma ReapersChange(s: State, reapers: map<nat, set<Request>>)
    requires Inv(s) && ReapersInv(s.(reapers := reapers))
    ensures Inv(s.(reapers := reapers))
  {
    hide DbSound, JobOk, PcOk, OrderOk, Balanced, CompletedOk, LeftPending, ReapersInv, Authorised;
    var s' := s.(reapers := reapers);
    assert WorkersInv(s') by {
      forall w | w in s'.workers ensures WorkerOk(s', w) { assert WorkerOk(s, w); }
    }
    assert RelaysInv(s') by {
      forall r | r in s'.relays ensures RelayOk(s', s'.relays[r]) { assert RelayOk(s, s.relays[r]); }
    }
    assert forall w, p, n :: Adding(s', w, p, n) <==> Adding(s, w, p, n);
  }

  lemma ReapCompletesNothing(db: Db, stuck: set<Id>)
    requires db.events.Keys == db.payments.Keys
    ensures NoNewCompletion(db, ReapTxn(db, stuck)) && NoNewMarks(db, ReapTxn(db, stuck))
  {
  }

  lemma ReapCommitKeeps(s: State, r: nat, stuck: set<Id>)
    requires r !in s.reapers && (forall p | p in stuck :: Reapable(s, p)) && Inv(s)
    ensures Inv(ApplyReapCommit(s, r, stuck))
  {
    hide OutboxSound, IdemSound, RowSound, JobsInv, WorkersInv, StatusInv, RetryIdsInv, CallsInv, RelaysInv;
    hide PublishedInv, BankInv, CompletedInv, Evolves, NoNewCompletion, NoNewMarks;
    var db' := ReapTxn(s.db, stuck);
    ReapKeepsTables(s.maxRetries, s.db, stuck);
    ReapCompletesNothing(s.db, stuck);
    QuietTablesStep(s, db');
    var s1 := s.(db := db');
    var s' := ApplyReapCommit(s, r, stuck);
    EvolvesPersists(s.db, db');
    assert ReapersInv(s') by {
      forall p | p in stuck
        ensures var order := OrderOf(s.db.payments[p]);
                OrderOk(db', order) && order.paymentId == p && LeftPending(db', p)
      {
        assert Reapable(s, p) && RowSound(s.maxRetries, s.db, p);
        ReapableIsOrdered(s.maxRetries, s.db, p);
        assert LeftPending(s.db, p);
      }
      assert forall q, order | q != r && q in s'.reapers && order in s'.reapers[q] :: OrderOk(s.db, order);
    }
    ReapersChange(s1, s'.reapers);
    assert s' == s1.(reapers := s'.reapers);
  }

  lemma ReapableIsOrdered(maxRetries: nat, db: Db, p: Id)
    requires p in db.payments && RowSound(maxRetries, db, p)
    ensures OrderOk(db, OrderOf(db.payments[p])) && OrderOf(db.payments[p]).paymentId == p
  {
  }

  lemma ReapAddKeeps(s: State, r: nat, order: Request, at: nat)
    requires Inv(s) && Enabled(s, ReapAdd(r, order, at))
    ensures Inv(Apply(s, ReapAdd(r, order, at)))
  {
    hide DbSound, JobsInv, WorkersInv, StatusInv, RetryIdsInv, CallsInv, RelaysInv, PublishedInv, BankInv;
    hide CompletedInv;
    AddKeeps(s, Reap(order.paymentId, at), order);
    var s1 := s.(jobs := Add(s.jobs, Reap(order.paymentId, at), order));
    ReapersChange(s1, s.reapers[r := s.reapers[r] - {order}]);
  }

  // ---------------------------------------------------------- transactions

  lemma SubmitKeeps(s: State, id: Id, oid: Id, form: Form, key: Option<Token>, hash: Token)
    requires Inv(s) && Enabled(s, SubmitForm(id, oid, form, key, hash))
    ensures Inv(Apply(s, SubmitForm(id, oid, form, key, hash)))
  {
    hide JobsInv, WorkersInv, StatusInv, RetryIdsInv, CallsInv, RelaysInv, PublishedInv, ReapersInv, BankInv;
    hide CompletedInv, Evolves, OutboxSound, IdemSound, RowSound;
    SubmitKeepsTables(s.maxRetries, s.db, id, oid, form, key, hash);
    QuietTablesStep(s, Submit(s.db, id, oid, form, key, hash).0);
  }

  lemma ClaimKeeps(s: State, w: nat)
    requires w in s.workers && s.workers[w].pc.Read? && Inv(s)
    ensures Inv(ApplyClaim(s, w))
  {
    hide JobsInv, StatusInv, RetryIdsInv, CallsInv, RelaysInv, PublishedInv, ReapersInv, BankInv, CompletedInv;
    hide Evolves, OutboxSound, IdemSound, RowSound;
    var wk := s.workers[w];
    assert WorkerOk(s, w);
    var db' := ClaimCas(s.db, wk.order.paymentId, wk.pc.seen);
    ClaimKeepsTables(s.maxRetries, s.db, wk.order.paymentId, wk.pc.seen);
    WorkerHasRow(s, w);
    assert NoNewCompletion(s.db, db') && NoNewMarks(s.db, db');
    QuietTablesStep(s, db');
    EvolvesPersists(s.db, db');
    assert LeftPending(db', wk.order.paymentId);
    GotoKeeps(s.(db := db'), w, Ready);
  }

  /** A worker's payment exists, with the amount its job carries. */
  lemma WorkerHasRow(s: State, w: nat)
    requires Inv(s) && w in s.workers
    ensures WorkerOk(s, w) && OrderOk(s.db, s.workers[w].order) && HasRow(s.db, s.workers[w].order.paymentId)
  {
    hide OutboxSound, IdemSound, Legal, Retries, StatusInv, RetryIdsInv, CallsInv, RelaysInv, PublishedInv;
    hide ReapersInv, BankInv, CompletedInv;
    assert WorkerOk(s, w);
    assert JobOk(s.db, s.workers[w].job, s.workers[w].order);
    assert RowSound(s.maxRetries, s.db, s.workers[w].order.paymentId);
  }

  lemma ReadRowKeeps(s: State, w: nat)
    requires w in s.workers && Inv(s)
    ensures Inv(ApplyReadRow(s, w))
  {
    hide DbSound, JobsInv, StatusInv, RetryIdsInv, CallsInv, RelaysInv, PublishedInv, ReapersInv, BankInv;
    hide CompletedInv;
    WorkerHasRow(s, w);
    GotoKeeps(s, w, Read(Some(s.db.payments[s.workers[w].order.paymentId].status)));
  }

  lemma CommitRetryKeeps(s: State, w: nat)
    requires w in s.workers && s.workers[w].pc.Decided? && s.workers[w].pc.disposition.TryAgain? && Inv(s)
    ensures Inv(ApplyCommitRetry(s, w))
  {
    hide CallsInv, RelaysInv, PublishedInv, ReapersInv, BankInv, CompletedInv, StatusInv, RetryIdsInv, Evolves;
    hide OutboxSound, IdemSound, RowSound, NoNewCompletion, NoNewMarks, JobsInv;
    var wk := s.workers[w];
    var p := wk.order.paymentId;
    WorkerHasRow(s, w);
    var (db', n) := RetryTxn(s.db, s.maxRetries, p, wk.pc.disposition.reason);
    RetryKeepsTables(s.maxRetries, s.db, p, wk.pc.disposition.reason);
    RetryCountIsNew(s.db, s.maxRetries, p, wk.pc.disposition.reason);
    RetryCompletesNothing(s.db, s.maxRetries, p, wk.pc.disposition.reason);
    hide RetryTxn;
    QuietTablesStep(s, db');
    EvolvesPersists(s.db, db');
    if n.Some? {
      RetryIdIsFree(s, p, n.value);
      assert forall v :: Adding(s.(db := db'), v, p, n.value) ==> Adding(s, v, p, n.value);
      GotoKeeps(s.(db := db'), w, Enqueue(n.value));
    } else {
      GotoKeeps(s.(db := db'), w, Returned);
    }
  }

  lemma RetryCompletesNothing(db: Db, maxRetries: nat, p: Id, reason: Reason)
    requires db.events.Keys == db.payments.Keys && HasRow(db, p)
    ensures var db' := RetryTxn(db, maxRetries, p, reason).0; NoNewCompletion(db, db') && NoNewMarks(db, db')
  {
  }

  /** No job and no worker refers to a retry the payment has not come to. */
  lemma RetryIdIsFree(s: State, p: Id, n: nat)
    requires Inv(s) && p in s.db.payments && n > s.db.payments[p].attemptCount
    ensures JobIds.Retry(p, n) !in s.jobs && forall w :: !Adding(s, w, p, n)
  {
    hide DbSound, CallsInv, RelaysInv, PublishedInv, ReapersInv, BankInv, CompletedInv, StatusInv, RetryIdsInv;
    forall w: nat, m: nat | Adding(s, w, p, m) ensures m <= s.db.payments[p].attemptCount {
      assert WorkerOk(s, w);
    }
    forall j | j in s.jobs && j.Retry? && j.paymentId == p ensures j.attempt <= s.db.payments[p].attemptCount {
      assert JobOk(s.db, j, s.jobs[j].order);
    }
  }

  lemma EnqueueRetryKeeps(s: State, w: nat)
    requires w in s.workers && s.workers[w].pc.Enqueue? && Inv(s)
    ensures Inv(ApplyEnqueueRetry(s, w))
    ensures var wk := s.workers[w]; JobIds.Retry(wk.order.paymentId, wk.pc.attempt) !in s.jobs
  {
    hide DbSound, CallsInv, RelaysInv, PublishedInv, ReapersInv, BankInv, CompletedInv, StatusInv, JobsInv, OrderOk;
    var wk := s.workers[w];
    var p := wk.order.paymentId;
    WorkerHasRow(s, w);
    assert Adding(s, w, p, wk.pc.attempt);
    GotoKeeps(s, w, Returned);
    var s1 := Goto(s, w, Returned);
    assert forall v, m :: Adding(s1, v, p, m) ==> Adding(s, v, p, m) && v != w;
    AddKeeps(s1, JobIds.Retry(p, wk.pc.attempt), wk.order);
  }

  lemma CommitVerdictKeeps(s: State, w: nat, oid: Id)
    requires w in s.workers && s.workers[w].pc.Decided? && s.workers[w].pc.disposition.Settle?
        && FreshId(s.db, oid) && Inv(s)
    ensures Inv(ApplyCommitVerdict(s, w, oid))
  {
    hide CallsInv, ReapersInv, BankInv, StatusInv, RetryIdsInv, JobsInv, RelaysInv, PublishedInv, Evolves;
    hide OutboxSound, IdemSound, RowSound;
    var wk := s.workers[w];
    var p := wk.order.paymentId;
    WorkerHasRow(s, w);
    var v := wk.pc.disposition.verdict;
    var db' := FinaliseTxn(s.db, wk.order, v, oid);
    FinaliseKeepsTables(s.maxRetries, s.db, wk.order, v, oid);
    TablesChange(s, db');
    assert NoNewMarks(s.db, db');
    RelaysSurvive(s, db');
    assert CompletedInv(s.(db := db')) by {
      forall q | q in db'.payments ensures CompletedOk(db', s.bank, q) {
        assert q in s.db.payments && CompletedOk(s.db, s.bank, q);
      }
    }
    EvolvesPersists(s.db, db');
    GotoKeeps(s.(db := db'), w, Returned);
  }

  lemma DecideToRetryKeeps(s: State, w: nat, reason: Reason)
    requires w in s.workers && (s.workers[w].pc == Ready || s.workers[w].pc.Calling?) && Inv(s)
    ensures Inv(Goto(s, w, Decided(TryAgain(reason))))
  {
    hide DbSound, JobsInv, StatusInv, RetryIdsInv, CallsInv, RelaysInv, PublishedInv, ReapersInv, BankInv;
    hide CompletedInv;
    assert WorkerOk(s, w);
    GotoKeeps(s, w, Decided(TryAgain(reason)));
  }

  lemma ReturnKeeps(s: State, w: nat)
    requires w in s.workers && s.workers[w].pc == Returned && Inv(s)
    ensures Inv(Leave(s, w, Completed))
  {
    hide DbSound, JobsInv, StatusInv, RetryIdsInv, CallsInv, RelaysInv, PublishedInv, ReapersInv, BankInv;
    hide CompletedInv;
    assert WorkerOk(s, w);
    LeaveKeeps(s, w, Completed);
  }

  lemma ConfigureBankKeeps(s: State, mode: Option<Mode>, failN: Option<nat>)
    requires Inv(s)
    ensures Inv(s.(bank := SetConfig(s.bank, mode, failN, None)))
  {
    hide DbSound, JobsInv, WorkersInv, StatusInv, RetryIdsInv, RelaysInv, PublishedInv, ReapersInv;
    hide CompletedInv, Balanced;
    SetConfigKeepsBalance(s.bank, mode, failN, None);
    BankGrows(s, SetConfig(s.bank, mode, failN, None), s.calls);
  }

  /** The steps of one call of `process`. */
  ghost predicate IsWorkerStep(a: Step) {
    || a.Dequeue? || a.ReadRow? || a.Claim? || a.BreakerRefuses? || a.CallBank? || a.ReceiveAnswer? || a.TimeOut?
    || a.CommitRetry? || a.EnqueueRetry? || a.CommitVerdict? || a.Return? || a.Throw? || a.Crash?
  }

  lemma WorkerStepKeepsInv(s: State, a: Step)
    requires Inv(s) && Enabled(s, a) && IsWorkerStep(a)
    ensures Inv(Apply(s, a))
  {
    hide Inv, Leave, Goto, ApplyDequeue, ApplyReadRow, ApplyClaim, ApplyCallBank, ApplyCommitRetry;
    hide ApplyEnqueueRetry, ApplyCommitVerdict, DispositionOf;
    match a
    case Dequeue(w, j) => DequeueKeeps(s, w, j);
    case ReadRow(w) => ReadRowKeeps(s, w);
    case Claim(w) => ClaimKeeps(s, w);
    case BreakerRefuses(w) => DecideToRetryKeeps(s, w, CircuitOpen);
    case CallBank(w, c) => CallBankKeeps(s, w, c);
    case ReceiveAnswer(w) => ReceiveKeeps(s, w);
    case TimeOut(w) => DecideToRetryKeeps(s, w, BankTimeout);
    case CommitRetry(w) => CommitRetryKeeps(s, w);
    case EnqueueRetry(w) => EnqueueRetryKeeps(s, w);
    case CommitVerdict(w, oid) => CommitVerdictKeeps(s, w, oid);
    case Return(w) => ReturnKeeps(s, w);
    case Throw(w) => LeaveKeeps(s, w, Failed);
    case Crash(w) => LeaveKeeps(s, w, Waiting);
  }

  lemma OtherStepKeepsInv(s: State, a: Step)
    requires Inv(s) && Enabled(s, a) && !IsWorkerStep(a)
    ensures Inv(Apply(s, a))
  {
    hide Inv, ApplyBankEvaluates, ApplyRelayAdd, ApplyReapCommit, ApplyStall, Submit, MarkPublished, SetConfig, Add;
    match a
    case SubmitForm(id, oid, form, key, hash) => SubmitKeeps(s, id, oid, form, key, hash);
    case RelaySelect(r, rows) => RelaySelectKeeps(s, r, rows);
    case RelayAdd(r, o) => RelayAddKeeps(s, r, o);
    case RelayMark(r) => RelayMarkKeeps(s, r);
    case RelayRollback(r) => RelayShrinks(s, r, s.relays[r := s.relays[r].(live := false)]);
    case RelayStop(r) => RelayShrinks(s, r, s.relays - {r});
    case BankEvaluates(c) => BankEvaluatesKeeps(s, c);
    case Stall(j) => StallKeeps(s, j);
    case ReapCommit(r, stuck) => ReapCommitKeeps(s, r, stuck);
    case ReapAdd(r, order, at) => ReapAddKeeps(s, r, order, at);
    case ReapStop(r) => ReapStopKeeps(s, r);
    case ConfigureBank(mode, failN) => ConfigureBankKeeps(s, mode, failN);
  }

  /** Every step of every process keeps the invariant. */
  lemma StepKeepsInv(s: State, a: Step)
    requires Inv(s) && Enabled(s, a)
    ensures Inv(Apply(s, a))
  {
    hide Inv, Enabled, Apply;
    if IsWorkerStep(a) {
      WorkerStepKeepsInv(s, a);
    } else {
      OtherStepKeepsInv(s, a);
    }
  }

  lemma ReapStopKeeps(s: State, r: nat)
    requires Inv(s) && r in s.reapers
    ensures Inv(s.(reapers := s.reapers - {r}))
  {
    hide DbSound, JobsInv, WorkersInv, StatusInv, RetryIdsInv, CallsInv, RelaysInv, PublishedInv, BankInv;
    hide CompletedInv;
    ReapersChange(s, s.reapers - {r});
  }

  // ----------------------------------------------------- the tables evolve

  lemma UnchangedTablesEvolve(maxRetries: nat, db: Db)
    requires DbSound(maxRetries, db)
    ensures Evolves(db, db)
  {
    UnchangedEvolves(db);
  }

  /** Most steps leave the tables alone. */
  ghost predicate IsTransaction(a: Step) {
    a.SubmitForm? || a.RelayMark? || a.Claim? || a.CommitRetry? || a.CommitVerdict? || a.ReapCommit?
  }

  /** What a step does to the tables. */
  ghost function DbAfter(s: State, a: Step): Db
    requires Enabled(s, a)
  {
    match a
    case SubmitForm(id, oid, form, key, hash) => Submit(s.db, id, oid, form, key, hash).0
    case RelayMark(r) => MarkPublished(s.db, s.relays[r].rows)
    case Claim(w) => ClaimCas(s.db, s.workers[w].order.paymentId, s.workers[w].pc.seen)
    case CommitRetry(w) => ApplyCommitRetry(s, w).db
    case CommitVerdict(w, oid) => FinaliseTxn(s.db, s.workers[w].order, s.workers[w].pc.disposition.verdict, oid)
    case ReapCommit(_, stuck) => ReapTxn(s.db, stuck)
    case _ => s.db
  }

  lemma StepOnTables(s: State, a: Step)
    requires Enabled(s, a)
    ensures Apply(s, a).maxRetries == s.maxRetries && Apply(s, a).db == DbAfter(s, a)
    ensures !IsTransaction(a) ==> Apply(s, a).db == s.db
  {
    hide ClaimCas, RetryTxn, FinaliseTxn, MarkPublished, Submit, ReapTxn, Authorize, SetConfig, Add, DispositionOf;
    hide StuckOrders, Enabled;
  }

  /** What a step does to the queue, told without the rest of the state. */
  ghost function JobsAfter(s: State, a: Step): map<JobId, Job>
    requires Enabled(s, a)
  {
    match a
    case RelayAdd(r, o) => Add(s.jobs, Submission(o), s.db.outbox[o].order)
    case Dequeue(w, j) => s.jobs[j := s.jobs[j].(status := Active(w))]
    case EnqueueRetry(w) =>
      Add(s.jobs, JobIds.Retry(s.workers[w].order.paymentId, s.workers[w].pc.attempt), s.workers[w].order)
    case Return(w) => Leave(s, w, Completed).jobs
    case Throw(w) => Leave(s, w, Failed).jobs
    case Crash(w) => Leave(s, w, Waiting).jobs
    case Stall(j) => s.jobs[j := s.jobs[j].(status := Waiting)]
    case ReapAdd(r, order, at) => Add(s.jobs, Reap(order.paymentId, at), order)
    case _ => s.jobs
  }

  ghost predicate TouchesQueue(a: Step) {
    || a.RelayAdd? || a.Dequeue? || a.EnqueueRetry? || a.Return? || a.Throw? || a.Crash? || a.Stall? || a.ReapAdd?
  }

  lemma MostLeaveTheQueue(s: State, a: Step)
    requires Enabled(s, a) && !TouchesQueue(a)
    ensures Apply(s, a).jobs == s.jobs
  {
    hide ClaimCas, RetryTxn, FinaliseTxn, MarkPublished, Submit, ReapTxn, Authorize, SetConfig, DispositionOf;
    hide StuckOrders, Enabled, Add, Leave;
  }

  lemma EnqueueOnJobs(s: State, w: nat)
    requires w in s.workers && s.workers[w].pc.Enqueue?
    ensures ApplyEnqueueRetry(s, w).jobs ==
              Add(s.jobs, JobIds.Retry(s.workers[w].order.paymentId, s.workers[w].pc.attempt), s.workers[w].order)
  {
    hide Add;
  }

  lemma SomeTouchTheQueue(s: State, a: Step)
    requires Enabled(s, a) && TouchesQueue(a)
    ensures Apply(s, a).jobs == JobsAfter(s, a)
  {
    hide ClaimCas, RetryTxn, FinaliseTxn, MarkPublished, Submit, ReapTxn, Authorize, SetConfig, DispositionOf;
    hide StuckOrders, Add, Leave;
    if a.EnqueueRetry? { EnqueueOnJobs(s, a.w); }
    hide Enabled, Goto, ApplyEnqueueRetry, ApplyReadRow, ApplyClaim, ApplyCallBank, ApplyCommitRetry;
    hide ApplyCommitVerdict, ApplyReapCommit, ApplyBankEvaluates;
  }

  lemma StepOnJobs(s: State, a: Step)
    requires Enabled(s, a)
    ensures Apply(s, a).jobs == JobsAfter(s, a)
  {
    hide Enabled, Apply;
    if TouchesQueue(a) {
      SomeTouchTheQueue(s, a);
    } else {
      MostLeaveTheQueue(s, a);
    }
  }

  /** Where a step of a worker takes it. */
  ghost function NextPc(s: State, a: Step): Pc
    requires Enabled(s, a) && MovesWorker(a)
  {
    match a
    case ReadRow(w) => ApplyReadRow(s, w).workers[w].pc
    case Claim(_) => Ready
    case BreakerRefuses(_) => Decided(TryAgain(CircuitOpen))
    case CallBank(_, c) => Calling(c)
    case ReceiveAnswer(w) => Decided(DispositionOf(s.calls[s.workers[w].pc.call].answer.value))
    case TimeOut(_) => Decided(TryAgain(BankTimeout))
    case CommitRetry(w) => ApplyCommitRetry(s, w).workers[w].pc
    case _ => Returned
  }

  ghost predicate MovesWorker(a: Step) {
    || a.ReadRow? || a.Claim? || a.BreakerRefuses? || a.CallBank? || a.ReceiveAnswer? || a.TimeOut?
    || a.CommitRetry? || a.EnqueueRetry? || a.CommitVerdict?
  }

  /** What a step does to the workers. */
  ghost function WorkersAfter(s: State, a: Step): map<nat, Worker>
    requires Enabled(s, a)
  {
    if MovesWorker(a) then s.workers[a.w := s.workers[a.w].(pc := NextPc(s, a))]
    else if a.Dequeue? then s.workers[a.w := Worker(a.j, s.jobs[a.j].order, Start)]
    else if a.Return? || a.Throw? || a.Crash? then s.workers - {a.w}
    else s.workers
  }

  lemma MovesOnWorkers(s: State, a: Step)
    requires Enabled(s, a) && MovesWorker(a)
    ensures Apply(s, a).workers == WorkersAfter(s, a)
  {
    hide ClaimCas, RetryTxn, FinaliseTxn, Add, DispositionOf;
  }

  lemma OthersOnWorkers(s: State, a: Step)
    requires Enabled(s, a) && !MovesWorker(a)
    ensures Apply(s, a).workers == WorkersAfter(s, a)
  {
    hide MarkPublished, Submit, ReapTxn, Authorize, SetConfig, Add, StuckOrders, Enabled, NextPc;
  }

  lemma StepOnWorkers(s: State, a: Step)
    requires Enabled(s, a)
    ensures Apply(s, a).workers == WorkersAfter(s, a)
  {
    hide Enabled, Apply, MovesWorker, NextPc;
    if MovesWorker(a) {
      MovesOnWorkers(s, a);
    } else {
      OthersOnWorkers(s, a);
    }
  }

  /** What a step does to the bank, and to the calls it is asked. */
  ghost function BankAfter(s: State, a: Step): (Bank, map<nat, BankCall>)
    requires Enabled(s, a)
  {
    match a
    case CallBank(w, c) => (s.bank, s.calls[c := BankCall(s.workers[w].order, None)])
    case BankEvaluates(c) => (ApplyBankEvaluates(s, c).bank, ApplyBankEvaluates(s, c).calls)
    case ConfigureBank(mode, failN) => (SetConfig(s.bank, mode, failN, None), s.calls)
    case _ => (s.bank, s.calls)
  }

  lemma StepOnBank(s: State, a: Step)
    requires Enabled(s, a)
    ensures (Apply(s, a).bank, Apply(s, a).calls) == BankAfter(s, a)
  {
    hide ClaimCas, RetryTxn, FinaliseTxn, MarkPublished, Submit, ReapTxn, Authorize, SetConfig, Add, DispositionOf;
    hide StuckOrders, Enabled;
  }

  /** What a step does to the orders reapers hold. */
  ghost function ReapersAfter(s: State, a: Step): map<nat, set<Request>>
    requires Enabled(s, a)
  {
    match a
    case ReapCommit(r, stuck) => ApplyReapCommit(s, r, stuck).reapers
    case ReapAdd(r, order, _) => s.reapers[r := s.reapers[r] - {order}]
    case ReapStop(r) => s.reapers - {r}
    case _ => s.reapers
  }

  lemma StepOnReapers(s: State, a: Step)
    requires Enabled(s, a)
    ensures Apply(s, a).reapers == ReapersAfter(s, a)
  {
    hide ClaimCas, RetryTxn, FinaliseTxn, MarkPublished, Submit, ReapTxn, Authorize, SetConfig, Add, DispositionOf;
    hide StuckOrders, Enabled;
  }

  /** Every step changes the tables by at most one edge per payment. */
  lemma StepEvolves(s: State, a: Step)
    requires Inv(s) && Enabled(s, a)
    ensures Evolves(s.db, Apply(s, a).db) && Apply(s, a).maxRetries == s.maxRetries
  {
    hide Evolves, OutboxSound, IdemSound, RowSound, JobsInv, StatusInv, RetryIdsInv, CallsInv, RelaysInv;
    hide PublishedInv, ReapersInv, BankInv, CompletedInv;
    hide ClaimCas, RetryTxn, FinaliseTxn, MarkPublished, Submit, ReapTxn, WorkersInv, DbSound;
    StepOnTables(s, a);
    hide Apply;
    UnchangedTablesEvolve(s.maxRetries, s.db);
    if IsTransaction(a) {
      match a
      case SubmitForm(id, oid, form, key, hash) => SubmitKeepsTables(s.maxRetries, s.db, id, oid, form, key, hash);
      case RelayMark(r) => MarkKeepsTables(s.maxRetries, s.db, s.relays[r].rows);
      case Claim(w) => ClaimKeepsTables(s.maxRetries, s.db, s.workers[w].order.paymentId, s.workers[w].pc.seen);
      case CommitRetry(w) =>
        var wk := s.workers[w];
        RetryKeepsTables(s.maxRetries, s.db, wk.order.paymentId, wk.pc.disposition.reason);
      case CommitVerdict(w, oid) =>
        WorkerHasRow(s, w);
        FinaliseKeepsTables(s.maxRetries, s.db, s.workers[w].order, s.workers[w].pc.disposition.verdict, oid);
      case ReapCommit(r, stuck) => ReapKeepsTables(s.maxRetries, s.db, stuck);
      case _ =>
    }
  }

  // ----------------------------------------------------------------- runs

  lemma InitialInv(maxRetries: nat)
    ensures Inv(Initial(maxRetries))
  {
  }

  lemma {:induction false} RunKeepsInv(s: State, steps: seq<Step>)
    requires Inv(s) && Run(s, steps)
    ensures Inv(After(s, steps)) && After(s, steps).maxRetries == s.maxRetries
    decreases |steps|
  {
    hide Inv, Evolves;
    if |steps| > 0 {
      StepKeepsInv(s, steps[0]);
      StepEvolves(s, steps[0]);
      RunKeepsInv(Apply(s, steps[0]), steps[1..]);
    }
  }

  lemma {:induction false} ReachableInv(s: State)
    requires Reachable(s)
    ensures Inv(s)
  {
    hide Inv;
    var maxRetries, steps :| Run(Initial(maxRetries), steps) && After(Initial(maxRetries), steps) == s;
    InitialInv(maxRetries);
    RunKeepsInv(Initial(maxRetries), steps);
  }
}
