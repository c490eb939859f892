/** The payment pipeline as one concurrent step system: any number of submitters, relays, workers
    and reapers over the shared tables, the payments queue and one bank. Each step is one database
    transaction (or the read before its compare-and-swap), one queue command, one bank
    evaluation, or a failure; what a process carries from one step to the next is in its entry. */
module Pipeline {
  import opened Options
  import opened Names
  import opened Statuses
  import opened Banks
  import opened Tables
  import opened JobIds

  // ---------------------------------------------------------------- state

  /** Where BullMQ has the job; delayed jobs count as waiting. Finished jobs stay in the queue's
      job set, so their ids stay taken. */
  datatype JobStatus = Waiting | Active(worker: nat) | Completed | Failed

  datatype Job = Job(order: Request, status: JobStatus)

  datatype Disposition = Settle(verdict: Verdict) | TryAgain(reason: Reason)

  /** How far one call of `process` has come, with its locals. */
  datatype Pc =
    | Start
    | Read(seen: Option<Status>)
    | Ready
    | Calling(call: nat)
    | Decided(disposition: Disposition)
    | Enqueue(attempt: nat)
    | Returned

  datatype Worker = Worker(job: JobId, order: Request, pc: Pc)

  /** A request that reached the bank; it may be answered long after its caller gave up. */
  datatype BankCall = BankCall(order: Request, answer: Option<Outcome>)

  /** One relay tick: the rows its transaction locked and the adds that have landed. A rolled back
      tick holds no locks, but its commands already sent may still land. */
  datatype Relay = Relay(rows: set<Id>, landed: set<Id>, live: bool)

  datatype State = State(
    maxRetries: nat,
    db: Db,
    jobs: map<JobId, Job>,
    bank: Bank,
    calls: map<nat, BankCall>,
    workers: map<nat, Worker>,
    relays: map<nat, Relay>,
    reapers: map<nat, set<Request>>)

  function Initial(maxRetries: nat): State {
    State(maxRetries, EMPTY_DB, map[], INITIAL_BANK, map[], map[], map[], map[])
  }

  // ---------------------------------------------------------------- steps

  datatype Step =
    | SubmitForm(id: Id, oid: Id, form: Form, key: Option<Token>, hash: Token)
    | RelaySelect(r: nat, rows: set<Id>)
    | RelayAdd(r: nat, o: Id)
    | RelayMark(r: nat)
    | RelayRollback(r: nat)
    | RelayStop(r: nat)
    | Dequeue(w: nat, j: JobId)
    | ReadRow(w: nat)
    | Claim(w: nat)
    | BreakerRefuses(w: nat)
    | CallBank(w: nat, c: nat)
    | BankEvaluates(c: nat)
    | ReceiveAnswer(w: nat)
    | TimeOut(w: nat)
    | CommitRetry(w: nat)
    | EnqueueRetry(w: nat)
    | CommitVerdict(w: nat, oid: Id)
    | Return(w: nat)
    | Throw(w: nat)
    | Crash(w: nat)
    | Stall(j: JobId)
    | ReapCommit(r: nat, stuck: set<Id>)
    | ReapAdd(r: nat, order: Request, at: nat)
    | ReapStop(r: nat)
    | ConfigureBank(mode: Option<Mode>, failN: Option<nat>)

  ghost predicate At(s: State, w: nat) {
    w in s.workers
  }

  ghost predicate Locked(s: State, o: Id) {
    exists r :: r in s.relays && s.relays[r].live && o in s.relays[r].rows
  }

  ghost predicate Selectable(s: State, o: Id) {
    && o in s.db.outbox && s.db.outbox[o].kind == PaymentSubmitted && !s.db.outbox[o].published
    && !Locked(s, o)
  }

  ghost predicate Reapable(s: State, p: Id) {
    p in s.db.payments && s.db.payments[p].status in {PROCESSING, RETRYING}
  }

  ghost predicate Enabled(s: State, a: Step) {
    match a
    case SubmitForm(id, oid, _, _, _) => FreshId(s.db, id) && FreshId(s.db, oid) && id != oid
    case RelaySelect(r, rows) => r !in s.relays && forall o | o in rows :: Selectable(s, o)
    case RelayAdd(r, o) => r in s.relays && o in s.relays[r].rows - s.relays[r].landed && o in s.db.outbox
    case RelayMark(r) => r in s.relays && s.relays[r].live && s.relays[r].landed == s.relays[r].rows
    case RelayRollback(r) => r in s.relays && s.relays[r].live
    case RelayStop(r) => r in s.relays
    case Dequeue(w, j) => w !in s.workers && j in s.jobs && s.jobs[j].status == Waiting
    case ReadRow(w) => At(s, w) && s.workers[w].pc == Start
    case Claim(w) => At(s, w) && s.workers[w].pc.Read?
    case BreakerRefuses(w) => At(s, w) && s.workers[w].pc == Ready
    case CallBank(w, c) => At(s, w) && s.workers[w].pc == Ready && c !in s.calls
    case BankEvaluates(c) => c in s.calls && s.calls[c].answer == None
    case ReceiveAnswer(w) =>
      At(s, w) && s.workers[w].pc.Calling? && s.workers[w].pc.call in s.calls
          && s.calls[s.workers[w].pc.call].answer.Some?
    case TimeOut(w) => At(s, w) && s.workers[w].pc.Calling?
    case CommitRetry(w) => At(s, w) && s.workers[w].pc.Decided? && s.workers[w].pc.disposition.TryAgain?
    case EnqueueRetry(w) => At(s, w) && s.workers[w].pc.Enqueue?
    case CommitVerdict(w, oid) =>
      At(s, w) && s.workers[w].pc.Decided? && s.workers[w].pc.disposition.Settle? && FreshId(s.db, oid)
    case Return(w) => At(s, w) && s.workers[w].pc == Returned
    case Throw(w) => At(s, w)
    case Crash(w) => At(s, w)
    case Stall(j) => j in s.jobs && s.jobs[j].status.Active?
    case ReapCommit(r, stuck) => r !in s.reapers && forall p | p in stuck :: Reapable(s, p)
    case ReapAdd(r, order, _) => r in s.reapers && order in s.reapers[r]
    case ReapStop(r) => r in s.reapers
    case ConfigureBank(_, _) => true
  }

  /** `queue.add` with a job id: dropped if the id is taken. */
  function Add(jobs: map<JobId, Job>, j: JobId, order: Request): map<JobId, Job> {
    if j in jobs then jobs else jobs[j := Job(order, Waiting)]
  }

  function DispositionOf(o: Outcome): Disposition {
    match o
    case Authorized(ref) => Settle(Complete(ref))
    case Declined(reason) => Settle(Refuse(reason))
    case Error(retryable, reason) => if retryable then TryAgain(reason) else Settle(Refuse(reason))
  }

  function Goto(s: State, w: nat, pc: Pc): State
    requires w in s.workers
  {
    s.(workers := s.workers[w := s.workers[w].(pc := pc)])
  }

  /** The call of `process` is over; if the worker still owns its job, the job moves on. */
  function Leave(s: State, w: nat, outcome: JobStatus): State
    requires w in s.workers
  {
    var j := s.workers[w].job;
    s.(workers := s.workers - {w},
       jobs := if j in s.jobs && s.jobs[j].status == Active(w) then s.jobs[j := s.jobs[j].(status := outcome)]
           else s.jobs)
  }

  function ApplyDequeue(s: State, w: nat, j: JobId): State
    requires j in s.jobs
  {
    s.(jobs := s.jobs[j := s.jobs[j].(status := Active(w))],
       workers := s.workers[w := Worker(j, s.jobs[j].order, Start)])
  }

  function ApplyReadRow(s: State, w: nat): State
    requires w in s.workers
  {
    var p := s.workers[w].order.paymentId;
    Goto(s, w, Read(if p in s.db.payments then Some(s.db.payments[p].status) else None))
  }

  /** Whether or not it claimed, the worker goes on to the bank: the returns inside txn 1 leave
      only the transaction. */
  function ApplyClaim(s: State, w: nat): State
    requires w in s.workers && s.workers[w].pc.Read?
  {
    var wk := s.workers[w];
    Goto(s.(db := ClaimCas(s.db, wk.order.paymentId, wk.pc.seen)), w, Ready)
  }

  function ApplyCallBank(s: State, w: nat, c: nat): State
    requires w in s.workers
  {
    Goto(s.(calls := s.calls[c := BankCall(s.workers[w].order, None)]), w, Calling(c))
  }

  /** The queue gives a stalled job to somebody else; its worker may still be running. */
  function ApplyStall(s: State, j: JobId): State
    requires j in s.jobs
  {
    s.(jobs := s.jobs[j := s.jobs[j].(status := Waiting)])
  }

  function ApplyBankEvaluates(s: State, c: nat): State
    requires c in s.calls
  {
    var (bank, outcome) := Authorize(s.bank, s.calls[c].order);
    s.(bank := bank, calls := s.calls[c := s.calls[c].(answer := Some(outcome))])
  }

  function ApplyCommitRetry(s: State, w: nat): State
    requires w in s.workers && s.workers[w].pc.Decided? && s.workers[w].pc.disposition.TryAgain?
  {
    var wk := s.workers[w];
    var (db, n) := RetryTxn(s.db, s.maxRetries, wk.order.paymentId, wk.pc.disposition.reason);
    Goto(s.(db := db), w, if n.Some? then Enqueue(n.value) else Returned)
  }

  function ApplyEnqueueRetry(s: State, w: nat): State
    requires w in s.workers && s.workers[w].pc.Enqueue?
  {
    var wk := s.workers[w];
    Goto(s.(jobs := Add(s.jobs, JobIds.Retry(wk.order.paymentId, wk.pc.attempt), wk.order)), w, Returned)
  }

  function ApplyCommitVerdict(s: State, w: nat, oid: Id): State
    requires w in s.workers && s.workers[w].pc.Decided? && s.workers[w].pc.disposition.Settle?
  {
    var wk := s.workers[w];
    Goto(s.(db := FinaliseTxn(s.db, wk.order, wk.pc.disposition.verdict, oid)), w, Returned)
  }

  function ApplyRelayAdd(s: State, r: nat, o: Id): State
    requires r in s.relays && o in s.db.outbox
  {
    s.(jobs := Add(s.jobs, Submission(o), s.db.outbox[o].order),
       relays := s.relays[r := s.relays[r].(landed := s.relays[r].landed + {o})])
  }

  /** What the reaper's select read. */
  function StuckOrders(db: Db, stuck: set<Id>): set<Request> {
    set p | p in stuck && p in db.payments :: OrderOf(db.payments[p])
  }

  function ApplyReapCommit(s: State, r: nat, stuck: set<Id>): State {
    s.(db := ReapTxn(s.db, stuck), reapers := s.reapers[r := StuckOrders(s.db, stuck)])
  }

  function Apply(s: State, a: Step): State
    requires Enabled(s, a)
  {
    match a
    case SubmitForm(id, oid, form, key, hash) => s.(db := Submit(s.db, id, oid, form, key, hash).0)
    case RelaySelect(r, rows) => s.(relays := s.relays[r := Relay(rows, {}, true)])
    case RelayAdd(r, o) => ApplyRelayAdd(s, r, o)
    case RelayMark(r) => s.(db := MarkPublished(s.db, s.relays[r].rows), relays := s.relays - {r})
    case RelayRollback(r) => s.(relays := s.relays[r := s.relays[r].(live := false)])
    case RelayStop(r) => s.(relays := s.relays - {r})
    case Dequeue(w, j) => ApplyDequeue(s, w, j)
    case ReadRow(w) => ApplyReadRow(s, w)
    case Claim(w) => ApplyClaim(s, w)
    case BreakerRefuses(w) => Goto(s, w, Decided(TryAgain(CircuitOpen)))
    case CallBank(w, c) => ApplyCallBank(s, w, c)
    case BankEvaluates(c) => ApplyBankEvaluates(s, c)
    case ReceiveAnswer(w) => Goto(s, w, Decided(DispositionOf(s.calls[s.workers[w].pc.call].answer.value)))
    case TimeOut(w) => Goto(s, w, Decided(TryAgain(BankTimeout)))
    case CommitRetry(w) => ApplyCommitRetry(s, w)
    case EnqueueRetry(w) => ApplyEnqueueRetry(s, w)
    case CommitVerdict(w, oid) => ApplyCommitVerdict(s, w, oid)
    case Return(w) => Leave(s, w, Completed)
    case Throw(w) => Leave(s, w, Failed)
    case Crash(w) => Leave(s, w, Waiting)
    case Stall(j) => ApplyStall(s, j)
    case ReapCommit(r, stuck) => ApplyReapCommit(s, r, stuck)
    case ReapAdd(r, order, at) =>
      s.(jobs := Add(s.jobs, Reap(order.paymentId, at), order), reapers := s.reapers[r := s.reapers[r] - {order}])
    case ReapStop(r) => s.(reapers := s.reapers - {r})
    case ConfigureBank(mode, failN) => s.(bank := SetConfig(s.bank, mode, failN, None))
  }

  // ----------------------------------------------------------------- runs

  ghost predicate Run(s: State, steps: seq<Step>)
    decreases |steps|
  {
    |steps| > 0 ==> Enabled(s, steps[0]) && Run(Apply(s, steps[0]), steps[1..])
  }

  ghost function After(s: State, steps: seq<Step>): State
    requires Run(s, steps)
    decreases |steps|
  {
    if |steps| == 0 then s else After(Apply(s, steps[0]), steps[1..])
  }

  /** The states some run starts or leaves behind. */
  ghost predicate Reachable(s: State) {
    exists maxRetries, steps :: Run(Initial(maxRetries), steps) && After(Initial(maxRetries), steps) == s
  }

  lemma {:induction false} RunAppend(s: State, steps: seq<Step>, a: Step)
    requires Run(s, steps) && Enabled(After(s, steps), a)
    ensures Run(s, steps + [a]) && After(s, steps + [a]) == Apply(After(s, steps), a)
    decreases |steps|
  {
    hide Enabled, Apply;
    if |steps| == 0 {
      assert steps + [a] == [a];
      assert [a][1..] == [];
      var t := Apply(s, a);
      assert Run(t, []) && After(t, []) == t;
    } else {
      assert (steps + [a])[0] == steps[0] && (steps + [a])[1..] == steps[1..] + [a];
      RunAppend(Apply(s, steps[0]), steps[1..], a);
    }
  }

  /** Some run leads from one state to the other. */
  ghost predicate LeadsTo(s: State, t: State) {
    exists steps :: Run(s, steps) && After(s, steps) == t
  }

  lemma LeadsToItself(s: State)
    ensures LeadsTo(s, s)
  {
    assert Run(s, []) && After(s, []) == s;
  }

  lemma LeadsOn(s: State, t: State, a: Step)
    requires LeadsTo(s, t) && Enabled(t, a)
    ensures LeadsTo(s, Apply(t, a))
  {
    hide Enabled, Apply;
    var steps :| Run(s, steps) && After(s, steps) == t;
    RunAppend(s, steps, a);
    assert Run(s, steps + [a]);
  }
}
