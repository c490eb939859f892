/** The services as the source writes them: objects that update shared tables, the queue, the bank
    and the breaker step by step. Each method is proved to do exactly one of the transactions of
    `Tables`, and a whole call of `process` to be one path of the step system of `Pipeline`. */
module Services {
  import opened Options
  import opened Names
  import opened Statuses
  import opened Banks
  import opened Breakers
  import opened Tables
  import opened JobIds
  import Money
  import Backoff
  import Pipeline

  // ------------------------------------------------------------- database

  class Database {
    var payments: map<Id, Payment>
    var events: map<Id, seq<Event>>
    var idem: map<(Token, Token), IdempotencyRow>
    var outbox: map<Id, OutboxRow>

    ghost function View(): Db
      reads this
    {
      Db(payments, events, idem, outbox)
    }

    constructor ()
      ensures View() == EMPTY_DB
    {
      payments, events, idem, outbox := map[], map[], map[], map[];
    }

    method InsertEvent(p: Id, e: Event)
      modifies this`events
      ensures events == old(events)[p := EventsOf(old(View()), p) + [e]]
    {
      events := events[p := (if p in events then events[p] else []) + [e]];
    }
  }

  // ------------------------------------------------------------ submission

  class PaymentsService {
    const db: Database

    constructor (db: Database)
      ensures this.db == db
    {
      this.db := db;
    }

    /** The inserts run in order; a unique violation on the third rolls the others back. */
    method InsertTxn(id: Id, oid: Id, form: Form, key: Option<Token>, hash: Token) returns (r: Response)
      requires FreshId(db.View(), id) && id !in db.events
      modifies db
      ensures (db.View(), r) == Submit(old(db.View()), id, oid, form, key, hash)
    {
      if key.None? {
        return MissingKey;
      }
      var parsed := Money.ParseAmount(form.amount);
      if parsed.Err? {
        return BadAmount(parsed.error);
      }
      var beforePayments, beforeEvents := db.payments, db.events;
      var row := NewRow(id, form, parsed.value);
      db.payments := db.payments[id := row];
      db.InsertEvent(id, SUBMITTED_EVENT);
      var k := (form.customer, key.value);
      if k in db.idem {
        db.payments, db.events := beforePayments, beforeEvents;
        var existing := db.idem[k];
        if existing.hash != hash {
          return Conflict;
        }
        return Replayed(existing.body);
      }
      db.idem := db.idem[k := IdempotencyRow(hash, id, row)];
      db.outbox := db.outbox[oid := OutboxRow(PaymentSubmitted, id, OrderOf(row), None, false)];
      assert [] + [SUBMITTED_EVENT] == [SUBMITTED_EVENT];
      return Accepted(row);
    }
  }

  // ----------------------------------------------------------------- queue

  class JobQueue {
    var jobs: map<JobId, Pipeline.Job>
    var delays: map<JobId, real>

    constructor ()
      ensures jobs == map[] && delays == map[]
    {
      jobs, delays := map[], map[];
    }

    /** A job whose id is taken is dropped, with its delay. */
    method Add(j: JobId, order: Request, delay: real)
      modifies this
      ensures jobs == Pipeline.Add(old(jobs), j, order)
      ensures delays == if j in old(jobs) then old(delays) else old(delays)[j := delay]
    {
      if j !in jobs {
        jobs := jobs[j := Pipeline.Job(order, Pipeline.Waiting)];
        delays := delays[j := delay];
      }
    }
  }

  // ----------------------------------------------------------------- relay

  function RowSet(rows: seq<Id>): set<Id> {
    set o | o in rows
  }

  /** The queue after adding the submissions of these rows, in order. */
  function AddSubmissions(
    jobs: map<JobId, Pipeline.Job>, outbox: map<Id, OutboxRow>, rows: seq<Id>): map<JobId, Pipeline.Job>
    requires forall o | o in rows :: o in outbox
  {
    if |rows| == 0 then jobs else
    var n := |rows| - 1;
    assert rows[n] in rows;
    Pipeline.Add(AddSubmissions(jobs, outbox, rows[..n]), Submission(rows[n]), outbox[rows[n]].order)
  }

  /** Every selected row has its job afterwards, no job that was there changed, and every job that
      is new is a selected row's, with that row's amount. */
  lemma {:induction false} AddSubmissionsIsExact(
    jobs: map<JobId, Pipeline.Job>, outbox: map<Id, OutboxRow>, rows: seq<Id>)
    requires forall o | o in rows :: o in outbox
    ensures var jobs' := AddSubmissions(jobs, outbox, rows);
            && (forall o | o in rows :: Submission(o) in jobs')
            && (forall j | j in jobs :: j in jobs' && jobs'[j] == jobs[j])
            && (forall j | j in jobs' && j !in jobs ::
                  && j.Submission? && j.outboxId in rows
                  && jobs'[j] == Pipeline.Job(outbox[j.outboxId].order, Pipeline.Waiting))
  {
    if |rows| > 0 {
      var n := |rows| - 1;
      AddSubmissionsIsExact(jobs, outbox, rows[..n]);
      assert rows == rows[..n] + [rows[n]];
    }
  }

  class RelayService {
    const db: Database
    const queue: JobQueue

    constructor (db: Database, queue: JobQueue)
      ensures this.db == db && this.queue == queue
    {
      this.db := db;
      this.queue := queue;
    }

    method Publish(rows: seq<Id>)
      requires forall o | o in rows :: o in db.outbox
      modifies queue
      ensures queue.jobs == AddSubmissions(old(queue.jobs), db.outbox, rows)
    {
      for i := 0 to |rows|
        invariant queue.jobs == AddSubmissions(old(queue.jobs), db.outbox, rows[..i])
      {
        assert rows[..i + 1][..i] == rows[..i];
        queue.Add(Submission(rows[i]), db.outbox[rows[i]].order, 0.0);
      }
      assert rows[..|rows|] == rows;
    }

    method Mark(rows: seq<Id>)
      requires forall o | o in rows :: o in db.outbox
      modifies db`outbox
      ensures db.outbox == MarkPublished(old(db.View()), RowSet(rows)).outbox
      ensures db.outbox.Keys == old(db.outbox).Keys
      ensures forall o | o in db.outbox ::
                db.outbox[o] == if o in rows then old(db.outbox)[o].(published := true) else old(db.outbox)[o]
    {
      for i := 0 to |rows|
        invariant db.outbox == MarkPublished(old(db.View()), RowSet(rows[..i])).outbox
      {
        var o := rows[i];
        db.outbox := db.outbox[o := db.outbox[o].(published := true)];
        assert RowSet(rows[..i + 1]) == RowSet(rows[..i]) + {o};
      }
      assert rows[..|rows|] == rows;
    }

    /** One tick over the rows its select returned: publish all, then mark all. */
    method PollOnce(rows: seq<Id>) returns (count: nat)
      requires forall o | o in rows :: o in db.outbox
      modifies db, queue
      ensures db.View() == MarkPublished(old(db.View()), RowSet(rows))
      ensures db.outbox.Keys == old(db.outbox).Keys
      ensures forall o | o in db.outbox ::
                db.outbox[o] == if o in rows then old(db.outbox)[o].(published := true) else old(db.outbox)[o]
      ensures queue.jobs == AddSubmissions(old(queue.jobs), old(db.outbox), rows)
      ensures count == |rows|
    {
      Publish(rows);
      Mark(rows);
      count := |rows|;
    }
  }

  // ---------------------------------------------------------------- reaper

  /** The queue after re-driving these payments at one instant. */
  function AddReaps(
    jobs: map<JobId, Pipeline.Job>, payments: map<Id, Payment>, stuck: seq<Id>, now: nat): map<JobId, Pipeline.Job>
    requires forall p | p in stuck :: p in payments
  {
    if |stuck| == 0 then jobs else
    var n := |stuck| - 1;
    assert stuck[n] in stuck;
    var order := OrderOf(payments[stuck[n]]);
    Pipeline.Add(AddReaps(jobs, payments, stuck[..n], now), Reap(order.paymentId, now), order)
  }

  /** Every re-driven payment has its job afterwards, no job that was there changed, and every job that is
      new is a re-driven payment's at this instant, with its amount. */
  lemma {:induction false} AddReapsIsExact(
    jobs: map<JobId, Pipeline.Job>, payments: map<Id, Payment>, stuck: seq<Id>, now: nat)
    requires forall p | p in stuck :: p in payments && payments[p].id == p
    ensures var jobs' := AddReaps(jobs, payments, stuck, now);
            && (forall p | p in stuck :: Reap(p, now) in jobs')
            && (forall j | j in jobs :: j in jobs' && jobs'[j] == jobs[j])
            && (forall j | j in jobs' && j !in jobs ::
                  && j.Reap? && j.at == now && j.paymentId in stuck && jobs'[j].status == Pipeline.Waiting
                  && Carries(jobs'[j].order, payments[j.paymentId]))
  {
    if |stuck| > 0 {
      var n := |stuck| - 1;
      AddReapsIsExact(jobs, payments, stuck[..n], now);
      assert stuck == stuck[..n] + [stuck[n]];
    }
  }

  /** Claiming one more row extends the reaped set by it. */
  lemma ReapOneMore(db: Db, done: set<Id>, p: Id)
    requires p in db.payments && p in db.events && p !in done
    ensures var db1 := ReapTxn(db, done); var db2 := ReapTxn(db, done + {p});
            && db2.payments == db1.payments[p := ReapRow(db.payments[p])]
            && db2.events == (if db.payments[p].status == PROCESSING
                              then db1.events[p := db.events[p] + [REAPED_EVENT]] else db1.events)
            && p in db1.payments && p in db1.events
            && db1.payments[p] == db.payments[p] && db1.events[p] == db.events[p]
            && db2.idem == db1.idem && db2.outbox == db1.outbox
  {
  }

  lemma ReapNothing(db: Db)
    ensures ReapTxn(db, {}) == db
  {
  }

  class ReaperService {
    const db: Database
    const queue: JobQueue

    constructor (db: Database, queue: JobQueue)
      ensures this.db == db && this.queue == queue
    {
      this.db := db;
      this.queue := queue;
    }

    /** Un-strands one locked row. */
    method Unstrand(p: Id)
      requires p in db.payments && p in db.events
      modifies db
      ensures db.payments == old(db.payments)[p := ReapRow(old(db.payments)[p])]
      ensures db.events == (if old(db.payments)[p].status == PROCESSING
                            then old(db.events)[p := old(db.events)[p] + [REAPED_EVENT]] else old(db.events))
      ensures db.idem == old(db.idem) && db.outbox == old(db.outbox)
    {
      var row := db.payments[p];
      if row.status == PROCESSING {
        row := row.(status := RETRYING, attemptCount := row.attemptCount + 1, version := row.version + 1);
        db.payments := db.payments[p := row];
        db.InsertEvent(p, REAPED_EVENT);
      } else {
        assert db.payments[p := row] == db.payments;
      }
    }

    /** The transaction over the rows its select locked. */
    method ClaimStuck(stuck: seq<Id>)
      requires forall p | p in stuck :: p in db.payments && p in db.events
      requires forall i, j | 0 <= i < j < |stuck| :: stuck[i] != stuck[j]
      modifies db
      ensures db.View() == ReapTxn(old(db.View()), RowSet(stuck))
    {
      hide ReapTxn, ReapRow;
      ghost var before := db.View();
      ReapNothing(before);
      assert RowSet(stuck[..0]) == {};
      for i := 0 to |stuck|
        invariant db.View() == ReapTxn(before, RowSet(stuck[..i]))
      {
        var p := stuck[i];
        assert p in stuck;
        assert RowSet(stuck[..i + 1]) == RowSet(stuck[..i]) + {p};
        ReapOneMore(before, RowSet(stuck[..i]), p);
        Unstrand(p);
      }
      assert stuck[..|stuck|] == stuck;
    }

    /** After the commit: one re-drive for each claimed payment. */
    method Redrive(stuck: seq<Id>, now: nat)
      requires forall p | p in stuck :: p in db.payments
      modifies queue
      ensures queue.jobs == AddReaps(old(queue.jobs), db.payments, stuck, now)
    {
      for i := 0 to |stuck|
        invariant queue.jobs == AddReaps(old(queue.jobs), db.payments, stuck[..i], now)
      {
        var p := stuck[i];
        assert stuck[..i + 1][..i] == stuck[..i];
        var order := OrderOf(db.payments[p]);
        queue.Add(Reap(order.paymentId, now), order, 0.0);
      }
      assert stuck[..|stuck|] == stuck;
    }

    method ReapOnce(stuck: seq<Id>, now: nat)
      requires forall p | p in stuck :: p in db.payments && p in db.events
      requires forall i, j | 0 <= i < j < |stuck| :: stuck[i] != stuck[j]
      modifies db, queue
      ensures db.View() == ReapTxn(old(db.View()), RowSet(stuck))
      ensures queue.jobs == AddReaps(old(queue.jobs), old(db.payments), stuck, now)
    {
      ghost var before := db.View();
      ClaimStuck(stuck);
      Redrive(stuck, now);
      ReapsCarryOldOrders(old(queue.jobs), before, RowSet(stuck), stuck, now);
    }
  }

  /** The orders enqueued are those of the rows before the transaction. */
  lemma {:induction false} ReapsCarryOldOrders(
    jobs: map<JobId, Pipeline.Job>, db: Db, all: set<Id>, stuck: seq<Id>, now: nat)
    requires forall p | p in stuck :: p in db.payments
    ensures forall p | p in stuck :: p in ReapTxn(db, all).payments
    ensures AddReaps(jobs, ReapTxn(db, all).payments, stuck, now) == AddReaps(jobs, db.payments, stuck, now)
  {
    if |stuck| > 0 {
      var n := |stuck| - 1;
      ReapsCarryOldOrders(jobs, db, all, stuck[..n], now);
      ReapKeepsOrder(db, all, stuck[n]);
      assert forall p | p in stuck :: p in db.payments;
    }
  }

  lemma ReapKeepsOrder(db: Db, stuck: set<Id>, p: Id)
    requires p in db.payments
    ensures p in ReapTxn(db, stuck).payments && OrderOf(ReapTxn(db, stuck).payments[p]) == OrderOf(db.payments[p])
  {
  }

  // ------------------------------------------------------------- processor

  /** What the surroundings decide during one call of `process`: the clock at the breaker, whether
      the answer comes too late, the jitter draw, and the id of the outbox row. */
  datatype Surroundings = Surroundings(askedAt: int, recordedAt: int, late: bool, random: real, oid: Id)

  datatype World = World(db: Db, jobs: map<JobId, Pipeline.Job>, bank: Bank, breaker: Breaker)

  /** The breaker and the bank, as one call uses them. */
  function Decide(bank: Bank, breaker: Breaker, limits: Limits, order: Request, e: Surroundings)
    : (Bank, Breaker, Pipeline.Disposition)
  {
    var (asked, granted) := Allow(limits, breaker, e.askedAt);
    if !granted then (bank, asked, Pipeline.TryAgain(CircuitOpen)) else
    var (bank', outcome) := Authorize(bank, order);
    var d := if e.late then Pipeline.TryAgain(BankTimeout) else Pipeline.DispositionOf(outcome);
    (bank', Breakers.Record(limits, asked, !d.TryAgain?, e.recordedAt), d)
  }

  function SeenStatus(db: Db, p: Id): Option<Status> {
    if p in db.payments then Some(db.payments[p].status) else None
  }

  function CommitDecision(
    db: Db, jobs: map<JobId, Pipeline.Job>, maxRetries: nat, order: Request, d: Pipeline.Disposition, oid: Id)
    : (Db, map<JobId, Pipeline.Job>)
  {
    if d.Settle? then (FinaliseTxn(db, order, d.verdict, oid), jobs) else
    var (db', n) := RetryTxn(db, maxRetries, order.paymentId, d.reason);
    (db', if n.Some? then Pipeline.Add(jobs, JobIds.Retry(order.paymentId, n.value), order) else jobs)
  }

  /** One call of `process` that nobody interrupts. */
  function ProcessAlone(w: World, maxRetries: nat, limits: Limits, order: Request, e: Surroundings): World {
    var claimed := ClaimCas(w.db, order.paymentId, SeenStatus(w.db, order.paymentId));
    var (bank, breaker, d) := Decide(w.bank, w.breaker, limits, order, e);
    var (db, jobs) := CommitDecision(claimed, w.jobs, maxRetries, order, d, e.oid);
    World(db, jobs, bank, breaker)
  }

  class PaymentProcessor {
    const db: Database
    const queue: JobQueue
    const bank: SimulatedBankAdapter
    const breaker: CircuitBreaker
    const maxRetries: nat
    const baseMs: real
    const capMs: real

    constructor (
      db: Database, queue: JobQueue, bank: SimulatedBankAdapter, breaker: CircuitBreaker,
      maxRetries: nat, baseMs: real, capMs: real)
      ensures this.db == db && this.queue == queue && this.bank == bank && this.breaker == breaker
      ensures this.maxRetries == maxRetries && this.baseMs == baseMs && this.capMs == capMs
    {
      this.db, this.queue, this.bank, this.breaker := db, queue, bank, breaker;
      this.maxRetries, this.baseMs, this.capMs := maxRetries, baseMs, capMs;
    }

    ghost function View(): World
      reads this, db, queue, bank, breaker
    {
      World(db.View(), queue.jobs, bank.View(), breaker.View())
    }

    /** Txn 1: read, check, compare-and-swap, audit. */
    method Txn1(p: Id)
      requires p in db.payments ==> db.payments[p].id == p
      modifies db
      ensures db.View() == ClaimCas(old(db.View()), p, SeenStatus(old(db.View()), p))
    {
      if p !in db.payments {
        return;
      }
      var row := db.payments[p];
      if !CanTransition(row.status, PROCESSING) {
        return;
      }
      db.payments := db.payments[p := row.(status := PROCESSING, version := row.version + 1)];
      db.InsertEvent(p, Event(Some(row.status), PROCESSING, Claimed));
    }

    /** The RETRY transaction; reports the attempt to schedule, if any. */
    method RetryOrExhaust(p: Id, reason: Reason) returns (scheduled: Option<nat>)
      requires p in db.payments ==> db.payments[p].id == p
      modifies db
      ensures (db.View(), scheduled) == RetryTxn(old(db.View()), maxRetries, p, reason)
    {
      scheduled := None;
      if p !in db.payments || db.payments[p].status != PROCESSING {
        return;
      }
      var row := db.payments[p];
      var n := row.attemptCount + 1;
      var status := if n > maxRetries then FAILED else RETRYING;
      row := row.(attemptCount := n, lastError := Some(reason), version := row.version + 1, status := status);
      db.payments := db.payments[p := row];
      if status == FAILED {
        db.InsertEvent(p, Event(Some(PROCESSING), FAILED, Exhausted(reason)));
        return;
      }
      scheduled := Some(n);
      db.InsertEvent(p, Event(Some(PROCESSING), RETRYING, Retried(reason, n)));
    }

    /** Txn 2: the terminal status, its audit event and its outbox row. */
    method Finalise(order: Request, v: Verdict, oid: Id)
      requires order.paymentId in db.payments ==> db.payments[order.paymentId].id == order.paymentId
      modifies db
      ensures db.View() == FinaliseTxn(old(db.View()), order, v, oid)
    {
      var p := order.paymentId;
      if p !in db.payments || db.payments[p].status != PROCESSING {
        return;
      }
      var row := db.payments[p];
      var target := if v.Complete? then COMPLETED else FAILED;
      db.payments := db.payments[p := row.(status := target, version := row.version + 1)];
      db.InsertEvent(p, Event(Some(PROCESSING), target, MetaOf(v)));
      var kind := if target == COMPLETED then PaymentCompleted else PaymentFailed;
      db.outbox := db.outbox[oid := OutboxRow(kind, p, order, Some(target), false)];
    }

    /** The breaker, and the bank if it is asked. */
    method Consult(order: Request, e: Surroundings) returns (d: Pipeline.Disposition)
      modifies bank, breaker
      ensures (bank.View(), breaker.View(), d) ==
                Decide(old(bank.View()), old(breaker.View()), breaker.limits, order, e)
    {
      var granted := breaker.AllowCall(e.askedAt);
      if !granted {
        return Pipeline.TryAgain(CircuitOpen);
      }
      var outcome := bank.AuthorizeRequest(order);
      if e.late {
        d := Pipeline.TryAgain(BankTimeout);
      } else {
        d := Pipeline.DispositionOf(outcome);
      }
      breaker.RecordResult(!d.TryAgain?, e.recordedAt);
    }

    /** A retry's job, with the jittered delay of its attempt. */
    method Schedule(order: Request, attempt: nat, random: real)
      requires attempt >= 1 && baseMs >= 0.0 && capMs >= 0.0 && 0.0 <= random < 1.0
      modifies queue
      ensures var j := JobIds.Retry(order.paymentId, attempt); var exp := Backoff.Exp(baseMs, capMs, attempt);
              && queue.jobs == Pipeline.Add(old(queue.jobs), j, order)
              && (j !in old(queue.jobs) ==>
                    j in queue.delays && exp / 2.0 <= queue.delays[j] == (exp + random * exp) / 2.0 <= exp)
    {
      var delay := Backoff.ComputeBackoffMs(baseMs, capMs, attempt, random);
      Backoff.DelayInBand(baseMs, capMs, attempt, random);
      Backoff.DelayIs(baseMs, capMs, attempt, random);
      queue.Add(JobIds.Retry(order.paymentId, attempt), order, if delay.Some? then delay.value else 0.0);
    }

    /** One whole call; a retry is enqueued with the jittered delay of its attempt. */
    method Process(order: Request, e: Surroundings)
      requires order.paymentId in db.payments ==> db.payments[order.paymentId].id == order.paymentId
      requires baseMs >= 0.0 && capMs >= 0.0 && 0.0 <= e.random < 1.0
      modifies db, queue, bank, breaker
      ensures View() == ProcessAlone(old(View()), maxRetries, breaker.limits, order, e)
      ensures forall j | j in queue.jobs && j !in old(queue.jobs) ::
                && j.Retry? && j.attempt >= 1 && j in queue.delays
                && var exp := Backoff.Exp(baseMs, capMs, j.attempt);
                   exp / 2.0 <= queue.delays[j] == (exp + e.random * exp) / 2.0 <= exp
    {
      hide Decide, FinaliseTxn, Backoff.Exp;
      Txn1(order.paymentId);
      var d := Consult(order, e);
      if d.TryAgain? {
        var scheduled := RetryOrExhaust(order.paymentId, d.reason);
        if scheduled.Some? {
          Schedule(order, scheduled.value, e.random);
        }
        return;
      }
      Finalise(order, d.verdict, e.oid);
    }
  }
}
