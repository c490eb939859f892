/** The Postgres tables of apps/api/src/database/schema.ts that the payment pipeline shares, and
    every transaction that writes them, each as one atomic function on table contents. */
module Tables {
  import opened Options
  import opened Statuses
  import opened Names
  import Money
  import opened Banks

  // ---------------------------------------------------------------- rows

  datatype Meta =
    | Submitted
    | Claimed
    | Retried(reason: Reason, attempt: nat)
    | Exhausted(reason: Reason)
    | Reaped
    | Settled(bankRef: BankRef)
    | Refused(reason: Reason)

  datatype Event = Event(from: Option<Status>, to: Status, meta: Meta)

  const SUBMITTED_EVENT := Event(None, PENDING, Submitted)

  /** The body of a submission. */
  datatype Form = Form(
    customer: Token, source: Token, destination: Token,
    amount: string, currency: Option<Currency>, reference: Option<Token>)

  datatype Payment = Payment(
    id: Id, customer: Token, source: Token, destination: Token, reference: Option<Token>,
    cents: nat, currency: Currency,
    status: Status, version: nat, attemptCount: nat, lastError: Option<Reason>)

  datatype EventKind = PaymentSubmitted | PaymentCompleted | PaymentFailed

  /** `order` is the amount part of the payload, `status` its status field if it has one. */
  datatype OutboxRow = OutboxRow(
    kind: EventKind, aggregate: Id, order: Request, status: Option<Status>, published: bool)

  datatype IdempotencyRow = IdempotencyRow(hash: Token, paymentId: Id, body: Payment)

  /** `events` is payment_events partitioned by payment, in insertion order; `idem` is keyed by its
      unique constraint (customer, key). */
  datatype Db = Db(
    payments: map<Id, Payment>,
    events: map<Id, seq<Event>>,
    idem: map<(Token, Token), IdempotencyRow>,
    outbox: map<Id, OutboxRow>)

  const EMPTY_DB := Db(map[], map[], map[], map[])

  function OrderOf(row: Payment): Request {
    Request(row.id, row.cents, row.currency)
  }

  /** The request is for this payment and asks for exactly its amount. */
  ghost predicate Carries(order: Request, row: Payment) {
    order.paymentId == row.id && order.cents == row.cents && order.currency == row.currency
  }

  ghost predicate CarriesItsRow(db: Db, order: Request) {
    order.paymentId in db.payments && Carries(order, db.payments[order.paymentId])
  }

  function Last(h: seq<Event>): Event
    requires |h| > 0
  {
    h[|h| - 1]
  }

  // -------------------------------------------------------- transactions

  datatype Response =
    | Accepted(body: Payment)
    | Replayed(body: Payment)
    | Conflict
    | MissingKey
    | BadAmount(error: Money.MoneyError)

  /** The inserted row: the schema defaults the currency, whatever the form asked for. */
  function NewRow(id: Id, form: Form, cents: nat): Payment {
    Payment(id, form.customer, form.source, form.destination, form.reference, cents, USD, PENDING, 0, 0, None)
  }

  function InsertPayment(db: Db, id: Id, oid: Id, form: Form, key: Token, hash: Token, cents: nat): Db {
    var row := NewRow(id, form, cents);
    Db(db.payments[id := row],
       db.events[id := [SUBMITTED_EVENT]],
       db.idem[(form.customer, key) := IdempotencyRow(hash, id, row)],
       db.outbox[oid := OutboxRow(PaymentSubmitted, id, OrderOf(row), None, false)])
  }

  /** One submission: the four inserts, or the replay or conflict its unique violation leads to. */
  function Submit(db: Db, id: Id, oid: Id, form: Form, key: Option<Token>, hash: Token): (r: (Db, Response)) {
    if key.None? then (db, MissingKey) else
    match Money.ParseAmount(form.amount)
    case Err(e) => (db, BadAmount(e))
    case Ok(cents) =>
      if (form.customer, key.value) in db.idem then
        var existing := db.idem[(form.customer, key.value)];
        (db, if existing.hash != hash then Conflict else Replayed(existing.body))
      else
        (InsertPayment(db, id, oid, form, key.value, hash, cents), Accepted(NewRow(id, form, cents)))
  }

  function EventsOf(db: Db, p: Id): seq<Event> {
    if p in db.events then db.events[p] else []
  }

  /** Writes a row and its audit event together. */
  function Record(db: Db, row: Payment, e: Event): Db {
    db.(payments := db.payments[row.id := row], events := db.events[row.id := EventsOf(db, row.id) + [e]])
  }

  function Bump(row: Payment, to: Status): Payment {
    row.(status := to, version := row.version + 1)
  }

  ghost predicate HasRow(db: Db, p: Id) {
    p in db.payments && p in db.events && db.payments[p].id == p
  }

  /** Second half of txn 1: the compare-and-swap to PROCESSING from the status read before. */
  function ClaimCas(db: Db, p: Id, seen: Option<Status>): Db {
    if seen.Some? && CanTransition(seen.value, PROCESSING) && p in db.payments && db.payments[p].status == seen.value
    then Record(db, Bump(db.payments[p], PROCESSING), Event(seen, PROCESSING, Claimed))
    else db
  }

  /** Row and event of the RETRY transaction. */
  function RetryMove(row: Payment, maxRetries: nat, reason: Reason): (Payment, Event) {
    var n := row.attemptCount + 1;
    var counted := row.(attemptCount := n, lastError := Some(reason));
    if n > maxRetries then (Bump(counted, FAILED), Event(Some(PROCESSING), FAILED, Exhausted(reason)))
    else (Bump(counted, RETRYING), Event(Some(PROCESSING), RETRYING, Retried(reason, n)))
  }

  /** The RETRY transaction: RETRYING within the budget, FAILED beyond it, nothing if not PROCESSING. */
  function RetryTxn(db: Db, maxRetries: nat, p: Id, reason: Reason): (r: (Db, Option<nat>)) {
    if p !in db.payments || db.payments[p].status != PROCESSING then (db, None) else
    var (row, e) := RetryMove(db.payments[p], maxRetries, reason);
    (Record(db, row, e), if row.status == RETRYING then Some(row.attemptCount) else None)
  }

  datatype Verdict = Complete(bankRef: BankRef) | Refuse(reason: Reason)

  function TargetOf(v: Verdict): Status {
    if v.Complete? then COMPLETED else FAILED
  }

  function MetaOf(v: Verdict): Meta {
    if v.Complete? then Settled(v.bankRef) else Refused(v.reason)
  }

  function KindOf(s: Status): EventKind {
    if s == COMPLETED then PaymentCompleted else PaymentFailed
  }

  /** Txn 2: the terminal status, its audit event and its outbox row, if still PROCESSING. */
  function FinaliseTxn(db: Db, order: Request, v: Verdict, oid: Id): Db {
    var p := order.paymentId;
    if p !in db.payments || db.payments[p].status != PROCESSING then db else
    var to := TargetOf(v);
    var moved := Record(db, Bump(db.payments[p], to), Event(Some(PROCESSING), to, MetaOf(v)));
    moved.(outbox := moved.outbox[oid := OutboxRow(KindOf(to), p, order, Some(to), false)])
  }

  const REAPED_EVENT := Event(Some(PROCESSING), RETRYING, Reaped)

  function ReapRow(row: Payment): Payment {
    if row.status == PROCESSING then Bump(row.(attemptCount := row.attemptCount + 1), RETRYING) else row
  }

  /** The reaper's transaction over the rows it locked: PROCESSING goes to RETRYING, RETRYING stays. */
  function ReapTxn(db: Db, stuck: set<Id>): Db {
    db.(payments := map p | p in db.payments :: if p in stuck then ReapRow(db.payments[p]) else db.payments[p],
        events := map p | p in db.events ::
          if p in stuck && p in db.payments && db.payments[p].status == PROCESSING
          then db.events[p] + [REAPED_EVENT] else db.events[p])
  }

  function MarkPublished(db: Db, rows: set<Id>): Db {
    db.(outbox := map o | o in db.outbox ::
          if o in rows then db.outbox[o].(published := true) else db.outbox[o])
  }

  // -------------------------------------------------- one payment's history

  function Retries(h: seq<Event>): nat {
    if |h| == 0 then 0 else Retries(h[..|h| - 1]) + (if Last(h).to == RETRYING then 1 else 0)
  }

  /** The metadata an event with this target may carry, given the retries before it. */
  ghost predicate MetaFits(maxRetries: nat, before: nat, e: Event) {
    match e.meta
    case Submitted => false
    case Claimed => e.to == PROCESSING
    case Retried(_, n) => e.to == RETRYING && n == before + 1 <= maxRetries
    case Exhausted(_) => e.to == FAILED && before + 1 > maxRetries
    case Reaped => e.to == RETRYING
    case Settled(_) => e.to == COMPLETED
    case Refused(_) => e.to == FAILED
  }

  ghost predicate Follows(maxRetries: nat, h: seq<Event>, e: Event)
    requires |h| > 0
  {
    && e.from == Some(Last(h).to)
    && CanTransition(Last(h).to, e.to)
    && MetaFits(maxRetries, Retries(h), e)
  }

  /** An unbroken legal chain that starts with the submission. */
  ghost predicate Legal(maxRetries: nat, h: seq<Event>) {
    && |h| > 0
    && if |h| == 1 then h[0] == SUBMITTED_EVENT
       else Legal(maxRetries, h[..|h| - 1]) && Follows(maxRetries, h[..|h| - 1], Last(h))
  }

  function ExhaustedCount(h: seq<Event>): nat {
    if |h| > 0 && Last(h).meta.Exhausted? then 1 else 0
  }

  /** The reason of the latest retry or exhaustion on record. */
  function LastReason(h: seq<Event>): Option<Reason> {
    if |h| == 0 then None
    else if Last(h).meta.Retried? || Last(h).meta.Exhausted? then Some(Last(h).meta.reason)
    else LastReason(h[..|h| - 1])
  }

  /** A row agrees with its audit trail. */
  ghost predicate Consistent(maxRetries: nat, row: Payment, h: seq<Event>) {
    && Legal(maxRetries, h)
    && row.status == Last(h).to
    && row.version == |h| - 1
    && row.attemptCount == Retries(h) + ExhaustedCount(h)
    && row.lastError == LastReason(h)
  }

  /** What the event does to lastError. */
  ghost predicate ReasonFollows(row: Payment, row': Payment, e: Event) {
    row'.lastError == if e.meta.Retried? || e.meta.Exhausted? then Some(e.meta.reason) else row.lastError
  }

  lemma ConsistentAfter(maxRetries: nat, row: Payment, h: seq<Event>, row': Payment, e: Event)
    requires Consistent(maxRetries, row, h) && Follows(maxRetries, h, e)
    requires row'.status == e.to && row'.version == row.version + 1
    requires row'.attemptCount == row.attemptCount + (if e.to == RETRYING || e.meta.Exhausted? then 1 else 0)
    requires ReasonFollows(row, row', e)
    ensures Consistent(maxRetries, row', h + [e])
  {
    assert (h + [e])[..|h|] == h;
  }

  /** Only a fresh payment is PENDING, and a payment that left the chain's end has a higher count. */
  lemma PendingIsFresh(maxRetries: nat, row: Payment, h: seq<Event>)
    requires Consistent(maxRetries, row, h)
    ensures row.status == PENDING <==> h == [SUBMITTED_EVENT]
    ensures row.status == PENDING ==> row.attemptCount == 0
    ensures !IsTerminal(row.status) ==> row.attemptCount == Retries(h)
  {
    if |h| == 1 {
      assert Retries(h) == Retries(h[..0]) + 0;
    } else {
      MapShape(Last(h).to);
    }
  }

  // ------------------------------------------------- soundness of the tables

  ghost predicate RowSound(maxRetries: nat, db: Db, p: Id) {
    && HasRow(db, p)
    && db.payments[p].currency == USD
    && Consistent(maxRetries, db.payments[p], db.events[p])
  }

  ghost predicate RowsSound(maxRetries: nat, db: Db) {
    && db.events.Keys == db.payments.Keys
    && forall p | p in db.payments :: RowSound(maxRetries, db, p)
  }

  ghost predicate SubmittedRow(db: Db, p: Id, o: Id) {
    o in db.outbox && db.outbox[o].aggregate == p && db.outbox[o].kind == PaymentSubmitted
  }

  ghost predicate TerminalRow(db: Db, p: Id, o: Id) {
    o in db.outbox && db.outbox[o].aggregate == p && db.outbox[o].kind != PaymentSubmitted
  }

  /** The payment ended through txn 2, not through an exhausted retry budget. */
  ghost predicate Emitted(db: Db, p: Id) {
    && p in db.payments && p in db.events && |db.events[p]| > 0
    && IsTerminal(db.payments[p].status)
    && !Last(db.events[p]).meta.Exhausted?
  }

  ghost predicate OutboxRowSound(db: Db, o: Id)
    requires o in db.outbox
  {
    var r := db.outbox[o];
    && HasRow(db, r.aggregate)
    && r.order == OrderOf(db.payments[r.aggregate])
    && (r.kind != PaymentSubmitted ==>
          && Emitted(db, r.aggregate)
          && r.kind == KindOf(db.payments[r.aggregate].status)
          && r.status == Some(db.payments[r.aggregate].status))
  }

  ghost predicate OutboxRowsSound(db: Db) {
    forall o | o in db.outbox :: OutboxRowSound(db, o)
  }

  /** A payment has at most one submission row and at most one terminal row ... */
  ghost predicate OutboxUnique(db: Db) {
    forall o, o' | o in db.outbox && o' in db.outbox
        && db.outbox[o].aggregate == db.outbox[o'].aggregate
        && db.outbox[o].kind.PaymentSubmitted? == db.outbox[o'].kind.PaymentSubmitted? ::
      o == o'
  }

  /** ... always the first, and the second exactly when it was emitted. */
  ghost predicate OutboxCovers(db: Db) {
    && (forall p | p in db.payments :: exists o :: SubmittedRow(db, p, o))
    && (forall p | Emitted(db, p) :: exists o :: TerminalRow(db, p, o))
  }

  ghost predicate OutboxSound(db: Db) {
    OutboxRowsSound(db) && OutboxUnique(db) && OutboxCovers(db)
  }

  /** The row as it was inserted. */
  function Original(row: Payment): Payment {
    row.(status := PENDING, version := 0, attemptCount := 0, lastError := None)
  }

  ghost predicate Owns(db: Db, k: (Token, Token), p: Id) {
    k in db.idem && db.idem[k].paymentId == p
  }

  ghost predicate IdemRowSound(db: Db, k: (Token, Token))
    requires k in db.idem
  {
    var r := db.idem[k];
    HasRow(db, r.paymentId) && r.body == Original(db.payments[r.paymentId]) && r.body.customer == k.0
  }

  ghost predicate IdemRowsSound(db: Db) {
    forall k | k in db.idem :: IdemRowSound(db, k)
  }

  /** Every payment was created under exactly one (customer, key). */
  ghost predicate IdemOwners(db: Db) {
    && (forall k, k' | k in db.idem && k' in db.idem && db.idem[k].paymentId == db.idem[k'].paymentId :: k == k')
    && (forall p | p in db.payments :: exists k :: Owns(db, k, p))
  }

  ghost predicate IdemSound(db: Db) {
    IdemRowsSound(db) && IdemOwners(db)
  }

  ghost predicate DbSound(maxRetries: nat, db: Db) {
    RowsSound(maxRetries, db) && OutboxSound(db) && IdemSound(db)
  }

  // ----------------------------------------------- how the tables may change

  /** Nothing happened to a payment, or exactly one edge of the transition map with its event. */
  ghost predicate OneEdge(row: Payment, h: seq<Event>, row': Payment, h': seq<Event>) {
    || (row' == row && h' == h)
    || (|h'| == |h| + 1 && h' == h + [Last(h')]
        && Last(h').from == Some(row.status) && Last(h').to == row'.status
        && CanTransition(row.status, row'.status)
        && row'.version == row.version + 1
        && row.attemptCount <= row'.attemptCount <= row.attemptCount + 1
        && Original(row') == Original(row))
  }

  ghost predicate SameOutboxRow(r: OutboxRow, r': OutboxRow) {
    r' == r.(published := r'.published) && (r.published ==> r'.published)
  }

  ghost predicate Evolves(db: Db, db': Db) {
    && (forall p | p in db.payments ::
          p in db.events && p in db'.payments && p in db'.events
          && OneEdge(db.payments[p], db.events[p], db'.payments[p], db'.events[p]))
    && (forall p | p in db'.payments && p !in db.payments ::
          p in db'.events && db'.events[p] == [SUBMITTED_EVENT] && db'.payments[p] == Original(db'.payments[p]))
    && (forall o | o in db.outbox :: o in db'.outbox && SameOutboxRow(db.outbox[o], db'.outbox[o]))
    && (forall k | k in db.idem :: k in db'.idem && db'.idem[k] == db.idem[k])
  }

  // --------------------------------------- every transaction keeps the tables

  ghost predicate FreshId(db: Db, id: Id) {
    id !in db.payments && id !in db.outbox
  }

  /** Both contents hold the same payments, each with its original row. */
  ghost predicate SamePayments(db: Db, db': Db) {
    && db'.payments.Keys == db.payments.Keys && db'.events.Keys == db.events.Keys
    && (forall p | p in db.payments :: Original(db'.payments[p]) == Original(db.payments[p]))
  }

  /** ... and no payment was emitted or stopped being so. */
  ghost predicate Quiet(db: Db, db': Db) {
    && SamePayments(db, db')
    && (forall p | p in db.payments ::
          && (Emitted(db', p) <==> Emitted(db, p))
          && (Emitted(db, p) ==> db'.payments[p].status == db.payments[p].status))
    && db'.idem == db.idem
    && db'.outbox.Keys == db.outbox.Keys
    && (forall o | o in db.outbox :: SameOutboxRow(db.outbox[o], db'.outbox[o]))
  }

  lemma SamePaymentsKeepIdem(db: Db, db': Db)
    requires IdemSound(db) && SamePayments(db, db') && db'.idem == db.idem
    ensures IdemSound(db')
  {
    forall p | p in db'.payments ensures exists k :: Owns(db', k, p) {
      var k :| Owns(db, k, p);
      assert Owns(db', k, p);
    }
    forall k | k in db'.idem ensures IdemRowSound(db', k) {
      assert IdemRowSound(db, k);
      assert Original(db.payments[db.idem[k].paymentId]).id == db.idem[k].paymentId;
    }
  }

  lemma QuietKeepsOutboxRows(db: Db, db': Db)
    requires OutboxRowsSound(db) && Quiet(db, db')
    ensures OutboxRowsSound(db')
  {
    forall o | o in db'.outbox ensures OutboxRowSound(db', o) {
      assert OutboxRowSound(db, o);
      var p := db.outbox[o].aggregate;
      assert Original(db'.payments[p]) == Original(db.payments[p]);
      assert OrderOf(Original(db.payments[p])) == OrderOf(db.payments[p]);
      assert OrderOf(Original(db'.payments[p])) == OrderOf(db'.payments[p]);
    }
  }

  lemma QuietKeepsOutboxCovers(db: Db, db': Db)
    requires OutboxCovers(db) && Quiet(db, db')
    ensures OutboxCovers(db')
  {
    forall p | p in db'.payments ensures exists o :: SubmittedRow(db', p, o) {
      var o :| SubmittedRow(db, p, o);
      assert SubmittedRow(db', p, o);
    }
    forall p | Emitted(db', p) ensures exists o :: TerminalRow(db', p, o) {
      assert Emitted(db, p);
      var o :| TerminalRow(db, p, o);
      assert TerminalRow(db', p, o);
    }
  }

  lemma QuietKeepsOutbox(db: Db, db': Db)
    requires OutboxSound(db) && Quiet(db, db')
    ensures OutboxSound(db')
  {
    hide OutboxRowsSound, OutboxCovers, SamePayments;
    QuietKeepsOutboxRows(db, db');
    QuietKeepsOutboxCovers(db, db');
  }

  /** What a transaction needs to move one payment along one edge. */
  ghost predicate Advances(maxRetries: nat, db: Db, row': Payment, e: Event) {
    && HasRow(db, row'.id)
    && var row := db.payments[row'.id];
       var h := db.events[row'.id];
       && Consistent(maxRetries, row, h) && Follows(maxRetries, h, e)
       && Original(row') == Original(row) && row'.status == e.to && row'.version == row.version + 1
       && row'.attemptCount == row.attemptCount + (if e.to == RETRYING || e.meta.Exhausted? then 1 else 0)
       && ReasonFollows(row, row', e)
  }

  lemma RecordKeepsRows(maxRetries: nat, db: Db, row': Payment, e: Event)
    requires RowsSound(maxRetries, db) && Advances(maxRetries, db, row', e)
    ensures RowsSound(maxRetries, Record(db, row', e))
  {
    var p := row'.id;
    var db' := Record(db, row', e);
    assert RowSound(maxRetries, db, p);
    ConsistentAfter(maxRetries, db.payments[p], db.events[p], row', e);
    forall q | q in db'.payments ensures RowSound(maxRetries, db', q) {
      if q != p { assert RowSound(maxRetries, db, q); }
    }
  }

  lemma AdvanceIsOneEdge(maxRetries: nat, db: Db, row': Payment, e: Event)
    requires Advances(maxRetries, db, row', e)
    ensures OneEdge(db.payments[row'.id], db.events[row'.id], row', db.events[row'.id] + [e])
  {
    hide Legal, Retries;
    assert Last(db.events[row'.id] + [e]) == e;
  }

  lemma SameIsOneEdge(row: Payment, h: seq<Event>)
    ensures OneEdge(row, h, row, h)
  {
  }

  lemma RecordEvolves(maxRetries: nat, db: Db, row': Payment, e: Event)
    requires RowsSound(maxRetries, db) && Advances(maxRetries, db, row', e)
    ensures Evolves(db, Record(db, row', e))
  {
    hide RowSound, OneEdge, Legal, Retries, MetaFits, Consistent, Follows;
    AdvanceIsOneEdge(maxRetries, db, row', e);
    var db' := Record(db, row', e);
    forall p | p in db.payments
      ensures p in db'.payments && p in db'.events
      ensures OneEdge(db.payments[p], db.events[p], db'.payments[p], db'.events[p])
    {
      if p != row'.id { SameIsOneEdge(db.payments[p], db.events[p]); }
    }
  }

  lemma RecordIsQuiet(maxRetries: nat, db: Db, row': Payment, e: Event)
    requires db.events.Keys == db.payments.Keys && Advances(maxRetries, db, row', e)
    requires e.meta.Exhausted? || !IsTerminal(e.to)
    ensures Quiet(db, Record(db, row', e))
  {
    hide Legal, Retries;
    var p := row'.id;
    var db' := Record(db, row', e);
    MapShape(db.payments[p].status);
    assert !Emitted(db, p) && !Emitted(db', p);
    assert forall q | q != p :: Emitted(db', q) <==> Emitted(db, q);
  }

  /** A quiet change of sound rows keeps everything. */
  lemma QuietKeepsTables(maxRetries: nat, db: Db, db': Db)
    requires DbSound(maxRetries, db) && RowsSound(maxRetries, db') && Quiet(db, db')
    ensures DbSound(maxRetries, db')
  {
    hide RowsSound, OutboxSound, IdemSound, SamePayments;
    SamePaymentsKeepIdem(db, db');
    QuietKeepsOutbox(db, db');
  }

  lemma RecordKeepsTables(maxRetries: nat, db: Db, row': Payment, e: Event)
    requires DbSound(maxRetries, db) && Advances(maxRetries, db, row', e)
    requires e.meta.Exhausted? || !IsTerminal(e.to)
    ensures DbSound(maxRetries, Record(db, row', e)) && Evolves(db, Record(db, row', e))
  {
    hide Legal, Retries, RowSound, OutboxSound, IdemSound, Quiet, Evolves;
    RecordKeepsRows(maxRetries, db, row', e);
    RecordEvolves(maxRetries, db, row', e);
    RecordIsQuiet(maxRetries, db, row', e);
    QuietKeepsTables(maxRetries, db, Record(db, row', e));
  }

  lemma UnchangedEvolves(db: Db)
    requires db.events.Keys == db.payments.Keys
    ensures Evolves(db, db)
  {
  }

  lemma SoundRow(maxRetries: nat, db: Db, p: Id)
    requires DbSound(maxRetries, db) && p in db.payments
    ensures RowSound(maxRetries, db, p) && HasRow(db, p)
  {
    hide OutboxSound, IdemSound;
  }

  /** Rows and trails of all other payments are as they were. */
  ghost predicate OthersStay(db: Db, db': Db, p: Id) {
    forall q | q != p && q in db.payments && q in db.events ::
      && q in db'.payments && q in db'.events
      && db'.payments[q] == db.payments[q] && db'.events[q] == db.events[q]
  }

  lemma ClaimKeepsTables(maxRetries: nat, db: Db, p: Id, seen: Option<Status>)
    requires DbSound(maxRetries, db)
    ensures var db' := ClaimCas(db, p, seen);
            DbSound(maxRetries, db') && Evolves(db, db') && OthersStay(db, db', p)
  {
    hide OutboxSound, IdemSound, Evolves;
    if p in db.payments {
      SoundRow(maxRetries, db, p);
      var row := db.payments[p];
      if seen == Some(row.status) && CanTransition(row.status, PROCESSING) {
        RecordKeepsTables(maxRetries, db, Bump(row, PROCESSING), Event(seen, PROCESSING, Claimed));
      }
    }
    UnchangedEvolves(db);
  }

  lemma RetryMoveKeepsId(db: Db, maxRetries: nat, p: Id, reason: Reason)
    requires p in db.payments
    ensures RetryMove(db.payments[p], maxRetries, reason).0.id == db.payments[p].id
  {
  }

  lemma RetryAdvances(maxRetries: nat, db: Db, p: Id, reason: Reason)
    requires p in db.payments && RowSound(maxRetries, db, p) && db.payments[p].status == PROCESSING
    ensures var (row', e) := RetryMove(db.payments[p], maxRetries, reason); Advances(maxRetries, db, row', e)
  {
    hide Legal;
    PendingIsFresh(maxRetries, db.payments[p], db.events[p]);
  }

  lemma RetryKeepsTables(maxRetries: nat, db: Db, p: Id, reason: Reason)
    requires DbSound(maxRetries, db)
    ensures var (db', n) := RetryTxn(db, maxRetries, p, reason);
            DbSound(maxRetries, db') && Evolves(db, db') && OthersStay(db, db', p)
  {
    hide OutboxSound, IdemSound, Evolves, RowSound, Advances;
    UnchangedEvolves(db);
    if p in db.payments && db.payments[p].status == PROCESSING {
      SoundRow(maxRetries, db, p);
      RetryAdvances(maxRetries, db, p, reason);
      var (row', e) := RetryMove(db.payments[p], maxRetries, reason);
      RecordKeepsTables(maxRetries, db, row', e);
      assert row'.id == p by { RetryMoveKeepsId(db, maxRetries, p, reason); }
    }
  }

  /** The count that is reported is one more than the count before. */
  lemma RetryCountIsNew(db: Db, maxRetries: nat, p: Id, reason: Reason)
    requires HasRow(db, p)
    ensures var (db', n) := RetryTxn(db, maxRetries, p, reason);
            n.Some? <==> db'.payments[p].status == RETRYING && db.payments[p].status == PROCESSING
    ensures var (db', n) := RetryTxn(db, maxRetries, p, reason);
            n.Some? ==> n.value == db'.payments[p].attemptCount == db.payments[p].attemptCount + 1 <= maxRetries
  {
  }

  lemma VerdictAdvances(maxRetries: nat, db: Db, p: Id, v: Verdict)
    requires p in db.payments && RowSound(maxRetries, db, p) && db.payments[p].status == PROCESSING
    ensures Advances(maxRetries, db, Bump(db.payments[p], TargetOf(v)), Event(Some(PROCESSING), TargetOf(v), MetaOf(v)))
  {
    hide Legal;
  }

  lemma FinaliseKeepsTables(maxRetries: nat, db: Db, order: Request, v: Verdict, oid: Id)
    requires DbSound(maxRetries, db) && FreshId(db, oid)
    requires order.paymentId in db.payments ==> order == OrderOf(db.payments[order.paymentId])
    ensures var db' := FinaliseTxn(db, order, v, oid);
            DbSound(maxRetries, db') && Evolves(db, db') && OthersStay(db, db', order.paymentId)
  {
    hide OutboxSound, IdemSound, RowSound, Advances, Evolves, Emits;
    UnchangedEvolves(db);
    var p := order.paymentId;
    if p in db.payments && db.payments[p].status == PROCESSING {
      SoundRow(maxRetries, db, p);
      VerdictAdvances(maxRetries, db, p, v);
      var row' := Bump(db.payments[p], TargetOf(v));
      var e := Event(Some(PROCESSING), TargetOf(v), MetaOf(v));
      RecordKeepsRows(maxRetries, db, row', e);
      RecordEvolves(maxRetries, db, row', e);
      FinaliseEmits(db, order, v, oid);
      EmitKeepsTables(maxRetries, db, Record(db, row', e), p, oid, FinaliseTxn(db, order, v, oid));
    }
  }

  lemma FinaliseEmits(db: Db, order: Request, v: Verdict, oid: Id)
    requires var p := order.paymentId;
             HasRow(db, p) && db.payments[p].status == PROCESSING && order == OrderOf(db.payments[p])
    requires FreshId(db, oid) && db.events.Keys == db.payments.Keys
    ensures var p := order.paymentId;
            var moved := Record(db, Bump(db.payments[p], TargetOf(v)), Event(Some(PROCESSING), TargetOf(v), MetaOf(v)));
            Emits(db, moved, p, oid, FinaliseTxn(db, order, v, oid))
  {
  }

  lemma SameRowsStaySound(maxRetries: nat, db: Db, db': Db)
    requires RowsSound(maxRetries, db) && db'.payments == db.payments && db'.events == db.events
    ensures RowsSound(maxRetries, db')
  {
    hide Legal, Retries, Consistent;
    forall p | p in db'.payments ensures RowSound(maxRetries, db', p) {
      assert RowSound(maxRetries, db, p);
    }
  }

  /** What the insert of txn 2 adds to the outbox of `moved`, the contents after its update. */
  ghost predicate Emits(db: Db, moved: Db, p: Id, oid: Id, db': Db) {
    && HasRow(db, p) && HasRow(moved, p) && db.payments[p].status == PROCESSING
    && Emitted(moved, p) && FreshId(db, oid) && SamePayments(db, moved)
    && moved.idem == db.idem && moved.outbox == db.outbox
    && (forall q | q in db.payments && q != p ::
          q in moved.events && q in db.events
          && moved.payments[q] == db.payments[q] && moved.events[q] == db.events[q])
    && var s := moved.payments[p].status;
       db' == moved.(outbox := moved.outbox[oid := OutboxRow(KindOf(s), p, OrderOf(db.payments[p]), Some(s), false)])
  }

  lemma EmitKeepsOutboxRows(db: Db, moved: Db, p: Id, oid: Id, db': Db)
    requires OutboxRowsSound(db) && Emits(db, moved, p, oid, db')
    ensures OutboxRowsSound(db')
    ensures forall o | o in db'.outbox && o != oid && !db'.outbox[o].kind.PaymentSubmitted? ::
              db'.outbox[o].aggregate != p
  {
    assert !Emitted(db, p) && Emitted(db', p);
    assert OrderOf(Original(db.payments[p])) == OrderOf(db.payments[p]);
    assert OrderOf(Original(db'.payments[p])) == OrderOf(db'.payments[p]);
    forall o | o in db'.outbox ensures OutboxRowSound(db', o) && (o != oid ==> !TerminalRow(db', p, o)) {
      if o != oid { assert OutboxRowSound(db, o); }
    }
  }

  lemma EmitKeepsOutboxCovers(db: Db, moved: Db, p: Id, oid: Id, db': Db)
    requires OutboxCovers(db) && Emits(db, moved, p, oid, db')
    ensures OutboxCovers(db')
  {
    assert TerminalRow(db', p, oid);
    forall q | q in db'.payments ensures exists o :: SubmittedRow(db', q, o) {
      var o :| SubmittedRow(db, q, o);
      assert SubmittedRow(db', q, o);
    }
    forall q | Emitted(db', q) ensures exists o :: TerminalRow(db', q, o) {
      if q != p {
        assert Emitted(db, q);
        var o :| TerminalRow(db, q, o);
        assert TerminalRow(db', q, o);
      }
    }
  }

  lemma EmitKeepsOutbox(db: Db, moved: Db, p: Id, oid: Id, db': Db)
    requires OutboxSound(db) && Emits(db, moved, p, oid, db')
    ensures OutboxSound(db')
  {
    hide OutboxRowsSound, OutboxCovers, SamePayments, Emitted;
    EmitKeepsOutboxRows(db, moved, p, oid, db');
    EmitKeepsOutboxCovers(db, moved, p, oid, db');
  }

  lemma EmitKeepsTables(maxRetries: nat, db: Db, moved: Db, p: Id, oid: Id, db': Db)
    requires DbSound(maxRetries, db) && RowsSound(maxRetries, moved) && Evolves(db, moved)
    requires Emits(db, moved, p, oid, db')
    ensures DbSound(maxRetries, db') && Evolves(db, db')
  {
    hide RowSound, IdemSound, OutboxSound, SamePayments;
    EmitKeepsOutbox(db, moved, p, oid, db');
    SameRowsStaySound(maxRetries, moved, db');
    SamePaymentsKeepIdem(db, moved);
    assert SamePayments(moved, db') by { IdentityKeepsPayments(moved, db'); }
    SamePaymentsKeepIdem(moved, db');
  }

  lemma IdentityKeepsPayments(db: Db, db': Db)
    requires db'.payments == db.payments && db'.events == db.events
    ensures SamePayments(db, db')
  {
  }

  /** A locked PROCESSING row went to RETRYING with its count and event; any other is as it was. */
  ghost predicate Reclaims(db: Db, db': Db, stuck: set<Id>, p: Id)
    requires p in db.payments && p in db.events
  {
    && p in db'.payments && p in db'.events
    && var (row, row') := (db.payments[p], db'.payments[p]);
       if p in stuck && row.status == PROCESSING
       then row' == row.(status := RETRYING, attemptCount := row.attemptCount + 1, version := row.version + 1)
            && db'.events[p] == db.events[p] + [REAPED_EVENT]
       else row' == row && db'.events[p] == db.events[p]
  }

  lemma ReapMovesRow(maxRetries: nat, db: Db, stuck: set<Id>, p: Id)
    requires RowSound(maxRetries, db, p) && p in db.payments
    ensures var db' := ReapTxn(db, stuck);
            && RowSound(maxRetries, db', p)
            && OneEdge(db.payments[p], db.events[p], db'.payments[p], db'.events[p])
            && Original(db'.payments[p]) == Original(db.payments[p])
            && (Emitted(db', p) <==> Emitted(db, p))
            && (Emitted(db, p) ==> db'.payments[p] == db.payments[p])
            && Reclaims(db, db', stuck, p)
  {
    var db' := ReapTxn(db, stuck);
    if p in stuck && db.payments[p].status == PROCESSING {
      ConsistentAfter(maxRetries, db.payments[p], db.events[p], db'.payments[p], REAPED_EVENT);
      assert Last(db'.events[p]) == REAPED_EVENT;
    }
  }

  lemma ReapKeepsTables(maxRetries: nat, db: Db, stuck: set<Id>)
    requires DbSound(maxRetries, db)
    ensures var db' := ReapTxn(db, stuck); DbSound(maxRetries, db') && Evolves(db, db')
    ensures forall p | p in db.payments && p in db.events :: Reclaims(db, ReapTxn(db, stuck), stuck, p)
  {
    hide RowSound, OutboxSound, IdemSound, OneEdge, Emitted, ReapRow, Original, Reclaims;
    var db' := ReapTxn(db, stuck);
    forall p | p in db.payments
      ensures RowSound(maxRetries, db', p) && OneEdge(db.payments[p], db.events[p], db'.payments[p], db'.events[p])
      ensures Original(db'.payments[p]) == Original(db.payments[p])
      ensures Emitted(db', p) <==> Emitted(db, p)
      ensures Emitted(db, p) ==> db'.payments[p] == db.payments[p]
      ensures Reclaims(db, db', stuck, p)
    {
      SoundRow(maxRetries, db, p);
      ReapMovesRow(maxRetries, db, stuck, p);
    }
    QuietKeepsTables(maxRetries, db, db');
  }

  lemma MarksExactly(db: Db, rows: set<Id>)
    ensures var db' := MarkPublished(db, rows);
            && db'.outbox.Keys == db.outbox.Keys
            && (forall o | o in db.outbox && o in rows :: db'.outbox[o] == db.outbox[o].(published := true))
            && (forall o | o in db.outbox && o !in rows :: db'.outbox[o] == db.outbox[o])
            && db'.payments == db.payments && db'.events == db.events && db'.idem == db.idem
  {
  }

  lemma MarkKeepsTables(maxRetries: nat, db: Db, rows: set<Id>)
    requires DbSound(maxRetries, db)
    ensures var db' := MarkPublished(db, rows); DbSound(maxRetries, db') && Evolves(db, db')
  {
    hide RowSound, OutboxSound, IdemSound;
    var db' := MarkPublished(db, rows);
    SameRowsStaySound(maxRetries, db, db');
    IdentityKeepsPayments(db, db');
    QuietKeepsTables(maxRetries, db, db');
  }

  // ------------------------------------------------------------ submission

  ghost predicate Inserts(db: Db, id: Id, oid: Id, form: Form, key: Token, hash: Token, cents: nat, db': Db) {
    && FreshId(db, id) && FreshId(db, oid) && id != oid
    && (form.customer, key) !in db.idem
    && db' == InsertPayment(db, id, oid, form, key, hash, cents)
  }

  lemma FreshIsConsistent(maxRetries: nat, row: Payment)
    requires row == Original(row)
    ensures Consistent(maxRetries, row, [SUBMITTED_EVENT])
  {
    assert [SUBMITTED_EVENT][..0] == [];
    assert Retries([SUBMITTED_EVENT]) == 0;
    assert LastReason([SUBMITTED_EVENT]) == None;
  }

  lemma InsertKeepsRows(
    maxRetries: nat, db: Db, id: Id, oid: Id, form: Form, key: Token, hash: Token, cents: nat, db': Db)
    requires RowsSound(maxRetries, db) && Inserts(db, id, oid, form, key, hash, cents, db')
    ensures RowsSound(maxRetries, db')
  {
    hide Legal, Retries;
    FreshIsConsistent(maxRetries, NewRow(id, form, cents));
    assert RowSound(maxRetries, db', id) by { hide Consistent; }
    hide Consistent;
    forall p | p in db.payments ensures RowSound(maxRetries, db', p) {
      assert RowSound(maxRetries, db, p);
    }
  }

  lemma InsertEvolves(db: Db, id: Id, oid: Id, form: Form, key: Token, hash: Token, cents: nat, db': Db)
    requires db.events.Keys == db.payments.Keys && Inserts(db, id, oid, form, key, hash, cents, db')
    ensures Evolves(db, db')
  {
  }

  lemma InsertKeepsIdem(db: Db, id: Id, oid: Id, form: Form, key: Token, hash: Token, cents: nat, db': Db)
    requires IdemSound(db) && Inserts(db, id, oid, form, key, hash, cents, db')
    ensures IdemSound(db')
  {
    var k0 := (form.customer, key);
    forall k | k in db'.idem ensures IdemRowSound(db', k) && (k != k0 ==> db'.idem[k].paymentId != id) {
      if k != k0 { assert IdemRowSound(db, k); }
    }
    assert Owns(db', k0, id);
    forall q | q in db'.payments ensures exists k :: Owns(db', k, q) {
      if q != id {
        var k :| Owns(db, k, q);
        assert Owns(db', k, q);
      }
    }
  }

  lemma InsertKeepsOutboxRows(db: Db, id: Id, oid: Id, form: Form, key: Token, hash: Token, cents: nat, db': Db)
    requires OutboxRowsSound(db) && Inserts(db, id, oid, form, key, hash, cents, db')
    ensures OutboxRowsSound(db') && (forall o | o in db'.outbox && o != oid :: db'.outbox[o].aggregate != id)
  {
    forall o | o in db'.outbox ensures OutboxRowSound(db', o) && (o != oid ==> db'.outbox[o].aggregate != id) {
      if o != oid { assert OutboxRowSound(db, o); }
    }
  }

  lemma InsertKeepsOutboxCovers(db: Db, id: Id, oid: Id, form: Form, key: Token, hash: Token, cents: nat, db': Db)
    requires OutboxCovers(db) && Inserts(db, id, oid, form, key, hash, cents, db')
    ensures OutboxCovers(db')
  {
    assert SubmittedRow(db', id, oid);
    forall q | q in db'.payments ensures exists o :: SubmittedRow(db', q, o) {
      if q != id {
        var o :| SubmittedRow(db, q, o);
        assert SubmittedRow(db', q, o);
      }
    }
    forall q | Emitted(db', q) ensures exists o :: TerminalRow(db', q, o) {
      assert q != id && Emitted(db, q);
      var o :| TerminalRow(db, q, o);
      assert TerminalRow(db', q, o);
    }
  }

  lemma InsertKeepsOutbox(db: Db, id: Id, oid: Id, form: Form, key: Token, hash: Token, cents: nat, db': Db)
    requires OutboxSound(db) && Inserts(db, id, oid, form, key, hash, cents, db')
    ensures OutboxSound(db')
  {
    hide OutboxRowsSound, OutboxCovers;
    InsertKeepsOutboxRows(db, id, oid, form, key, hash, cents, db');
    InsertKeepsOutboxCovers(db, id, oid, form, key, hash, cents, db');
  }

  lemma InsertLeavesOthers(db: Db, id: Id, oid: Id, form: Form, key: Token, hash: Token, cents: nat)
    ensures OthersStay(db, InsertPayment(db, id, oid, form, key, hash, cents), id)
  {
  }

  lemma SubmitKeepsTables(maxRetries: nat, db: Db, id: Id, oid: Id, form: Form, key: Option<Token>, hash: Token)
    requires DbSound(maxRetries, db) && FreshId(db, id) && FreshId(db, oid) && id != oid
    ensures var (db', _) := Submit(db, id, oid, form, key, hash);
            DbSound(maxRetries, db') && Evolves(db, db') && OthersStay(db, db', id)
  {
    hide RowSound, OutboxSound, IdemSound, Evolves, InsertPayment;
    var (db', r) := Submit(db, id, oid, form, key, hash);
    UnchangedEvolves(db);
    if r.Accepted? {
      InsertLeavesOthers(db, id, oid, form, key.value, hash, r.body.cents);
      InsertKeepsRows(maxRetries, db, id, oid, form, key.value, hash, r.body.cents, db');
      InsertEvolves(db, id, oid, form, key.value, hash, r.body.cents, db');
      InsertKeepsIdem(db, id, oid, form, key.value, hash, r.body.cents, db');
      InsertKeepsOutbox(db, id, oid, form, key.value, hash, r.body.cents, db');
    }
  }
}
