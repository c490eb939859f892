/** The simulated bank (apps/api/src/bank/simulated-bank.adapter.ts) and the poll that copies its
    configuration row onto it (apps/api/src/bank/bank-config-sync.service.ts). */
module Banks {
  import opened Options
  import opened Names

  datatype Mode = AlwaysAuthorize | AlwaysDecline | AlwaysError | FailNThenAuthorize

  datatype Request = Request(paymentId: Id, cents: nat, currency: Currency)

  /** The reference text `bank_<key>`. */
  datatype BankRef = BankRef(key: Id)

  datatype Reason = CircuitOpen | BankTimeout | InsufficientFunds | BankUnavailable

  datatype Outcome =
    | Authorized(bankRef: BankRef)
    | Declined(reason: Reason)
    | Error(retryable: bool, reason: Reason)

  /** `ledger` is the history of `charges`: the requests that moved money, in order. */
  datatype Bank = Bank(
    mode: Mode, failCount: nat, failN: nat, latencyMs: nat,
    store: map<Id, Outcome>, charges: nat, ledger: seq<Request>)

  const INITIAL_BANK := Bank(AlwaysAuthorize, 0, 2, 200, map[], 0, [])

  /** The evaluation of one request; its idempotency key is the payment id. */
  function Authorize(b: Bank, req: Request): (r: (Bank, Outcome)) {
    var key := req.paymentId;
    if key in b.store then (b, b.store[key])
    else match b.mode
      case AlwaysAuthorize => (Charge(b, req), Authorized(BankRef(key)))
      case AlwaysDecline => (b, Declined(InsufficientFunds))
      case AlwaysError => (b, Error(true, BankUnavailable))
      case FailNThenAuthorize =>
        if b.failCount < b.failN then (b.(failCount := b.failCount + 1), Error(true, BankUnavailable))
        else (Charge(b.(failCount := 0), req), Authorized(BankRef(key)))
  }

  function Charge(b: Bank, req: Request): Bank {
    b.(charges := b.charges + 1,
       store := b.store[req.paymentId := Authorized(BankRef(req.paymentId))],
       ledger := b.ledger + [req])
  }

  function SetConfig(b: Bank, mode: Option<Mode>, failN: Option<nat>, latencyMs: Option<nat>): Bank {
    var b1 := if mode.Some? then b.(mode := mode.value, failCount := 0) else b;
    var b2 := if failN.Some? then b1.(failN := failN.value) else b1;
    if latencyMs.Some? then b2.(latencyMs := latencyMs.value) else b2
  }

  class SimulatedBankAdapter {
    var mode: Mode
    var failCount: nat
    var failN: nat
    var latencyMs: nat
    var store: map<Id, Outcome>
    var charges: nat
    ghost var ledger: seq<Request>

    ghost function View(): Bank
      reads this
    {
      Bank(mode, failCount, failN, latencyMs, store, charges, ledger)
    }

    constructor ()
      ensures View() == INITIAL_BANK
      ensures mode == AlwaysAuthorize && failN == 2 && latencyMs == 200 && charges == 0 && store == map[]
    {
      mode, failCount, failN, latencyMs := AlwaysAuthorize, 0, 2, 200;
      store, charges, ledger := map[], 0, [];
    }

    method AuthorizeRequest(req: Request) returns (outcome: Outcome)
      modifies this
      ensures (View(), outcome) == Authorize(old(View()), req)
    {
      var key := req.paymentId;
      if key in store {
        return store[key];
      }
      match mode {
        case AlwaysAuthorize =>
          charges := charges + 1;
          outcome := Authorized(BankRef(key));
          store := store[key := outcome];
          ledger := ledger + [req];
        case AlwaysDecline =>
          outcome := Declined(InsufficientFunds);
        case AlwaysError =>
          outcome := Error(true, BankUnavailable);
        case FailNThenAuthorize =>
          if failCount < failN {
            failCount := failCount + 1;
            outcome := Error(true, BankUnavailable);
          } else {
            failCount := 0;
            charges := charges + 1;
            outcome := Authorized(BankRef(key));
            store := store[key := outcome];
            ledger := ledger + [req];
          }
      }
    }

    method Configure(mode: Option<Mode>, failN: Option<nat>, latencyMs: Option<nat>)
      modifies this
      ensures View() == SetConfig(old(View()), mode, failN, latencyMs)
    {
      if mode.Some? {
        this.mode := mode.value;
        failCount := 0;
      }
      if failN.Some? { this.failN := failN.value; }
      if latencyMs.Some? { this.latencyMs := latencyMs.value; }
    }
  }

  // ----------------------------------------------------- what a bank keeps

  ghost predicate ChargedAt(ledger: seq<Request>, key: Id, i: int) {
    0 <= i < |ledger| && ledger[i].paymentId == key
  }

  /** Nothing was charged twice, and nothing without a stored authorization. */
  ghost predicate LedgerSound(b: Bank) {
    && (forall i | 0 <= i < |b.ledger| :: b.ledger[i].paymentId in b.store)
    && (forall i, j | 0 <= i < j < |b.ledger| :: b.ledger[i].paymentId != b.ledger[j].paymentId)
  }

  /** Every stored authorization was charged. */
  ghost predicate LedgerComplete(b: Bank) {
    forall k | k in b.store :: exists i :: ChargedAt(b.ledger, k, i)
  }

  /** Every stored outcome is one authorization, charged once, and nothing else was charged. */
  ghost predicate Balanced(b: Bank) {
    && b.charges == |b.store| == |b.ledger|
    && (forall k | k in b.store :: b.store[k] == Authorized(BankRef(k)))
    && LedgerSound(b) && LedgerComplete(b)
  }

  /** Stored outcomes and past charges survive. */
  ghost predicate Extends(b: Bank, b': Bank) {
    && (forall k | k in b.store :: k in b'.store && b'.store[k] == b.store[k])
    && b.ledger <= b'.ledger
  }

  lemma ChargeKeepsBalance(b: Bank, req: Request)
    requires Balanced(b) && req.paymentId !in b.store
    ensures Balanced(Charge(b, req)) && Extends(b, Charge(b, req))
  {
    hide LedgerSound, LedgerComplete;
    ChargeCompletes(b, req);
    assert Charge(b, req).store.Keys == b.store.Keys + {req.paymentId};
    assert LedgerSound(Charge(b, req)) by { ChargeStaysSound(b, req); }
  }

  lemma ChargeStaysSound(b: Bank, req: Request)
    requires LedgerSound(b) && req.paymentId !in b.store
    ensures LedgerSound(Charge(b, req))
  {
  }

  lemma ChargeCompletes(b: Bank, req: Request)
    requires LedgerComplete(b)
    ensures LedgerComplete(Charge(b, req))
  {
    var b' := Charge(b, req);
    assert ChargedAt(b'.ledger, req.paymentId, |b.ledger|);
    forall k | k in b.store ensures exists i :: ChargedAt(b'.ledger, k, i) {
      var i :| ChargedAt(b.ledger, k, i);
      assert ChargedAt(b'.ledger, k, i);
    }
  }

  /** The charge counter is not reset by a configuration or by the fail-n cycle. */
  lemma SameStoreKeepsBalance(b: Bank, b': Bank)
    requires Balanced(b) && b'.store == b.store && b'.charges == b.charges && b'.ledger == b.ledger
    ensures Balanced(b') && Extends(b, b')
  {
  }

  /** One evaluation keeps the balance, answers an authorization only from the store, and charges
      exactly when it stores a new key, with the request's own amount. */
  lemma AuthorizeKeepsBalance(b: Bank, req: Request)
    requires Balanced(b)
    ensures var (b', o) := Authorize(b, req); Balanced(b') && Extends(b, b')
    ensures var (b', o) := Authorize(b, req);
            o.Authorized? ==> req.paymentId in b'.store && o == b'.store[req.paymentId]
    ensures var (b', o) := Authorize(b, req);
            b'.ledger == (if req.paymentId !in b.store && req.paymentId in b'.store then b.ledger + [req] else b.ledger)
  {
    hide Balanced, Extends;
    var (b', o) := Authorize(b, req);
    if req.paymentId !in b.store && o.Authorized? {
      var b0 := if b.mode.FailNThenAuthorize? then b.(failCount := 0) else b;
      SameStoreKeepsBalance(b, b0);
      ChargeKeepsBalance(b0, req);
      ExtendsTrans(b, b0, b');
    } else {
      SameStoreKeepsBalance(b, b');
    }
  }

  lemma ExtendsTrans(a: Bank, b: Bank, c: Bank)
    requires Extends(a, b) && Extends(b, c)
    ensures Extends(a, c)
  {
  }

  lemma SetConfigKeepsBalance(b: Bank, mode: Option<Mode>, failN: Option<nat>, latencyMs: Option<nat>)
    requires Balanced(b)
    ensures var b' := SetConfig(b, mode, failN, latencyMs); Balanced(b') && Extends(b, b') && b'.store == b.store
  {
    hide Balanced, Extends;
    SameStoreKeepsBalance(b, SetConfig(b, mode, failN, latencyMs));
  }

  // ------------------------------------------- configuration poll and fail-n

  datatype ConfigRow = ConfigRow(mode: Mode, failN: nat, latencyMs: nat, updatedAt: int)

  datatype Synced = Synced(bank: Bank, lastAppliedAt: Option<int>)

  /** One tick; without a row the tick throws before it changes anything. */
  function SyncOnce(s: Synced, row: Option<ConfigRow>): Synced {
    match row
    case None => s
    case Some(r) =>
      var stale := s.lastAppliedAt.None? || s.lastAppliedAt.value < r.updatedAt;
      Synced(
        if stale then SetConfig(s.bank, Some(r.mode), Some(r.failN), Some(r.latencyMs)) else s.bank,
        Some(r.updatedAt))
  }

  class BankConfigSync {
    const bank: SimulatedBankAdapter
    var lastAppliedAt: Option<int>

    ghost function View(): Synced
      reads this, bank
    {
      Synced(bank.View(), lastAppliedAt)
    }

    constructor (bank: SimulatedBankAdapter)
      ensures this.bank == bank && lastAppliedAt == None
    {
      this.bank := bank;
      lastAppliedAt := None;
    }

    method Tick(row: Option<ConfigRow>)
      modifies this, bank
      ensures View() == SyncOnce(old(View()), row)
    {
      match row {
        case None =>
        case Some(r) =>
          if lastAppliedAt.None? || lastAppliedAt.value < r.updatedAt {
            bank.Configure(Some(r.mode), Some(r.failN), Some(r.latencyMs));
          }
          lastAppliedAt := Some(r.updatedAt);
      }
    }
  }

  /** What happens to the worker's bank: a request is evaluated or the poll ticks. */
  datatype BankOp = Evaluate(req: Request) | Tick(row: Option<ConfigRow>)

  function ApplyOp(s: Synced, op: BankOp): Synced {
    match op
    case Evaluate(req) => s.(bank := Authorize(s.bank, req).0)
    case Tick(row) => SyncOnce(s, row)
  }

  function AfterOps(s: Synced, ops: seq<BankOp>): Synced {
    if |ops| == 0 then s else ApplyOp(AfterOps(s, ops[..|ops| - 1]), ops[|ops| - 1])
  }

  /** Number of evaluations whose key had no stored outcome when they were made. */
  function Uncached(s: Synced, ops: seq<BankOp>): nat {
    if |ops| == 0 then 0 else
    var init := ops[..|ops| - 1];
    var op := ops[|ops| - 1];
    Uncached(s, init) +
    (if op.Evaluate? && op.req.paymentId !in AfterOps(s, init).bank.store then 1 else 0)
  }

  lemma {:induction false} NextQuotient(k: nat, m: nat)
    requires m > 0
    ensures k % m + 1 < m ==> (k + 1) / m == k / m && (k + 1) % m == k % m + 1
    ensures k % m + 1 >= m ==> (k + 1) / m == k / m + 1 && (k + 1) % m == 0
  {
    var q, r := k / m, k % m;
    assert k == q * m + r;
    if r + 1 < m {
      EuclidUnique(k + 1, m, q, r + 1);
    } else {
      assert (q + 1) * m == q * m + m;
      EuclidUnique(k + 1, m, q + 1, 0);
    }
  }

  lemma {:induction false} EuclidUnique(n: nat, m: nat, q: nat, r: nat)
    requires m > 0 && r < m && n == q * m + r
    ensures n / m == q && n % m == r
  {
    var q', r' := n / m, n % m;
    assert n == q' * m + r';
    MulGap(q, q', m);
    MulGap(q', q, m);
  }

  lemma {:induction false} MulGap(x: nat, y: nat, m: nat)
    ensures y > x ==> y * m >= x * m + m
  {
    if y > x {
      MulGap(x, y - 1, m);
      assert y * m == (y - 1) * m + m;
    }
  }

  /** From a freshly applied fail-n configuration, and however many ticks see the same
      `updatedAt`, every (failN + 1)-th uncached request is the one that is charged. */
  lemma {:induction false} FailNCycle(s: Synced, ops: seq<BankOp>)
    requires s.bank.mode.FailNThenAuthorize? && s.bank.failCount == 0 && s.lastAppliedAt.Some?
    requires forall i | 0 <= i < |ops| ::
               ops[i].Tick? && ops[i].row.Some? ==> ops[i].row.value.updatedAt == s.lastAppliedAt.value
    ensures var t := AfterOps(s, ops); var k := Uncached(s, ops);
            && t.bank.mode == s.bank.mode && t.bank.failN == s.bank.failN && t.lastAppliedAt == s.lastAppliedAt
            && t.bank.charges == s.bank.charges + k / (s.bank.failN + 1)
            && t.bank.failCount == k % (s.bank.failN + 1)
  {
    if |ops| > 0 {
      FailNCycle(s, ops[..|ops| - 1]);
      NextQuotient(Uncached(s, ops[..|ops| - 1]), s.bank.failN + 1);
    } else {
      EuclidUnique(0, s.bank.failN + 1, 0, 0);
    }
  }

  /** Since a newer fail-n row was applied, whatever mode, count and history the bank had before,
      every (failN + 1)-th uncached request is charged. */
  lemma FailNCycleSinceConfig(s: Synced, row: ConfigRow, ops: seq<BankOp>)
    requires row.mode.FailNThenAuthorize?
    requires s.lastAppliedAt.None? || s.lastAppliedAt.value < row.updatedAt
    requires forall i | 0 <= i < |ops| ::
               ops[i].Tick? && ops[i].row.Some? ==> ops[i].row.value.updatedAt == row.updatedAt
    ensures var applied := SyncOnce(s, Some(row));
            var t := AfterOps(applied, ops); var k := Uncached(applied, ops);
            && t.bank.mode.FailNThenAuthorize?
            && t.bank.charges == s.bank.charges + k / (row.failN + 1)
            && t.bank.failCount == k % (row.failN + 1)
  {
    hide AfterOps, Uncached;
    FailNCycle(SyncOnce(s, Some(row)), ops);
  }

  /** A newer row sets mode, failures and latency, and they stay until a newer one comes. */
  lemma {:induction false} ConfigHolds(s: Synced, row: ConfigRow, ops: seq<BankOp>)
    requires s.lastAppliedAt.None? || s.lastAppliedAt.value < row.updatedAt
    requires forall i | 0 <= i < |ops| ::
               ops[i].Tick? && ops[i].row.Some? ==> ops[i].row.value.updatedAt == row.updatedAt
    ensures var t := AfterOps(SyncOnce(s, Some(row)), ops);
            && t.bank.mode == row.mode && t.bank.failN == row.failN && t.bank.latencyMs == row.latencyMs
            && t.lastAppliedAt == Some(row.updatedAt)
  {
    if |ops| > 0 {
      ConfigHolds(s, row, ops[..|ops| - 1]);
    }
  }

  /** How the bank answers since it was configured. A request whose key has a stored outcome gets it again,
      and nothing changes. Any other is authorised and charged always, refused always, or, in fail-n mode,
      authorised exactly if it is the last of its cycle; a refusal stores nothing. */
  lemma AnswersSinceConfig(s: Synced, row: ConfigRow, ops: seq<BankOp>, req: Request)
    requires s.lastAppliedAt.None? || s.lastAppliedAt.value < row.updatedAt
    requires forall i | 0 <= i < |ops| ::
               ops[i].Tick? && ops[i].row.Some? ==> ops[i].row.value.updatedAt == row.updatedAt
    ensures var applied := SyncOnce(s, Some(row));
            var b := AfterOps(applied, ops).bank;
            var (b', outcome) := Authorize(b, req);
            if req.paymentId in b.store then b' == b && outcome == b.store[req.paymentId]
            else match row.mode
              case AlwaysAuthorize => Granted(b, b', outcome, req)
              case AlwaysDecline => b' == b && outcome == Declined(InsufficientFunds)
              case AlwaysError => b' == b && outcome == Error(true, BankUnavailable)
              case FailNThenAuthorize =>
                if Uncached(applied, ops) % (row.failN + 1) == row.failN then Granted(b, b', outcome, req)
                else outcome == Error(true, BankUnavailable) && b'.store == b.store && b'.charges == b.charges
  {
    ConfigHolds(s, row, ops);
    if row.mode.FailNThenAuthorize? { FailNCycleSinceConfig(s, row, ops); }
    hide AfterOps, Uncached, SyncOnce;
  }

  /** One more charge, of this request, and its authorization stored. */
  ghost predicate Granted(b: Bank, b': Bank, outcome: Outcome, req: Request) {
    && outcome == Authorized(BankRef(req.paymentId))
    && b'.charges == b.charges + 1 && b'.ledger == b.ledger + [req]
    && b'.store == b.store[req.paymentId := outcome]
  }
}
