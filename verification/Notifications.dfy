/** Webhook fan-out: the dispatcher as the second consumer of the outbox, running beside the whole
    pipeline, and what it implies end to end. */
module Notifications {
  import opened Options
  import opened Names
  import opened FreshNames
  import opened Sequences
  import opened Statuses
  import opened Banks
  import opened Tables
  import Pipeline
  import PI = PipelineInvariant
  import PS = PipelineSteps
  import PT = PipelineTheorems

  /** What a delivery row is created with. */
  datatype Delivery = Delivery(endpoint: Id, event: Id, kind: EventKind, order: Request, status: Option<Status>)

  /** `dispatched` is the marker webhook_dispatched_at, with the endpoints that were active in the
      transaction that set it. */
  datatype Hooks = Hooks(active: set<Id>, dispatched: map<Id, set<Id>>, deliveries: map<Id, Delivery>)

  datatype System = System(pipe: Pipeline.State, hooks: Hooks)

  datatype Step =
    | Pipe(step: Pipeline.Step)
    | AddEndpoint(ep: Id)
    | RetireEndpoint(ep: Id)
    | Dispatch(events: set<Id>, fan: map<Id, (Id, Id)>)

  /** One fresh delivery id for each pair of an event and an endpoint. */
  ghost predicate IsFan(fan: map<Id, (Id, Id)>, events: set<Id>, endpoints: set<Id>) {
    && (forall d | d in fan :: fan[d].0 in events && fan[d].1 in endpoints)
    && (forall d, d' | d in fan && d' in fan && fan[d] == fan[d'] :: d == d')
    && (forall e, ep | e in events && ep in endpoints :: exists d :: d in fan && fan[d] == (e, ep))
  }

  ghost predicate Dispatchable(db: Db, h: Hooks, e: Id) {
    e in db.outbox && !db.outbox[e].kind.PaymentSubmitted? && e !in h.dispatched
  }

  ghost predicate Enabled(s: System, a: Step) {
    match a
    case Pipe(step) => Pipeline.Enabled(s.pipe, step)
    case AddEndpoint(_) => true
    case RetireEndpoint(_) => true
    case Dispatch(events, fan) =>
      && (forall e | e in events :: Dispatchable(s.pipe.db, s.hooks, e))
      && IsFan(fan, events, s.hooks.active)
      && fan.Keys !! s.hooks.deliveries.Keys
  }

  function NewDelivery(db: Db, e: Id, ep: Id): Delivery
    requires e in db.outbox
  {
    Delivery(ep, e, db.outbox[e].kind, db.outbox[e].order, db.outbox[e].status)
  }

  /** The dispatcher's transaction: insert the deliveries and mark the events. */
  ghost function DispatchTxn(db: Db, h: Hooks, events: set<Id>, fan: map<Id, (Id, Id)>): Hooks
    requires forall d | d in fan :: fan[d].0 in db.outbox
  {
    Hooks(h.active,
          h.dispatched + (map e | e in events :: h.active),
          h.deliveries + NewRows(db, fan))
  }

  ghost function Apply(s: System, a: Step): System
    requires Enabled(s, a)
  {
    match a
    case Pipe(step) => s.(pipe := Pipeline.Apply(s.pipe, step))
    case AddEndpoint(ep) => s.(hooks := s.hooks.(active := s.hooks.active + {ep}))
    case RetireEndpoint(ep) => s.(hooks := s.hooks.(active := s.hooks.active - {ep}))
    case Dispatch(events, fan) =>
      assert forall d | d in fan :: Dispatchable(s.pipe.db, s.hooks, fan[d].0);
      s.(hooks := DispatchTxn(s.pipe.db, s.hooks, events, fan))
  }

  ghost predicate Run(s: System, steps: seq<Step>)
    decreases |steps|
  {
    |steps| > 0 ==> Enabled(s, steps[0]) && Run(Apply(s, steps[0]), steps[1..])
  }

  ghost function After(s: System, steps: seq<Step>): System
    requires Run(s, steps)
    decreases |steps|
  {
    if |steps| == 0 then s else After(Apply(s, steps[0]), steps[1..])
  }

  function Initial(maxRetries: nat): System {
    System(Pipeline.Initial(maxRetries), Hooks({}, map[], map[]))
  }

  ghost predicate Reachable(s: System) {
    exists maxRetries, steps :: Run(Initial(maxRetries), steps) && After(Initial(maxRetries), steps) == s
  }

  // ------------------------------------------------------------ invariant

  /** A delivery of this event to this endpoint. */
  ghost predicate Delivers(h: Hooks, d: Id, e: Id, ep: Id) {
    d in h.deliveries && h.deliveries[d].event == e && h.deliveries[d].endpoint == ep
  }

  ghost predicate DeliveryOk(db: Db, h: Hooks, d: Id)
    requires d in h.deliveries
  {
    var r := h.deliveries[d];
    && r.event in db.outbox && !db.outbox[r.event].kind.PaymentSubmitted?
    && r == NewDelivery(db, r.event, r.endpoint)
    && r.event in h.dispatched && r.endpoint in h.dispatched[r.event]
  }

  ghost predicate DeliveriesOk(db: Db, h: Hooks) {
    forall d | d in h.deliveries :: DeliveryOk(db, h, d)
  }

  /** The unique constraint on (event, endpoint). */
  ghost predicate UniquePairs(rows: map<Id, Delivery>) {
    forall d, d' | d in rows && d' in rows && rows[d].event == rows[d'].event
        && rows[d].endpoint == rows[d'].endpoint ::
      d == d'
  }

  ghost predicate DeliveriesUnique(h: Hooks) {
    UniquePairs(h.deliveries)
  }

  ghost predicate DeliveriesComplete(h: Hooks) {
    forall e, ep | e in h.dispatched && ep in h.dispatched[e] :: exists d :: Delivers(h, d, e, ep)
  }

  ghost predicate HooksInv(db: Db, h: Hooks) {
    DeliveriesOk(db, h) && DeliveriesUnique(h) && DeliveriesComplete(h)
  }

  lemma OutboxGrowthKeepsHooks(db: Db, db': Db, h: Hooks)
    requires HooksInv(db, h) && PT.KeepsTables(db, db')
    ensures HooksInv(db', h)
  {
    hide PT.KeepsPayment;
    forall d | d in h.deliveries ensures DeliveryOk(db', h, d) {
      assert DeliveryOk(db, h, d);
    }
  }

  lemma DispatchKeepsRows(db: Db, h: Hooks, events: set<Id>, fan: map<Id, (Id, Id)>)
    requires DeliveriesOk(db, h) && IsFan(fan, events, h.active) && fan.Keys !! h.deliveries.Keys
    requires forall e | e in events :: Dispatchable(db, h, e)
    ensures forall d | d in fan :: fan[d].0 in db.outbox
    ensures var h' := DispatchTxn(db, h, events, fan); DeliveriesOk(db, h')
  {
    assert forall d | d in fan :: Dispatchable(db, h, fan[d].0);
    var h' := DispatchTxn(db, h, events, fan);
    forall d | d in h'.deliveries ensures DeliveryOk(db, h', d) {
      if d !in fan { assert DeliveryOk(db, h, d); }
    }
  }

  ghost function NewRows(db: Db, fan: map<Id, (Id, Id)>): map<Id, Delivery>
    requires forall d | d in fan :: fan[d].0 in db.outbox
  {
    map d | d in fan :: NewDelivery(db, fan[d].0, fan[d].1)
  }

  lemma NewRowsUnique(db: Db, fan: map<Id, (Id, Id)>, events: set<Id>, endpoints: set<Id>)
    requires IsFan(fan, events, endpoints) && forall d | d in fan :: fan[d].0 in db.outbox
    ensures UniquePairs(NewRows(db, fan))
  {
    var rows := NewRows(db, fan);
    forall d, d' | d in rows && d' in rows && rows[d].event == rows[d'].event && rows[d].endpoint == rows[d'].endpoint
      ensures d == d'
    {
      assert fan[d] == (rows[d].event, rows[d].endpoint) && fan[d'] == (rows[d'].event, rows[d'].endpoint);
    }
  }

  lemma UniqueUnion(rows: map<Id, Delivery>, more: map<Id, Delivery>, events: set<Id>)
    requires UniquePairs(rows) && UniquePairs(more)
    requires (forall d | d in rows :: rows[d].event !in events) && (forall d | d in more :: more[d].event in events)
    ensures UniquePairs(rows + more)
  {
  }

  lemma DispatchKeepsUnique(db: Db, h: Hooks, events: set<Id>, fan: map<Id, (Id, Id)>)
    requires DeliveriesOk(db, h) && DeliveriesUnique(h) && IsFan(fan, events, h.active) && fan.Keys !! h.deliveries.Keys
    requires forall e | e in events :: Dispatchable(db, h, e)
    requires forall d | d in fan :: fan[d].0 in db.outbox
    ensures DeliveriesUnique(DispatchTxn(db, h, events, fan))
  {
    forall d | d in h.deliveries ensures h.deliveries[d].event !in events {
      assert DeliveryOk(db, h, d);
      assert h.deliveries[d].event in events ==> Dispatchable(db, h, h.deliveries[d].event);
    }
    hide UniquePairs;
    NewRowsUnique(db, fan, events, h.active);
    UniqueUnion(h.deliveries, NewRows(db, fan), events);
  }

  lemma DispatchCompletes(db: Db, h: Hooks, events: set<Id>, fan: map<Id, (Id, Id)>)
    requires DeliveriesComplete(h) && IsFan(fan, events, h.active) && fan.Keys !! h.deliveries.Keys
    requires forall d | d in fan :: fan[d].0 in db.outbox
    ensures DeliveriesComplete(DispatchTxn(db, h, events, fan))
  {
    var h' := DispatchTxn(db, h, events, fan);
    forall e, ep | e in h'.dispatched && ep in h'.dispatched[e] ensures exists d :: Delivers(h', d, e, ep) {
      if e in events {
        var d :| d in fan && fan[d] == (e, ep);
        assert Delivers(h', d, e, ep);
      } else {
        var d :| Delivers(h, d, e, ep);
        assert Delivers(h', d, e, ep);
      }
    }
  }

  /** Dispatched events keep their endpoints, and deliveries their contents. */
  ghost predicate HooksKept(h: Hooks, h': Hooks) {
    && (forall e | e in h.dispatched :: e in h'.dispatched && h'.dispatched[e] == h.dispatched[e])
    && (forall d | d in h.deliveries :: d in h'.deliveries && h'.deliveries[d] == h.deliveries[d])
  }

  lemma StepKeeps(s: System, a: Step)
    requires PI.Inv(s.pipe) && HooksInv(s.pipe.db, s.hooks) && Enabled(s, a)
    ensures var t := Apply(s, a); PI.Inv(t.pipe) && HooksInv(t.pipe.db, t.hooks) && HooksKept(s.hooks, t.hooks)
  {
    hide PI.Inv, HooksInv, Pipeline.Enabled, Pipeline.Apply, Evolves, PT.KeepsTables;
    match a
    case Pipe(step) =>
      PS.StepKeepsInv(s.pipe, step);
      PS.StepEvolves(s.pipe, step);
      PT.EvolvesKeepsTables(s.pipe.db, Pipeline.Apply(s.pipe, step).db);
      OutboxGrowthKeepsHooks(s.pipe.db, Pipeline.Apply(s.pipe, step).db, s.hooks);
    case AddEndpoint(ep) => EndpointsKeep(s.pipe.db, s.hooks, s.hooks.active + {ep});
    case RetireEndpoint(ep) => EndpointsKeep(s.pipe.db, s.hooks, s.hooks.active - {ep});
    case Dispatch(events, fan) => DispatchKeeps(s.pipe.db, s.hooks, events, fan);
  }

  lemma EndpointsKeep(db: Db, h: Hooks, active: set<Id>)
    requires HooksInv(db, h)
    ensures HooksInv(db, h.(active := active))
  {
    var h' := h.(active := active);
    forall d | d in h'.deliveries ensures DeliveryOk(db, h', d) { assert DeliveryOk(db, h, d); }
    forall e, ep | e in h'.dispatched && ep in h'.dispatched[e] ensures exists d :: Delivers(h', d, e, ep) {
      var d :| Delivers(h, d, e, ep);
      assert Delivers(h', d, e, ep);
    }
  }

  lemma DispatchKeeps(db: Db, h: Hooks, events: set<Id>, fan: map<Id, (Id, Id)>)
    requires HooksInv(db, h) && IsFan(fan, events, h.active) && fan.Keys !! h.deliveries.Keys
    requires forall e | e in events :: Dispatchable(db, h, e)
    ensures forall d | d in fan :: fan[d].0 in db.outbox
    ensures var h' := DispatchTxn(db, h, events, fan); HooksInv(db, h') && HooksKept(h, h')
  {
    hide DeliveriesOk, DeliveriesUnique, DeliveriesComplete;
    DispatchKeepsRows(db, h, events, fan);
    DispatchKeepsUnique(db, h, events, fan);
    DispatchCompletes(db, h, events, fan);
    assert forall e | e in events :: Dispatchable(db, h, e);
  }

  /** The pipeline part of a run of the whole system is a run of the pipeline. */
  lemma {:induction false} RunKeeps(s: System, steps: seq<Step>)
    requires PI.Inv(s.pipe) && HooksInv(s.pipe.db, s.hooks) && Run(s, steps)
    ensures var t := After(s, steps);
            PI.Inv(t.pipe) && HooksInv(t.pipe.db, t.hooks) && HooksKept(s.hooks, t.hooks)
                && Pipeline.LeadsTo(s.pipe, t.pipe)
    decreases |steps|
  {
    hide PI.Inv, HooksInv, Enabled, Apply, Pipeline.Enabled, Pipeline.Apply, Pipeline.LeadsTo;
    if |steps| == 0 {
      Pipeline.LeadsToItself(s.pipe);
    } else {
      var s1 := Apply(s, steps[0]);
      StepKeeps(s, steps[0]);
      RunKeeps(s1, steps[1..]);
      PipePart(s, steps[0]);
      if steps[0].Pipe? {
        LeadsFrom(s.pipe, steps[0].step, After(s, steps).pipe);
      }
    }
  }

  lemma PipePart(s: System, a: Step)
    requires Enabled(s, a)
    ensures if a.Pipe? then Pipeline.Enabled(s.pipe, a.step) && Apply(s, a).pipe == Pipeline.Apply(s.pipe, a.step)
            else Apply(s, a).pipe == s.pipe
  {
    hide Pipeline.Enabled, Pipeline.Apply;
  }

  lemma LeadsFrom(s: Pipeline.State, a: Pipeline.Step, t: Pipeline.State)
    requires Pipeline.Enabled(s, a) && Pipeline.LeadsTo(Pipeline.Apply(s, a), t)
    ensures Pipeline.LeadsTo(s, t)
  {
    hide Pipeline.Enabled, Pipeline.Apply;
    var steps :| Pipeline.Run(Pipeline.Apply(s, a), steps) && Pipeline.After(Pipeline.Apply(s, a), steps) == t;
    var all := [a] + steps;
    assert all[0] == a && all[1..] == steps;
    assert Pipeline.Run(s, all) && Pipeline.After(s, all) == t;
  }

  lemma {:induction false} RunAppend(s: System, steps: seq<Step>, a: Step)
    requires Run(s, steps) && Enabled(After(s, steps), a)
    ensures Run(s, steps + [a]) && After(s, steps + [a]) == Apply(After(s, steps), a)
    decreases |steps|
  {
    hide Enabled, Apply;
    if |steps| == 0 {
      assert steps + [a] == [a];
      assert [a][1..] == [];
      var t := Apply(s, a);
      assert Run(t, []) && After(t, []) == t;
    } else {
      assert (steps + [a])[0] == steps[0] && (steps + [a])[1..] == steps[1..] + [a];
      RunAppend(Apply(s, steps[0]), steps[1..], a);
    }
  }

  lemma ReachableStep(s: System, a: Step)
    requires Reachable(s) && Enabled(s, a)
    ensures Reachable(Apply(s, a))
  {
    hide Enabled, Apply;
    var maxRetries, steps :| Run(Initial(maxRetries), steps) && After(Initial(maxRetries), steps) == s;
    RunAppend(Initial(maxRetries), steps, a);
    assert Run(Initial(maxRetries), steps + [a]);
  }

  lemma ReachableParts(s: System)
    requires Reachable(s)
    ensures Pipeline.Reachable(s.pipe) && HooksInv(s.pipe.db, s.hooks) && PI.Inv(s.pipe)
  {
    hide PI.Inv, HooksInv, Enabled, Apply, Pipeline.Enabled, Pipeline.Apply;
    var maxRetries, steps :| Run(Initial(maxRetries), steps) && After(Initial(maxRetries), steps) == s;
    PS.InitialInv(maxRetries);
    assert HooksInv(EMPTY_DB, Hooks({}, map[], map[])) by { EmptyHooks(); }
    RunKeeps(Initial(maxRetries), steps);
    var all :| Pipeline.Run(Pipeline.Initial(maxRetries), all)
        && Pipeline.After(Pipeline.Initial(maxRetries), all) == s.pipe;
  }

  lemma EmptyHooks()
    ensures HooksInv(EMPTY_DB, Hooks({}, map[], map[]))
  {
  }

  // -------------------------------------------------------------- theorems

  /** A dispatched event has exactly one delivery for each endpoint that was active in its dispatch
      transaction, and none for others; an event not yet dispatched has none at all. */
  lemma OneDeliveryPerActiveEndpoint(s: System, e: Id, ep: Id)
    requires Reachable(s)
    ensures (exists d :: Delivers(s.hooks, d, e, ep)) <==> e in s.hooks.dispatched && ep in s.hooks.dispatched[e]
    ensures forall d, d' | Delivers(s.hooks, d, e, ep) && Delivers(s.hooks, d', e, ep) :: d == d'
  {
    hide PI.Inv;
    ReachableParts(s);
    forall d | Delivers(s.hooks, d, e, ep) ensures DeliveryOk(s.pipe.db, s.hooks, d) {}
  }

  /** End to end: an endpoint has at most one delivery about a payment, with the type, status and
      amount the payment ended with. */
  lemma NotifiedAtMostOnceWithFinalStatus(s: System, d: Id, d': Id)
    requires Reachable(s) && d in s.hooks.deliveries && d' in s.hooks.deliveries
    ensures var r := s.hooks.deliveries[d]; var p := r.order.paymentId;
            && p in s.pipe.db.payments && IsTerminal(s.pipe.db.payments[p].status)
            && r.kind == (if s.pipe.db.payments[p].status == COMPLETED then PaymentCompleted else PaymentFailed)
            && r.status == Some(s.pipe.db.payments[p].status)
            && Carries(r.order, s.pipe.db.payments[p])
            && ExhaustedCount(EventsOf(s.pipe.db, p)) == 0
    ensures var r, r' := s.hooks.deliveries[d], s.hooks.deliveries[d'];
            r.order.paymentId == r'.order.paymentId && r.endpoint == r'.endpoint ==> d == d'
  {
    hide PI.Inv, HooksKept;
    ReachableParts(s);
    DeliveryIsOfPayment(s, d);
    DeliveryIsOfPayment(s, d');
    var r, r' := s.hooks.deliveries[d], s.hooks.deliveries[d'];
    if r.order.paymentId == r'.order.paymentId {
      PT.EmissionUnique(s.pipe, r.order.paymentId, r.event, r'.event);
    }
  }

  lemma DeliveryIsOfPayment(s: System, d: Id)
    requires PI.Inv(s.pipe) && HooksInv(s.pipe.db, s.hooks) && d in s.hooks.deliveries
    ensures var r := s.hooks.deliveries[d]; var p := r.order.paymentId;
            && TerminalRow(s.pipe.db, p, r.event)
            && p in s.pipe.db.payments && IsTerminal(s.pipe.db.payments[p].status)
            && r.kind == (if s.pipe.db.payments[p].status == COMPLETED then PaymentCompleted else PaymentFailed)
            && r.status == Some(s.pipe.db.payments[p].status)
            && Carries(r.order, s.pipe.db.payments[p])
            && ExhaustedCount(EventsOf(s.pipe.db, p)) == 0
  {
    hide PI.Inv;
    assert DeliveryOk(s.pipe.db, s.hooks, d);
    var r := s.hooks.deliveries[d];
    var p := s.pipe.db.outbox[r.event].aggregate;
    PT.EmissionIs(s.pipe, p, r.event);
  }

  /** So no endpoint ever gets a delivery about a payment that failed by exhausting its retries. */
  lemma ExhaustionIsSilent(s: System, steps: seq<Step>, p: Id)
    requires Reachable(s) && Run(s, steps)
    requires p in s.pipe.db.payments && IsTerminal(s.pipe.db.payments[p].status)
        && ExhaustedCount(EventsOf(s.pipe.db, p)) == 1
    ensures var t := After(s, steps); forall d | d in t.hooks.deliveries :: t.hooks.deliveries[d].order.paymentId != p
  {
    hide PI.Inv, HooksInv, Enabled, Apply, Pipeline.Enabled, Pipeline.Apply;
    ReachableParts(s);
    RunKeeps(s, steps);
    var t := After(s, steps);
    var all :| Pipeline.Run(s.pipe, all) && Pipeline.After(s.pipe, all) == t.pipe;
    PT.TerminalIsFrozen(s.pipe, all, p);
    forall d | d in t.hooks.deliveries
      ensures ExhaustedCount(EventsOf(t.pipe.db, t.hooks.deliveries[d].order.paymentId)) == 0
    {
      DeliveryIsOfPayment(t, d);
    }
  }

  /** What was dispatched stays dispatched, to the same endpoints, whichever come and go later. */
  lemma DispatchIsPermanent(s: System, steps: seq<Step>)
    requires Reachable(s) && Run(s, steps)
    ensures HooksKept(s.hooks, After(s, steps).hooks)
  {
    hide PI.Inv, HooksInv, Enabled, Apply;
    ReachableParts(s);
    RunKeeps(s, steps);
  }

  /** Fresh delivery ids for one event and any endpoints. */
  lemma {:induction false} FreshFan(e: Id, endpoints: set<Id>, used: set<Id>) returns (fan: map<Id, (Id, Id)>)
    ensures IsFan(fan, {e}, endpoints) && fan.Keys !! used
    decreases endpoints
  {
    if endpoints == {} {
      fan := map[];
    } else {
      var ep :| ep in endpoints;
      fan := FreshFan(e, endpoints - {ep}, used);
      var d := FreshNat(used + fan.Keys);
      fan := FanGrows(fan, e, endpoints, ep, d);
    }
  }

  lemma FanGrows(fan0: map<Id, (Id, Id)>, e: Id, endpoints: set<Id>, ep: Id, d: Id) returns (fan: map<Id, (Id, Id)>)
    requires IsFan(fan0, {e}, endpoints - {ep}) && ep in endpoints && d !in fan0
    ensures fan == fan0[d := (e, ep)] && IsFan(fan, {e}, endpoints)
  {
    fan := fan0[d := (e, ep)];
    forall x, q | x in {e} && q in endpoints ensures exists i :: i in fan && fan[i] == (x, q) {
      if q == ep {
        assert d in fan && fan[d] == (x, q);
      } else {
        assert x in {e} && q in endpoints - {ep};
        var i :| i in fan0 && fan0[i] == (x, q);
        assert i in fan && fan[i] == (x, q);
      }
    }
  }

  /** A terminal event waits for nothing but its dispatch: until it is dispatched some tick can take it, to
      exactly the endpoints that are active then. */
  lemma TerminalEventsAreDispatchable(s: System, e: Id)
    requires e in s.pipe.db.outbox && e !in s.hooks.dispatched
    requires s.pipe.db.outbox[e].kind in {PaymentCompleted, PaymentFailed}
    ensures exists fan :: Enabled(s, Dispatch({e}, fan)) && Dispatches(s, e, fan)
  {
    var fan := FreshFan(e, s.hooks.active, s.hooks.deliveries.Keys);
    assert Dispatchable(s.pipe.db, s.hooks, e);
    hide IsFan;
    assert Enabled(s, Dispatch({e}, fan));
    assert Dispatches(s, e, fan);
  }

  ghost predicate Dispatches(s: System, e: Id, fan: map<Id, (Id, Id)>)
    requires Enabled(s, Dispatch({e}, fan))
  {
    var t := Apply(s, Dispatch({e}, fan));
    e in t.hooks.dispatched && t.hooks.dispatched[e] == s.hooks.active
  }

  // --------------------------------------------------- the dispatcher's code

  function Pairs(e: Id, endpoints: seq<Id>): seq<(Id, Id)> {
    if |endpoints| == 0 then [] else Pairs(e, endpoints[..|endpoints| - 1]) + [(e, endpoints[|endpoints| - 1])]
  }

  function Product(events: seq<Id>, endpoints: seq<Id>): seq<(Id, Id)> {
    if |events| == 0 then [] else Product(events[..|events| - 1], endpoints) + Pairs(events[|events| - 1], endpoints)
  }

  lemma DistinctConcat<T>(xs: seq<T>, ys: seq<T>)
    requires Distinct(xs) && Distinct(ys) && forall x | x in xs :: x !in ys
    ensures Distinct(xs + ys)
  {
    var zs := xs + ys;
    forall i, j | 0 <= i < j < |zs| ensures zs[i] != zs[j] {
      if i < |xs| { assert zs[i] in xs; }
      if j >= |xs| { assert zs[j] in ys; }
    }
  }

  lemma {:induction false} PairsAre(e: Id, endpoints: seq<Id>)
    requires Distinct(endpoints)
    ensures Distinct(Pairs(e, endpoints)) && forall q :: q in Pairs(e, endpoints) <==> q.0 == e && q.1 in endpoints
  {
    if |endpoints| > 0 {
      var n := |endpoints| - 1;
      PairsAre(e, endpoints[..n]);
      assert endpoints == endpoints[..n] + [endpoints[n]];
      assert endpoints[n] !in endpoints[..n];
      DistinctConcat(Pairs(e, endpoints[..n]), [(e, endpoints[n])]);
    }
  }

  lemma {:induction false} ProductIs(events: seq<Id>, endpoints: seq<Id>)
    requires Distinct(events) && Distinct(endpoints)
    ensures Distinct(Product(events, endpoints))
    ensures forall q :: q in Product(events, endpoints) <==> q.0 in events && q.1 in endpoints
  {
    if |events| > 0 {
      var n := |events| - 1;
      ProductIs(events[..n], endpoints);
      PairsAre(events[n], endpoints);
      assert events == events[..n] + [events[n]];
      assert events[n] !in events[..n];
      DistinctConcat(Product(events[..n], endpoints), Pairs(events[n], endpoints));
    }
  }

  ghost function FanOf(ids: seq<Id>, pairs: seq<(Id, Id)>): map<Id, (Id, Id)>
    requires |ids| == |pairs|
  {
    if |ids| == 0 then map[] else
    var n := |ids| - 1;
    FanOf(ids[..n], pairs[..n])[ids[n] := pairs[n]]
  }

  lemma {:induction false} FanOfIs(ids: seq<Id>, pairs: seq<(Id, Id)>)
    requires |ids| == |pairs| && Distinct(ids)
    ensures forall d :: d in FanOf(ids, pairs) <==> d in ids
    ensures forall i | 0 <= i < |ids| :: FanOf(ids, pairs)[ids[i]] == pairs[i]
  {
    if |ids| > 0 {
      var n := |ids| - 1;
      FanOfIs(ids[..n], pairs[..n]);
      var before := FanOf(ids[..n], pairs[..n]);
      assert FanOf(ids, pairs) == before[ids[n] := pairs[n]];
      hide FanOf;
      assert ids == ids[..n] + [ids[n]];
      forall i | 0 <= i < |ids| ensures FanOf(ids, pairs)[ids[i]] == pairs[i] {
        if i < n { assert ids[..n][i] == ids[i] && pairs[..n][i] == pairs[i]; }
      }
    }
  }

  /** Every entry of the fan is some pair under its own id. */
  lemma FanEntry(ids: seq<Id>, pairs: seq<(Id, Id)>, d: Id) returns (i: nat)
    requires |ids| == |pairs| && Distinct(ids) && d in FanOf(ids, pairs)
    ensures i < |ids| && ids[i] == d && FanOf(ids, pairs)[d] == pairs[i]
  {
    hide FanOf, Distinct;
    FanOfIs(ids, pairs);
    i :| 0 <= i < |ids| && ids[i] == d;
  }

  lemma FanInjective(ids: seq<Id>, pairs: seq<(Id, Id)>, d: Id, d': Id)
    requires |ids| == |pairs| && Distinct(ids) && Distinct(pairs)
    requires d in FanOf(ids, pairs) && d' in FanOf(ids, pairs) && FanOf(ids, pairs)[d] == FanOf(ids, pairs)[d']
    ensures d == d'
  {
    hide FanOf;
    var i := FanEntry(ids, pairs, d);
    var j := FanEntry(ids, pairs, d');
  }

  lemma FanCovers(ids: seq<Id>, pairs: seq<(Id, Id)>, q: (Id, Id))
    requires |ids| == |pairs| && Distinct(ids) && q in pairs
    ensures exists d :: d in FanOf(ids, pairs) && FanOf(ids, pairs)[d] == q
  {
    hide FanOf, Distinct;
    FanOfIs(ids, pairs);
    var i :| 0 <= i < |pairs| && pairs[i] == q;
    assert ids[i] in ids;
  }

  /** The code's nested iteration yields one delivery for each pair. */
  lemma ProductIsFan(ids: seq<Id>, events: seq<Id>, endpoints: seq<Id>)
    requires Distinct(ids) && Distinct(events) && Distinct(endpoints) && |ids| == |Product(events, endpoints)|
    ensures IsFan(FanOf(ids, Product(events, endpoints)), (set e | e in events), (set ep | ep in endpoints))
  {
    hide Product, FanOf, Distinct;
    var pairs := Product(events, endpoints);
    var fan := FanOf(ids, pairs);
    ProductIs(events, endpoints);
    forall d, d' | d in fan && d' in fan && fan[d] == fan[d'] ensures d == d' {
      FanInjective(ids, pairs, d, d');
    }
    forall e, ep | e in events && ep in endpoints ensures exists d :: d in fan && fan[d] == (e, ep) {
      FanCovers(ids, pairs, (e, ep));
    }
    forall d | d in fan ensures fan[d].0 in events && fan[d].1 in endpoints {
      var i := FanEntry(ids, pairs, d);
      assert pairs[i] in pairs;
    }
  }

  /** The deliveries table after inserting these pairs under these ids, in order. */
  function InsertAll(
    rows: map<Id, Delivery>, outbox: map<Id, OutboxRow>, ids: seq<Id>, pairs: seq<(Id, Id)>): map<Id, Delivery>
    requires |ids| == |pairs| && forall q | q in pairs :: q.0 in outbox
  {
    if |ids| == 0 then rows else
    var n := |ids| - 1;
    assert pairs[n] in pairs;
    var row := outbox[pairs[n].0];
    var delivery := Delivery(pairs[n].1, pairs[n].0, row.kind, row.order, row.status);
    InsertAll(rows, outbox, ids[..n], pairs[..n])[ids[n] := delivery]
  }

  lemma UpdateOfUnion<K, V>(m: map<K, V>, n: map<K, V>, k: K, v: V)
    ensures m + n[k := v] == (m + n)[k := v]
  {
  }

  lemma NewRowsGrow(db: Db, fan: map<Id, (Id, Id)>, d: Id, q: (Id, Id))
    requires (forall x | x in fan :: fan[x].0 in db.outbox) && q.0 in db.outbox
    ensures NewRows(db, fan[d := q]) == NewRows(db, fan)[d := NewDelivery(db, q.0, q.1)]
  {
  }

  lemma {:induction false} FanFromPairs(ids: seq<Id>, pairs: seq<(Id, Id)>)
    requires |ids| == |pairs|
    ensures forall d | d in FanOf(ids, pairs) :: FanOf(ids, pairs)[d] in pairs
  {
    if |ids| > 0 {
      var n := |ids| - 1;
      FanFromPairs(ids[..n], pairs[..n]);
      assert pairs == pairs[..n] + [pairs[n]];
    }
  }

  lemma {:induction false} InsertAllIsFan(db: Db, rows: map<Id, Delivery>, ids: seq<Id>, pairs: seq<(Id, Id)>)
    requires |ids| == |pairs| && forall q | q in pairs :: q.0 in db.outbox
    ensures forall d | d in FanOf(ids, pairs) :: FanOf(ids, pairs)[d].0 in db.outbox
    ensures InsertAll(rows, db.outbox, ids, pairs) == rows + NewRows(db, FanOf(ids, pairs))
  {
    hide NewRows;
    FanFromPairs(ids, pairs);
    if |ids| == 0 {
      NoNewRows(db);
    } else {
      var n := |ids| - 1;
      InsertAllIsFan(db, rows, ids[..n], pairs[..n]);
      assert pairs[n] in pairs;
      var fan := FanOf(ids[..n], pairs[..n]);
      var row := NewDelivery(db, pairs[n].0, pairs[n].1);
      NewRowsGrow(db, fan, ids[n], pairs[n]);
      UpdateOfUnion(rows, NewRows(db, fan), ids[n], row);
    }
  }

  lemma NoNewRows(db: Db)
    ensures NewRows(db, map[]) == map[]
  {
  }

  lemma TickIsDispatch(db: Db, h: Hooks, events: seq<Id>, fan: map<Id, (Id, Id)>, h': Hooks)
    requires forall d | d in fan :: fan[d].0 in db.outbox
    requires h' == Hooks(h.active, h.dispatched + (map e | e in events :: h.active), h.deliveries + NewRows(db, fan))
    ensures h' == DispatchTxn(db, h, (set e | e in events), fan)
  {
    hide NewRows;
  }

  class WebhookDispatcherService {
    var outbox: map<Id, OutboxRow>
    var dispatched: map<Id, set<Id>>
    var deliveries: map<Id, Delivery>

    constructor (outbox: map<Id, OutboxRow>)
      ensures this.outbox == outbox && dispatched == map[] && deliveries == map[]
    {
      this.outbox := outbox;
      dispatched, deliveries := map[], map[];
    }

    /** `events.flatMap(e => endpoints.map(...))`. */
    method Fan(events: seq<Id>, endpoints: seq<Id>) returns (pairs: seq<(Id, Id)>)
      ensures pairs == Product(events, endpoints)
    {
      pairs := [];
      for i := 0 to |events|
        invariant pairs == Product(events[..i], endpoints)
      {
        var row: seq<(Id, Id)> := [];
        for j := 0 to |endpoints|
          invariant row == Pairs(events[i], endpoints[..j])
        {
          assert endpoints[..j + 1][..j] == endpoints[..j];
          row := row + [(events[i], endpoints[j])];
        }
        assert endpoints[..|endpoints|] == endpoints;
        assert events[..i + 1][..i] == events[..i];
        pairs := pairs + row;
      }
      assert events[..|events|] == events;
    }

    method InsertDeliveries(ids: seq<Id>, pairs: seq<(Id, Id)>)
      requires |ids| == |pairs| && forall q | q in pairs :: q.0 in outbox
      modifies this`deliveries
      ensures deliveries == InsertAll(old(deliveries), outbox, ids, pairs)
    {
      for i := 0 to |ids|
        invariant deliveries == InsertAll(old(deliveries), outbox, ids[..i], pairs[..i])
      {
        assert ids[..i + 1][..i] == ids[..i] && pairs[..i + 1][..i] == pairs[..i];
        assert pairs[i] in pairs;
        var row := outbox[pairs[i].0];
        deliveries := deliveries[ids[i] := Delivery(pairs[i].1, pairs[i].0, row.kind, row.order, row.status)];
      }
      assert ids[..|ids|] == ids && pairs[..|pairs|] == pairs;
    }

    method MarkDispatched(events: seq<Id>, endpoints: seq<Id>)
      modifies this`dispatched
      ensures var active := set ep | ep in endpoints; dispatched == old(dispatched) + map e | e in events :: active
    {
      var active := set ep | ep in endpoints;
      for i := 0 to |events|
        invariant dispatched == old(dispatched) + map e | e in events[..i] :: active
      {
        dispatched := dispatched[events[i] := active];
        assert events[..i + 1] == events[..i] + [events[i]];
      }
      assert events[..|events|] == events;
    }

    /** One tick over the events its select locked and the endpoints active then; `ids` are the
        generated delivery ids. The result is what gets enqueued after the commit. */
    method PollOnce(ghost db: Db, ghost hooks: Hooks, events: seq<Id>, endpoints: seq<Id>, ids: seq<Id>)
        returns (enqueued: seq<Id>)
      requires Distinct(ids) && Distinct(events) && Distinct(endpoints) && |ids| == |Product(events, endpoints)|
      requires db.outbox == outbox && hooks == Hooks((set ep | ep in endpoints), dispatched, deliveries)
      requires forall e | e in events :: Dispatchable(db, hooks, e)
      modifies this`dispatched, this`deliveries
      ensures var fan := FanOf(ids, Product(events, endpoints));
              && IsFan(fan, (set e | e in events), hooks.active)
              && (forall d | d in fan :: fan[d].0 in db.outbox)
              && Hooks(hooks.active, dispatched, deliveries) == DispatchTxn(db, hooks, (set e | e in events), fan)
      ensures enqueued == ids
    {
      hide IsFan, Distinct, InsertAll, Product, FanOf, NewRows, DispatchTxn;
      ProductIsFan(ids, events, endpoints);
      ProductIs(events, endpoints);
      assert forall q | q in Product(events, endpoints) :: Dispatchable(db, hooks, q.0);
      InsertAllIsFan(db, deliveries, ids, Product(events, endpoints));
      var pairs := Fan(events, endpoints);
      InsertDeliveries(ids, pairs);
      MarkDispatched(events, endpoints);
      TickIsDispatch(db, hooks, events, FanOf(ids, pairs), Hooks(hooks.active, dispatched, deliveries));
      enqueued := ids;
    }
  }
}
