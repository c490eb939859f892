/** Pipeline, dispatcher and delivery together: a payment's end reaches each endpoint that was active when
    its event was dispatched, or can still be made to. */
module EndToEnd {
  import opened Options
  import opened Names
  import Statuses
  import opened Tables
  import Pipeline
  import N = Notifications
  import W = Webhooks
  import O = WebhookOutcomes

  datatype Whole = Whole(system: N.System, hooks: W.State)

  /** The dispatcher's transaction inserts the delivery rows that the webhook system then works on. */
  datatype Step = Outer(step: N.Step) | Inner(action: W.Step)

  ghost predicate Enabled(s: Whole, a: Step) {
    match a
    case Outer(step) => N.Enabled(s.system, step) && (step.Dispatch? ==> step.fan.Keys !! s.hooks.rows.Keys)
    case Inner(action) => W.Enabled(s.hooks, action) && !action.Insert?
  }

  ghost function Apply(s: Whole, a: Step): Whole
    requires Enabled(s, a)
  {
    match a
    case Outer(step) =>
      Whole(N.Apply(s.system, step),
            if step.Dispatch? then W.Apply(s.hooks, W.Insert(step.fan.Keys)) else s.hooks)
    case Inner(action) => s.(hooks := W.Apply(s.hooks, action))
  }

  ghost predicate Run(s: Whole, steps: seq<Step>)
    decreases |steps|
  {
    |steps| > 0 ==> Enabled(s, steps[0]) && Run(Apply(s, steps[0]), steps[1..])
  }

  ghost function After(s: Whole, steps: seq<Step>): Whole
    requires Run(s, steps)
    decreases |steps|
  {
    if |steps| == 0 then s else After(Apply(s, steps[0]), steps[1..])
  }

  function Initial(maxRetries: nat, maxAttempts: nat): Whole {
    Whole(N.Initial(maxRetries), W.Initial(maxAttempts))
  }

  ghost predicate Reachable(s: Whole) {
    exists maxRetries: nat, maxAttempts: nat, steps ::
      && maxAttempts >= 1 && Run(Initial(maxRetries, maxAttempts), steps)
      && After(Initial(maxRetries, maxAttempts), steps) == s
  }

  /** Both parts know the same deliveries. */
  ghost predicate Joined(s: Whole) {
    N.Reachable(s.system) && W.Reachable(s.hooks) && s.hooks.rows.Keys == s.system.hooks.deliveries.Keys
  }

  lemma RowsOnlyByInsert(s: W.State, a: W.Step)
    requires W.Enabled(s, a)
    ensures W.Apply(s, a).rows.Keys == s.rows.Keys + if a.Insert? then a.ds else {}
  {
    hide W.Add;
  }

  lemma DeliveriesOnlyByDispatch(s: N.System, a: N.Step)
    requires N.Enabled(s, a)
    ensures N.Apply(s, a).hooks.deliveries.Keys == s.hooks.deliveries.Keys + if a.Dispatch? then a.fan.Keys else {}
  {
    hide Pipeline.Enabled, Pipeline.Apply;
    if a.Dispatch? { assert forall d | d in a.fan :: N.Dispatchable(s.pipe.db, s.hooks, a.fan[d].0); }
  }

  lemma StepKeepsJoined(s: Whole, a: Step)
    requires Joined(s) && Enabled(s, a)
    ensures Joined(Apply(s, a))
  {
    hide N.Enabled, N.Apply, N.Reachable, W.Enabled, W.Apply, W.Reachable;
    match a
    case Outer(step) =>
      N.ReachableStep(s.system, step);
      DeliveriesOnlyByDispatch(s.system, step);
      if step.Dispatch? {
        assert W.Enabled(s.hooks, W.Insert(step.fan.Keys)) by { InsertIsEnabled(s.hooks, step.fan.Keys); }
        W.ReachableStep(s.hooks, W.Insert(step.fan.Keys));
        RowsOnlyByInsert(s.hooks, W.Insert(step.fan.Keys));
      }
    case Inner(action) =>
      W.ReachableStep(s.hooks, action);
      RowsOnlyByInsert(s.hooks, action);
  }

  lemma InsertIsEnabled(s: W.State, ds: set<Id>)
    requires ds !! s.rows.Keys
    ensures W.Enabled(s, W.Insert(ds))
  {
  }

  lemma {:induction false} RunKeepsJoined(s: Whole, steps: seq<Step>)
    requires Joined(s) && Run(s, steps)
    ensures Joined(After(s, steps))
    decreases |steps|
  {
    hide Enabled, Apply, Joined;
    if |steps| > 0 {
      StepKeepsJoined(s, steps[0]);
      RunKeepsJoined(Apply(s, steps[0]), steps[1..]);
    }
  }

  lemma InitialIsJoined(maxRetries: nat, maxAttempts: nat)
    requires maxAttempts >= 1
    ensures Joined(Initial(maxRetries, maxAttempts))
  {
    assert N.Run(N.Initial(maxRetries), []) && N.After(N.Initial(maxRetries), []) == N.Initial(maxRetries);
    assert W.Run(W.Initial(maxAttempts), []) && W.After(W.Initial(maxAttempts), []) == W.Initial(maxAttempts);
  }

  lemma ReachableIsJoined(s: Whole)
    requires Reachable(s)
    ensures Joined(s)
  {
    hide Enabled, Apply, Joined;
    var maxRetries: nat, maxAttempts: nat, steps :|
      && maxAttempts >= 1 && Run(Initial(maxRetries, maxAttempts), steps)
      && After(Initial(maxRetries, maxAttempts), steps) == s;
    InitialIsJoined(maxRetries, maxAttempts);
    RunKeepsJoined(Initial(maxRetries, maxAttempts), steps);
  }

  /** A run of the webhook system is one of the whole that leaves the rest alone. */
  lemma {:induction false} InnerRun(s: Whole, actions: seq<W.Step>) returns (steps: seq<Step>)
    requires W.Run(s.hooks, actions) && O.NoInserts(actions)
    ensures Run(s, steps) && After(s, steps) == Whole(s.system, W.After(s.hooks, actions))
    decreases |actions|
  {
    hide W.Enabled, W.Apply;
    if |actions| == 0 {
      steps := [];
    } else {
      assert !actions[0].Insert?;
      var a := Inner(actions[0]);
      var rest := InnerRun(Apply(s, a), actions[1..]);
      steps := [a] + rest;
      assert steps[1..] == rest;
    }
  }

  /** From every reachable state some run of the whole delivers this. */
  ghost predicate CanDeliver(s: Whole, d: Id) {
    exists steps :: Run(s, steps) && d in After(s, steps).hooks.rows && After(s, steps).hooks.rows[d].status.Delivered?
  }

  /** For each endpoint that was active when a payment's terminal event was dispatched there is exactly one
      delivery, carrying the payment's final status and amount; and unless it is dead, with no call under
      way that could rewrite it, it is delivered or can still be. */
  lemma EveryEndpointCanBeTold(s: Whole, e: Id, ep: Id)
    requires Reachable(s) && e in s.system.hooks.dispatched && ep in s.system.hooks.dispatched[e]
    ensures exists d :: Told(s, d, e, ep) && forall d' | N.Delivers(s.system.hooks, d', e, ep) :: d' == d
  {
    hide N.Reachable, W.Reachable, CanDeliver, O.Quiet;
    ReachableIsJoined(s);
    N.OneDeliveryPerActiveEndpoint(s.system, e, ep);
    var d :| N.Delivers(s.system.hooks, d, e, ep);
    N.NotifiedAtMostOnceWithFinalStatus(s.system, d, d);
    if !(s.hooks.rows[d].status.Dead? && O.Quiet(s.hooks, d)) {
      DeliverableInWhole(s, d);
    }
    assert Told(s, d, e, ep);
  }

  lemma DeliverableInWhole(s: Whole, d: Id)
    requires W.Reachable(s.hooks) && d in s.hooks.rows && !(s.hooks.rows[d].status.Dead? && O.Quiet(s.hooks, d))
    ensures CanDeliver(s, d)
  {
    hide W.Reachable, O.Quiet, W.Enabled, W.Apply, Enabled, Apply;
    O.DeliverableIff(s.hooks, d);
    var t :| O.LeadsTo(s.hooks, t) && d in t.rows && t.rows[d].status.Delivered?;
    var actions :| W.Run(s.hooks, actions) && W.After(s.hooks, actions) == t && O.NoInserts(actions);
    var steps := InnerRun(s, actions);
  }

  ghost predicate Told(s: Whole, d: Id, e: Id, ep: Id) {
    && N.Delivers(s.system.hooks, d, e, ep) && d in s.hooks.rows
    && var r := s.system.hooks.deliveries[d]; var p := r.order.paymentId;
       && p in s.system.pipe.db.payments
       && r.status == Some(s.system.pipe.db.payments[p].status)
       && Carries(r.order, s.system.pipe.db.payments[p])
       && (r.kind.PaymentCompleted? <==> s.system.pipe.db.payments[p].status == Statuses.COMPLETED)
       && !r.kind.PaymentSubmitted?
       && (CanDeliver(s, d) || (s.hooks.rows[d].status.Dead? && O.Quiet(s.hooks, d)))
  }
}
