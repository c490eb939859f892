/** How deliveries end: which rows are final, which can still be delivered, and what can go wrong. */
module WebhookOutcomes {
  import opened Options
  import opened Names
  import opened FreshNames
  import opened Deliveries
  import opened Webhooks
  import opened WebhookCounts
  import opened SingleDriving

  // ----------------------------------------------------------------- finality

  /** The call can still change the row of its delivery, as it stands: it has yet to POST, or its write would
      not repeat what is there. */
  ghost predicate MayRewrite(s: State, c: nat, d: Id) {
    && c in s.calls && s.calls[c].job.delivery == d && d in s.rows
    && match s.calls[c].stage
       case Sending(_) => true
       case Sent(snapshot, ok) => ok || s.rows[d].status.Delivered? || snapshot.attempts + 1 < s.maxAttempts
       case _ => false
  }

  ghost predicate Quiet(s: State, d: Id) {
    d in s.rows && IsTerminal(s.rows[d]) && forall c :: !MayRewrite(s, c, d)
  }

  ghost predicate Final(s: State, d: Id)
    requires d in s.rows
  {
    forall steps | Run(s, steps) :: d in After(s, steps).rows && After(s, steps).rows[d] == s.rows[d]
  }

  lemma StepKeepsEndedRow(s: State, a: Step, d: Id)
    requires Sound(s) && Enabled(s, a) && Quiet(s, d)
    ensures d in Apply(s, a).rows && Apply(s, a).rows[d] == s.rows[d]
    ensures Apply(s, a).maxAttempts == s.maxAttempts
  {
    StepOnRow(s, a, d);
    if a.Commit? { assert CallOk(s, s.calls[a.c]) && !MayRewrite(s, a.c, d); }
    hide Apply, CallsOk, PromisesOk, JobsOk, Quiet;
  }

  /** A call that reads an ended row is done, and none of the others changes how it stands to it. */
  lemma StepOnRewriters(s: State, a: Step, d: Id, c: nat)
    requires Enabled(s, a) && Quiet(s, d) && d in Apply(s, a).rows && Apply(s, a).rows[d] == s.rows[d]
    requires Apply(s, a).maxAttempts == s.maxAttempts
    ensures !MayRewrite(Apply(s, a), c, d)
  {
    assert !MayRewrite(s, c, d);
    if Moves(a, c) {
      hide Quiet, Add, Write;
    } else if c in Apply(s, a).calls {
      OtherCallsStay(s, a, c);
      hide Apply, Enabled, Quiet;
    }
  }

  lemma StepKeepsQuiet(s: State, a: Step, d: Id)
    requires Sound(s) && Enabled(s, a) && Quiet(s, d)
    ensures Quiet(Apply(s, a), d) && Apply(s, a).rows[d] == s.rows[d]
  {
    StepKeepsEndedRow(s, a, d);
    hide Enabled, Apply, Sound, MayRewrite;
    forall c ensures !MayRewrite(Apply(s, a), c, d) { StepOnRewriters(s, a, d, c); }
  }

  lemma {:induction false} QuietStays(s: State, steps: seq<Step>, d: Id)
    requires Sound(s) && Quiet(s, d) && Run(s, steps)
    ensures Quiet(After(s, steps), d) && After(s, steps).rows[d] == s.rows[d]
    decreases |steps|
  {
    hide Enabled, Apply, Sound, Quiet;
    if |steps| > 0 {
      StepKeepsSound(s, steps[0]);
      StepKeepsQuiet(s, steps[0], d);
      QuietStays(Apply(s, steps[0]), steps[1..], d);
    }
  }

  ghost predicate NoInserts(steps: seq<Step>) {
    forall i | 0 <= i < |steps| :: !steps[i].Insert?
  }

  /** A run without new deliveries leads from one state to the other. */
  ghost predicate LeadsTo(s: State, t: State) {
    exists steps :: Run(s, steps) && After(s, steps) == t && NoInserts(steps)
  }

  lemma LeadsToItself(s: State)
    ensures LeadsTo(s, s)
  {
    assert Run(s, []) && After(s, []) == s;
  }

  lemma LeadsOn(s: State, t: State, a: Step)
    requires LeadsTo(s, t) && Enabled(t, a) && !a.Insert?
    ensures LeadsTo(s, Apply(t, a))
  {
    hide Enabled, Apply;
    var steps :| Run(s, steps) && After(s, steps) == t && NoInserts(steps);
    RunAppend(s, steps, a);
    assert Run(s, steps + [a]);
  }

  lemma LeadsKeepsReachable(s: State, t: State)
    requires Reachable(s) && LeadsTo(s, t)
    ensures Reachable(t)
  {
    hide Enabled, Apply, Reachable;
    var steps :| Run(s, steps) && After(s, steps) == t && NoInserts(steps);
    RunKeepsReachable(s, steps);
  }

  lemma {:induction false} RunKeepsReachable(s: State, steps: seq<Step>)
    requires Reachable(s) && Run(s, steps)
    ensures Reachable(After(s, steps))
    decreases |steps|
  {
    hide Enabled, Apply, Reachable;
    if |steps| > 0 {
      ReachableStep(s, steps[0]);
      RunKeepsReachable(Apply(s, steps[0]), steps[1..]);
    }
  }

  /** The state after a call took its job and read an open row. */
  function Reading(s: State, c: nat, j: Job): State
    requires j.delivery in s.rows
  {
    s.(jobs := s.jobs[j := Active(c)], calls := s.calls[c := Call(j, Sending(s.rows[j.delivery]))])
  }

  lemma ReadPath(s0: State, s: State, c: nat, j: Job) returns (t: State)
    requires LeadsTo(s0, s) && c !in s.calls && j in s.jobs && s.jobs[j] == Waiting && Open(s, j.delivery)
    ensures LeadsTo(s0, t) && t == Reading(s, c, j)
  {
    hide LeadsTo;
    LeadsOn(s0, s, Take(c, j));
    t := Apply(s, Take(c, j));
    LeadsOn(s0, t, Read(c));
    t := Apply(t, Read(c));
  }

  /** The row after a POST and its write, and what the log then shows. */
  function Recorded(s: State, d: Id, snapshot: Row, ok: bool): (Row, Log)
    requires d in s.rows && d in s.logs
  {
    var log := s.logs[d];
    var outdated := !ok && snapshot.attempts != s.rows[d].attempts;
    (Write(s.maxAttempts, s.rows[d], snapshot, ok),
     Log(log.posts + 1, log.successes + (if ok then 1 else 0), log.writes + 1,
         log.stale + (if outdated then 1 else 0), log.lost))
  }

  function Written(s: State, c: nat, snapshot: Row, ok: bool): State
    requires c in s.calls && s.calls[c].job.delivery in s.rows && s.calls[c].job.delivery in s.logs
  {
    var d := s.calls[c].job.delivery;
    var (row, log) := Recorded(s, d, snapshot, ok);
    var stage := if row.status == Failed then Adding(row.attempts, log.writes) else Done;
    s.(rows := s.rows[d := row], logs := s.logs[d := log], calls := s.calls[c := s.calls[c].(stage := stage)])
  }

  lemma WritePath(s0: State, s: State, c: nat, ok: bool) returns (t: State)
    requires LeadsTo(s0, s) && c in s.calls && s.calls[c].stage.Sending? && Known(s, s.calls[c].job.delivery)
    ensures LeadsTo(s0, t) && t == Written(s, c, s.calls[c].stage.snapshot, ok)
  {
    hide LeadsTo, Write;
    LeadsOn(s0, s, Post(c, ok));
    var s1 := Apply(s, Post(c, ok));
    LeadsOn(s0, s1, Commit(c));
    t := Apply(s1, Commit(c));
  }

  // ------------------------------------------------------------- delivering

  /** Some run without new deliveries brings the delivery to delivered. */
  ghost predicate CanDeliver(s: State, d: Id) {
    exists t :: LeadsTo(s, t) && d in t.rows && t.rows[d].status.Delivered?
  }

  lemma SendingDelivers(s0: State, s: State, c: nat, d: Id)
    requires LeadsTo(s0, s) && c in s.calls && s.calls[c].stage.Sending? && s.calls[c].job.delivery == d && Known(s, d)
    ensures CanDeliver(s0, d)
  {
    hide LeadsTo;
    var t := WritePath(s0, s, c, true);
    assert t.rows[d].status.Delivered?;
  }

  lemma WaitingDelivers(s0: State, s: State, j: Job)
    requires LeadsTo(s0, s) && j in s.jobs && s.jobs[j] == Waiting && Open(s, j.delivery) && Known(s, j.delivery)
    ensures CanDeliver(s0, j.delivery)
  {
    hide LeadsTo, CanDeliver;
    var c := FreshNat(s.calls.Keys);
    var t := ReadPath(s0, s, c, j);
    SendingDelivers(s0, t, c, j.delivery);
  }

  /** An open delivery always can be: the reaper adds the job its row names, or that job stalls. */
  lemma OpenDelivers(s0: State, s: State, d: Id)
    requires LeadsTo(s0, s) && Open(s, d) && Known(s, d)
    ensures CanDeliver(s0, d)
  {
    hide LeadsTo, CanDeliver;
    var j := Rebuilt(d, s.rows[d]);
    if j in s.jobs && s.jobs[j] == Waiting {
      WaitingDelivers(s0, s, j);
    } else if j in s.jobs {
      LeadsOn(s0, s, Stall(j));
      WaitingDelivers(s0, Apply(s, Stall(j)), j);
    } else {
      var k := FreshNat(s.picks.Keys);
      LeadsOn(s0, s, Select(d, k));
      var s1 := Apply(s, Select(d, k));
      LeadsOn(s0, s1, AddPick(k));
      WaitingDelivers(s0, Apply(s1, AddPick(k)), j);
    }
  }

  /** A call whose write would change an ended row can bring it to delivered. */
  lemma RewriterDelivers(s: State, c: nat, d: Id)
    requires Sound(s) && MayRewrite(s, c, d) && s.rows[d].status.Dead?
    ensures CanDeliver(s, d)
  {
    assert Known(s, d);
    hide LeadsTo, CanDeliver, Sound;
    LeadsToItself(s);
    if s.calls[c].stage.Sending? {
      SendingDelivers(s, s, c, d);
    } else {
      var t := Apply(s, Commit(c));
      LeadsOn(s, s, Commit(c));
      if s.calls[c].stage.ok {
        assert CanDeliver(s, d) by { DeliveredNow(s, t, d); }
      } else {
        OpenDelivers(s, t, d);
      }
    }
  }

  lemma DeliveredNow(s0: State, s: State, d: Id)
    requires LeadsTo(s0, s) && d in s.rows && s.rows[d].status.Delivered?
    ensures CanDeliver(s0, d)
  {
  }

  /** In every reachable state a delivery can still be delivered, or is, exactly unless it is dead and no
      call under way can rewrite it. */
  lemma DeliverableIff(s: State, d: Id)
    requires Reachable(s) && d in s.rows
    ensures CanDeliver(s, d) <==> !(s.rows[d].status.Dead? && Quiet(s, d))
  {
    ReachableIsSound(s);
    assert Known(s, d);
    hide Enabled, Apply, Sound, Reachable, MayRewrite;
    LeadsToItself(s);
    if s.rows[d].status.Dead? && Quiet(s, d) {
      if CanDeliver(s, d) {
        var t :| LeadsTo(s, t) && d in t.rows && t.rows[d].status.Delivered?;
        var steps :| Run(s, steps) && After(s, steps) == t && NoInserts(steps);
        QuietStays(s, steps, d);
      }
    } else if s.rows[d].status.Dead? {
      var c :| MayRewrite(s, c, d);
      RewriterDelivers(s, c, d);
    } else if s.rows[d].status.Delivered? {
      DeliveredNow(s, s, d);
    } else {
      OpenDelivers(s, s, d);
    }
  }

  /** Delivered and dead are final exactly when no call under way would write something else. */
  lemma FinalIffQuiet(s: State, d: Id)
    requires Reachable(s) && d in s.rows && IsTerminal(s.rows[d])
    ensures Final(s, d) <==> Quiet(s, d)
  {
    ReachableIsSound(s);
    if Quiet(s, d) {
      forall steps | Run(s, steps) ensures d in After(s, steps).rows && After(s, steps).rows[d] == s.rows[d] {
        QuietStays(s, steps, d);
      }
    } else {
      var c :| MayRewrite(s, c, d);
      var t := RewritePath(s, c, d);
      hide Enabled, Apply, Sound, Reachable, MayRewrite;
      var steps :| Run(s, steps) && After(s, steps) == t && NoInserts(steps);
    }
  }

  lemma RewritePath(s: State, c: nat, d: Id) returns (t: State)
    requires Sound(s) && MayRewrite(s, c, d) && IsTerminal(s.rows[d])
    ensures LeadsTo(s, t) && d in t.rows && t.rows[d] != s.rows[d]
  {
    assert Known(s, d) && CallOk(s, s.calls[c]) && RowOk(s.maxAttempts, s.rows[d]);
    hide LeadsTo, Sound;
    LeadsToItself(s);
    if s.calls[c].stage.Sending? {
      t := WritePath(s, s, c, s.rows[d].status.Dead?);
    } else {
      LeadsOn(s, s, Commit(c));
      t := Apply(s, Commit(c));
    }
  }
}
