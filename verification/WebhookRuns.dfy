/** Particular runs of the webhook system: the services undisturbed, and everything that can go wrong. */
module WebhookRuns {
  import opened Options
  import opened Names
  import opened FreshNames
  import opened Deliveries
  import opened Webhooks
  import opened WebhookCounts
  import opened SingleDriving
  import opened WebhookOutcomes

  // ------------------------------------------------- the services, undisturbed

  function DeskOf(s: State): Desk {
    Desk(s.rows, s.jobs.Keys)
  }

  lemma SkipPath(s: State, c: nat, j: Job) returns (t: State)
    requires c !in s.calls && j in s.jobs && s.jobs[j] == Waiting && !Open(s, j.delivery)
    ensures LeadsTo(s, t) && DeskOf(t) == Desk(s.rows, s.jobs.Keys - {j}) && c !in t.calls
  {
    hide LeadsTo;
    LeadsToItself(s);
    LeadsOn(s, s, Take(c, j));
    t := Apply(s, Take(c, j));
    LeadsOn(s, t, Read(c));
    t := Apply(t, Read(c));
    LeadsOn(s, t, Return(c));
    t := Apply(t, Return(c));
  }

  /** After its write a call adds the next job, if there is to be one, and returns. */
  lemma ReturnPath(s0: State, s: State, c: nat, j: Job) returns (t: State)
    requires LeadsTo(s0, s) && c in s.calls && s.calls[c].job == j && j in s.jobs && s.jobs[j] == Active(c)
    requires s.calls[c].stage.Adding? || s.calls[c].stage == Done
    ensures LeadsTo(s0, t)
    ensures var jobs := if s.calls[c].stage.Done? then s.jobs
                        else Add(s.jobs, Next(j.delivery, s.calls[c].stage.attempts));
            t == s.(jobs := jobs - {j}, calls := s.calls - {c})
  {
    hide LeadsTo;
    t := s;
    if s.calls[c].stage.Adding? {
      LeadsOn(s0, t, AddNext(c));
      t := Apply(t, AddNext(c));
    }
    LeadsOn(s0, t, Return(c));
    t := Apply(t, Return(c));
  }

  /** Every undisturbed call of `process` is a run of its own steps. */
  lemma ProcessIsAPath(s: State, c: nat, j: Job, ok: bool)
    requires Sound(s) && c !in s.calls && j in s.jobs && s.jobs[j] == Waiting
    ensures exists t :: LeadsTo(s, t) && DeskOf(t) == ProcessAlone(s.maxAttempts, DeskOf(s), j, ok)
  {
    var d := j.delivery;
    assert d in s.rows ==> Known(s, d);
    hide LeadsTo, Sound, Write;
    if Open(s, d) {
      LeadsToItself(s);
      var t := ReadPath(s, s, c, j);
      t := WritePath(s, t, c, ok);
      t := ReturnPath(s, t, c, j);
      assert LeadsTo(s, t) && DeskOf(t) == ProcessAlone(s.maxAttempts, DeskOf(s), j, ok);
    } else {
      var t := SkipPath(s, c, j);
      assert LeadsTo(s, t);
    }
  }

  lemma SelectPath(s0: State, s: State, d: Id) returns (t: State)
    requires LeadsTo(s0, s) && Open(s, d) && Known(s, d)
    ensures LeadsTo(s0, t) && t == s.(jobs := Add(s.jobs, Rebuilt(d, s.rows[d])))
  {
    hide LeadsTo, Add;
    var k := FreshNat(s.picks.Keys);
    LeadsOn(s0, s, Select(d, k));
    t := Apply(s, Select(d, k));
    LeadsOn(s0, t, AddPick(k));
    t := Apply(t, AddPick(k));
  }

  lemma {:induction false} SelectAllPath(s0: State, s: State, stuck: set<Id>) returns (t: State)
    requires LeadsTo(s0, s) && forall d | d in stuck :: Open(s, d) && Known(s, d)
    ensures LeadsTo(s0, t) && DeskOf(t) == ReapAlone(DeskOf(s), stuck)
    decreases stuck
  {
    hide LeadsTo, Rebuilt;
    if stuck == {} {
      t := s;
    } else {
      var d :| d in stuck;
      t := SelectPath(s0, s, d);
      assert t.jobs.Keys == s.jobs.Keys + {Rebuilt(d, s.rows[d])};
      ghost var mid := t;
      t := SelectAllPath(s0, t, stuck - {d});
      assert stuck == stuck - {d} + {d};
      assert DeskOf(mid).rows == s.rows;
    }
  }

  /** And every undisturbed tick of the reaper on the rows its select locked. */
  lemma ReaperTickIsAPath(s: State, stuck: set<Id>)
    requires forall d | d in stuck :: Open(s, d) && Known(s, d)
    ensures exists t :: LeadsTo(s, t) && DeskOf(t) == ReapAlone(DeskOf(s), stuck)
  {
    hide LeadsTo, ReapAlone;
    LeadsToItself(s);
    var t := SelectAllPath(s, s, stuck);
  }

  // ---------------------------------------------------- what can go wrong

  /** One new delivery whose first job is still to be added. */
  lemma InsertedRun(maxAttempts: nat, d: Id) returns (s: State)
    requires maxAttempts >= 1
    ensures Reachable(s) && s == State(maxAttempts, map[d := NEW_ROW], map[d := NO_LOG], map[], map[], {d}, map[])
  {
    var s0 := Initial(maxAttempts);
    assert Run(s0, []) && After(s0, []) == s0;
    assert Reachable(s0);
    hide Reachable, Run, After;
    ReachableStep(s0, Insert({d}));
    s := Apply(s0, Insert({d}));
  }

  /** A job as it starts out with its row. */
  lemma AddedRun(maxAttempts: nat, d: Id) returns (s0: State, s: State)
    requires maxAttempts >= 1
    ensures Reachable(s0) && LeadsTo(s0, s)
    ensures s == State(maxAttempts, map[d := NEW_ROW], map[d := NO_LOG], map[First(d) := Waiting], map[], {}, map[])
  {
    hide LeadsTo, Reachable;
    s0 := InsertedRun(maxAttempts, d);
    LeadsToItself(s0);
    LeadsOn(s0, s0, AddFirst(d));
    s := Apply(s0, AddFirst(d));
  }

  /** The reaper picks a new row, which then fails once; its late add finds the id free again, and two
      jobs drive the delivery. */
  lemma ReaperDoublesDrivers(maxAttempts: nat, d: Id)
    requires maxAttempts > 1
    ensures exists s :: Reachable(s) && s.maxAttempts == maxAttempts && s.rows == map[d := Row(Failed, 1)]
              && s.jobs == map[First(d) := Waiting, Next(d, 1) := Waiting]
  {
    hide LeadsTo, Reachable;
    var s0, s := AddedRun(maxAttempts, d);
    LeadsOn(s0, s, Select(d, 0));
    s := Apply(s, Select(d, 0));
    s := ReadPath(s0, s, 0, First(d));
    s := WritePath(s0, s, 0, false);
    s := ReturnPath(s0, s, 0, First(d));
    LeadsOn(s0, s, AddPick(0));
    s := Apply(s, AddPick(0));
    LeadsKeepsReachable(s0, s);
  }

  /** The same add while that call has not returned is dropped: late, but harmless. */
  lemma TakenIdKeepsSingle(maxAttempts: nat, d: Id)
    requires maxAttempts > 1
    ensures exists s, k :: Reachable(s) && Enabled(s, AddPick(k)) && Apply(s, AddPick(k)).jobs == s.jobs
              && Overtaken(s, s.picks[k].pick.delivery, s.picks[k].seen) && Single(Apply(s, AddPick(k)))
  {
    hide LeadsTo, Reachable;
    var s0, s := AddedRun(maxAttempts, d);
    LeadsOn(s0, s, Select(d, 0));
    s := Apply(s, Select(d, 0));
    s := ReadPath(s0, s, 0, First(d));
    s := WritePath(s0, s, 0, false);
    LeadsKeepsReachable(s0, s);
    assert Enabled(s, AddPick(0)) && Apply(s, AddPick(0)).jobs == s.jobs;
  }

  /** The reaper adds the first job before the dispatcher does, and the dispatcher's add comes after the
      delivery was delivered. */
  lemma DispatcherDrivesDelivered(maxAttempts: nat, d: Id)
    requires maxAttempts >= 1
    ensures exists s :: Reachable(s) && s.maxAttempts == maxAttempts && s.rows == map[d := Row(Delivered, 1)]
              && s.jobs == map[First(d) := Waiting]
  {
    hide LeadsTo, Reachable;
    var s0 := InsertedRun(maxAttempts, d);
    LeadsToItself(s0);
    var s := SelectPath(s0, s0, d);
    s := ReadPath(s0, s, 0, First(d));
    s := WritePath(s0, s, 0, true);
    s := ReturnPath(s0, s, 0, First(d));
    LeadsOn(s0, s, AddFirst(d));
    s := Apply(s, AddFirst(d));
    LeadsKeepsReachable(s0, s);
  }

  /** The same with the processor's add of its retry. */
  lemma ProcessorDrivesDelivered(maxAttempts: nat, d: Id)
    requires maxAttempts > 1
    ensures exists s :: Reachable(s) && s.maxAttempts == maxAttempts && s.rows == map[d := Row(Delivered, 2)]
              && Next(d, 1) in s.jobs && s.jobs[Next(d, 1)] == Waiting
  {
    hide LeadsTo, Reachable;
    var s0, s := AddedRun(maxAttempts, d);
    s := ReadPath(s0, s, 0, First(d));
    s := WritePath(s0, s, 0, false);
    s := SelectPath(s0, s, d);
    s := ReadPath(s0, s, 1, Next(d, 1));
    s := WritePath(s0, s, 1, true);
    s := ReturnPath(s0, s, 1, Next(d, 1));
    LeadsOn(s0, s, AddNext(0));
    s := Apply(s, AddNext(0));
    LeadsKeepsReachable(s0, s);
  }

  /** A job that stalls is worked on twice; the second call delivers, and the first turns the delivered
      row back into a failed one. */
  lemma DeliveredIsOverwritten(maxAttempts: nat, d: Id)
    requires maxAttempts > 1
    ensures exists s, t :: Reachable(s) && s.maxAttempts == maxAttempts && s.rows == map[d := Row(Delivered, 1)]
              && LeadsTo(s, t) && t.rows == map[d := Row(Failed, 1)]
  {
    hide LeadsTo, Reachable;
    var s0, s := AddedRun(maxAttempts, d);
    s := ReadPath(s0, s, 0, First(d));
    LeadsOn(s0, s, Stall(First(d)));
    s := Apply(s, Stall(First(d)));
    s := ReadPath(s0, s, 1, First(d));
    s := WritePath(s0, s, 1, true);
    LeadsKeepsReachable(s0, s);
    LeadsToItself(s);
    var t := WritePath(s, s, 0, false);
  }

  /** One job waits, nothing else is under way, and a POST has succeeded that nobody recorded. */
  ghost predicate Unrecorded(s: State, d: Id, n: nat) {
    && Known(s, d) && s.rows[d] == (if n == 0 then NEW_ROW else Row(Failed, n)) && n < s.maxAttempts
    && s.logs[d].successes >= 1 && s.calls == map[] && s.jobs == map[Rebuilt(d, s.rows[d]) := Waiting]
  }

  lemma UnrecordedRun(maxAttempts: nat, d: Id) returns (s0: State, s: State)
    requires maxAttempts >= 1
    ensures Reachable(s0) && LeadsTo(s0, s) && s.maxAttempts == maxAttempts && Unrecorded(s, d, 0)
  {
    hide LeadsTo, Reachable;
    s0, s := AddedRun(maxAttempts, d);
    s := ReadPath(s0, s, 0, First(d));
    LeadsOn(s0, s, Post(0, true));
    s := Apply(s, Post(0, true));
    LeadsOn(s0, s, Crash(0));
    s := Apply(s, Crash(0));
  }

  lemma {:induction false} FailingRun(s0: State, s: State, d: Id, n: nat) returns (t: State)
    requires LeadsTo(s0, s) && Unrecorded(s, d, n)
    ensures LeadsTo(s0, t) && t.maxAttempts == s.maxAttempts && Known(t, d)
    ensures t.rows[d] == Row(Dead, s.maxAttempts) && t.logs[d].successes >= 1
    decreases s.maxAttempts - n
  {
    hide LeadsTo;
    var j := Rebuilt(d, s.rows[d]);
    t := ReadPath(s0, s, 0, j);
    t := WritePath(s0, t, 0, false);
    if n + 1 < s.maxAttempts {
      t := ReturnPath(s0, t, 0, j);
      t := FailingRun(s0, t, d, n + 1);
    }
  }

  /** A successful POST whose call crashes before its write is forgotten: later failures make the row
      dead, under every maximum. */
  lemma DeadAfterSuccess(maxAttempts: nat, d: Id)
    requires maxAttempts >= 1
    ensures exists s :: Reachable(s) && s.maxAttempts == maxAttempts && Known(s, d)
              && s.rows[d] == Row(Dead, maxAttempts) && s.logs[d].successes >= 1
  {
    hide LeadsTo, Reachable, Unrecorded;
    var s0, s := UnrecordedRun(maxAttempts, d);
    var t := FailingRun(s0, s, d, 0);
    LeadsKeepsReachable(s0, t);
  }
}
