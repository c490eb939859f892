/** Webhook delivery as a concurrent step system: any number of dispatchers, workers and reapers over the
    deliveries table and the webhooks queue, with the read, the POST, the write and the enqueue of one
    call of `process` as separate steps, and a crash possible between any two. */
module Webhooks {
  import opened Options
  import opened Names
  import opened Deliveries

  // ---------------------------------------------------------------- state

  /** How far one call of `process` has come. `seen` counts the writes its row had after its own. */
  datatype Stage =
    | Started
    | Sending(snapshot: Row)
    | Sent(snapshot: Row, ok: bool)
    | Adding(attempts: nat, seen: nat)
    | Done

  datatype Call = Call(job: Job, stage: Stage)

  /** Delayed jobs count as waiting. A job keeps its id taken until its call has returned. */
  datatype JobState = Waiting | Active(call: nat)

  /** An enqueue that is still to come, with the writes the row had when it was picked. */
  datatype Promise = Promise(pick: Pick, seen: nat)

  /** The history of one delivery: its POSTs and how many of them succeeded, the writes of its row, how
      many of those were failures on outdated attempts, and the calls that ended between POST and write. */
  datatype Log = Log(posts: nat, successes: nat, writes: nat, stale: nat, lost: nat)

  const NO_LOG := Log(0, 0, 0, 0, 0)

  /** `firsts` holds the deliveries whose first job their dispatcher has still to add, `picks` the adds
      reapers have still to make. */
  datatype State = State(
    maxAttempts: nat,
    rows: map<Id, Row>,
    logs: map<Id, Log>,
    jobs: map<Job, JobState>,
    calls: map<nat, Call>,
    firsts: set<Id>,
    picks: map<nat, Promise>)

  function Initial(maxAttempts: nat): State {
    State(maxAttempts, map[], map[], map[], map[], {}, map[])
  }

  // ---------------------------------------------------------------- steps

  datatype Step =
    | Insert(ds: set<Id>)
    | AddFirst(d: Id)
    | ForgetFirst(d: Id)
    | Select(d: Id, k: nat)
    | AddPick(k: nat)
    | ForgetPick(k: nat)
    | Take(c: nat, j: Job)
    | Read(c: nat)
    | Post(c: nat, ok: bool)
    | Commit(c: nat)
    | AddNext(c: nat)
    | Return(c: nat)
    | Crash(c: nat)
    | Throw(c: nat)
    | Stall(j: Job)
    | Lose(j: Job)

  predicate Open(s: State, d: Id) {
    d in s.rows && !IsTerminal(s.rows[d])
  }

  ghost predicate Enabled(s: State, a: Step) {
    match a
    case Insert(ds) => ds !! s.rows.Keys
    case AddFirst(d) => d in s.firsts
    case ForgetFirst(d) => d in s.firsts
    case Select(d, k) => Open(s, d) && d in s.logs && k !in s.picks
    case AddPick(k) => k in s.picks
    case ForgetPick(k) => k in s.picks
    case Take(c, j) => c !in s.calls && j in s.jobs && s.jobs[j] == Waiting
    case Read(c) => c in s.calls && s.calls[c].stage == Started
    case Post(c, _) => c in s.calls && s.calls[c].stage.Sending? && Known(s, s.calls[c].job.delivery)
    case Commit(c) => c in s.calls && s.calls[c].stage.Sent? && Known(s, s.calls[c].job.delivery)
    case AddNext(c) => c in s.calls && s.calls[c].stage.Adding?
    case Return(c) => c in s.calls && s.calls[c].stage == Done
    case Crash(c) => c in s.calls
    case Throw(c) => c in s.calls
    case Stall(j) => j in s.jobs && s.jobs[j].Active?
    case Lose(j) => j in s.jobs && s.jobs[j] == Waiting
  }

  /** Rows are never deleted, so what a call has read is there. */
  ghost predicate Known(s: State, d: Id) {
    d in s.rows && d in s.logs
  }

  /** `queue.add` with a job id: dropped if the id is taken. */
  function Add(jobs: map<Job, JobState>, j: Job): map<Job, JobState> {
    if j in jobs then jobs else jobs[j := Waiting]
  }

  function Goto(s: State, c: nat, stage: Stage): State
    requires c in s.calls
  {
    s.(calls := s.calls[c := s.calls[c].(stage := stage)])
  }

  function ApplyRead(s: State, c: nat): State
    requires c in s.calls
  {
    var d := s.calls[c].job.delivery;
    Goto(s, c, if Open(s, d) then Sending(s.rows[d]) else Done)
  }

  function ApplyPost(s: State, c: nat, ok: bool): State
    requires c in s.calls && s.calls[c].stage.Sending? && s.calls[c].job.delivery in s.logs
  {
    var d := s.calls[c].job.delivery;
    var log := s.logs[d];
    var log' := log.(posts := log.posts + 1, successes := log.successes + if ok then 1 else 0);
    Goto(s, c, Sent(s.calls[c].stage.snapshot, ok)).(logs := s.logs[d := log'])
  }

  /** The unguarded write after the POST. */
  function ApplyCommit(s: State, c: nat): State
    requires c in s.calls && s.calls[c].stage.Sent?
    requires s.calls[c].job.delivery in s.logs && s.calls[c].job.delivery in s.rows
  {
    var d := s.calls[c].job.delivery;
    var Sent(snapshot, ok) := s.calls[c].stage;
    var row := Write(s.maxAttempts, s.rows[d], snapshot, ok);
    var log := s.logs[d];
    var outdated := !ok && snapshot.attempts != s.rows[d].attempts;
    var log' := log.(writes := log.writes + 1, stale := log.stale + if outdated then 1 else 0);
    var s1 := s.(rows := s.rows[d := row], logs := s.logs[d := log']);
    Goto(s1, c, if row.status == Failed then Adding(row.attempts, log'.writes) else Done)
  }

  /** The call is gone; its job, if still its own, is evicted or waits again. */
  function Leave(s: State, c: nat, again: bool): State
    requires c in s.calls
  {
    var j := s.calls[c].job;
    var own := j in s.jobs && s.jobs[j] == Active(c);
    s.(calls := s.calls - {c}, jobs := if !own then s.jobs else if again then s.jobs[j := Waiting] else s.jobs - {j})
  }

  /** A call that ends between POST and write leaves a POST nobody recorded. */
  function LogsWithout(s: State, c: nat): map<Id, Log>
    requires c in s.calls
  {
    var d := s.calls[c].job.delivery;
    if s.calls[c].stage.Sent? && d in s.logs then s.logs[d := s.logs[d].(lost := s.logs[d].lost + 1)] else s.logs
  }

  function ApplyInsert(s: State, ds: set<Id>): State {
    s.(rows := s.rows + map d | d in ds :: NEW_ROW, logs := s.logs + map d | d in ds :: NO_LOG, firsts := s.firsts + ds)
  }

  function ApplyTake(s: State, c: nat, j: Job): State {
    s.(jobs := s.jobs[j := Active(c)], calls := s.calls[c := Call(j, Started)])
  }

  function ApplyAddNext(s: State, c: nat): State
    requires c in s.calls && s.calls[c].stage.Adding?
  {
    Goto(s.(jobs := Add(s.jobs, Next(s.calls[c].job.delivery, s.calls[c].stage.attempts))), c, Done)
  }

  ghost function Apply(s: State, a: Step): State
    requires Enabled(s, a)
  {
    match a
    case Insert(ds) => ApplyInsert(s, ds)
    case AddFirst(d) => s.(jobs := Add(s.jobs, First(d)), firsts := s.firsts - {d})
    case ForgetFirst(d) => s.(firsts := s.firsts - {d})
    case Select(d, k) => s.(picks := s.picks[k := Promise(Pick(d, s.rows[d]), s.logs[d].writes)])
    case AddPick(k) => s.(jobs := Add(s.jobs, JobOf(s.picks[k].pick)), picks := s.picks - {k})
    case ForgetPick(k) => s.(picks := s.picks - {k})
    case Take(c, j) => ApplyTake(s, c, j)
    case Read(c) => ApplyRead(s, c)
    case Post(c, ok) => ApplyPost(s, c, ok)
    case Commit(c) => ApplyCommit(s, c)
    case AddNext(c) => ApplyAddNext(s, c)
    case Return(c) => Leave(s, c, false)
    case Crash(c) => Leave(s, c, true).(logs := LogsWithout(s, c))
    case Throw(c) => Leave(s, c, false).(logs := LogsWithout(s, c))
    case Stall(j) => s.(jobs := s.jobs[j := Waiting])
    case Lose(j) => s.(jobs := s.jobs - {j})
  }

  // ----------------------------------------------------------------- runs

  ghost predicate Run(s: State, steps: seq<Step>)
    decreases |steps|
  {
    |steps| > 0 ==> Enabled(s, steps[0]) && Run(Apply(s, steps[0]), steps[1..])
  }

  ghost function After(s: State, steps: seq<Step>): State
    requires Run(s, steps)
    decreases |steps|
  {
    if |steps| == 0 then s else After(Apply(s, steps[0]), steps[1..])
  }

  ghost predicate Reachable(s: State) {
    exists maxAttempts: nat, steps ::
      maxAttempts >= 1 && Run(Initial(maxAttempts), steps) && After(Initial(maxAttempts), steps) == s
  }

  // ------------------------------------------------------------- soundness

  ghost predicate SnapshotOk(s: State, d: Id, snapshot: Row) {
    Known(s, d) && RowOk(s.maxAttempts, snapshot) && !IsTerminal(snapshot)
  }

  ghost predicate CallOk(s: State, call: Call) {
    var d := call.job.delivery;
    match call.stage
    case Started => true
    case Sending(snapshot) => SnapshotOk(s, d, snapshot)
    case Sent(snapshot, ok) => SnapshotOk(s, d, snapshot) && (ok ==> s.logs[d].successes >= 1)
    case Adding(n, seen) => Known(s, d) && IsPast(s, d, Row(Failed, n), seen) && n >= 1
    case Done => true
  }

  /** The row was like this after so many of its writes. */
  ghost predicate IsPast(s: State, d: Id, row: Row, seen: nat)
    requires Known(s, d)
  {
    seen <= s.logs[d].writes && (seen == s.logs[d].writes ==> s.rows[d] == row)
  }

  ghost predicate PromiseOk(s: State, p: Promise) {
    SnapshotOk(s, p.pick.delivery, p.pick.row) && IsPast(s, p.pick.delivery, p.pick.row, p.seen)
  }

  ghost predicate RowsOk(s: State) {
    && s.maxAttempts >= 1 && s.logs.Keys == s.rows.Keys
    && forall d | d in s.rows ::
         && RowOk(s.maxAttempts, s.rows[d])
         && IsPast(s, d, NEW_ROW, 0)
         && (s.rows[d].status.Delivered? ==> s.logs[d].successes >= 1)
  }

  ghost predicate CallsOk(s: State) {
    forall c | c in s.calls :: CallOk(s, s.calls[c])
  }

  ghost predicate PromisesOk(s: State) {
    && (forall d | d in s.firsts :: d in s.rows)
    && (forall k | k in s.picks :: PromiseOk(s, s.picks[k]))
  }

  /** An active job is held by its call. */
  ghost predicate JobsOk(s: State) {
    forall j | j in s.jobs && s.jobs[j].Active? :: s.jobs[j].call in s.calls && s.calls[s.jobs[j].call].job == j
  }

  ghost predicate Sound(s: State) {
    RowsOk(s) && CallsOk(s) && PromisesOk(s) && JobsOk(s)
  }

  /** What no step takes back: rows stay there, and their writes and successes only grow. */
  ghost predicate Keeps(s: State, t: State) {
    && t.maxAttempts == s.maxAttempts
    && forall d | Known(s, d) ::
         && Known(t, d)
         && s.logs[d].writes <= t.logs[d].writes && s.logs[d].successes <= t.logs[d].successes
         && (s.logs[d].writes == t.logs[d].writes ==> t.rows[d] == s.rows[d])
  }

  // ------------------------------------------- what a step does to each part

  ghost predicate Touches(s: State, a: Step, d: Id)
    requires Enabled(s, a)
  {
    (a.Post? || a.Commit? || a.Crash? || a.Throw?) && s.calls[a.c].job.delivery == d
  }

  ghost function RowAfter(s: State, a: Step, d: Id): Row
    requires Enabled(s, a) && Known(s, d)
  {
    if a.Commit? && s.calls[a.c].job.delivery == d
    then Write(s.maxAttempts, s.rows[d], s.calls[a.c].stage.snapshot, s.calls[a.c].stage.ok)
    else s.rows[d]
  }

  ghost function LogAfter(s: State, a: Step, d: Id): Log
    requires Enabled(s, a) && Known(s, d)
  {
    var log := s.logs[d];
    if !Touches(s, a, d) then log
    else if a.Post? then log.(posts := log.posts + 1, successes := log.successes + if a.ok then 1 else 0)
    else if a.Commit? then
      var Sent(snapshot, ok) := s.calls[a.c].stage;
      var outdated := !ok && snapshot.attempts != s.rows[d].attempts;
      log.(writes := log.writes + 1, stale := log.stale + if outdated then 1 else 0)
    else if s.calls[a.c].stage.Sent? then log.(lost := log.lost + 1)
    else log
  }

  lemma StepOnRow(s: State, a: Step, d: Id)
    requires Enabled(s, a) && Known(s, d)
    ensures var t := Apply(s, a);
            && t.maxAttempts == s.maxAttempts
            && Known(t, d) && t.rows[d] == RowAfter(s, a, d) && t.logs[d] == LogAfter(s, a, d)
  {
    hide Write, Add;
  }

  lemma StepOnNewRow(s: State, a: Step, d: Id)
    requires Enabled(s, a) && s.logs.Keys == s.rows.Keys && d !in s.rows
    ensures var t := Apply(s, a);
            && t.logs.Keys == t.rows.Keys
            && (d in t.rows <==> a.Insert? && d in a.ds)
            && (d in t.rows ==> t.rows[d] == NEW_ROW && t.logs[d] == NO_LOG)
  {
    hide Write, Add;
  }

  lemma StepOnPick(s: State, a: Step, k: nat)
    requires Enabled(s, a) && k in Apply(s, a).picks
    ensures if k in s.picks then Apply(s, a).picks[k] == s.picks[k]
            else a.Select? && a.k == k
                 && Apply(s, a).picks[k] == Promise(Pick(a.d, s.rows[a.d]), s.logs[a.d].writes)
  {
    hide Write, Add;
  }

  lemma StepOnFirsts(s: State, a: Step, d: Id)
    requires Enabled(s, a) && d in Apply(s, a).firsts
    ensures d in s.firsts || (a.Insert? && d in a.ds)
  {
    hide Write, Add;
  }

  lemma StepKeeps(s: State, a: Step)
    requires Enabled(s, a)
    ensures Keeps(s, Apply(s, a))
  {
    forall d | Known(s, d)
      ensures var t := Apply(s, a);
              && Known(t, d)
              && s.logs[d].writes <= t.logs[d].writes && s.logs[d].successes <= t.logs[d].successes
              && (s.logs[d].writes == t.logs[d].writes ==> t.rows[d] == s.rows[d])
    {
      StepOnRow(s, a, d);
    }
    StepOnMaximum(s, a);
    hide Apply;
  }

  lemma StepOnMaximum(s: State, a: Step)
    requires Enabled(s, a)
    ensures Apply(s, a).maxAttempts == s.maxAttempts
  {
    hide Write, Add;
  }

  ghost predicate RowIsOk(s: State, d: Id)
    requires Known(s, d)
  {
    && RowOk(s.maxAttempts, s.rows[d])
    && IsPast(s, d, NEW_ROW, 0)
    && (s.rows[d].status.Delivered? ==> s.logs[d].successes >= 1)
  }

  lemma StepKeepsRow(s: State, a: Step, d: Id)
    requires s.maxAttempts >= 1 && CallsOk(s) && Enabled(s, a) && Known(s, d) && RowIsOk(s, d)
    ensures Known(Apply(s, a), d) && RowIsOk(Apply(s, a), d)
  {
    StepOnRow(s, a, d);
    hide Apply;
    if a.Commit? { assert CallOk(s, s.calls[a.c]); }
    hide CallsOk;
  }

  lemma StepKeepsRows(s: State, a: Step)
    requires Sound(s) && Enabled(s, a)
    ensures RowsOk(Apply(s, a))
  {
    hide Enabled, Apply, CallsOk, PromisesOk, JobsOk, RowOk, IsPast;
    var t := Apply(s, a);
    StepOnMaximum(s, a);
    StepKeys(s, a);
    forall d | d in t.rows ensures Known(t, d) && RowIsOk(t, d) {
      if d in s.rows {
        StepKeepsRow(s, a, d);
      } else {
        StepOnNewRow(s, a, d);
        NewRowIsOk(t, d);
      }
    }
  }

  lemma StepKeys(s: State, a: Step)
    requires Enabled(s, a) && s.logs.Keys == s.rows.Keys
    ensures Apply(s, a).logs.Keys == Apply(s, a).rows.Keys
  {
    hide Write, Add;
  }

  lemma NewRowIsOk(s: State, d: Id)
    requires Known(s, d) && s.rows[d] == NEW_ROW && s.logs[d] == NO_LOG
    ensures RowIsOk(s, d)
  {
  }

  ghost predicate Moves(a: Step, c: nat) {
    (a.Take? || a.Read? || a.Post? || a.Commit? || a.AddNext?) && a.c == c
  }

  lemma OtherCallsStay(s: State, a: Step, c: nat)
    requires Enabled(s, a) && c in Apply(s, a).calls && !Moves(a, c)
    ensures c in s.calls && Apply(s, a).calls[c] == s.calls[c]
  {
    hide Write, Add;
  }

  lemma MovedCallIsOk(s: State, a: Step, c: nat)
    requires Sound(s) && Enabled(s, a) && Moves(a, c)
    ensures c in Apply(s, a).calls && CallOk(Apply(s, a), Apply(s, a).calls[c])
  {
    hide Add, PromisesOk, JobsOk;
    if c in s.calls { assert CallOk(s, s.calls[c]); }
  }

  lemma CallPersists(s: State, t: State, call: Call)
    requires Keeps(s, t) && CallOk(s, call)
    ensures CallOk(t, call)
  {
    hide RowOk;
  }

  lemma StepKeepsCalls(s: State, a: Step)
    requires Sound(s) && Enabled(s, a)
    ensures CallsOk(Apply(s, a))
  {
    hide Enabled, Apply, CallOk, Moves;
    var t := Apply(s, a);
    StepKeeps(s, a);
    forall c | c in t.calls ensures CallOk(t, t.calls[c]) {
      if Moves(a, c) {
        MovedCallIsOk(s, a, c);
      } else {
        OtherCallsStay(s, a, c);
        CallPersists(s, t, s.calls[c]);
      }
    }
  }

  lemma PromisePersists(s: State, t: State, p: Promise)
    requires Keeps(s, t) && PromiseOk(s, p)
    ensures PromiseOk(t, p)
  {
    hide RowOk;
  }

  lemma StepKeepsPromises(s: State, a: Step)
    requires Sound(s) && Enabled(s, a)
    ensures PromisesOk(Apply(s, a))
  {
    hide Apply, CallsOk, JobsOk, RowOk, Keeps;
    var t := Apply(s, a);
    StepKeeps(s, a);
    forall k | k in t.picks ensures PromiseOk(t, t.picks[k]) {
      StepOnPick(s, a, k);
      if k !in s.picks { assert PromiseOk(s, t.picks[k]); }
      PromisePersists(s, t, t.picks[k]);
    }
    forall d | d in t.firsts ensures d in t.rows {
      StepOnFirsts(s, a, d);
      if d in s.rows { StepOnRow(s, a, d); } else { StepOnNewRow(s, a, d); }
    }
  }

  lemma StepKeepsJobs(s: State, a: Step)
    requires Sound(s) && Enabled(s, a)
    ensures JobsOk(Apply(s, a))
  {
    hide RowsOk, CallsOk, PromisesOk, Write;
  }

  lemma StepKeepsSound(s: State, a: Step)
    requires Sound(s) && Enabled(s, a)
    ensures Sound(Apply(s, a))
  {
    hide Enabled, Apply, RowsOk, CallsOk, PromisesOk, JobsOk;
    StepKeepsRows(s, a);
    StepKeepsCalls(s, a);
    StepKeepsPromises(s, a);
    StepKeepsJobs(s, a);
  }

  lemma {:induction false} RunKeepsSound(s: State, steps: seq<Step>)
    requires Sound(s) && Run(s, steps)
    ensures Sound(After(s, steps))
    decreases |steps|
  {
    hide Enabled, Apply, Sound;
    if |steps| > 0 {
      StepKeepsSound(s, steps[0]);
      RunKeepsSound(Apply(s, steps[0]), steps[1..]);
    }
  }

  lemma InitialIsSound(maxAttempts: nat)
    requires maxAttempts >= 1
    ensures Sound(Initial(maxAttempts))
  {
  }

  lemma ReachableIsSound(s: State)
    requires Reachable(s)
    ensures Sound(s)
  {
    hide Enabled, Apply, Sound;
    var maxAttempts: nat, steps :|
      maxAttempts >= 1 && Run(Initial(maxAttempts), steps) && After(Initial(maxAttempts), steps) == s;
    InitialIsSound(maxAttempts);
    RunKeepsSound(Initial(maxAttempts), steps);
  }

  lemma {:induction false} RunAppend(s: State, steps: seq<Step>, a: Step)
    requires Run(s, steps) && Enabled(After(s, steps), a)
    ensures Run(s, steps + [a]) && After(s, steps + [a]) == Apply(After(s, steps), a)
    decreases |steps|
  {
    hide Enabled, Apply;
    if |steps| == 0 {
      assert steps + [a] == [a];
      assert [a][1..] == [];
      var t := Apply(s, a);
      assert Run(t, []) && After(t, []) == t;
    } else {
      assert (steps + [a])[0] == steps[0] && (steps + [a])[1..] == steps[1..] + [a];
      RunAppend(Apply(s, steps[0]), steps[1..], a);
    }
  }

  lemma ReachableStep(s: State, a: Step)
    requires Reachable(s) && Enabled(s, a)
    ensures Reachable(Apply(s, a))
  {
    hide Enabled, Apply;
    var maxAttempts: nat, steps :|
      maxAttempts >= 1 && Run(Initial(maxAttempts), steps) && After(Initial(maxAttempts), steps) == s;
    RunAppend(Initial(maxAttempts), steps, a);
    assert Run(Initial(maxAttempts), steps + [a]);
  }

  // -------------------------------------------------------------- theorems

  /** Under every interleaving of stale, unguarded writers the attempts fit the status: pending has none,
      failed at least one and fewer than the maximum, dead exactly the maximum, delivered at least one. */
  lemma AttemptsFitStatus(s: State, d: Id)
    requires Reachable(s) && d in s.rows
    ensures var row := s.rows[d];
            && (row.status.Pending? <==> row.attempts == 0)
            && (row.status.Failed? ==> 1 <= row.attempts < s.maxAttempts)
            && (row.status.Dead? ==> row.attempts == s.maxAttempts)
  {
    hide Reachable, CallsOk, PromisesOk, JobsOk;
    ReachableIsSound(s);
  }
}
