/** Webhook deliveries: the processor's state machine and the reaper that rebuilds lost jobs
    (apps/api/src/webhooks/webhook.processor.ts, webhook-reaper.service.ts). */
module Deliveries {
  import opened Options
  import opened Names
  import JobIds
  import Backoff

  datatype Status = Pending | Delivered | Failed | Dead

  datatype Row = Row(status: Status, attempts: nat)

  const NEW_ROW := Row(Pending, 0)

  predicate IsTerminal(r: Row) {
    r.status == Delivered || r.status == Dead
  }

  /** The update after one POST: a success counts on the row as it is then, a failure on the
      attempts read before the POST. Neither looks at the row's status again. */
  function Write(maxAttempts: nat, row: Row, snapshot: Row, ok: bool): Row {
    if ok then Row(Delivered, row.attempts + 1)
    else if snapshot.attempts + 1 >= maxAttempts then Row(Dead, snapshot.attempts + 1)
    else Row(Failed, snapshot.attempts + 1)
  }

  ghost predicate RowOk(maxAttempts: nat, r: Row) {
    match r.status
    case Pending => r.attempts == 0
    case Failed => 1 <= r.attempts < maxAttempts
    case Dead => r.attempts == maxAttempts
    case Delivered => r.attempts >= 1
  }

  // ---------------------------------------------------------------- jobs

  datatype Job = First(delivery: Id) | Next(delivery: Id, attempts: nat)

  function AsJobId(j: Job): JobIds.JobId {
    match j
    case First(d) => JobIds.Submission(d)
    case Next(d, n) => JobIds.Retry(d, n)
  }

  /** Job ids of the webhooks queue are as distinct as texts as they are here. */
  lemma WebhookTextsDiffer(text: Id -> string, i: Job, j: Job)
    requires JobIds.IsIdText(text)
    ensures JobIds.Render(text, AsJobId(i)) == JobIds.Render(text, AsJobId(j)) <==> i == j
  {
    JobIds.RenderInjective(text, AsJobId(i), AsJobId(j));
  }

  /** The id the reaper rebuilds from the attempts of a row. */
  function Rebuilt(d: Id, r: Row): Job {
    if r.attempts == 0 then First(d) else Next(d, r.attempts)
  }

  /** A row as somebody read or wrote it who is going to enqueue a job for it. */
  datatype Pick = Pick(delivery: Id, row: Row)

  function JobOf(p: Pick): Job {
    Rebuilt(p.delivery, p.row)
  }

  lemma JobsOfMore(picks: seq<Pick>, p: Pick)
    ensures (set q | q in picks + [p] :: JobOf(q)) == (set q | q in picks :: JobOf(q)) + {JobOf(p)}
  {
    assert p in picks + [p];
    assert forall q | q in picks :: q in picks + [p];
  }

  /** The rows and the ids taken in the queue: jobs that wait, are delayed or run; ended ones are evicted. */
  datatype Desk = Desk(rows: map<Id, Row>, live: set<Job>)

  /** One call of `process` that nobody interrupts, and the eviction of its job. */
  function ProcessAlone(maxAttempts: nat, s: Desk, j: Job, ok: bool): Desk {
    var d := j.delivery;
    if d !in s.rows || IsTerminal(s.rows[d]) then s.(live := s.live - {j}) else
    var row := Write(maxAttempts, s.rows[d], s.rows[d], ok);
    var followUp := if row.status == Failed then {Next(d, row.attempts)} else {};
    Desk(s.rows[d := row], s.live + followUp - {j})
  }

  /** What one POST makes of an open row that nobody else writes: a success delivers it; a failure counts and
      has it tried again under the next id, or leaves it dead with the maximum of attempts. */
  lemma PostDecides(maxAttempts: nat, s: Desk, j: Job, ok: bool)
    requires j.delivery in s.rows && s.rows[j.delivery].status in {Pending, Failed} && j in s.live
    ensures var d := j.delivery; var n := s.rows[d].attempts + 1; var t := ProcessAlone(maxAttempts, s, j, ok);
            if ok then t == Desk(s.rows[d := Row(Delivered, n)], s.live - {j})
            else if n >= maxAttempts then t == Desk(s.rows[d := Row(Dead, n)], s.live - {j})
            else t == Desk(s.rows[d := Row(Failed, n)], s.live + {Next(d, n)} - {j})
  {
  }

  /** One tick of the reaper that nobody interrupts. */
  function ReapAlone(s: Desk, stuck: set<Id>): Desk {
    s.(live := s.live + set d | d in stuck && d in s.rows :: Rebuilt(d, s.rows[d]))
  }

  // ----------------------------------------------------------- the services

  class WebhookProcessor {
    var rows: map<Id, Row>
    var live: set<Job>
    var delays: map<Job, real>
    const maxAttempts: nat
    const baseMs: real
    const capMs: real

    constructor (maxAttempts: nat, baseMs: real, capMs: real)
      ensures rows == map[] && live == {} && delays == map[]
      ensures this.maxAttempts == maxAttempts && this.baseMs == baseMs && this.capMs == capMs
    {
      rows, live, delays := map[], {}, map[];
      this.maxAttempts, this.baseMs, this.capMs := maxAttempts, baseMs, capMs;
    }

    ghost function View(): Desk
      reads this
    {
      Desk(rows, live)
    }

    /** Before the POST: None if there is nothing to send. */
    method ReadRow(d: Id) returns (snapshot: Option<Row>)
      ensures snapshot == if d in rows && !IsTerminal(rows[d]) then Some(rows[d]) else None
    {
      if d !in rows {
        return None;
      }
      var row := rows[d];
      if row.status == Delivered || row.status == Dead {
        return None;
      }
      return Some(row);
    }

    /** After the POST: the unguarded write, and the attempts to schedule next, if any. */
    method WriteRow(d: Id, snapshot: Row, ok: bool) returns (retry: Option<nat>)
      requires d in rows
      modifies this`rows
      ensures rows == old(rows)[d := Write(maxAttempts, old(rows)[d], snapshot, ok)]
      ensures retry == if rows[d].status == Failed then Some(rows[d].attempts) else None
    {
      if ok {
        rows := rows[d := Row(Delivered, rows[d].attempts + 1)];
        return None;
      }
      var attempts := snapshot.attempts + 1;
      if attempts >= maxAttempts {
        rows := rows[d := Row(Dead, attempts)];
        return None;
      }
      rows := rows[d := Row(Failed, attempts)];
      return Some(attempts);
    }

    /** One undisturbed call, and the eviction of its job. */
    method ProcessJob(j: Job, ok: bool, random: real)
      requires j in live
      requires baseMs >= 0.0 && capMs >= 0.0 && 0.0 <= random < 1.0
      modifies this
      ensures View() == ProcessAlone(maxAttempts, old(View()), j, ok)
      ensures forall i | i in live && i !in old(live) ::
                && i.Next? && i.attempts >= 1 && i in delays
                && var exp := Backoff.Exp(baseMs, capMs, i.attempts);
                   exp / 2.0 <= delays[i] == (exp + random * exp) / 2.0 <= exp
    {
      var d := j.delivery;
      var snapshot := ReadRow(d);
      if snapshot.None? {
        live := live - {j};
        return;
      }
      var retry := WriteRow(d, snapshot.value, ok);
      if retry.Some? {
        var delay := Backoff.ComputeBackoffMs(baseMs, capMs, retry.value, random);
        Backoff.DelayInBand(baseMs, capMs, retry.value, random);
        Backoff.DelayIs(baseMs, capMs, retry.value, random);
        var next := Next(d, retry.value);
        if next !in live {
          live := live + {next};
          delays := delays[next := if delay.Some? then delay.value else 0.0];
        }
      }
      live := live - {j};
    }
  }

  class WebhookReaperService {
    const processor: WebhookProcessor

    constructor (processor: WebhookProcessor)
      ensures this.processor == processor
    {
      this.processor := processor;
    }

    /** The transaction only reads the rows its select locked; what it read is all that is kept. */
    method ClaimStuck(stuck: seq<Id>) returns (picks: seq<Pick>)
      requires forall d | d in stuck :: d in processor.rows
      ensures |picks| == |stuck|
      ensures forall i | 0 <= i < |stuck| :: picks[i] == Pick(stuck[i], processor.rows[stuck[i]])
    {
      picks := [];
      for i := 0 to |stuck|
        invariant |picks| == i
        invariant forall h | 0 <= h < i :: picks[h] == Pick(stuck[h], processor.rows[stuck[h]])
      {
        assert stuck[i] in stuck;
        picks := picks + [Pick(stuck[i], processor.rows[stuck[i]])];
      }
    }

    /** After the transaction: one add for each pick, whatever its row has become meanwhile. */
    method EnqueuePicks(picks: seq<Pick>)
      modifies processor`live
      ensures processor.live == old(processor.live) + set p | p in picks :: JobOf(p)
    {
      for i := 0 to |picks|
        invariant processor.live == old(processor.live) + set p | p in picks[..i] :: JobOf(p)
      {
        var d := picks[i].delivery;
        var job := if picks[i].row.attempts == 0 then First(d) else Next(d, picks[i].row.attempts);
        assert picks[..i + 1] == picks[..i] + [picks[i]];
        JobsOfMore(picks[..i], picks[i]);
        processor.live := processor.live + {job};
      }
      assert picks[..|picks|] == picks;
    }

    /** One tick that nobody interrupts. */
    method ReapOnce(stuck: seq<Id>)
      requires forall d | d in stuck :: d in processor.rows
      modifies processor`live
      ensures processor.View() == ReapAlone(old(processor.View()), set d | d in stuck)
    {
      var picks := ClaimStuck(stuck);
      EnqueuePicks(picks);
      ghost var byRow := set d | d in stuck && d in processor.rows :: Rebuilt(d, processor.rows[d]);
      ghost var byPick := set p | p in picks :: JobOf(p);
      forall d | d in stuck ensures Rebuilt(d, processor.rows[d]) in byPick {
        var i :| 0 <= i < |stuck| && stuck[i] == d;
        assert picks[i] in picks;
      }
      assert byRow == byPick;
    }
  }
}
