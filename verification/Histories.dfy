/** What a legal audit trail implies about one payment. */
module Histories {
  import opened Options
  import opened Statuses
  import opened Names
  import opened Banks
  import opened Tables
  import Backoff

  /** Attempt numbers of the retries a worker recorded, in order. */
  function Attempts(h: seq<Event>): seq<nat> {
    if |h| == 0 then [] else
    Attempts(h[..|h| - 1]) + (if Last(h).meta.Retried? then [Last(h).meta.attempt] else [])
  }

  /** Retries the reaper recorded. */
  function Reaps(h: seq<Event>): nat {
    if |h| == 0 then 0 else Reaps(h[..|h| - 1]) + (if Last(h).meta.Reaped? then 1 else 0)
  }

  /** The trail is one unbroken path of the transition map from its submission. */
  lemma {:induction false} LegalIsUnbroken(maxRetries: nat, h: seq<Event>)
    requires Legal(maxRetries, h)
    ensures h[0] == SUBMITTED_EVENT
    ensures forall i | 0 < i < |h| :: h[i].from == Some(h[i - 1].to) && CanTransition(h[i - 1].to, h[i].to)
  {
    if |h| > 1 {
      LegalIsUnbroken(maxRetries, h[..|h| - 1]);
    }
  }

  /** Events after the last retry, by where the trail ends. */
  function Tail(s: Status): nat {
    match s
    case PENDING => 1
    case RETRYING => 1
    case PROCESSING => 2
    case COMPLETED => 3
    case FAILED => 3
  }

  /** The length of a trail is determined by its retries and its end. */
  lemma {:induction false} LegalLength(maxRetries: nat, h: seq<Event>)
    requires Legal(maxRetries, h)
    ensures |h| == 2 * Retries(h) + Tail(Last(h).to)
    ensures Last(h).to == PENDING <==> |h| == 1
  {
    if |h| == 1 {
      assert h[..0] == [];
      assert Retries(h) == 0;
    } else {
      LegalLength(maxRetries, h[..|h| - 1]);
    }
  }

  /** Worker retries are numbered in strictly increasing order within the budget, and every
      RETRYING event is one of them or a reap. */
  lemma {:induction false} LegalAttempts(maxRetries: nat, h: seq<Event>)
    requires Legal(maxRetries, h)
    ensures Backoff.StrictlyIncreasing(Attempts(h))
    ensures forall i | 0 <= i < |Attempts(h)| :: 1 <= Attempts(h)[i] <= maxRetries && Attempts(h)[i] <= Retries(h)
    ensures Retries(h) == |Attempts(h)| + Reaps(h)
  {
    if |h| == 1 {
      assert h[..0] == [];
      assert Attempts(h) == [] && Retries(h) == 0 && Reaps(h) == 0;
    } else {
      LegalAttempts(maxRetries, h[..|h| - 1]);
    }
  }

  lemma {:induction false} IncreasingWithin(xs: seq<nat>, bound: nat)
    requires Backoff.StrictlyIncreasing(xs) && forall i | 0 <= i < |xs| :: 1 <= xs[i] <= bound
    ensures |xs| <= bound
  {
    if |xs| > 0 {
      var n := |xs| - 1;
      IncreasingWithin(xs[..n], xs[n] - 1);
    }
  }

  /** A payment has at most 3 + 2 * maxRetries events plus two for each time it was reaped. */
  lemma {:induction false} LegalBound(maxRetries: nat, h: seq<Event>)
    requires Legal(maxRetries, h)
    ensures |Attempts(h)| <= maxRetries
    ensures |h| <= 3 + 2 * maxRetries + 2 * Reaps(h)
  {
    LegalLength(maxRetries, h);
    LegalAttempts(maxRetries, h);
    IncreasingWithin(Attempts(h), maxRetries);
  }

  /** Whatever is drawn, the retries of one payment schedule at most one full set of delays. */
  lemma {:induction false} LegalDelay(maxRetries: nat, h: seq<Event>, base: real, cap: real, draws: seq<real>)
    requires Legal(maxRetries, h) && base >= 0.0 && cap >= 0.0
    requires |draws| == |Attempts(h)| && forall i | 0 <= i < |draws| :: 0.0 <= draws[i] < 1.0
    ensures var total := Backoff.TotalDelay(base, cap, Attempts(h), draws);
            && total <= Backoff.SumExp(base, cap, maxRetries)
            && total <= maxRetries as real * cap
            && total <= base * (Backoff.Pow2(maxRetries) as real - 1.0)
  {
    LegalAttempts(maxRetries, h);
    Backoff.TotalDelayBounded(base, cap, maxRetries, Attempts(h), draws);
    Backoff.RetryBudget(base, cap, maxRetries);
  }

  /** A retry that is to be scheduled has an attempt number above all that were scheduled before. */
  lemma RetryAttemptIsNew(maxRetries: nat, db: Db, p: Id, reason: Reason)
    requires p in db.payments && RowSound(maxRetries, db, p)
    ensures var (db', n) := RetryTxn(db, maxRetries, p, reason);
            n.Some? ==>
              && Attempts(EventsOf(db', p)) == Attempts(EventsOf(db, p)) + [n.value]
              && n.value <= maxRetries
              && forall i | 0 <= i < |Attempts(EventsOf(db, p))| :: Attempts(EventsOf(db, p))[i] < n.value
  {
    hide Legal, Retries;
    var h := db.events[p];
    var (db', n) := RetryTxn(db, maxRetries, p, reason);
    if n.Some? {
      PendingIsFresh(maxRetries, db.payments[p], h);
      LegalAttempts(maxRetries, h);
      var h' := db'.events[p];
      assert h'[..|h'| - 1] == h;
    }
  }
}
