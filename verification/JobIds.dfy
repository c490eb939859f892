/** The job ids of both queues. BullMQ compares them as text, so the model may treat them as
    structured values only because rendering them is injective. */
module JobIds {
  import opened Decimals
  import opened Names

  datatype JobId =
    | Submission(outboxId: Id)
    | Retry(paymentId: Id, attempt: nat)
    | Reap(paymentId: Id, at: nat)

  /** `text` writes a generated id. */
  function Render(text: Id -> string, j: JobId): string {
    match j
    case Submission(o) => text(o)
    case Retry(p, n) => text(p) + ":retry:" + Decimal(n)
    case Reap(p, at) => text(p) + ":reap:" + Decimal(at)
  }

  predicate Plain(s: string) {
    ':' !in s
  }

  /** Different ids have different texts, none of which contains a colon. */
  ghost predicate IsIdText(text: Id -> string) {
    && (forall x: Id :: Plain(text(x)))
    && (forall x: Id, y: Id :: text(x) == text(y) ==> x == y)
  }

  /** What precedes the first colon. */
  function Head(s: string): string {
    if s == "" || s[0] == ':' then "" else [s[0]] + Head(s[1..])
  }

  lemma {:induction false} HeadOfPlain(p: string, r: string)
    requires Plain(p)
    ensures Head(p + ":" + r) == p
  {
    var s := p + ":" + r;
    if p == "" {
      assert s[0] == ':';
    } else {
      assert s[0] == p[0] && s[1..] == p[1..] + ":" + r;
      HeadOfPlain(p[1..], r);
    }
  }

  lemma {:induction false} SplitAtColon(p: string, r: string, q: string, t: string)
    requires Plain(p) && Plain(q) && p + ":" + r == q + ":" + t
    ensures p == q && r == t
  {
    HeadOfPlain(p, r);
    HeadOfPlain(q, t);
    assert r == (p + ":" + r)[|p| + 1..] && t == (q + ":" + t)[|q| + 1..];
  }

  /** What follows the first colon. */
  function Suffix(j: JobId): string
    requires !j.Submission?
  {
    (if j.Retry? then "retry:" + Decimal(j.attempt) else "reap:" + Decimal(j.at))
  }

  lemma RenderSplits(text: Id -> string, j: JobId)
    requires !j.Submission?
    ensures Render(text, j) == text(j.paymentId) + ":" + Suffix(j)
  {
    if j.Retry? {
      assert ":retry:" == ":" + "retry:";
    } else {
      assert ":reap:" == ":" + "reap:";
    }
  }

  lemma {:induction false} SuffixInjective(i: JobId, j: JobId)
    requires !i.Submission? && !j.Submission? && i.paymentId == j.paymentId && Suffix(i) == Suffix(j)
    ensures i == j
  {
    assert Suffix(i)[2] == (if i.Retry? then 't' else 'a');
    assert Suffix(j)[2] == (if j.Retry? then 't' else 'a');
    if i.Retry? {
      assert Suffix(i)[6..] == Decimal(i.attempt) && Suffix(j)[6..] == Decimal(j.attempt);
      DecimalInjective(i.attempt, j.attempt);
    } else {
      assert Suffix(i)[5..] == Decimal(i.at) && Suffix(j)[5..] == Decimal(j.at);
      DecimalInjective(i.at, j.at);
    }
  }

  lemma ColonMarksDerivedIds(text: Id -> string, j: JobId)
    requires IsIdText(text)
    ensures ':' in Render(text, j) <==> !j.Submission?
  {
    if j.Submission? {
      assert Plain(text(j.outboxId));
    } else {
      RenderSplits(text, j);
      assert Render(text, j)[|text(j.paymentId)|] == ':';
    }
  }

  /** Different jobs have different texts: a submission, a retry and a reap never collide, nor do
      two retries or two reaps. */
  lemma {:induction false} RenderInjective(text: Id -> string, i: JobId, j: JobId)
    requires IsIdText(text)
    ensures Render(text, i) == Render(text, j) <==> i == j
  {
    ColonMarksDerivedIds(text, i);
    ColonMarksDerivedIds(text, j);
    if Render(text, i) == Render(text, j) && !i.Submission? {
      RenderSplits(text, i);
      RenderSplits(text, j);
      SplitAtColon(text(i.paymentId), Suffix(i), text(j.paymentId), Suffix(j));
      SuffixInjective(i, j);
    }
  }

  /** The text of a retry or a reap is the payment's id, the kind and the number in decimal, from which all
      three can be read back; that of a submission is the outbox row's id. */
  lemma {:induction false} RenderReadsBack(text: Id -> string, j: JobId)
    requires IsIdText(text)
    ensures match j
            case Submission(o) => Render(text, j) == text(o)
            case Retry(p, n) => Reads(Render(text, j), text(p), "retry", n)
            case Reap(p, at) => Reads(Render(text, j), text(p), "reap", at)
  {
    match j
    case Submission(_) =>
    case Retry(p, n) =>
      assert Render(text, j) == text(p) + ":" + "retry" + ":" + Decimal(n) by { Joins(text(p), "retry", Decimal(n)); }
      hide Reads, Render, Decimal;
      NumberReadsBack(text(p), "retry", n);
    case Reap(p, at) =>
      assert Render(text, j) == text(p) + ":" + "reap" + ":" + Decimal(at) by { Joins(text(p), "reap", Decimal(at)); }
      hide Reads, Render, Decimal;
      NumberReadsBack(text(p), "reap", at);
  }

  lemma Joins(id: string, word: string, digits: string)
    ensures id + (":" + word + ":") + digits == id + ":" + word + ":" + digits
    ensures ":" + "retry" + ":" == ":retry:" && ":" + "reap" + ":" == ":reap:"
  {
  }

  /** The text up to its first colon, the word up to the next, and the value of the digits that follow. */
  ghost predicate Reads(s: string, id: string, word: string, n: nat) {
    && Head(s) == id && |id| < |s| && Head(s[|id| + 1..]) == word
    && |id| + |word| + 2 <= |s| && AllDigits(s[|id| + |word| + 2..]) && Value(s[|id| + |word| + 2..]) == n
  }

  lemma {:induction false} NumberReadsBack(id: string, word: string, n: nat)
    requires Plain(id) && Plain(word)
    ensures Reads(id + ":" + word + ":" + Decimal(n), id, word, n)
  {
    var rest := word + ":" + Decimal(n);
    var s := id + ":" + word + ":" + Decimal(n);
    assert s == id + ":" + rest;
    HeadOfPlain(id, rest);
    assert s[|id| + 1..] == rest;
    HeadOfPlain(word, Decimal(n));
    assert s[|id| + |word| + 2..] == Decimal(n);
    ValueOfDecimal(n);
  }
}
