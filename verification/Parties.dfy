/** The two outside parties every saga talks to: a ledger that deduplicates by reference, and a
    provider that deduplicates by idempotency key and whose truth about a key only moves forward.
    Any call to either may fail to arrive, or arrive and have its reply lost. */
module Parties {

  /** What the provider can say about a payout or a refund; Other is any status the service does not name. */
  datatype ProviderStatus = SaysConfirmed | SaysFailed | SaysRejected | SaysCancelled | SaysReversed | SaysOther

  /** A provider's answer, reduced to the fields that are stored. The destination amount is
      only reported for payouts. */
  datatype Report = Report(status: ProviderStatus, providerId: string, reference: string, raw: string, destinationAmount: string)

  /** The provider's truth about the idempotency key of one payout or refund. */
  datatype Truth = Unheard | Open | Paid | Refused | FailedThere | CancelledThere | ReversedThere

  /** The provider's truth only moves forward, and a refusal, failure, cancellation or reversal is final. */
  predicate Advances(t: Truth, u: Truth) {
    match t
    case Unheard => !u.Unheard?
    case Open => u.Paid? || u.FailedThere? || u.CancelledThere? || u.ReversedThere?
    case Paid => u.ReversedThere?
    case _ => false
  }

  /** Truths under which the merchant's money may be given back. */
  predicate GivesBack(t: Truth) {
    t.Refused? || t.FailedThere? || t.CancelledThere? || t.ReversedThere?
  }

  /** A provider that answers, answers with the truth. */
  predicate Says(t: Truth, s: ProviderStatus) {
    match t
    case Unheard => false
    case Open => s == SaysOther
    case Paid => s == SaysConfirmed
    case Refused => s == SaysFailed || s == SaysRejected
    case FailedThere => s == SaysFailed || s == SaysRejected
    case CancelledThere => s == SaysCancelled
    case ReversedThere => s == SaysReversed
  }

  /** An event may be delayed or repeated: it reports a truth that held at some time. */
  predicate Announced(past: set<Truth>, s: ProviderStatus) {
    match s
    case SaysConfirmed => Paid in past
    case SaysFailed => Refused in past || FailedThere in past
    case SaysRejected => Refused in past || FailedThere in past
    case SaysCancelled => CancelledThere in past
    case SaysReversed => ReversedThere in past
    case SaysOther => past != {}
  }

  /** One attempt at an idempotent ledger call. */
  datatype LedgerOutcome = Applied | AppliedReplyLost | Insufficient | Unreached

  datatype LedgerReply = LedgerOk | LedgerShort | LedgerError

  function ReplyOf(out: LedgerOutcome): LedgerReply {
    match out
    case Applied => LedgerOk
    case Insufficient => LedgerShort
    case _ => LedgerError
  }

  predicate Reaches(out: LedgerOutcome) {
    out.Applied? || out.AppliedReplyLost?
  }

  datatype CreateReply = CreateAnswered(report: Report) | CreateRejected | CreateNoAnswer
  datatype LookupReply = LookupAnswered(report: Report) | LookupNoAnswer

  /** What ledger and provider hold under one resource's references. */
  datatype External = External(
    debited: bool, released: bool,        // the ledger has applied the debit, the release
    debitOut: bool, releaseOut: bool,     // a call was given up on and may still reach the ledger
    truth: Truth, past: set<Truth>,       // the provider's truth, and every truth it has held
    creates: nat,                         // how often the provider was sent the resource
    misled: bool)                         // a create call was answered with a rejection that was not true

  const UNTOUCHED := External(false, false, false, false, Unheard, {}, 0, false)

  function Learn(e: External, t: Truth): External {
    e.(truth := t, past := if t == Unheard then e.past else e.past + {t})
  }

  function AfterDebit(e: External, out: LedgerOutcome): External {
    e.(debited := e.debited || Reaches(out), debitOut := e.debitOut || out.Unreached?)
  }

  function AfterRelease(e: External, out: LedgerOutcome): External {
    e.(released := e.released || Reaches(out), releaseOut := e.releaseOut || out.Unreached?)
  }

  function AfterCreate(e: External, t: Truth, reply: CreateReply): External {
    Learn(e, t).(creates := e.creates + 1, misled := e.misled || Misleads(t, reply))
  }

  /** A rejection says that the provider has refused for good. */
  predicate Misleads(t: Truth, reply: CreateReply) {
    reply.CreateRejected? && t != Refused
  }

  /** d knows at least what e knew. */
  predicate Grows(e: External, d: External) {
    && (e.debited ==> d.debited) && (e.released ==> d.released)
    && (d.truth == e.truth || Advances(e.truth, d.truth))
    && e.creates <= d.creates && (e.misled ==> d.misled)
  }

  predicate PastOk(e: External) {
    && (e.truth == Unheard <==> e.past == {})
    && (e.truth != Unheard ==> e.truth in e.past && e.creates > 0)
    && (e.misled ==> e.creates > 0)
    && (Paid in e.past ==> e.truth.Paid? || e.truth.ReversedThere?)
    && (Refused in e.past ==> e.truth.Refused?)
    && (FailedThere in e.past ==> e.truth.FailedThere?)
    && (CancelledThere in e.past ==> e.truth.CancelledThere?)
    && (ReversedThere in e.past ==> e.truth.ReversedThere?)
  }
}
