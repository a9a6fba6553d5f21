/** Ledger and provider as the objects the workers call (internal/adapters/dinacore/client.go,
    internal/adapters/httpclient/clients.go). What the other side does with a call, and whether its reply
    comes back, is a parameter of the call. */
module Clients {
  import opened Parties

  /** Names one payout or refund, to the ledger as (refType, refId) and to the provider as the
      idempotency key "payout:" + id or "refund:" + id: always the same for one resource. */
  datatype Ref = PayoutRef(id: string) | RefundRef(id: string)

  class Ledger {
    var debited: set<Ref>
    var released: set<Ref>
    var debitsOut: set<Ref>      // debits that were given up on and may still arrive
    var releasesOut: set<Ref>

    constructor ()
      ensures debited == released == debitsOut == releasesOut == {}
    {
      debited, released, debitsOut, releasesOut := {}, {}, {}, {};
    }

    /** DebitPayout, DebitConfirmedRefund: a reference is debited at most once. */
    method Debit(ref: Ref, out: LedgerOutcome) returns (r: LedgerReply)
      modifies this`debited, this`debitsOut
      ensures r == ReplyOf(out)
      ensures debited == old(debited) + if Reaches(out) then {ref} else {}
      ensures debitsOut == old(debitsOut) + if out.Unreached? then {ref} else {}
    {
      if Reaches(out) { debited := debited + {ref}; }
      if out.Unreached? { debitsOut := debitsOut + {ref}; }
      return ReplyOf(out);
    }

    /** CreditFailedPayout, CreditFailedRefund. */
    method Release(ref: Ref, out: LedgerOutcome) returns (r: LedgerReply)
      modifies this`released, this`releasesOut
      ensures r == ReplyOf(out)
      ensures released == old(released) + if Reaches(out) then {ref} else {}
      ensures releasesOut == old(releasesOut) + if out.Unreached? then {ref} else {}
    {
      if Reaches(out) { released := released + {ref}; }
      if out.Unreached? { releasesOut := releasesOut + {ref}; }
      return ReplyOf(out);
    }

    /** A call that the client timed out on reaches the ledger after all. */
    method Arrive(ref: Ref, debit: bool)
      modifies this`debited, this`released
      ensures debited == old(debited) + if debit then {ref} else {}
      ensures released == old(released) + if debit then {} else {ref}
    {
      if debit { debited := debited + {ref}; } else { released := released + {ref}; }
    }
  }

  datatype Known = Known(truth: Truth, past: set<Truth>, creates: nat, misled: bool)

  function Heard(h: Known, t: Truth): Known {
    h.(truth := t, past := if t == Unheard then h.past else h.past + {t})
  }

  class Connector {
    var held: map<Ref, Known>

    constructor ()
      ensures held == map[]
    {
      held := map[];
    }

    function At(ref: Ref): Known
      reads this
    {
      if ref in held then held[ref] else Known(Unheard, {}, 0, false)
    }

    /** CreatePayout, CreateRefund. */
    method Create(ref: Ref, truth: Truth, reply: CreateReply) returns (r: CreateReply)
      modifies this
      ensures r == reply
      ensures held == old(held)[ref := Heard(old(At(ref)), truth).(creates := old(At(ref)).creates + 1, misled := old(At(ref)).misled || Misleads(truth, reply))]
    {
      var h := At(ref);
      held := held[ref := Heard(h, truth).(creates := h.creates + 1, misled := h.misled || Misleads(truth, reply))];
      return reply;
    }

    /** The provider moves on by itself. */
    method Advance(ref: Ref, truth: Truth)
      modifies this
      ensures held == old(held)[ref := Heard(old(At(ref)), truth)]
    {
      held := held[ref := Heard(At(ref), truth)];
    }

    /** GetPayout, GetRefund. */
    method Get(ref: Ref, reply: LookupReply) returns (r: LookupReply)
      ensures r == reply
    {
      return reply;
    }
  }
}
