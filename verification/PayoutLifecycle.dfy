/** The payout row, its eleven operational statuses and the one transaction that changes it
    (internal/adapters/postgres/payouts.go). */
module PayoutLifecycle {
  import opened Common
  import opened Parties

  datatype Status =
    | PendingDebit | PendingProvider | ProviderUnknown | Processing | Confirmed
    | PendingCompensation | PendingCompensationCancelled | PendingCompensationReversed
    | Failed | Cancelled | Reversed

  /** What the merchant sees. */
  datatype Public = PubProcessing | PubConfirmed | PubFailed | PubCancelled | PubReversed

  function PublicStatus(s: Status): Public {
    match s
    case Confirmed => PubConfirmed
    case PendingCompensationReversed => PubConfirmed
    case Failed => PubFailed
    case Cancelled => PubCancelled
    case Reversed => PubReversed
    case _ => PubProcessing
  }

  /** The status a provider's answer asks for; workers and events use the same table. */
  function Target(s: ProviderStatus): Status {
    match s
    case SaysConfirmed => Confirmed
    case SaysFailed => PendingCompensation
    case SaysRejected => PendingCompensation
    case SaysCancelled => PendingCompensationCancelled
    case SaysReversed => PendingCompensationReversed
    case SaysOther => Processing
  }

  /** payoutOperationalTransitionAllowed: the table that guards provider events. */
  predicate EventAllowed(from: Status, to: Status) {
    from != to &&
    match from
    case PendingDebit => to == PendingProvider || to == Failed
    case PendingProvider => Reportable(to) && to != PendingCompensationReversed
    case ProviderUnknown => Reportable(to) && to != PendingCompensationReversed
    case Processing => Reportable(to) && to != PendingCompensationReversed
    case Confirmed => to == PendingCompensationReversed
    case PendingCompensation => to == Failed
    case PendingCompensationCancelled => to == Cancelled
    case PendingCompensationReversed => to == Reversed
    case _ => false
  }

  /** Where an event moves a row, if it does: what the provider says, row by row of the source's two switches. */
  function EventMove(from: Status, said: ProviderStatus): Option<Status> {
    match said
    case SaysReversed => if from == Confirmed then Some(PendingCompensationReversed) else None
    case SaysOther => if from == PendingProvider || from == ProviderUnknown then Some(Processing) else None
    case _ =>
      if from != PendingProvider && from != ProviderUnknown && from != Processing then None
      else if said == SaysConfirmed then Some(Confirmed)
      else if said == SaysCancelled then Some(PendingCompensationCancelled)
      else Some(PendingCompensation)
  }

  lemma EventMovesExactly(from: Status, said: ProviderStatus)
    ensures EventAllowed(from, Target(said)) <==> EventMove(from, said).Some?
    ensures EventMove(from, said).Some? ==> EventMove(from, said).value == Target(said)
  {
  }

  /** The table for events is the table of all moves, without standing still, without provider_unknown, and with a reversal
      only from confirmed. */
  lemma EventTableExactly(from: Status, to: Status)
    ensures EventAllowed(from, to) <==>
            Edge(from, to) && from != to && to != ProviderUnknown && (to == PendingCompensationReversed ==> from == Confirmed)
  {
  }

  /** Every move that either a worker or an event can ask for. This is wider than EventAllowed:
      a worker also takes pending_provider to provider_unknown, goes straight to
      pending_compensation_reversed, and rewrites processing with processing. */
  predicate Edge(from: Status, to: Status) {
    match from
    case PendingDebit => to == PendingProvider || to == Failed
    case PendingProvider => to == ProviderUnknown || Reportable(to)
    case ProviderUnknown => Reportable(to)
    case Processing => Reportable(to)
    case Confirmed => to == PendingCompensationReversed
    case PendingCompensation => to == Failed
    case PendingCompensationCancelled => to == Cancelled
    case PendingCompensationReversed => to == Reversed
    case _ => false
  }

  /** The statuses a provider's answer can ask for. */
  predicate Reportable(to: Status) {
    to.Processing? || to.Confirmed? || to.PendingCompensation? || to.PendingCompensationCancelled? || to.PendingCompensationReversed?
  }

  /** Progress measure: how many status changes are still possible at most. */
  function Rank(s: Status): nat {
    match s
    case PendingDebit => 6
    case PendingProvider => 5
    case ProviderUnknown => 4
    case Processing => 3
    case Confirmed => 2
    case PendingCompensation => 1
    case PendingCompensationCancelled => 1
    case PendingCompensationReversed => 1
    case _ => 0
  }

  /** The merchant event ids: deterministicID is injective, so its preimages stand for them. */
  datatype EventId = CreatedId | ChangedId(next: Status)

  datatype Webhook = Webhook(id: EventId, previous: Option<Public>, status: Public, version: nat)

  /** INSERT ... ON CONFLICT DO NOTHING into the webhook outbox. */
  function InsertWebhook(outbox: seq<Webhook>, w: Webhook): seq<Webhook> {
    if exists i :: 0 <= i < |outbox| && outbox[i].id == w.id then outbox else outbox + [w]
  }

  /** The outbox holds one row for an event id. */
  lemma InsertedOnce(outbox: seq<Webhook>, w: Webhook)
    requires forall i, j :: 0 <= i < j < |outbox| ==> outbox[i].id != outbox[j].id
    ensures var u := InsertWebhook(outbox, w);
            && outbox <= u && (exists i :: 0 <= i < |u| && u[i].id == w.id)
            && (forall i, j :: 0 <= i < j < |u| ==> u[i].id != u[j].id)
            && (|u| == |outbox| + 1 ==> u[|outbox|] == w)
  {
    var u := InsertWebhook(outbox, w);
    if u != outbox { assert u[|outbox|] == w; }
  }

  /** The last_error column: empty, or one of the three texts process() writes. */
  datatype Message = NoError | InsufficientBalance | ProviderRejected | CreateAmbiguous

  /** The update fields of TransitionPayout. */
  datatype Fields = Fields(providerId: string, reference: string, providerStatus: string, lastError: Message,
                           debited: bool, submitted: bool, destinationAmount: string)

  const NO_FIELDS := Fields("", "", "", NoError, false, false, "")

  function WorkerFields(r: Report): Fields {
    NO_FIELDS.(submitted := true, providerId := r.providerId, reference := r.reference,
               providerStatus := r.raw, destinationAmount := r.destinationAmount)
  }

  /** An event never carries the destination amount. */
  function EventFields(r: Report): Fields {
    NO_FIELDS.(submitted := true, providerId := r.providerId, reference := r.reference, providerStatus := r.raw)
  }

  /** The payout row together with the webhook rows written about it. */
  datatype Record = Record(
    status: Status, version: nat, balanceDebited: bool, providerSubmitted: bool,
    providerId: string, reference: string, providerStatus: string, destinationAmount: string, lastError: Message,
    confirmedAt: Option<int>, failedAt: Option<int>, cancelledAt: Option<int>, reversedAt: Option<int>,
    outbox: seq<Webhook>)

  /** The row CompletePayout inserts, with its payout.created webhook. */
  function NewRecord(): Record {
    Record(PendingDebit, 1, false, false, "", "", "", "", NoError, None, None, None, None,
           [Webhook(CreatedId, None, PubProcessing, 1)])
  }

  function Stamp(hit: bool, now: int, stored: Option<int>): Option<int> {
    if hit then Some(now) else stored
  }

  function Updated(r: Record, next: Status, f: Fields, now: int): Record {
    r.(status := next,
       version := r.version + 1,
       balanceDebited := r.balanceDebited || f.debited,
       providerSubmitted := r.providerSubmitted || f.submitted,
       providerId := Coalesce(f.providerId, r.providerId),
       reference := Coalesce(f.reference, r.reference),
       providerStatus := Coalesce(f.providerStatus, r.providerStatus),
       destinationAmount := Coalesce(f.destinationAmount, r.destinationAmount),
       lastError := f.lastError,
       confirmedAt := Stamp(next == Confirmed, now, r.confirmedAt),
       failedAt := Stamp(next == Failed, now, r.failedAt),
       cancelledAt := Stamp(next == Cancelled, now, r.cancelledAt),
       reversedAt := Stamp(next == Reversed, now, r.reversedAt))
  }

  /** One webhook if the public status moved. */
  function LogAfter(outbox: seq<Webhook>, expected: Status, next: Status, version: nat): seq<Webhook> {
    if PublicStatus(expected) == PublicStatus(next) then outbox
    else InsertWebhook(outbox, Webhook(ChangedId(next), Some(PublicStatus(expected)), PublicStatus(next), version))
  }

  /** TransitionPayout on one row: compare-and-set on the status, and the webhook. */
  function Transition(r: Record, expected: Status, next: Status, f: Fields, now: int): Result<Record> {
    if r.status != expected then Err(Conflict)
    else Ok(Updated(r, next, f, now).(outbox := LogAfter(r.outbox, expected, next, r.version + 1)))
  }

  /** The row after an attempted compare-and-set, whether it hit or not. */
  function RecordAfter(r: Record, expected: Status, next: Status, f: Fields, now: int): Record {
    match Transition(r, expected, next, f, now)
    case Ok(u) => u
    case Err(_) => r
  }

  function HistoryAfter(status: Status, history: seq<Status>, expected: Status, next: Status): seq<Status> {
    if status == expected then history + [next] else history
  }

  /** scanPayout's failure object: shown only for a failed row that still carries an error. */
  predicate ShowsFailure(r: Record) {
    r.status == Failed && r.lastError != NoError
  }

  /** The row took over a provider's answer: each non-empty text in its own column, the others as they were. */
  predicate Took(before: Record, p: Report, after: Record) {
    && TookEvent(before, p, after)
    && after.destinationAmount == if p.destinationAmount != "" then p.destinationAmount else before.destinationAmount
  }

  predicate TookEvent(before: Record, p: Report, after: Record) {
    && after.providerId == (if p.providerId != "" then p.providerId else before.providerId)
    && after.reference == (if p.reference != "" then p.reference else before.reference)
    && after.providerStatus == (if p.raw != "" then p.raw else before.providerStatus)
    && after.providerSubmitted
  }
}
