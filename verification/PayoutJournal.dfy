/** What stands in a payout row, told from what its workers and event handlers were told, and when they committed it
    (the field maps of process() and applyProvider() in internal/app/payouts.go, the columns of TransitionPayout and the
    events of ApplyPayoutProviderEvent in internal/adapters/postgres/payouts.go). */
module PayoutJournal {
  import opened Common
  import opened Parties
  import opened PayoutLifecycle
  import opened PayoutSaga
  import PayoutTheorems

  /** The last thing a worker was told. */
  datatype Word = Nothing | Short | Refusal | Silence | Answer(report: Report) | Announcement(report: Report)

  /** The columns that hold what was told. */
  datatype Columns = Columns(
    providerId: string, reference: string, providerStatus: string, destinationAmount: string,
    submitted: bool, lastError: Message,
    confirmedAt: Option<int>, failedAt: Option<int>, cancelledAt: Option<int>, reversedAt: Option<int>)

  datatype Journal = Journal(heard: map<nat, Word>, columns: Columns)

  const EMPTY := Journal(map[], Columns("", "", "", "", false, NoError, None, None, None, None))

  /** A report's texts go to the columns of their names; an empty text leaves what is there. */
  function Reported(c: Columns, p: Report): Columns {
    c.(providerId := if p.providerId != "" then p.providerId else c.providerId,
       reference := if p.reference != "" then p.reference else c.reference,
       providerStatus := if p.raw != "" then p.raw else c.providerStatus,
       submitted := true)
  }

  function Written(c: Columns, word: Word): Columns {
    match word
    case Nothing => c.(lastError := NoError)
    case Short => c.(lastError := InsufficientBalance)
    case Refusal => c.(lastError := ProviderRejected)
    case Silence => c.(lastError := CreateAmbiguous)
    case Announcement(p) => Reported(c, p).(lastError := NoError)
    case Answer(p) =>
      Reported(c, p).(lastError := NoError, destinationAmount := if p.destinationAmount != "" then p.destinationAmount else c.destinationAmount)
  }

  function Dated(c: Columns, next: Status, now: int): Columns {
    match next
    case Confirmed => c.(confirmedAt := Some(now))
    case Failed => c.(failedAt := Some(now))
    case Cancelled => c.(cancelledAt := Some(now))
    case Reversed => c.(reversedAt := Some(now))
    case _ => c
  }

  /** The last word of the worker of each step, and what a commit writes. */
  function Noted(s: Payout, j: Journal, a: Action): Journal
    requires Enabled(s, a)
  {
    match a
    case Debit(w, out) => j.(heard := j.heard[w := if out.Insufficient? then Short else Nothing])
    case Create(w, _, reply) =>
      j.(heard := j.heard[w := match reply
                               case CreateAnswered(p) => Answer(p)
                               case CreateRejected => Refusal
                               case CreateNoAnswer => Silence])
    case Lookup(w, reply) => j.(heard := j.heard[w := if reply.LookupAnswered? then Answer(reply.report) else Silence])
    case Credit(w, _) => j.(heard := j.heard[w := Nothing])
    case Event(w, p) => j.(heard := j.heard[w := Announcement(p)])
    case Cas(w, now) =>
      if s.rec.status == s.workers[w].expected && w in j.heard
      then j.(columns := Dated(Written(j.columns, j.heard[w]), s.workers[w].next, now))
      else j
    case _ => j
  }

  function Kept(s: Payout, j: Journal, acts: seq<Action>): Journal
    requires Legal(s, acts)
    decreases |acts|
  {
    if acts == [] then j else Kept(Next(s, acts[0]), Noted(s, j, acts[0]), acts[1..])
  }

  /** The row's own columns. */
  function Shown(r: Record): Columns {
    Columns(r.providerId, r.reference, r.providerStatus, r.destinationAmount, r.providerSubmitted, r.lastError,
            r.confirmedAt, r.failedAt, r.cancelledAt, r.reversedAt)
  }

  /** What a worker is about to write is what it was last told. */
  predicate SaysSo(f: Fields, word: Word) {
    match word
    case Answer(p) => f == Fields(p.providerId, p.reference, p.raw, NoError, false, true, p.destinationAmount)
    case Announcement(p) => f == Fields(p.providerId, p.reference, p.raw, NoError, false, true, "")
    case Short => f == Fields("", "", "", InsufficientBalance, false, false, "")
    case Refusal => f == Fields("", "", "", ProviderRejected, false, false, "")
    case Silence => f == Fields("", "", "", CreateAmbiguous, false, false, "")
    case Nothing => f == Fields("", "", "", NoError, f.debited, false, "")
  }

  predicate HeardOk(workers: map<nat, Phase>, heard: map<nat, Word>) {
    forall w :: w in workers && workers[w].Ready? ==> w in heard && SaysSo(workers[w].f, heard[w])
  }

  lemma Hears(s: Payout, j: Journal, a: Action)
    requires Enabled(s, a) && !a.Cas? && HeardOk(s.workers, j.heard)
    ensures HeardOk(Next(s, a).workers, Noted(s, j, a).heard)
  {
    var u, k := Next(s, a), Noted(s, j, a);
    forall w | w in u.workers && u.workers[w].Ready? ensures w in k.heard && SaysSo(u.workers[w].f, k.heard[w]) {
      if !Outside(a) && w == a.w { OwnWord(s, j, a); }
    }
  }

  /** A worker that is ready after its step is ready with what the step told it. */
  lemma OwnWord(s: Payout, j: Journal, a: Action)
    requires Enabled(s, a) && !a.Cas? && !Outside(a) && PhaseAfter(s, a).Some? && PhaseAfter(s, a).value.Ready?
    ensures a.w in Noted(s, j, a).heard && SaysSo(PhaseAfter(s, a).value.f, Noted(s, j, a).heard[a.w])
  {
  }

  lemma Writes(r: Record, next: Status, f: Fields, now: int, c: Columns, word: Word)
    requires Shown(r) == c && SaysSo(f, word)
    ensures Shown(Updated(r, next, f, now)) == Dated(Written(c, word), next, now)
  {
  }

  lemma Commits(s: Payout, j: Journal, w: nat, now: int)
    requires w in s.workers && s.workers[w].Ready? && HeardOk(s.workers, j.heard) && Shown(s.rec) == j.columns
    ensures Shown(Next(s, Cas(w, now)).rec) == Noted(s, j, Cas(w, now)).columns
  {
    var ph := s.workers[w];
    if s.rec.status == ph.expected { Writes(s.rec, ph.next, ph.f, now, j.columns, j.heard[w]); }
  }

  lemma {:induction false} KeptIsShown(s: Payout, j: Journal, acts: seq<Action>)
    requires Legal(s, acts) && HeardOk(s.workers, j.heard) && Shown(s.rec) == j.columns
    ensures Shown(Exec(s, acts).rec) == Kept(s, j, acts).columns
    decreases |acts|
  {
    if acts != [] {
      var a := acts[0];
      if a.Cas? { Commits(s, j, a.w, a.now); } else { Hears(s, j, a); }
      KeptIsShown(Next(s, a), Noted(s, j, a), acts[1..]);
    }
  }

  /** In every run the row shows exactly what its committing workers and event handlers were last told, each text in its
      own column, and the times at which the ends were committed. */
  lemma RowIsJournal(acts: seq<Action>)
    requires Legal(Start(), acts)
    ensures Shown(Exec(Start(), acts).rec) == Kept(Start(), EMPTY, acts).columns
  {
    KeptIsShown(Start(), EMPTY, acts);
  }

  // ----- the provider's id

  /** The step tells somebody this provider id. */
  predicate Names(a: Action, id: string) {
    || (a.Create? && a.create.CreateAnswered? && a.create.report.providerId == id)
    || (a.Lookup? && a.lookup.LookupAnswered? && a.lookup.report.providerId == id)
    || (a.Event? && a.report.providerId == id)
  }

  /** The word carries this provider id. */
  predicate Carries(word: Word, id: string) {
    (word.Answer? || word.Announcement?) && word.report.providerId == id
  }

  lemma {:induction false} NamedOnce(s: Payout, j: Journal, acts: seq<Action>, id: string)
    requires Legal(s, acts) && id != "" && Kept(s, j, acts).columns.providerId == id
    ensures j.columns.providerId == id || (exists w :: w in j.heard && Carries(j.heard[w], id)) || (exists i :: 0 <= i < |acts| && Names(acts[i], id))
    decreases |acts|
  {
    if acts != [] {
      var a := acts[0];
      var k := Noted(s, j, a);
      NamedOnce(Next(s, a), k, acts[1..], id);
      if i :| 0 <= i < |acts[1..]| && Names(acts[1..][i], id) {
        assert Names(acts[i + 1], id);
      } else {
        NamedStep(s, j, a, id);
        assert Names(a, id) ==> Names(acts[0], id);
      }
    }
  }

  lemma NamedStep(s: Payout, j: Journal, a: Action, id: string)
    requires Enabled(s, a) && id != ""
    requires var k := Noted(s, j, a); k.columns.providerId == id || exists w :: w in k.heard && Carries(k.heard[w], id)
    ensures j.columns.providerId == id || (exists w :: w in j.heard && Carries(j.heard[w], id)) || Names(a, id)
  {
    var k := Noted(s, j, a);
    if w :| w in k.heard && Carries(k.heard[w], id) {
      assert w in j.heard && k.heard[w] == j.heard[w] ==> Carries(j.heard[w], id);
    } else if j.columns.providerId != id {
      assert Carries(j.heard[a.w], id);
    }
  }

  /** The row's provider id, if it has one, is one that the provider reported under this payout. */
  lemma ProviderIdWasReported(acts: seq<Action>)
    requires Legal(Start(), acts)
    ensures var id := Exec(Start(), acts).rec.providerId;
            id != "" ==> exists i :: 0 <= i < |acts| && Names(acts[i], id)
  {
    RowIsJournal(acts);
    var id := Exec(Start(), acts).rec.providerId;
    if id != "" {
      NamedOnce(Start(), EMPTY, acts, id);
      assert EMPTY.heard == map[];
    }
  }

  /** The test by which events are bound to the row: no provider id stored yet, or the event's own. */
  predicate Binds(r: Record, id: string) {
    r.providerId == "" || r.providerId == id
  }

  /** Once a word with a provider id is committed, events with that id pass the test, and events with another do not. */
  lemma LastAnswerBinds(acts: seq<Action>, w: nat, now: int, id: string, other: string)
    requires Legal(Start(), acts) && id != "" && other != id
    requires var s := Exec(Start(), acts); Enabled(s, Cas(w, now)) && s.rec.status == s.workers[w].expected
    requires var heard := Kept(Start(), EMPTY, acts).heard; w in heard && Carries(heard[w], id)
    ensures var u := Next(Exec(Start(), acts), Cas(w, now)); Binds(u.rec, id) && !Binds(u.rec, other)
  {
    var s, k := Exec(Start(), acts), Kept(Start(), EMPTY, acts);
    KeptIsShown(Start(), EMPTY, acts);
    HeardInRun(Start(), EMPTY, acts);
    Commits(s, k, w, now);
  }

  lemma {:induction false} HeardInRun(s: Payout, j: Journal, acts: seq<Action>)
    requires Legal(s, acts) && HeardOk(s.workers, j.heard)
    ensures HeardOk(Exec(s, acts).workers, Kept(s, j, acts).heard)
    decreases |acts|
  {
    if acts != [] {
      if !acts[0].Cas? { Hears(s, j, acts[0]); }
      HeardInRun(Next(s, acts[0]), Noted(s, j, acts[0]), acts[1..]);
    }
  }
}
