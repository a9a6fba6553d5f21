/** The reservation protocol behind every create call (BeginCreate, CompleteCreate, ReleaseCreate and their
    payout twins in internal/adapters/postgres/store.go and payouts.go; the deferred release in
    internal/app/payments.go and payouts.go): any number of callers, crashes, and lost replies. */
module IdempotentCreate {

  /** An idempotency key belongs to a merchant. */
  datatype Key = Key(merchant: string, key: string)

  /** Resource ids are a digest of merchant and key; the digest is taken to be injective. */
  datatype Id = IdOf(key: Key)

  datatype Rec = Rec(hash: string, id: Id, complete: bool)

  /** The payment or payout row, with the caller whose transaction inserted it. */
  datatype Resource = Resource(hash: string, creator: nat)

  datatype Outcome = Created(id: Id) | Replayed(id: Id) | Conflicting | Busy | Failing

  datatype Caller =
    | Asking(key: Key, hash: string)     // the insert found the key taken; the select is next
    | Holding(key: Key, hash: string)    // the key is reserved; router and provider are being called
    | Releasing(key: Key, hash: string)  // an error was seen; the deferred release is next
    | Finished(key: Key, hash: string, outcome: Outcome)

  datatype State = State(keys: map<Key, Rec>, resources: map<Id, Resource>, callers: map<nat, Caller>)

  datatype Action =
    | Insert(c: nat, key: Key, hash: string, replyLost: bool)
    | Select(c: nat)
    | Fail(c: nat)
    | Commit(c: nat, replyLost: bool)
    | Release(c: nat, reaches: bool)
    | Crash(c: nat)

  predicate Enabled(s: State, a: Action) {
    match a
    case Insert(c, _, _, _) => c !in s.callers
    case Select(c) => c in s.callers && s.callers[c].Asking?
    case Fail(c) => c in s.callers && s.callers[c].Holding?
    case Commit(c, _) => c in s.callers && s.callers[c].Holding?
    case Release(c, _) => c in s.callers && s.callers[c].Releasing?
    case Crash(c) => c in s.callers && !s.callers[c].Finished?
  }

  function Finish(s: State, c: nat, o: Outcome): State
    requires c in s.callers
  {
    s.(callers := s.callers[c := Finished(s.callers[c].key, s.callers[c].hash, o)])
  }

  /** The answer to a caller whose key was taken: read back in a second statement. */
  function Answer(s: State, key: Key, hash: string): Outcome {
    if key !in s.keys then Failing
    else if s.keys[key].hash != hash then Conflicting
    else if !s.keys[key].complete then Busy
    else if s.keys[key].id in s.resources then Replayed(s.keys[key].id)
    else Failing
  }

  function Next(s: State, a: Action): State
    requires Enabled(s, a)
  {
    match a
    case Insert(c, key, hash, lost) =>
      if key in s.keys then s.(callers := s.callers[c := if lost then Finished(key, hash, Failing) else Asking(key, hash)])
      else s.(keys := s.keys[key := Rec(hash, IdOf(key), false)],
              // without the reply the caller gives up, and nobody will release the key
              callers := s.callers[c := if lost then Finished(key, hash, Failing) else Holding(key, hash)])
    case Select(c) => Finish(s, c, Answer(s, s.callers[c].key, s.callers[c].hash))
    case Fail(c) => s.(callers := s.callers[c := Releasing(s.callers[c].key, s.callers[c].hash)])
    case Commit(c, lost) =>
      var key, hash := s.callers[c].key, s.callers[c].hash;
      if key in s.keys && !s.keys[key].complete && s.keys[key].id == IdOf(key) && IdOf(key) !in s.resources then
        var u := s.(keys := s.keys[key := s.keys[key].(complete := true)],
                    resources := s.resources[IdOf(key) := Resource(s.keys[key].hash, c)]);
        if lost then u.(callers := u.callers[c := Releasing(key, hash)]) else Finish(u, c, Created(IdOf(key)))
      else s.(callers := s.callers[c := Releasing(key, hash)])
    case Release(c, reaches) =>
      var key := s.callers[c].key;
      var u := Finish(s, c, Failing);
      if reaches && key in s.keys && !s.keys[key].complete then u.(keys := s.keys - {key}) else u
    case Crash(c) => Finish(s, c, Failing)
  }

  predicate Legal(s: State, acts: seq<Action>)
    decreases |acts|
  {
    acts == [] || (Enabled(s, acts[0]) && Legal(Next(s, acts[0]), acts[1..]))
  }

  function Exec(s: State, acts: seq<Action>): State
    requires Legal(s, acts)
    decreases |acts|
  {
    if acts == [] then s else Exec(Next(s, acts[0]), acts[1..])
  }

  const EMPTY := State(map[], map[], map[])

  /** The caller is between its reservation and its completion or release. */
  predicate Active(s: State, c: nat, key: Key) {
    c in s.callers && (s.callers[c].Holding? || s.callers[c].Releasing?) && s.callers[c].key == key
  }

  predicate KeysOk(keys: map<Key, Rec>, resources: map<Id, Resource>) {
    && (forall k :: k in keys ==> keys[k].id == IdOf(k) && (keys[k].complete <==> IdOf(k) in resources))
    && (forall i :: i in resources ==> i.key in keys && resources[i].hash == keys[i.key].hash)
  }

  predicate CallerOk(s: State, c: nat) {
    c in s.callers ==>
      var me := s.callers[c];
      && (me.Holding? ==> me.key in s.keys && !s.keys[me.key].complete && s.keys[me.key].hash == me.hash)
      && (me.Releasing? ==> me.key in s.keys && s.keys[me.key].hash == me.hash)
      && (me.Finished? && (me.outcome.Created? || me.outcome.Replayed?) ==>
            && me.outcome.id == IdOf(me.key) && IdOf(me.key) in s.resources && s.resources[IdOf(me.key)].hash == me.hash
            && (me.outcome.Created? ==> s.resources[IdOf(me.key)].creator == c))
  }

  ghost predicate Inv(s: State) {
    && KeysOk(s.keys, s.resources)
    && (forall c :: CallerOk(s, c))
    && OneActive(s)
  }

  ghost predicate OneActive(s: State) {
    forall c, d, k :: Active(s, c, k) && Active(s, d, k) ==> c == d
  }

  lemma CommitKeys(keys: map<Key, Rec>, resources: map<Id, Resource>, k: Key, c: nat)
    requires KeysOk(keys, resources) && k in keys
    ensures KeysOk(keys[k := keys[k].(complete := true)], resources[IdOf(k) := Resource(keys[k].hash, c)])
  {
  }

  lemma ReleaseKeys(keys: map<Key, Rec>, resources: map<Id, Resource>, k: Key)
    requires KeysOk(keys, resources) && k in keys && !keys[k].complete
    ensures KeysOk(keys - {k}, resources)
  {
    assert forall i :: i in resources ==> IdOf(i.key) == i;
  }

  lemma InsertKeys(keys: map<Key, Rec>, resources: map<Id, Resource>, k: Key, hash: string)
    requires KeysOk(keys, resources) && k !in keys
    ensures KeysOk(keys[k := Rec(hash, IdOf(k), false)], resources)
  {
    assert forall i :: i in resources ==> IdOf(i.key) == i;
  }

  lemma KeysStep(s: State, a: Action)
    requires KeysOk(s.keys, s.resources) && Enabled(s, a)
    ensures var u := Next(s, a); KeysOk(u.keys, u.resources)
  {
    match a {
      case Insert(_, k, hash, _) => if k !in s.keys { InsertKeys(s.keys, s.resources, k, hash); }
      case Commit(c, _) => if s.callers[c].key in s.keys { CommitKeys(s.keys, s.resources, s.callers[c].key, c); }
      case Release(c, _) =>
        var k := s.callers[c].key;
        if k in s.keys && !s.keys[k].complete { ReleaseKeys(s.keys, s.resources, k); }
      case _ =>
    }
  }

  /** The acting caller stays sound. */
  lemma OwnStep(s: State, a: Action)
    requires KeysOk(s.keys, s.resources) && CallerOk(s, a.c) && Enabled(s, a)
    ensures CallerOk(Next(s, a), a.c)
  {
  }

  /** Every other caller stays sound, because only the key of the acting caller is touched. */
  lemma OtherStep(s: State, a: Action, c: nat)
    requires KeysOk(s.keys, s.resources) && CallerOk(s, a.c) && CallerOk(s, c) && OneActive(s) && Enabled(s, a) && c != a.c
    ensures CallerOk(Next(s, a), c)
  {
    if c in s.callers && a.c in s.callers {
      assert Active(s, c, s.callers[c].key) && Active(s, a.c, s.callers[c].key) ==> c == a.c;
    }
  }

  /** Nobody becomes active on a key that somebody else is active on. */
  lemma ActiveStep(s: State, a: Action, c: nat, k: Key)
    requires CallerOk(s, c) && Enabled(s, a) && Active(Next(s, a), c, k)
    ensures c != a.c ==> Active(s, c, k)
    ensures c == a.c ==> Active(s, c, k) || k !in s.keys
  {
  }

  lemma StepInv(s: State, a: Action)
    requires Inv(s) && Enabled(s, a)
    ensures Inv(Next(s, a))
  {
    var u := Next(s, a);
    KeysStep(s, a);
    forall c ensures CallerOk(u, c) {
      assert CallerOk(s, c) && CallerOk(s, a.c);
      if c == a.c { OwnStep(s, a); } else { OtherStep(s, a, c); }
    }
    forall c, d, k | Active(u, c, k) && Active(u, d, k) ensures c == d {
      assert CallerOk(s, c) && CallerOk(s, d);
      ActiveStep(s, a, c, k);
      ActiveStep(s, a, d, k);
    }
  }

  lemma {:induction false} RunInv(s: State, acts: seq<Action>)
    requires Inv(s) && Legal(s, acts)
    ensures Inv(Exec(s, acts))
    decreases |acts|
  {
    if acts != [] {
      StepInv(s, acts[0]);
      RunInv(Next(s, acts[0]), acts[1..]);
    }
  }

  /** At most one caller per key is ever between Begin and Complete or Release. */
  lemma MutualExclusion(acts: seq<Action>, c: nat, d: nat, k: Key)
    requires Legal(EMPTY, acts) && Active(Exec(EMPTY, acts), c, k) && Active(Exec(EMPTY, acts), d, k)
    ensures c == d
  {
    RunInv(EMPTY, acts);
  }

  /** A key is complete exactly when its resource exists, and the resource was made from the same request. */
  lemma CompleteIffCreated(acts: seq<Action>, k: Key)
    requires Legal(EMPTY, acts)
    ensures var s := Exec(EMPTY, acts);
            && (k in s.keys && s.keys[k].complete <==> IdOf(k) in s.resources)
            && (IdOf(k) in s.resources ==> s.resources[IdOf(k)].hash == s.keys[k].hash)
  {
    RunInv(EMPTY, acts);
    var s := Exec(EMPTY, acts);
    if IdOf(k) in s.resources { assert IdOf(k).key == k; }
  }

  /** A completed key is never released, not by the deferred release that follows a lost commit reply either. */
  lemma {:induction false} CompleteForever(s: State, acts: seq<Action>, k: Key)
    requires Inv(s) && Legal(s, acts) && k in s.keys && s.keys[k].complete
    ensures var u := Exec(s, acts);
            k in u.keys && u.keys[k] == s.keys[k] && IdOf(k) in u.resources && u.resources[IdOf(k)] == s.resources[IdOf(k)]
    decreases |acts|
  {
    if acts != [] {
      assert CallerOk(s, acts[0].c);
      StepInv(s, acts[0]);
      CompleteForever(Next(s, acts[0]), acts[1..], k);
    }
  }

  /** Everyone who was told of success with a key has the same resource and sent the same request, and
      only one of them created it. */
  lemma SuccessesAgree(acts: seq<Action>, c: nat, d: nat)
    requires Legal(EMPTY, acts)
    requires var s := Exec(EMPTY, acts);
             && c in s.callers && d in s.callers && s.callers[c].Finished? && s.callers[d].Finished?
             && s.callers[c].key == s.callers[d].key
             && (s.callers[c].outcome.Created? || s.callers[c].outcome.Replayed?)
             && (s.callers[d].outcome.Created? || s.callers[d].outcome.Replayed?)
    ensures var x, y := Exec(EMPTY, acts).callers[c], Exec(EMPTY, acts).callers[d];
            && x.outcome.id == y.outcome.id && x.hash == y.hash
            && (x.outcome.Created? && y.outcome.Created? ==> c == d)
  {
    RunInv(EMPTY, acts);
    assert CallerOk(Exec(EMPTY, acts), c) && CallerOk(Exec(EMPTY, acts), d);
  }

  /** Once a key is complete, a caller reading it back is told the resource if and only if its request is
      the same, and a conflict if and only if it is not; never anything else. */
  lemma ReplayOrConflict(s: State, k: Key, hash: string)
    requires Inv(s) && k in s.keys && s.keys[k].complete
    ensures Answer(s, k, hash) == Replayed(IdOf(k)) <==> s.resources[IdOf(k)].hash == hash
    ensures Answer(s, k, hash) == Conflicting <==> s.resources[IdOf(k)].hash != hash
  {
  }

  // ----- what keeps the protocol going

  /** A caller that finds the key free holds it. */
  lemma InsertHolds(s: State, c: nat, k: Key, hash: string)
    requires c !in s.callers && k !in s.keys
    ensures var u := Next(s, Insert(c, k, hash, false));
            u.callers[c] == Holding(k, hash) && k in u.keys && u.keys[k] == Rec(hash, IdOf(k), false)
  {
  }

  /** A caller that holds the key and commits has created the resource from its own request, and is told so. */
  lemma CommitCreates(s: State, c: nat)
    requires Inv(s) && c in s.callers && s.callers[c].Holding?
    ensures var k, u := s.callers[c].key, Next(s, Commit(c, false));
            && u.callers[c] == Finished(k, s.callers[c].hash, Created(IdOf(k)))
            && k in u.keys && u.keys[k].complete
            && IdOf(k) in u.resources && u.resources[IdOf(k)] == Resource(s.callers[c].hash, c)
  {
    assert CallerOk(s, c);
  }

  /** A failed creation whose release arrives frees the key: the next caller holds it, with whatever request. */
  lemma ReleaseFrees(s: State, c: nat, d: nat, hash: string)
    requires Inv(s) && c in s.callers && s.callers[c].Holding? && d !in s.callers && c != d
    ensures var k := s.callers[c].key;
            var u := Next(s, Fail(c));
            Enabled(u, Release(c, true)) &&
            var v := Next(u, Release(c, true));
            && k !in v.keys && v.resources == s.resources
            && Enabled(v, Insert(d, k, hash, false)) && Next(v, Insert(d, k, hash, false)).callers[d] == Holding(k, hash)
  {
    assert CallerOk(s, c);
  }

  /** A key is freed by nothing but a release that arrives, of a caller that has seen it, while it is pending. */
  lemma FreedExactly(s: State, a: Action, k: Key)
    requires Enabled(s, a) && k in s.keys
    ensures k !in Next(s, a).keys <==> a.Release? && a.reaches && s.callers[a.c].key == k && !s.keys[k].complete
  {
  }

  /** Until then everybody else is refused: as a conflict if the request differs, as in progress if it is the same. */
  lemma PendingAnswers(s: State, k: Key, hash: string)
    requires k in s.keys && !s.keys[k].complete
    ensures Answer(s, k, hash) == Conflicting <==> s.keys[k].hash != hash
    ensures Answer(s, k, hash) == Busy <==> s.keys[k].hash == hash
  {
  }

  lemma AbandonedStep(s: State, a: Action, k: Key)
    requires Inv(s) && Enabled(s, a) && k in s.keys && !s.keys[k].complete && forall c :: !Active(s, c, k)
    ensures var u := Next(s, a); k in u.keys && u.keys[k] == s.keys[k] && forall c :: !Active(u, c, k)
  {
    var u := Next(s, a);
    if a.c in s.callers { assert !Active(s, a.c, k); }
    forall c ensures !Active(u, c, k) {
      assert CallerOk(s, c) && !Active(s, c, k);
      if Active(u, c, k) { ActiveStep(s, a, c, k); }
    }
  }

  /** A pending key that no caller is at work on, after a crash or a lost reply, stays pending in every run: nothing
      expires it, and nobody can create anything with it again. */
  lemma {:induction false} AbandonedForever(s: State, acts: seq<Action>, k: Key)
    requires Inv(s) && Legal(s, acts) && k in s.keys && !s.keys[k].complete && forall c :: !Active(s, c, k)
    ensures var u := Exec(s, acts); k in u.keys && u.keys[k] == s.keys[k] && IdOf(k) !in u.resources
    decreases |acts|
  {
    if acts != [] {
      AbandonedStep(s, acts[0], k);
      StepInv(s, acts[0]);
      AbandonedForever(Next(s, acts[0]), acts[1..], k);
    }
  }

  /** It happens: a reservation whose reply is lost leaves the key pending with nobody at work on it. */
  lemma LostReservation(s: State, c: nat, k: Key, hash: string)
    requires Inv(s) && c !in s.callers && k !in s.keys
    ensures var u := Next(s, Insert(c, k, hash, true));
            k in u.keys && !u.keys[k].complete && forall d :: !Active(u, d, k)
  {
    var u := Next(s, Insert(c, k, hash, true));
    forall d ensures !Active(u, d, k) {
      assert CallerOk(s, d);
    }
  }

  predicate Decided(s: State, k: Key) {
    k in s.keys ==> s.keys[k].complete
  }

  lemma CanBeDecided(s: State, k: Key, c: nat) returns (acts: seq<Action>)
    requires Inv(s) && k in s.keys && !s.keys[k].complete && Active(s, c, k)
    ensures Legal(s, acts) && Decided(Exec(s, acts), k)
  {
    var a := if s.callers[c].Holding? then Commit(c, false) else Release(c, true);
    if s.callers[c].Holding? { CommitCreates(s, c); } else { FreedExactly(s, a, k); }
    acts := [a];
    assert Legal(Next(s, a), acts[1..]) && Exec(Next(s, a), acts[1..]) == Next(s, a);
  }

  /** A pending key can still be completed or freed exactly as long as a caller is at work on it. */
  lemma PendingEndsExactly(s: State, k: Key)
    requires Inv(s) && k in s.keys && !s.keys[k].complete
    ensures (exists acts :: Legal(s, acts) && Decided(Exec(s, acts), k)) <==> (exists c :: Active(s, c, k))
  {
    if c :| Active(s, c, k) {
      var run := CanBeDecided(s, k, c);
      assert Active(s, c, k);
      assert Legal(s, run) && Decided(Exec(s, run), k);
      assert exists acts :: Legal(s, acts) && Decided(Exec(s, acts), k);
    } else {
      assert forall c :: !Active(s, c, k);
      forall acts | Legal(s, acts) ensures !Decided(Exec(s, acts), k) { AbandonedForever(s, acts, k); }
    }
  }

  // ----- the digests' preimages

  predicate NoColon(s: string) {
    forall i :: 0 <= i < |s| ==> s[i] != ':'
  }

  /** merchant + ":" + tag + key, the text that is digested or used as a map key. */
  function Preimage(merchant: string, tag: string, key: string): string {
    merchant + ":" + tag + key
  }

  /** As long as no merchant id contains a colon, different (merchant, key) pairs have different texts. */
  lemma PreimageInjective(m: string, n: string, tag: string, k: string, l: string)
    requires NoColon(m) && NoColon(n) && Preimage(m, tag, k) == Preimage(n, tag, l)
    ensures m == n && k == l
  {
    var p, q := Preimage(m, tag, k), Preimage(n, tag, l);
    assert p == m + ":" + (tag + k) && q == n + ":" + (tag + l);
    FirstColonEnds(m, tag + k);
    FirstColonEnds(n, tag + l);
    assert m == p[..|m|] && n == q[..|n|];
    assert k == p[|m| + 1 + |tag|..] && l == q[|n| + 1 + |tag|..];
  }

  /** Where the first colon stands. */
  function FirstColon(s: string): nat {
    if s == [] || s[0] == ':' then 0 else 1 + FirstColon(s[1..])
  }

  lemma {:induction false} FirstColonEnds(m: string, rest: string)
    requires NoColon(m)
    ensures FirstColon(m + ":" + rest) == |m|
    decreases |m|
  {
    if m == [] {
      assert (m + ":" + rest)[0] == ':';
    } else {
      assert (m + ":" + rest)[1..] == m[1..] + ":" + rest;
      FirstColonEnds(m[1..], rest);
    }
  }

  /** With a colon in a merchant id the texts collide: the same reservation would serve two merchants. */
  lemma ColonsCollide(m: string, k: string)
    ensures Preimage(m + ":", "", k) == Preimage(m, "", ":" + k) && m + ":" != m
  {
    assert m + ":" + ":" + "" + k == m + ":" + "" + (":" + k);
    assert |m + ":"| != |m|;
  }
}
