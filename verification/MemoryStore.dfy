/** The in-memory store (internal/adapters/memory/store.go) and the payment creation that runs on it
    (Create in internal/app/payments.go). Every method holds the store's lock, so it is one step. */
module MemoryStore {
  import opened Common
  import Lifecycle = PaymentLifecycle
  import Idempotency = IdempotentCreate

  datatype Payment = Payment(id: string, account: string, merchant: string, status: Lifecycle.Status, version: nat, providerId: string)

  datatype KeyRecord = KeyRecord(hash: string, id: string, complete: bool)

  datatype EventResult = Duplicate | Seen(changed: bool, status: Lifecycle.Status)

  function Scope(merchant: string, key: string): string {
    Idempotency.Preimage(merchant, "", key)
  }

  /** As long as no merchant id contains a colon, no two merchants share a reservation, and no two keys of one. */
  lemma ScopesDiffer(merchant: string, other: string, key: string, otherKey: string)
    requires Idempotency.NoColon(merchant) && Idempotency.NoColon(other) && Scope(merchant, key) == Scope(other, otherKey)
    ensures merchant == other && key == otherKey
  {
    Idempotency.PreimageInjective(merchant, other, "", key, otherKey);
  }

  function CreatedEvent(id: string): string {
    Idempotency.Preimage("payment.created", "", id)
  }

  class Store {
    var payments: map<string, Payment>
    var events: set<string>             // merchant events and provider events share one map
    var keys: map<string, KeyRecord>

    /** A completed key has its payment. */
    predicate Valid()
      reads this
    {
      && (forall s :: s in keys && keys[s].complete ==> keys[s].id in payments)
      && (forall id :: id in payments ==> payments[id].id == id)
    }

    constructor ()
      ensures Valid() && payments == map[] && events == {} && keys == map[]
    {
      payments, events, keys := map[], {}, map[];
    }

    /** Reserve the key, or answer from what is there. Ok(None) means reserved. */
    method BeginCreate(merchant: string, key: string, hash: string, id: string) returns (r: Result<Option<Payment>>)
      requires Valid()
      modifies this`keys
      ensures Valid()
      ensures var scope := Scope(merchant, key);
              if scope !in old(keys) then r == Ok(None) && keys == old(keys)[scope := KeyRecord(hash, id, false)]
              else
                && keys == old(keys)
                && r == if keys[scope].hash != hash then Err(Conflict)
                        else if !keys[scope].complete then Err(InProgress)
                        else Ok(Some(payments[keys[scope].id]))
    {
      var scope := Scope(merchant, key);
      if scope in keys {
        var existing := keys[scope];
        if existing.hash != hash {
          return Err(Conflict);
        }
        if !existing.complete {
          return Err(InProgress);
        }
        return Ok(Some(payments[existing.id]));
      }
      keys := keys[scope := KeyRecord(hash, id, false)];
      return Ok(None);
    }

    /** Insert the payment and its event and complete the key. Unlike the SQL store this does not ask
        whether the key is still pending. */
    method CompleteCreate(p: Payment, event: string, key: string) returns (r: Result<()>)
      requires Valid()
      modifies this
      ensures Valid()
      ensures var scope := Scope(p.merchant, key);
              if scope !in old(keys) || old(keys)[scope].id != p.id
              then r == Err(Conflict) && payments == old(payments) && events == old(events) && keys == old(keys)
              else && r == Ok(()) && payments == old(payments)[p.id := p] && events == old(events) + {event}
                   && keys == old(keys)[scope := old(keys)[scope].(complete := true)]
    {
      var scope := Scope(p.merchant, key);
      if scope !in keys || keys[scope].id != p.id {
        return Err(Conflict);
      }
      payments := payments[p.id := p];
      events := events + {event};
      keys := keys[scope := keys[scope].(complete := true)];
      return Ok(());
    }

    /** Only a pending key is given up. */
    method ReleaseCreate(merchant: string, key: string)
      requires Valid()
      modifies this`keys
      ensures Valid()
      ensures var scope := Scope(merchant, key);
              keys == if scope in old(keys) && !old(keys)[scope].complete then old(keys) - {scope} else old(keys)
    {
      var scope := Scope(merchant, key);
      if scope in keys && !keys[scope].complete {
        keys := keys - {scope};
      }
    }

    /** The same status machine as the SQL store, without the binding check and without a webhook log. An
        error records nothing; a duplicate id changes nothing, whether it named a provider or a merchant event. */
    method ApplyProviderEvent(id: string, event: string, word: Lifecycle.Word) returns (r: Result<EventResult>)
      requires Valid()
      modifies this`payments, this`events
      ensures Valid()
      ensures event in old(events) <==> r == Ok(Duplicate)
      ensures event !in old(events) && id !in old(payments) ==> r == Err(NotFound)
      ensures r.Err? || r == Ok(Duplicate) ==> payments == old(payments) && events == old(events)
      ensures r.Ok? && r.value.Seen? && r.value.changed ==> Lifecycle.Means(word, r.value.status)
      ensures event !in old(events) && id in old(payments) ==> (r == Err(Conflict) <==> word == Lifecycle.Unnamed)
      ensures event !in old(events) && id in old(payments) ==>
                var asked, p := Lifecycle.PublicStatusFromProvider(word), old(payments)[id];
                if asked.None? then r == Err(Conflict)
                else
                  var next := Lifecycle.Move(p.status, asked);
                  && events == old(events) + {event}
                  && r == Ok(Seen(next != p.status, next))
                  && payments == old(payments)[id := p.(status := next, version := p.version + if next != p.status then 1 else 0)]
    {
      if event in events {
        return Ok(Duplicate);
      }
      if id !in payments {
        return Err(NotFound);
      }
      var p := payments[id];
      var asked := Lifecycle.PublicStatusFromProvider(word);
      Lifecycle.WordsMean(word, if asked.Some? then asked.value else Lifecycle.Started);
      if asked.None? {
        return Err(Conflict);
      }
      var changed := p.status != asked.value && Lifecycle.PaymentTransitionAllowed(p.status, asked.value);
      if changed {
        p := p.(status := asked.value, version := p.version + 1);
      }
      payments := payments[id := p];
      events := events + {event};
      return Ok(Seen(changed, p.status));
    }
  }

  /** How far a creation gets before something outside fails, and the provider's own id if nothing does. */
  datatype Progress = RouterFails | ConnectorFails | UnusableCompletion | Reaches(providerId: string)

  class Payments {
    const store: Store

    constructor (store: Store)
      ensures this.store == store
    {
      this.store := store;
    }

    /** Reserve, call out, commit; whatever fails after the reservation releases it. A failed creation
        leaves the store exactly as it was, a successful one completes the key with its payment, and a key
        already taken is answered without touching anything. */
    method Create(merchant: string, account: string, key: string, hash: string, net: Progress) returns (r: Result<Payment>, replayed: bool)
      requires store.Valid()
      modifies store
      ensures store.Valid()
      ensures var scope := Scope(merchant, key);
              if scope in old(store.keys) then
                && store.keys == old(store.keys) && store.payments == old(store.payments) && store.events == old(store.events)
                && (old(store.keys)[scope].hash != hash <==> r == Err(Conflict))
                && (r == Err(InProgress) <==> old(store.keys)[scope].hash == hash && !old(store.keys)[scope].complete)
                && (replayed <==> old(store.keys)[scope].hash == hash && old(store.keys)[scope].complete)
                && (replayed ==> r == Ok(old(store.payments)[old(store.keys)[scope].id]))
              else if net.Reaches? then
                var id := Idempotency.Preimage(merchant, "payment:", key);
                var p := Payment(id, account, merchant, Lifecycle.Started, 1, net.providerId);
                && r == Ok(p) && !replayed
                && store.payments == old(store.payments)[id := p]
                && store.events == old(store.events) + {CreatedEvent(id)}
                && store.keys == old(store.keys)[scope := KeyRecord(hash, id, true)]
              else
                && r.Err? && !replayed
                && store.keys == old(store.keys) && store.payments == old(store.payments) && store.events == old(store.events)
    {
      var id := Idempotency.Preimage(merchant, "payment:", key);
      var begun := store.BeginCreate(merchant, key, hash, id);
      if begun.Err? {
        return Err(begun.error), false;
      }
      if begun.value.Some? {
        return Ok(begun.value.value), true;
      }
      var completed := false;
      r, completed := Reserved(merchant, account, key, id, net);
      if !completed {
        store.ReleaseCreate(merchant, key);
        assert old(store.keys)[Scope(merchant, key) := KeyRecord(hash, id, false)] - {Scope(merchant, key)} == old(store.keys);
      }
      replayed := false;
    }

    /** The part of Create between the reservation and the deferred release. */
    method Reserved(merchant: string, account: string, key: string, id: string, net: Progress) returns (r: Result<Payment>, completed: bool)
      requires store.Valid()
      requires var scope := Scope(merchant, key); scope in store.keys && store.keys[scope].id == id
      modifies store
      ensures store.Valid()
      ensures completed <==> net.Reaches?
      ensures completed ==>
                var p := Payment(id, account, merchant, Lifecycle.Started, 1, net.providerId);
                var scope := Scope(merchant, key);
                && r == Ok(p) && store.payments == old(store.payments)[id := p] && store.events == old(store.events) + {CreatedEvent(id)}
                && store.keys == old(store.keys)[scope := old(store.keys)[scope].(complete := true)]
      ensures !completed ==>
                r == Err(Upstream) && store.payments == old(store.payments) && store.keys == old(store.keys) && store.events == old(store.events)
    {
      match net {
        case RouterFails => return Err(Upstream), false;
        case ConnectorFails => return Err(Upstream), false;
        case UnusableCompletion => return Err(Upstream), false;
        case Reaches(providerId) =>
          var p := Payment(id, account, merchant, Lifecycle.Started, 1, providerId);
          var done := store.CompleteCreate(p, CreatedEvent(id), key);
          completed := done.Ok?;
          r := if completed then Ok(p) else Err(Upstream);
      }
    }
  }
}
