/** The memory driver of the TTL cache: a store of expiring entries against the history of what was put in it. */
module TtlCache {
  import opened Common

  datatype Entry<V> = Entry(value: V, expiresAt: int)

  type Store<V> = map<string, Entry<V>>

  /**
   * What happens to the store. A `wrap` is a `Lookup` and, after a miss, a `Put` once its value is there; calls
   * that overlap interleave these, with invalidations in between.
   */
  datatype Op<V> =
    | Lookup(key: string, now: int)
    | Put(key: string, value: V, now: int, ttl: int)
    | Invalidate(prefix: Option<string>)

  predicate StartsWith(s: string, prefix: string) {
    |prefix| <= |s| && s[..|prefix|] == prefix
  }

  function StoreKey(namespace: string, key: string): string {
    namespace + ":" + key
  }

  predicate HasPrefix(prefix: Option<string>) {
    prefix.Some? && prefix.value != ""
  }

  function DeletePrefix<V>(store: Store<V>, prefix: string): Store<V> {
    map k | k in store && !StartsWith(k, prefix) :: store[k]
  }

  function Hit<V>(store: Store<V>, namespace: string, key: string, now: int): Option<V> {
    var k := StoreKey(namespace, key);
    if k in store && store[k].expiresAt > now then Some(store[k].value) else None
  }

  function Apply<V>(store: Store<V>, namespace: string, op: Op<V>): Store<V> {
    match op
    case Lookup(key, now) =>
      var k := StoreKey(namespace, key);
      if k in store && store[k].expiresAt <= now then store - {k} else store
    case Put(key, value, now, ttl) => store[StoreKey(namespace, key) := Entry(value, now + ttl)]
    case Invalidate(prefix) =>
      if HasPrefix(prefix) then DeletePrefix(store, StoreKey(namespace, prefix.value)) else map[]
  }

  function Replay<V>(namespace: string, history: seq<Op<V>>): Store<V> {
    if |history| == 0 then map[]
    else Apply(Replay(namespace, history[..|history| - 1]), namespace, history[|history| - 1])
  }

  // ----- The reference: what a history says about a key -----

  /** No prefix covers every key, as the empty one does; another one the keys that begin with it. */
  predicate Covers(prefix: Option<string>, key: string) {
    prefix.Some? ==> |prefix.value| <= |key| && forall i :: 0 <= i < |prefix.value| ==> key[i] == prefix.value[i]
  }

  /** The newest put of the key that no later invalidation covers. */
  function Latest<V>(history: seq<Op<V>>, key: string): Option<Op<V>> {
    if |history| == 0 then None
    else
      var last := history[|history| - 1];
      if last.Put? && last.key == key then Some(last)
      else if last.Invalidate? && Covers(last.prefix, key) then None
      else Latest(history[..|history| - 1], key)
  }

  predicate Fresh<V>(put: Option<Op<V>>, now: int) {
    put.Some? && put.value.Put? && now < put.value.now + put.value.ttl
  }

  lemma StoreKeyInjective(namespace: string, a: string, b: string)
    ensures StoreKey(namespace, a) == StoreKey(namespace, b) <==> a == b
  {
    var n := |namespace| + 1;
    assert StoreKey(namespace, a)[n..] == a && StoreKey(namespace, b)[n..] == b;
  }

  lemma StoreKeyPrefix(namespace: string, prefix: string, key: string)
    ensures StartsWith(StoreKey(namespace, key), StoreKey(namespace, prefix)) <==> StartsWith(key, prefix)
  {
    var n := |namespace| + 1;
    var k, p := StoreKey(namespace, key), StoreKey(namespace, prefix);
    if |prefix| <= |key| {
      assert k[..|p|] == namespace + ":" + key[..|prefix|];
      assert k[..|p|][n..] == key[..|prefix|] && p[n..] == prefix;
    }
  }

  /** Every key carries the namespace. */
  ghost predicate Namespaced<V>(store: Store<V>, namespace: string) {
    forall k :: k in store ==>
      |k| > |namespace| && k[|namespace|] == ':' && forall i :: 0 <= i < |namespace| ==> k[i] == namespace[i]
  }

  lemma {:induction false} ReplayIsNamespaced<V>(namespace: string, history: seq<Op<V>>)
    ensures Namespaced(Replay(namespace, history), namespace)
    decreases |history|
  {
    if |history| > 0 {
      ReplayIsNamespaced(namespace, history[..|history| - 1]);
      var last := history[|history| - 1];
      if last.Put? {
        var k := StoreKey(namespace, last.key);
        assert k[..|namespace| + 1] == namespace + ":";
      }
    }
  }

  /** So clearing the store is deleting by the empty prefix. */
  lemma ClearIsEmptyPrefix<V>(namespace: string, history: seq<Op<V>>)
    ensures Apply(Replay(namespace, history), namespace, Invalidate(None))
            == DeletePrefix(Replay(namespace, history), StoreKey(namespace, ""))
  {
  }

  /** An invalidation removes exactly the keys it covers and leaves the other entries as they were. */
  lemma InvalidateRemovesExactly<V>(store: Store<V>, namespace: string, prefix: Option<string>, key: string)
    ensures var after, k := Apply(store, namespace, Invalidate(prefix)), StoreKey(namespace, key);
            && (k in after <==> k in store && !Covers(prefix, key))
            && (k in after ==> after[k] == store[k])
  {
    if HasPrefix(prefix) {
      StoreKeyPrefix(namespace, prefix.value, key);
    }
  }

  /** What is in the store under a key is the newest uncovered put of that key. */
  lemma {:induction false} EntryIsLatest<V>(namespace: string, history: seq<Op<V>>, key: string)
    ensures var store, k := Replay(namespace, history), StoreKey(namespace, key);
            k in store ==>
              var put := Latest(history, key);
              put.Some? && put.value.Put? && put.value.key == key
              && store[k] == Entry(put.value.value, put.value.now + put.value.ttl)
    decreases |history|
  {
    if |history| > 0 {
      var front, last := history[..|history| - 1], history[|history| - 1];
      EntryIsLatest(namespace, front, key);
      if last.Invalidate? {
        InvalidateRemovesExactly(Replay(namespace, front), namespace, last.prefix, key);
      } else {
        StoreKeyInjective(namespace, last.key, key);
      }
    }
  }

  /** Safety, whatever the clock does: a hit returns the newest uncovered put of that key, within its TTL. */
  lemma HitIsFresh<V>(namespace: string, history: seq<Op<V>>, key: string, now: int)
    ensures var hit := Hit(Replay(namespace, history), namespace, key, now);
            hit.Some? ==> Fresh(Latest(history, key), now) && Latest(history, key).value.value == hit.value
  {
    EntryIsLatest(namespace, history, key);
  }

  /** No lookup of the history is later than `now`. */
  ghost predicate ClockBy<V>(history: seq<Op<V>>, now: int) {
    forall i :: 0 <= i < |history| && history[i].Lookup? ==> history[i].now <= now
  }

  lemma {:induction false} FreshIsStored<V>(namespace: string, history: seq<Op<V>>, key: string, now: int)
    requires ClockBy(history, now) && Fresh(Latest(history, key), now)
    ensures StoreKey(namespace, key) in Replay(namespace, history)
    decreases |history|
  {
    if |history| > 0 {
      var front, last := history[..|history| - 1], history[|history| - 1];
      var store, k := Replay(namespace, front), StoreKey(namespace, key);
      if !(last.Put? && last.key == key) {
        assert forall i :: 0 <= i < |front| ==> front[i] == history[i];
        FreshIsStored(namespace, front, key, now);
        EntryIsLatest(namespace, front, key);
        if last.Invalidate? {
          InvalidateRemovesExactly(store, namespace, last.prefix, key);
        } else {
          StoreKeyInjective(namespace, last.key, key);
        }
      }
    }
  }

  /** With a clock that does not run back, a lookup hits exactly when the reference has a fresh value. */
  lemma HitIffFresh<V>(namespace: string, history: seq<Op<V>>, key: string, now: int)
    requires ClockBy(history, now)
    ensures Hit(Replay(namespace, history), namespace, key, now)
            == if Fresh(Latest(history, key), now) then Some(Latest(history, key).value.value) else None
  {
    HitIsFresh(namespace, history, key, now);
    if Fresh(Latest(history, key), now) {
      FreshIsStored(namespace, history, key, now);
      EntryIsLatest(namespace, history, key);
    }
  }

  /**
   * "Not since invalidated" counts from the put: a value whose computation began before an invalidation and
   * ended after it is stored and served.
   */
  lemma InFlightValueOutlivesInvalidation<V>(
    namespace: string, history: seq<Op<V>>, prefix: Option<string>, key: string, value: V,
    began: int, put: int, ttl: int, now: int)
    requires Covers(prefix, key) && began <= put <= now < put + ttl && ClockBy(history, began)
    ensures var h := history + [Lookup(key, began), Invalidate(prefix), Put(key, value, put, ttl)];
            Hit(Replay(namespace, h), namespace, key, now) == Some(value)
  {
  }

  predicate Invalidates<V>(op: Op<V>, key: string) {
    op.Invalidate? && Covers(op.prefix, key)
  }

  /** Where the newest uncovered put of the key stands. */
  function LatestAt<V>(history: seq<Op<V>>, key: string): (p: Option<nat>)
    ensures p.Some? ==> p.value < |history|
  {
    if |history| == 0 then None
    else
      var last := history[|history| - 1];
      if last.Put? && last.key == key then Some(|history| - 1)
      else if Invalidates(last, key) then None
      else LatestAt(history[..|history| - 1], key)
  }

  lemma {:induction false} NothingCoversLatest<V>(history: seq<Op<V>>, key: string)
    ensures var p := LatestAt(history, key);
            && Latest(history, key) == (if p.Some? then Some(history[p.value]) else None)
            && (p.Some? ==> history[p.value].Put? && history[p.value].key == key
                            && forall i :: p.value < i < |history| ==> !Invalidates(history[i], key))
    decreases |history|
  {
    if |history| > 0 {
      var front := history[..|history| - 1];
      NothingCoversLatest(front, key);
      assert forall i :: 0 <= i < |front| ==> front[i] == history[i];
    }
  }

  /** An invalidation that covers the key happened after position `l`, before position `end`. */
  ghost predicate CoveredBetween<V>(history: seq<Op<V>>, key: string, l: int, end: int) {
    exists i :: l < i < end && 0 <= i < |history| && Invalidates(history[i], key)
  }

  /**
   * When a hit is stale: its computation, begun at `began` and put at `p`, began before an invalidation of the key
   * exactly when such an invalidation lies between the two. None after the put can be missed.
   */
  lemma HitIsStaleExactly<V>(namespace: string, history: seq<Op<V>>, key: string, now: int, began: nat)
    requires Hit(Replay(namespace, history), namespace, key, now).Some?
    ensures var p := LatestAt(history, key);
            && p.Some? && history[p.value].Put? && history[p.value].key == key
            && Hit(Replay(namespace, history), namespace, key, now) == Some(history[p.value].value)
            && (CoveredBetween(history, key, began, |history|) <==> CoveredBetween(history, key, began, p.value))
  {
    HitIsFresh(namespace, history, key, now);
    NothingCoversLatest(history, key);
  }

  // ----- The service -----

  class Cache<V(==)> {
    const namespace: string
    const defaultTtlMs: int
    var store: Store<V>
    ghost var history: seq<Op<V>>

    ghost predicate Valid()
      reads this
    {
      store == Replay(namespace, history)
    }

    constructor (namespace: string, defaultTtlMs: int)
      ensures Valid() && this.namespace == namespace && this.defaultTtlMs == defaultTtlMs && history == []
    {
      this.namespace, this.defaultTtlMs := namespace, defaultTtlMs;
      store, history := map[], [];
    }

    method Get(key: string, now: int) returns (hit: Option<V>)
      requires Valid()
      modifies this`store, this`history
      ensures Valid() && history == old(history) + [Lookup(key, now)]
      ensures hit == Hit(old(store), namespace, key, now)
      ensures hit.Some? ==> Fresh(Latest(old(history), key), now) && Latest(old(history), key).value.value == hit.value
    {
      HitIsFresh(namespace, history, key, now);
      var k := StoreKey(namespace, key);
      hit := None;
      if k in store && store[k].expiresAt > now {
        hit := Some(store[k].value);
      } else if k in store {
        store := store - {k};
      }
      history := history + [Lookup(key, now)];
      assert history[..|history| - 1] == old(history);
    }

    method Set(key: string, value: V, ttlMs: int, now: int)
      requires Valid()
      modifies this`store, this`history
      ensures Valid() && history == old(history) + [Put(key, value, now, ttlMs)]
    {
      store := store[StoreKey(namespace, key) := Entry(value, now + ttlMs)];
      history := history + [Put(key, value, now, ttlMs)];
      assert history[..|history| - 1] == old(history);
    }

    /** `now` is the time of the lookup and `later` the time the produced value is stored. */
    method Wrap(key: string, produce: () -> V, ttlMs: Option<int>, now: int, later: int) returns (value: V)
      requires Valid()
      modifies this`store, this`history
      ensures Valid()
      ensures var hit := Hit(old(store), namespace, key, now);
              if hit.Some? then
                && value == hit.value && history == old(history) + [Lookup(key, now)]
                && Fresh(Latest(old(history), key), now) && Latest(old(history), key).value.value == value
              else
                value == produce()
                && history == old(history) + [Lookup(key, now), Put(key, value, later, ttlMs.GetOr(defaultTtlMs))]
    {
      var cached := Get(key, now);
      if cached.Some? {
        return cached.value;
      }
      value := produce();
      Set(key, value, ttlMs.GetOr(defaultTtlMs), later);
    }

    method InvalidateKeys(prefix: Option<string>)
      requires Valid()
      modifies this`store, this`history
      ensures Valid() && history == old(history) + [Invalidate(prefix)]
    {
      if !HasPrefix(prefix) {
        store := map[];
      } else {
        var cachePrefix := StoreKey(namespace, prefix.value);
        ghost var before := store;
        var pending := store.Keys;
        while pending != {}
          invariant pending <= before.Keys && history == old(history)
          invariant store == map k | k in before && (k in pending || !StartsWith(k, cachePrefix)) :: before[k]
          decreases |pending|
        {
          var k :| k in pending;
          if StartsWith(k, cachePrefix) {
            store := store - {k};
          }
          pending := pending - {k};
        }
        assert store == DeletePrefix(before, cachePrefix);
      }
      history := history + [Invalidate(prefix)];
      assert history[..|history| - 1] == old(history);
    }
  }
}
