/** MemoryCache from cache/memory.py: a namespaced dict with TTLs and a cap on its size. */
module MemoryCache {
  import opened Wrappers

  // The dict, in insertion order: no two entries share a key. None never expires.
  datatype Entry<+V> = Entry(key: string, value: V, expires: Option<int>)

  function FullKey(namespace: string, key: string): string {
    if namespace <= key then key else namespace + key
  }

  /** Keys of one length, such as fingerprints, stay apart in the namespace. */
  lemma FullKeysApart(namespace: string, a: string, b: string)
    requires |a| == |b| && FullKey(namespace, a) == FullKey(namespace, b)
    ensures a == b
  {
    var x, y := namespace + a, namespace + b;
    assert x[|namespace|..] == a && y[|namespace|..] == b;
  }

  /** Every key is kept inside the namespace, and one that is in it already stays as it is. */
  lemma FullKeysInside(namespace: string, key: string)
    ensures namespace <= FullKey(namespace, key)
    ensures FullKey(namespace, FullKey(namespace, key)) == FullKey(namespace, key)
    ensures FullKey(namespace, key) == key <==> namespace <= key
    ensures !(namespace <= key) ==> FullKey(namespace, key)[|namespace|..] == key
  {
  }

  function Find<V>(store: seq<Entry<V>>, key: string): (k: nat)
    ensures k <= |store|
    ensures k < |store| ==> store[k].key == key
    ensures forall j :: 0 <= j < k ==> store[j].key != key
  {
    if store == [] then 0 else if store[0].key == key then 0 else 1 + Find(store[1..], key)
  }

  function Remove<V>(store: seq<Entry<V>>, key: string): seq<Entry<V>> {
    var k := Find(store, key);
    if k < |store| then store[..k] + store[k + 1..] else store
  }

  predicate Expired<V>(e: Entry<V>, now: int) {
    e.expires.Some? && now >= e.expires.value
  }

  function Lookup<V>(store: seq<Entry<V>>, key: string, now: int): Option<V> {
    var k := Find(store, key);
    if k < |store| && !Expired(store[k], now) then Some(store[k].value) else None
  }

  function AfterGet<V>(store: seq<Entry<V>>, key: string, now: int): seq<Entry<V>> {
    var k := Find(store, key);
    if k < |store| && Expired(store[k], now) then Remove(store, key) else store
  }

  function Written<V>(key: string, value: V, ttl: Option<int>, now: int): Entry<V> {
    Entry(key, value, if ttl.Some? then Some(now + ttl.value) else None)
  }

  /** A write goes to the end, and the oldest writes fall off the front. */
  function AfterSet<V>(store: seq<Entry<V>>, key: string, value: V, ttl: Option<int>, max: Option<nat>,
                       now: int): seq<Entry<V>> {
    if ttl.Some? && ttl.value <= 0 then store
    else
      var all := Remove(store, key) + [Written(key, value, ttl, now)];
      if max.Some? then LastN(all, max.value) else all
  }

  class MemoryCache<V> {
    const namespace: string
    const defaultTtl: Option<int>
    const maxSize: Option<nat>
    var store: seq<Entry<V>>

    constructor (namespace: string, defaultTtl: Option<int>, maxSize: Option<nat>)
      ensures store == [] && this.namespace == namespace && this.defaultTtl == defaultTtl && this.maxSize == maxSize
    {
      this.namespace, this.defaultTtl, this.maxSize := namespace, defaultTtl, maxSize;
      store := [];
    }

    method Get(key: string, now: int) returns (r: Option<V>)
      modifies this
      ensures r == Lookup(old(store), FullKey(namespace, key), now)
      ensures store == AfterGet(old(store), FullKey(namespace, key), now)
    {
      var full := FullKey(namespace, key);
      var k := Find(store, full);
      if k == |store| {
        return None;
      }
      var e := store[k];
      if e.expires.Some? && now >= e.expires.value {
        store := store[..k] + store[k + 1..];
        return None;
      }
      r := Some(e.value);
    }

    method Set(key: string, value: V, ttl: Option<int>, now: int)
      modifies this
      ensures var effective := if ttl.Some? then ttl else defaultTtl;
              && store == AfterSet(old(store), FullKey(namespace, key), value, effective, maxSize, now)
              && (effective.Some? && effective.value <= 0 ==> store == old(store))
    {
      hide LastN, Remove, FullKey;
      var effective := if ttl.Some? then ttl else defaultTtl;
      if effective.Some? && effective.value <= 0 {
        return;
      }
      var full := FullKey(namespace, key);
      store := Remove(store, full);
      store := store + [Entry(full, value, if effective.Some? then Some(now + effective.value) else None)];
      if maxSize.Some? {
        TrimTo(maxSize.value);
      }
    }

    /** The head is the oldest write. */
    method TrimTo(max: nat)
      modifies this
      ensures store == LastN(old(store), max)
    {
      while |store| > max
        invariant LastN(store, max) == LastN(old(store), max)
      {
        store := store[1..];
      }
    }

    /** The key is gone at any time, and every other full key reads as before. */
    method Delete(key: string)
      requires UniqueKeys(store)
      modifies this
      ensures UniqueKeys(store) && store == Remove(old(store), FullKey(namespace, key))
      ensures forall other, now :: Lookup(store, other, now)
                                   == if other == FullKey(namespace, key) then None else Lookup(old(store), other, now)
    {
      var full := FullKey(namespace, key);
      forall other, now ensures Lookup(Remove(store, full), other, now)
          == if other == full then None else Lookup(store, other, now) {
        AfterDelete(store, full, other, now);
      }
      RemoveUnique(store, full);
      var k := Find(store, full);
      if k < |store| {
        store := store[..k] + store[k + 1..];
      }
    }
  }

  // ----- what a get sees after a set

  ghost predicate UniqueKeys<V>(store: seq<Entry<V>>) {
    forall i, j :: 0 <= i < j < |store| ==> store[i].key != store[j].key
  }

  lemma FoundAt<V>(store: seq<Entry<V>>, k: nat)
    requires UniqueKeys(store) && k < |store|
    ensures Find(store, store[k].key) == k
  {
  }

  lemma RemoveAt<V>(store: seq<Entry<V>>, key: string, m: nat)
    requires m < |Remove(store, key)|
    ensures (if m < Find(store, key) then m else m + 1) < |store|
    ensures Remove(store, key)[m] == store[if m < Find(store, key) then m else m + 1]
  {
    hide Find;
  }

  lemma RemoveUnique<V>(store: seq<Entry<V>>, key: string)
    requires UniqueKeys(store)
    ensures UniqueKeys(Remove(store, key))
    ensures forall m :: 0 <= m < |Remove(store, key)| ==> Remove(store, key)[m].key != key
  {
    hide Find;
    var r := Remove(store, key);
    forall m | 0 <= m < |r| ensures r[m].key != key {
      RemoveAt(store, key, m);
    }
    forall i, j | 0 <= i < j < |r| ensures r[i].key != r[j].key {
      RemoveAt(store, key, i);
      RemoveAt(store, key, j);
    }
  }

  lemma RemoveLookup<V>(store: seq<Entry<V>>, key: string, other: string, now: int)
    requires UniqueKeys(store) && other != key
    ensures Lookup(Remove(store, key), other, now) == Lookup(store, other, now)
  {
    RemoveUnique(store, key);
    hide Find;
    var k, r, i := Find(store, key), Remove(store, key), Find(store, other);
    if i < |store| {
      assert r[if i < k then i else i - 1] == store[i];
      FoundAt(r, if i < k then i else i - 1);
    } else {
      forall m | 0 <= m < |r| ensures r[m].key != other {
        RemoveAt(store, key, m);
      }
    }
  }

  /** After a removal the key is gone, and other keys read as before. */
  lemma AfterDelete<V>(store: seq<Entry<V>>, key: string, other: string, now: int)
    requires UniqueKeys(store)
    ensures UniqueKeys(Remove(store, key))
    ensures Lookup(Remove(store, key), other, now) == if other == key then None else Lookup(store, other, now)
  {
    hide Find;
    RemoveUnique(store, key);
    if other != key {
      RemoveLookup(store, key, other, now);
    }
  }

  lemma SuffixFound<V>(all: seq<Entry<V>>, d: nat, key: string)
    requires UniqueKeys(all) && d <= |all|
    ensures UniqueKeys(all[d..])
    ensures Find(all[d..], key) < |all[d..]| ==> Find(all, key) == Find(all[d..], key) + d
  {
    hide Find;
    var k := Find(all[d..], key);
    if k < |all[d..]| {
      assert all[d..][k] == all[d + k];
      FoundAt(all, d + k);
    }
  }

  lemma SuffixLookup<V>(all: seq<Entry<V>>, d: nat, key: string, now: int)
    requires UniqueKeys(all) && d <= |all|
    ensures UniqueKeys(all[d..])
    ensures Lookup(all[d..], key, now).Some? ==> Lookup(all[d..], key, now) == Lookup(all, key, now)
  {
    SuffixFound(all, d, key);
    hide Find, UniqueKeys;
    var k := Find(all[d..], key);
    if k < |all[d..]| {
      assert all[d..][k] == all[d + k];
    }
  }

  lemma LastNLookup<V>(all: seq<Entry<V>>, max: nat, key: string, now: int)
    requires UniqueKeys(all)
    ensures UniqueKeys(LastN(all, max))
    ensures Lookup(LastN(all, max), key, now).Some? ==> Lookup(LastN(all, max), key, now) == Lookup(all, key, now)
  {
    hide Find, UniqueKeys, Lookup;
    assert LastN(all, max) == all[|all| - |LastN(all, max)|..];
    SuffixLookup(all, |all| - |LastN(all, max)|, key, now);
  }

  /** A get after a set sees the value written, until it expires; other keys keep their value or are evicted. */
  lemma GetAfterSet<V>(store: seq<Entry<V>>, key: string, value: V, ttl: Option<int>, max: Option<nat>, now: int,
                       other: string, later: int)
    requires UniqueKeys(store)
    requires ttl.Some? ==> ttl.value > 0
    requires max.Some? ==> max.value > 0
    ensures var after := AfterSet(store, key, value, ttl, max, now);
            && UniqueKeys(after)
            && (max.Some? && |store| <= max.value ==> |after| <= max.value)
            && Lookup(after, key, later) == (if ttl.Some? && later >= now + ttl.value then None else Some(value))
            && (other != key && Lookup(after, other, later).Some? ==>
                Lookup(after, other, later) == Lookup(store, other, later))
  {
    hide Find;
    var after := AfterSet(store, key, value, ttl, max, now);
    var e := Written(key, value, ttl, now);
    var rest := Remove(store, key);
    RemoveUnique(store, key);
    var all := rest + [e];
    if max.Some? {
      LastNLookup(all, max.value, key, later);
      LastNLookup(all, max.value, other, later);
    }
    assert after[|after| - 1] == e;
    FoundAt(after, |after| - 1);
    if other != key {
      AppendLookup(rest, e, other, later);
      RemoveLookup(store, key, other, later);
    }
  }

  /** How many entries after position j do not have the key. */
  function Newer<V>(store: seq<Entry<V>>, j: nat, key: string): nat
    requires j < |store|
    decreases |store| - j
  {
    if j + 1 == |store| then 0
    else (if store[j + 1].key == key then 0 else 1) + Newer(store, j + 1, key)
  }

  lemma {:induction false} NewerIs<V>(store: seq<Entry<V>>, j: nat, key: string)
    requires UniqueKeys(store) && j < |store|
    ensures Newer(store, j, key) == |store| - 1 - j - if j < Find(store, key) < |store| then 1 else 0
    decreases |store| - j
  {
    hide Find;
    if j + 1 < |store| {
      NewerIs(store, j + 1, key);
      if store[j + 1].key == key {
        FoundAt(store, j + 1);
      }
    }
  }

  lemma BeforeTrim<V>(store: seq<Entry<V>>, e: Entry<V>, j: nat)
    requires UniqueKeys(store) && j < |store| && store[j].key != e.key
    ensures var all, at := Remove(store, e.key) + [e], if j < Find(store, e.key) then j else j - 1;
            && UniqueKeys(all) && 0 <= at < |all| && all[at] == store[j]
            && |all| - at == Newer(store, j, e.key) + 2
  {
    NewerIs(store, j, e.key);
    RemoveUnique(store, e.key);
    hide Find, Newer;
  }

  /** The oldest writes go first: another key keeps its value exactly if it and those written after it fit beside the
      new one. */
  lemma OldestGoFirst<V>(store: seq<Entry<V>>, key: string, value: V, ttl: Option<int>, max: Option<nat>, now: int,
                         j: nat, later: int)
    requires UniqueKeys(store) && j < |store| && store[j].key != key
    requires ttl.Some? ==> ttl.value > 0
    ensures Lookup(AfterSet(store, key, value, ttl, max, now), store[j].key, later)
            == if max.None? || Newer(store, j, key) + 2 <= max.value then Lookup(store, store[j].key, later) else None
  {
    var e := Written(key, value, ttl, now);
    hide *;
    AfterSetTrims(store, key, value, ttl, max, now);
    assert e.key == key by {
      WrittenKey(key, value, ttl, now);
    }
    BeforeTrim(store, e, j);
    LookupAt(store, j, later);
    var at := if j < Find(store, key) then j else j - 1;
    LookupTrimmed(Remove(store, key) + [e], max, at, later);
  }

  lemma WrittenKey<V>(key: string, value: V, ttl: Option<int>, now: int)
    ensures Written(key, value, ttl, now).key == key
  {
  }

  lemma AfterSetTrims<V>(store: seq<Entry<V>>, key: string, value: V, ttl: Option<int>, max: Option<nat>, now: int)
    requires ttl.Some? ==> ttl.value > 0
    ensures AfterSet(store, key, value, ttl, max, now)
            == var all := Remove(store, key) + [Written(key, value, ttl, now)];
               if max.Some? then LastN(all, max.value) else all
  {
    hide LastN, Remove;
  }

  lemma LookupTrimmed<V>(all: seq<Entry<V>>, max: Option<nat>, at: nat, now: int)
    requires UniqueKeys(all) && at < |all|
    ensures Lookup(if max.Some? then LastN(all, max.value) else all, all[at].key, now)
            == if (max.Some? && at + max.value < |all|) || Expired(all[at], now) then None else Some(all[at].value)
  {
    hide *;
    LookupAt(all, at, now);
    if max.Some? {
      LastNLookupAt(all, max.value, at, now);
    }
  }

  lemma LookupAt<V>(store: seq<Entry<V>>, j: nat, now: int)
    requires UniqueKeys(store) && j < |store|
    ensures Lookup(store, store[j].key, now) == if Expired(store[j], now) then None else Some(store[j].value)
  {
    FoundAt(store, j);
    hide Find;
  }

  lemma LastNLookupAt<V>(all: seq<Entry<V>>, max: nat, at: nat, now: int)
    requires UniqueKeys(all) && at < |all|
    ensures Lookup(LastN(all, max), all[at].key, now)
            == if at + max < |all| || Expired(all[at], now) then None else Some(all[at].value)
  {
    LastNFinds(all, max, at);
    hide Find;
  }

  lemma LastNFinds<V>(all: seq<Entry<V>>, max: nat, at: nat)
    requires UniqueKeys(all) && at < |all|
    ensures var kept := LastN(all, max);
            Find(kept, all[at].key) == if at + max < |all| then |kept| else at - (|all| - |kept|)
  {
    hide Find;
    var kept := LastN(all, max);
    var d := |all| - |kept|;
    assert kept == all[d..] && UniqueKeys(kept);
    if at + max < |all| {
      assert forall m :: 0 <= m < |kept| ==> kept[m] == all[d + m] && kept[m].key != all[at].key;
    } else {
      assert kept[at - d] == all[at];
      FoundAt(kept, at - d);
    }
  }

  /** Reading removes an entry exactly if it has expired, and changes no other read. */
  lemma GetRemovesExpired<V>(store: seq<Entry<V>>, key: string, now: int, other: string, later: int)
    requires UniqueKeys(store)
    ensures var after, k := AfterGet(store, key, now), Find(store, key);
            && (k < |store| && Lookup(store, key, now).None? ==> |after| == |store| - 1 && Find(after, key) == |after|)
            && (k == |store| || Lookup(store, key, now).Some? ==> after == store)
            && (other != key ==> Lookup(after, other, later) == Lookup(store, other, later))
  {
    hide Find;
    RemoveUnique(store, key);
    if other != key {
      RemoveLookup(store, key, other, later);
    }
  }

  lemma AppendLookup<V>(store: seq<Entry<V>>, e: Entry<V>, other: string, now: int)
    requires UniqueKeys(store + [e]) && other != e.key
    ensures Lookup(store + [e], other, now) == Lookup(store, other, now)
  {
    hide Find;
    var all, k := store + [e], Find(store, other);
    assert forall j :: 0 <= j < |store| ==> all[j] == store[j];
    if k < |store| {
      FoundAt(all, k);
    } else {
      assert forall j :: 0 <= j < |all| ==> all[j].key != other;
    }
  }

  lemma AfterGetUnique<V>(store: seq<Entry<V>>, key: string, now: int)
    requires UniqueKeys(store)
    ensures UniqueKeys(AfterGet(store, key, now))
  {
    hide Find, Remove, UniqueKeys;
    RemoveUnique(store, key);
  }

  lemma AfterSetUnique<V>(store: seq<Entry<V>>, key: string, value: V, ttl: Option<int>, max: Option<nat>, now: int)
    requires UniqueKeys(store)
    ensures UniqueKeys(AfterSet(store, key, value, ttl, max, now))
  {
    hide Find, Remove, LastN;
    RemoveUnique(store, key);
    var all := Remove(store, key) + [Entry(key, value, if ttl.Some? then Some(now + ttl.value) else None)];
    if max.Some? {
      LastNLookup(all, max.value, key, now);
    }
  }

  /** Every entry after a get or a set was there before, or is the one just written. */
  lemma AfterGetEntry<V>(store: seq<Entry<V>>, key: string, now: int, k: nat) returns (j: nat)
    requires k < |AfterGet(store, key, now)|
    ensures j < |store| && AfterGet(store, key, now)[k] == store[j]
  {
    hide Find;
    j := k;
    if AfterGet(store, key, now) != store {
      RemoveAt(store, key, k);
      j := if k < Find(store, key) then k else k + 1;
    }
  }

  lemma LastNAt<T>(s: seq<T>, n: nat, k: nat) returns (i: nat)
    requires k < |LastN(s, n)|
    ensures i < |s| && LastN(s, n)[k] == s[i]
  {
    i := k + |s| - |LastN(s, n)|;
  }

  lemma WrittenOrOld<V>(store: seq<Entry<V>>, key: string, e: Entry<V>, i: nat) returns (j: nat)
    requires i < |Remove(store, key) + [e]|
    ensures var x := (Remove(store, key) + [e])[i]; (j < |store| && x == store[j]) || x == e
  {
    hide Find, Remove;
    j := i;
    if i < |Remove(store, key)| {
      RemoveAt(store, key, i);
      j := if i < Find(store, key) then i else i + 1;
    }
  }

  lemma AfterSetEntry<V>(store: seq<Entry<V>>, key: string, value: V, ttl: Option<int>, max: Option<nat>, now: int,
                         k: nat) returns (j: nat)
    requires k < |AfterSet(store, key, value, ttl, max, now)|
    ensures var e := AfterSet(store, key, value, ttl, max, now)[k];
            (j < |store| && e == store[j]) || (e.key == key && e.value == value)
  {
    hide Find, Remove, LastN;
    j := k;
    if ttl.None? || ttl.value > 0 {
      var e := Entry(key, value, if ttl.Some? then Some(now + ttl.value) else None);
      var i := k;
      if max.Some? {
        i := LastNAt(Remove(store, key) + [e], max.value, k);
      }
      j := WrittenOrOld(store, key, e, i);
    }
  }
}
