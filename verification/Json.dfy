/** JSON values as the wire stages edit them: objects are dicts in insertion order. */
module Json {
  import opened Wrappers

  datatype Json = Null | Bool(b: bool) | Num(n: int) | Str(s: string) | Arr(items: seq<Json>) | Obj(fields: seq<Field>)
  datatype Field = Field(key: string, value: Json)

  function Find(fields: seq<Field>, key: string): Option<Json> {
    if fields == [] then None else if fields[0].key == key then Some(fields[0].value) else Find(fields[1..], key)
  }

  function Store(fields: seq<Field>, key: string, value: Json): seq<Field> {
    if fields == [] then [Field(key, value)]
    else if fields[0].key == key then [Field(key, value)] + fields[1..]
    else [fields[0]] + Store(fields[1..], key, value)
  }

  function Get(j: Json, key: string): Option<Json> {
    if j.Obj? then Find(j.fields, key) else None
  }

  function Put(j: Json, key: string, value: Json): Json {
    if j.Obj? then Obj(Store(j.fields, key, value)) else j
  }

  lemma {:induction false} FindStore(fields: seq<Field>, key: string, value: Json, other: string)
    ensures Find(Store(fields, key, value), other) == if other == key then Some(value) else Find(fields, other)
  {
    if fields != [] && fields[0].key != key {
      FindStore(fields[1..], key, value, other);
    }
  }

  lemma GetPut(j: Json, key: string, value: Json, other: string)
    requires j.Obj?
    ensures Get(Put(j, key, value), other) == if other == key then Some(value) else Get(j, other)
  {
    FindStore(j.fields, key, value, other);
  }

  lemma {:induction false} StoreStore(fields: seq<Field>, key: string, u: Json, v: Json)
    ensures Store(Store(fields, key, u), key, v) == Store(fields, key, v)
  {
    if fields != [] && fields[0].key != key {
      StoreStore(fields[1..], key, u, v);
    }
  }

  lemma PutPut(j: Json, key: string, u: Json, v: Json)
    ensures Put(Put(j, key, u), key, v) == Put(j, key, v)
  {
    if j.Obj? {
      StoreStore(j.fields, key, u, v);
    }
  }

  lemma {:induction false} StoreFound(fields: seq<Field>, key: string)
    requires Find(fields, key).Some?
    ensures Store(fields, key, Find(fields, key).value) == fields
  {
    if fields[0].key != key {
      StoreFound(fields[1..], key);
    }
  }

  lemma PutGet(j: Json, key: string)
    requires Get(j, key).Some?
    ensures Put(j, key, Get(j, key).value) == j
  {
    StoreFound(j.fields, key);
  }

  lemma {:induction false} StoresCommute(fields: seq<Field>, key: string, u: Json, other: string, v: Json)
    requires key != other && Find(fields, key).Some? && Find(fields, other).Some?
    ensures Store(Store(fields, key, u), other, v) == Store(Store(fields, other, v), key, u)
  {
    if fields[0].key != key && fields[0].key != other {
      StoresCommute(fields[1..], key, u, other, v);
    }
  }

  // ----- cache_control markers, counted recursively

  function Markers(j: Json): nat {
    match j
    case Arr(items) => MarkersInAll(items)
    case Obj(fields) => (if Find(fields, "cache_control").Some? then 1 else 0) + MarkersInFields(fields)
    case _ => 0
  }

  function MarkersInAll(items: seq<Json>): nat {
    if items == [] then 0 else Markers(items[0]) + MarkersInAll(items[1..])
  }

  function MarkersInFields(fields: seq<Field>): nat {
    if fields == [] then 0 else Markers(fields[0].value) + MarkersInFields(fields[1..])
  }

  function ValueMarkers(j: Option<Json>): nat {
    if j.Some? then Markers(j.value) else 0
  }

  lemma {:induction false} StoreMarkers(fields: seq<Field>, key: string, value: Json)
    ensures MarkersInFields(Store(fields, key, value))
            == MarkersInFields(fields) - ValueMarkers(Find(fields, key)) + Markers(value)
  {
    if fields != [] && fields[0].key != key {
      StoreMarkers(fields[1..], key, value);
    }
  }

  /** Writing a key adds the markers of the new value, takes away those of the old, and counts a new cache_control. */
  lemma PutMarkers(j: Json, key: string, value: Json)
    requires j.Obj?
    ensures Markers(Put(j, key, value)) == Markers(j) - ValueMarkers(Get(j, key)) + Markers(value)
                                           + (if key == "cache_control" && Get(j, key).None? then 1 else 0)
  {
    StoreMarkers(j.fields, key, value);
    FindStore(j.fields, key, value, "cache_control");
  }

  lemma {:induction false} SameMarkers(a: seq<Json>, b: seq<Json>)
    requires |a| == |b| && forall i :: 0 <= i < |a| ==> Markers(a[i]) == Markers(b[i])
    ensures MarkersInAll(a) == MarkersInAll(b)
  {
    if a != [] {
      forall i | 0 <= i < |a[1..]| ensures Markers(a[1..][i]) == Markers(b[1..][i]) {
        assert a[1..][i] == a[i + 1] && b[1..][i] == b[i + 1];
      }
      SameMarkers(a[1..], b[1..]);
    }
  }

  lemma {:induction false} ItemMarkers(items: seq<Json>, k: nat, item: Json)
    requires k < |items|
    ensures MarkersInAll(items[k := item]) == MarkersInAll(items) - Markers(items[k]) + Markers(item)
  {
    if k > 0 {
      ItemMarkers(items[1..], k - 1, item);
      assert items[k := item][1..] == items[1..][k - 1 := item];
    } else {
      assert items[k := item][1..] == items[1..];
    }
  }

  lemma {:induction false} FoundMarkers(fields: seq<Field>, key: string)
    ensures ValueMarkers(Find(fields, key)) <= MarkersInFields(fields)
  {
    if fields != [] && fields[0].key != key {
      FoundMarkers(fields[1..], key);
    }
  }
}
