/** PromptCacheInjection.inject from stages.py: at most two cache_control markers of our own. */
module PromptCache {
  import opened Wrappers
  import opened Json

  const Budget: nat := 2

  function Ephemeral(): Json {
    Obj([Field("type", Str("ephemeral"))])
  }

  // The request body, a dict the stages edit in place.
  class Body {
    var fields: seq<Field>

    constructor (fields: seq<Field>)
      ensures this.fields == fields
    {
      this.fields := fields;
    }
  }

  // The system prompt and the tools can each take a marker: a non-empty string, or a non-empty list.
  predicate Markable(j: Option<Json>, stringToo: bool) {
    match j
    case Some(Str(s)) => stringToo && s != ""
    case Some(Arr(items)) => items != []
    case _ => false
  }

  /** A marker can only be merged into a dict. */
  predicate Raises(j: Option<Json>) {
    match j
    case Some(Arr(items)) => items != [] && !items[|items| - 1].Obj?
    case _ => false
  }

  function Marked(j: Json): Json
    requires Markable(Some(j), true) && !Raises(Some(j))
  {
    match j
    case Str(_) => Arr([Obj([Field("type", Str("text")), Field("text", j), Field("cache_control", Ephemeral())])])
    case Arr(items) => Arr(items[|items| - 1 := Put(items[|items| - 1], "cache_control", Ephemeral())])
  }

  function MarkAt(fields: seq<Field>, key: string): (r: Option<seq<Field>>) {
    var j := Find(fields, key);
    if !Markable(j, key == "system") then Some(fields)
    else if Raises(j) then None
    else Some(Store(fields, key, Marked(j.value)))
  }

  /** None when a marker has to go onto something that is not a dict, which raises. */
  function Injected(fields: seq<Field>): Option<seq<Field>> {
    if Markers(Obj(fields)) > 0 then Some(fields)
    else
      var system := MarkAt(fields, "system");
      if system.None? then None else MarkAt(system.value, "tools")
  }

  method Inject(body: Body) returns (ok: bool)
    modifies body
    ensures ok <==> Injected(old(body.fields)).Some?
    ensures ok ==> Some(body.fields) == Injected(old(body.fields))
    // A raise at the tools leaves the system prompt marked.
    ensures !ok ==> body.fields == MarkAt(old(body.fields), "system").GetOr(old(body.fields))
  {
    if Markers(Obj(body.fields)) > 0 {
      return true;
    }
    hide Markers;
    var used := 0;
    var system := Find(body.fields, "system");
    if Markable(system, true) && used < Budget {
      if Raises(system) {
        return false;
      }
      body.fields := Store(body.fields, "system", Marked(system.value));
      used := used + 1;
    }
    var tools := Find(body.fields, "tools");
    if Markable(tools, false) && used < Budget {
      if Raises(tools) {
        return false;
      }
      body.fields := Store(body.fields, "tools", Marked(tools.value));
      used := used + 1;
    }
    ok := true;
  }

  // ----- how many markers there are afterwards

  lemma MarkedMarkers(j: Json)
    requires Markable(Some(j), true) && !Raises(Some(j)) && Markers(j) == 0
    ensures Markers(Marked(j)) == 1
  {
    match j
    case Str(_) =>
      var block := [Field("type", Str("text")), Field("text", j), Field("cache_control", Ephemeral())];
      assert block[1..] == [Field("text", j), Field("cache_control", Ephemeral())];
      assert block[1..][1..] == [Field("cache_control", Ephemeral())];
      assert Find(block, "cache_control") == Find(block[1..], "cache_control")
             == Find(block[1..][1..], "cache_control");
      EphemeralMarkers();
      assert MarkersInFields(block) == MarkersInFields(block[1..]) == MarkersInFields(block[1..][1..]) == 0;
      assert MarkersInAll([Obj(block)]) == Markers(Obj(block));
    case Arr(items) =>
      var last := items[|items| - 1];
      LastMarkers(items);
      EphemeralMarkers();
      PutMarkers(last, "cache_control", Ephemeral());
      UnmarkedHasNoKey(last);
      ItemMarkers(items, |items| - 1, Put(last, "cache_control", Ephemeral()));
  }

  lemma EphemeralMarkers()
    ensures Markers(Ephemeral()) == 0
  {
    var fields := [Field("type", Str("ephemeral"))];
    assert fields[1..] == [];
  }

  lemma UnmarkedHasNoKey(j: Json)
    requires j.Obj? && Markers(j) == 0
    ensures Get(j, "cache_control").None?
  {
  }

  lemma {:induction false} LastMarkers(items: seq<Json>)
    requires items != []
    ensures Markers(items[|items| - 1]) <= MarkersInAll(items)
  {
    if |items| > 1 {
      LastMarkers(items[1..]);
    }
  }

  lemma MarkAtMarkers(fields: seq<Field>, key: string)
    requires key != "cache_control" && MarkAt(fields, key).Some?
    requires ValueMarkers(Find(fields, key)) == 0
    ensures Markers(Obj(MarkAt(fields, key).value))
            == Markers(Obj(fields)) + if Markable(Find(fields, key), key == "system") then 1 else 0
  {
    hide Markers, Marked;
    if Markable(Find(fields, key), key == "system") {
      MarkedMarkers(Find(fields, key).value);
      PutMarkers(Obj(fields), key, Marked(Find(fields, key).value));
    }
  }

  lemma MarkAtFinds(fields: seq<Field>, key: string, other: string)
    requires MarkAt(fields, key).Some? && other != key
    ensures Find(MarkAt(fields, key).value, other) == Find(fields, other)
  {
    hide Find, Store;
    if Markable(Find(fields, key), key == "system") {
      FindStore(fields, key, Marked(Find(fields, key).value), other);
    }
  }

  lemma UnmarkedValue(fields: seq<Field>, key: string)
    requires Markers(Obj(fields)) == 0
    ensures ValueMarkers(Find(fields, key)) == 0
  {
    FoundMarkers(fields, key);
  }

  function One(b: bool): nat {
    if b then 1 else 0
  }

  /** A body with markers keeps them; any other gets one per non-empty system prompt and tool list. */
  lemma InjectedMarkers(fields: seq<Field>)
    requires Injected(fields).Some?
    ensures Markers(Obj(Injected(fields).value))
            == if Markers(Obj(fields)) > 0 then Markers(Obj(fields))
               else One(Markable(Find(fields, "system"), true)) + One(Markable(Find(fields, "tools"), false))
  {
    if Markers(Obj(fields)) == 0 {
      UnmarkedValue(fields, "system");
      UnmarkedValue(fields, "tools");
      hide Markers, MarkAt;
      MarkAtMarkers(fields, "system");
      MarkAtFinds(fields, "system", "tools");
      MarkAtMarkers(MarkAt(fields, "system").value, "tools");
    }
  }

  lemma NeverTooMany(fields: seq<Field>)
    requires Injected(fields).Some?
    ensures var before, after := Markers(Obj(fields)), Markers(Obj(Injected(fields).value));
            after <= if before > Budget then before else Budget
  {
    hide Markers, Injected;
    InjectedMarkers(fields);
  }

  lemma InjectIsIdempotent(fields: seq<Field>)
    requires Injected(fields).Some?
    ensures Injected(Injected(fields).value) == Injected(fields)
  {
    hide Markers;
    InjectedMarkers(fields);
  }

  /** What a key held before, its items without their markers. A string is its own one text block. */
  ghost predicate SameButMarker(before: Json, after: Json) {
    match before
    case Str(s) =>
      after.Arr? && |after.items| == 1 && Get(after.items[0], "type") == Some(Str("text"))
          && Get(after.items[0], "text") == Some(before) && IsMarker(Get(after.items[0], "cache_control"))
    case Arr(items) =>
      && after.Arr? && |after.items| == |items| > 0
      && after.items[..|items| - 1] == items[..|items| - 1]
      && SameButControl(items[|items| - 1], after.items[|items| - 1])
      && IsMarker(Get(after.items[|items| - 1], "cache_control"))
    case _ => false
  }

  ghost predicate IsMarker(j: Option<Json>) {
    j == Some(Obj([Field("type", Str("ephemeral"))]))
  }

  ghost predicate SameButControl(before: Json, after: Json) {
    forall key :: key != "cache_control" ==> Get(after, key) == Get(before, key)
  }

  lemma MarkedIsSame(j: Json)
    requires Markable(Some(j), true) && !Raises(Some(j))
    ensures SameButMarker(j, Marked(j))
  {
    match j
    case Str(_) =>
      var block := [Field("type", Str("text")), Field("text", j), Field("cache_control", Ephemeral())];
      assert Find(block, "text") == Find(block[1..], "text");
      assert Find(block, "cache_control") == Find(block[1..], "cache_control");
      assert Find(block[1..], "cache_control") == Find(block[1..][1..], "cache_control");
    case Arr(items) =>
      var last := items[|items| - 1];
      forall key | key != "cache_control" ensures Get(Put(last, "cache_control", Ephemeral()), key) == Get(last, key) {
        GetPut(last, "cache_control", Ephemeral(), key);
      }
      GetPut(last, "cache_control", Ephemeral(), "cache_control");
  }

  lemma MarkAtChanges(fields: seq<Field>, key: string)
    requires MarkAt(fields, key).Some? && MarkAt(fields, key).value != fields
    ensures Find(fields, key).Some? && Find(MarkAt(fields, key).value, key).Some?
    ensures SameButMarker(Find(fields, key).value, Find(MarkAt(fields, key).value, key).value)
  {
    hide Find, Store, Marked;
    var j := Find(fields, key).value;
    MarkedIsSame(j);
    FindStore(fields, key, Marked(j), key);
  }

  /** Nothing but system and tools changes, and those only by a marker on their last item. */
  lemma InjectOnlyMarks(fields: seq<Field>, key: string)
    requires Injected(fields).Some? && Find(Injected(fields).value, key) != Find(fields, key)
    ensures key == "system" || key == "tools"
    ensures Find(fields, key).Some? && Find(Injected(fields).value, key).Some?
    ensures SameButMarker(Find(fields, key).value, Find(Injected(fields).value, key).value)
  {
    hide Markers, MarkAt, SameButMarker, Find;
    var middle := MarkAt(fields, "system").value;
    if key == "tools" {
      MarkAtFinds(fields, "system", key);
      MarkAtChanges(middle, key);
    } else {
      MarkAtFinds(middle, "tools", key);
      if key == "system" {
        MarkAtChanges(fields, key);
      } else {
        MarkAtFinds(fields, "system", key);
      }
    }
  }

  /** The key holds a list whose last item is not a dict. */
  ghost predicate EndsBadly(fields: seq<Field>, key: string) {
    exists items: seq<Json> :: Find(fields, key) == Some(Arr(items)) && items != [] && !items[|items| - 1].Obj?
  }

  /** A body with a marker anywhere is left as it is; any other raises exactly when the system prompt or the tools end
      in something that is not a dict. */
  lemma RaisesIff(fields: seq<Field>)
    ensures Markers(Obj(fields)) > 0 ==> Injected(fields) == Some(fields)
    ensures Injected(fields).None? <==>
              Markers(Obj(fields)) == 0 && (EndsBadly(fields, "system") || EndsBadly(fields, "tools"))
  {
    hide Markers, Find, Store, Marked;
    if MarkAt(fields, "system").Some? {
      MarkAtFinds(fields, "system", "tools");
    }
  }
}
