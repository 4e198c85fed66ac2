/** The witness of browser_extension/background.js: the highest count of sealed entries seen, and a warning that
    sticks. */
module Witness {
  import opened Wrappers

  // Reports are counts of sealed entries, or None where the server sent something that is not an integer.
  datatype Shorter = Shorter(was: int, now: int)
  datatype State = State(seen: Option<int>, shorter: Option<Shorter>)

  function Note(s: State, total: Option<int>): State {
    if s.shorter.Some? || total.None? then s
    else if total.value < s.seen.GetOr(0) then s.(shorter := Some(Shorter(s.seen.GetOr(0), total.value)))
    else if total.value > s.seen.GetOr(0) then s.(seen := total)
    else s
  }

  function Notes(s: State, totals: seq<Option<int>>): State {
    if totals == [] then s else Note(Notes(s, totals[..|totals| - 1]), totals[|totals| - 1])
  }

  // The record the reports describe, and whether it ever got shorter.

  function LastReport(start: int, totals: seq<Option<int>>): int {
    if totals == [] then start
    else totals[|totals| - 1].GetOr(LastReport(start, totals[..|totals| - 1]))
  }

  predicate NeverShrinks(start: int, totals: seq<Option<int>>) {
    totals == []
    || (&& NeverShrinks(start, totals[..|totals| - 1])
        && LastReport(start, totals[..|totals| - 1]) <= LastReport(start, totals))
  }

  /** Reports up to where the record first gets shorter. */
  ghost predicate FirstShrink(start: int, totals: seq<Option<int>>, k: nat) {
    && k < |totals|
    && NeverShrinks(start, totals[..k])
    && !NeverShrinks(start, totals[..k + 1])
  }

  /** From an accepted record there is a warning exactly when some report was shorter than the one before it; with none,
      the witness is the last report. */
  lemma {:induction false} WarnsWhenShorter(s: State, totals: seq<Option<int>>)
    requires s.shorter.None?
    ensures Notes(s, totals).shorter.None? <==> NeverShrinks(s.seen.GetOr(0), totals)
    ensures NeverShrinks(s.seen.GetOr(0), totals) ==>
            Notes(s, totals).seen.GetOr(0) == LastReport(s.seen.GetOr(0), totals)
  {
    if totals != [] {
      WarnsWhenShorter(s, totals[..|totals| - 1]);
    }
  }

  /** The warning names the first shortening, and no later report changes it. */
  lemma {:induction false} WarningSticks(s: State, totals: seq<Option<int>>, k: nat)
    requires s.shorter.None? && FirstShrink(s.seen.GetOr(0), totals, k)
    ensures Notes(s, totals).shorter
            == Some(Shorter(LastReport(s.seen.GetOr(0), totals[..k]), LastReport(s.seen.GetOr(0), totals[..k + 1])))
    decreases |totals|
  {
    var n := |totals| - 1;
    if k < n {
      assert totals[..n][..k] == totals[..k] && totals[..n][..k + 1] == totals[..k + 1];
      WarningSticks(s, totals[..n], k);
    } else {
      assert totals[..k + 1] == totals;
      WarnsWhenShorter(s, totals[..n]);
    }
  }

  class WitnessStore {
    var seen: Option<int>
    var shorter: Option<Shorter>
    var rolledBack: bool

    constructor ()
      ensures Valid() && Now() == State(None, None)
    {
      seen, shorter, rolledBack := None, None, false;
    }

    ghost function Now(): State
      reads this
    {
      State(seen, shorter)
    }

    ghost predicate Valid()
      reads this
    {
      rolledBack <==> shorter.Some?
    }

    /** Runs alone: a read, a comparison and a write. */
    method NoteWitness(total: Option<int>) returns (r: Option<Shorter>)
      requires Valid()
      modifies this
      ensures Valid() && Now() == Note(old(Now()), total)
      ensures r == shorter
    {
      if shorter.Some? {
        rolledBack := true;
        return shorter;
      }
      if total.None? {
        return None;
      }
      var before := seen.GetOr(0);
      if total.value < before {
        shorter, rolledBack := Some(Shorter(before, total.value)), true;
        return shorter;
      }
      if total.value > before {
        seen := total;
      }
      r := None;
    }

    method AcceptRecord(total: int)
      modifies this
      ensures Valid() && Now() == State(Some(total), None)
    {
      seen, shorter, rolledBack := Some(total), None, false;
    }
  }
}
