/** The window of message IDs a bridge remembers (`mark_seen`, crates/scv-channels/src/lib.rs).

    `Mark` updates the list in place. The reference looks at the whole history of marks. */
module Seen {
  import opened Ids

  const WINDOW := 4096

  /** `ids` without `id`, wherever it is. */
  function Remove(ids: seq<Id>, id: Id): (rest: seq<Id>)
    ensures |rest| <= |ids| && id !in rest
  {
    if ids == [] then [] else if ids[0] == id then Remove(ids[1..], id) else [ids[0]] + Remove(ids[1..], id)
  }

  function Last<T>(s: seq<T>, n: nat): (t: seq<T>)
    ensures |t| == if |s| <= n then |s| else n
  {
    if |s| <= n then s else s[|s| - n..]
  }

  /** Move `id` to the end and forget what is beyond the window. */
  function Mark(seen: seq<Id>, id: Id, window: nat): seq<Id> {
    Last(Remove(seen, id) + [id], window)
  }

  function MarkAll(marks: seq<Id>, window: nat): seq<Id> {
    if marks == [] then [] else Mark(MarkAll(marks[..|marks| - 1], window), marks[|marks| - 1], window)
  }

  /** Each ID once, at its most recent mark. */
  function Distinct(marks: seq<Id>): seq<Id> {
    if marks == [] then []
    else if marks[0] in marks[1..] then Distinct(marks[1..])
    else [marks[0]] + Distinct(marks[1..])
  }

  function Set(ids: seq<Id>): set<Id> {
    set x | x in ids
  }

  // ----- removing

  lemma {:induction false} RemoveAppend(a: seq<Id>, b: seq<Id>, id: Id)
    ensures Remove(a + b, id) == Remove(a, id) + Remove(b, id)
    decreases |a|
  {
    if a == [] {
      assert a + b == b;
    } else {
      RemoveAppend(a[1..], b, id);
      assert (a + b)[1..] == a[1..] + b;
    }
  }

  lemma {:induction false} RemoveAbsent(ids: seq<Id>, id: Id)
    requires id !in ids
    ensures Remove(ids, id) == ids
    decreases |ids|
  {
    if ids != [] {
      RemoveAbsent(ids[1..], id);
    }
  }

  lemma {:induction false} RemoveMembers(ids: seq<Id>, id: Id)
    ensures forall x :: x in Remove(ids, id) <==> x in ids && x != id
    decreases |ids|
  {
    if ids != [] {
      RemoveMembers(ids[1..], id);
    }
  }

  // ----- distinct marks

  lemma {:induction false} DistinctMembers(marks: seq<Id>)
    ensures forall x :: x in Distinct(marks) <==> x in marks
    decreases |marks|
  {
    if marks != [] {
      DistinctMembers(marks[1..]);
    }
  }

  /** A new mark moves its ID to the end. */
  lemma {:induction false} DistinctPush(marks: seq<Id>, id: Id)
    ensures Distinct(marks + [id]) == Remove(Distinct(marks), id) + [id]
    decreases |marks|
  {
    if marks == [] {
      assert ([] + [id])[1..] == [];
    } else {
      var rest := marks[1..];
      DistinctPush(rest, id);
      assert (marks + [id])[1..] == rest + [id];
      assert marks[0] in rest + [id] <==> marks[0] in rest || marks[0] == id;
      if marks[0] !in rest && marks[0] == id {
        DistinctMembers(rest);
        RemoveAbsent(Distinct(rest), id);
      }
    }
  }

  /** IDs that are no more than once in a list. */
  predicate NoRepeats(ids: seq<Id>) {
    forall i, j :: 0 <= i < j < |ids| ==> ids[i] != ids[j]
  }

  lemma {:induction false} DistinctNoRepeats(marks: seq<Id>)
    ensures NoRepeats(Distinct(marks))
    decreases |marks|
  {
    if marks != [] {
      DistinctNoRepeats(marks[1..]);
      DistinctMembers(marks[1..]);
    }
  }

  lemma {:induction false} DistinctCount(marks: seq<Id>)
    ensures |Distinct(marks)| == |Set(marks)|
    decreases |marks|
  {
    if marks != [] {
      DistinctCount(marks[1..]);
      assert Set(marks) == Set(marks[1..]) + {marks[0]};
      assert marks[0] in marks[1..] ==> Set(marks) == Set(marks[1..]);
    }
  }

  /** Forgetting early loses nothing that forgetting late keeps. */
  lemma ForgetEarly(ids: seq<Id>, id: Id, window: nat)
    requires window > 0 && NoRepeats(ids)
    ensures Last(Remove(ids, id) + [id], window) == Last(Remove(Last(ids, window), id) + [id], window)
  {
    if |ids| > window {
      var cut := |ids| - window;
      var older, recent := ids[..cut], ids[cut..];
      assert ids == older + recent;
      RemoveAppend(older, recent, id);
      if id in recent {
        OnlyOnce(recent, id);
        assert id !in older;
        RemoveAbsent(older, id);
      } else {
        RemoveAbsent(recent, id);
      }
      hide Remove;
      assert Remove(ids, id) + [id] == Remove(older, id) + (Remove(recent, id) + [id]);
      LastSkips(Remove(older, id), Remove(recent, id) + [id], window);
    }
  }

  lemma LastSkips(a: seq<Id>, b: seq<Id>, n: nat)
    requires |b| >= n
    ensures Last(a + b, n) == Last(b, n)
  {
  }

  lemma {:induction false} OnlyOnce(ids: seq<Id>, id: Id)
    requires NoRepeats(ids) && id in ids
    ensures |Remove(ids, id)| == |ids| - 1
    decreases |ids|
  {
    if ids[0] == id {
      RemoveAbsent(ids[1..], id);
    } else {
      OnlyOnce(ids[1..], id);
    }
  }

  // ----- main results

  /** The list is always the last distinct IDs of the whole history of marks, in order of their most
      recent mark. */
  lemma {:induction false} SeenIsRecent(marks: seq<Id>, window: nat)
    requires window > 0
    ensures MarkAll(marks, window) == Last(Distinct(marks), window)
    decreases |marks|
  {
    if marks != [] {
      var before, id := marks[..|marks| - 1], marks[|marks| - 1];
      assert marks == before + [id];
      SeenIsRecent(before, window);
      DistinctPush(before, id);
      DistinctNoRepeats(before);
      ForgetEarly(Distinct(before), id, window);
    }
  }

  /** An ID is remembered exactly while fewer than the window's number of other IDs were marked since
      its last mark. */
  lemma RememberedWhile(before: seq<Id>, id: Id, since: seq<Id>, window: nat)
    requires window > 0 && id !in since
    ensures id in MarkAll(before + [id] + since, window) <==> |Set(since)| < window
  {
    var marks := before + [id] + since;
    SeenIsRecent(marks, window);
    DistinctSince(before, id, since);
    DistinctCount(since);
    DistinctMembers(since);
    hide Distinct;
    var kept := SurvivorsOf(before, id, since);
    LastHolds(kept, id, Distinct(since), window);
  }

  /** What is left of earlier marks once later ones moved. */
  function SurvivorsOf(before: seq<Id>, id: Id, since: seq<Id>): seq<Id> {
    if before == [] then []
    else if before[0] in before[1..] + [id] + since then SurvivorsOf(before[1..], id, since)
    else [before[0]] + SurvivorsOf(before[1..], id, since)
  }

  lemma {:induction false} DistinctSince(before: seq<Id>, id: Id, since: seq<Id>)
    requires id !in since
    ensures Distinct(before + [id] + since) == SurvivorsOf(before, id, since) + [id] + Distinct(since)
    ensures id !in SurvivorsOf(before, id, since)
    decreases |before|
  {
    var marks := before + [id] + since;
    if before == [] {
      assert marks[1..] == since;
    } else {
      assert marks[1..] == before[1..] + [id] + since;
      DistinctSince(before[1..], id, since);
    }
  }

  lemma LastHolds(a: seq<Id>, id: Id, b: seq<Id>, window: nat)
    requires id !in a && id !in b
    ensures id in Last(a + [id] + b, window) <==> |b| < window
  {
    var s := a + [id] + b;
    assert s[|a|] == id;
    assert forall k :: 0 <= k < |s| && s[k] == id ==> k == |a|;
  }
}
