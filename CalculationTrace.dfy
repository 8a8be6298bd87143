/** The history log (components/CalculationTrace.tsx): the detail view derived
    from a history record, the grouping of the history by epoch, and the
    conditions that decide how each row is shown. */
module CalculationTrace {
  import opened Types

  /** The detail view of one history record. It drops the schedule position
      and the update flag and nothing else: the record can be rebuilt from the
      view and those three fields, with the new weights `w1`, `w2`, `b` read
      back from `newW1`, `newW2`, `newB`. */
  function MapHistoryToTrace(e: HistoryEntry): (t: CalculationTraceType)
    ensures e == HistoryEntry(e.epoch, e.step, t.x1, t.x2, t.yActual, t.z, t.yPredicted, t.error,
                              t.newW1, t.newW2, t.newB, t.oldW1, t.oldW2, t.oldB,
                              e.weightsUpdated, t.learningRate)
  {
    CalculationTraceType(
      e.x1, e.x2, e.yActual, e.z, e.yPredicted, e.error,
      e.oldW1, e.oldW2, e.oldB,
      e.w1, e.w2, e.b,
      e.learningRate)
  }

  /** A row is coloured as correct when its error is zero. */
  predicate RowMarkedCorrect(e: HistoryEntry) { e.error == 0 }

  /** The weight-adjustment detail is attached to a row with a nonzero error. */
  predicate ShowsAdjustmentDetail(e: HistoryEntry) { e.error != 0 }

  /** The new weights of a row are set in bold when the step updated them. */
  predicate EmphasisesNewWeights(e: HistoryEntry) { e.weightsUpdated }

  /** The epochs that occur in a history. */
  function Epochs(h: seq<HistoryEntry>): set<int>
  {
    set i | 0 <= i < |h| :: h[i].epoch
  }

  /** The entries of `h` whose epoch is `k`, in history order. */
  function WithEpoch(h: seq<HistoryEntry>, k: int): (g: seq<HistoryEntry>)
    ensures |g| <= |h|
  {
    if h == [] then []
    else if h[0].epoch == k then [h[0]] + WithEpoch(h[1..], k)
    else WithEpoch(h[1..], k)
  }

  /** The group of epoch `k` holds exactly the entries of the history whose
      epoch is `k`. */
  lemma {:induction false} WithEpochMembers(h: seq<HistoryEntry>, k: int)
    ensures forall e :: e in WithEpoch(h, k) <==> e in h && e.epoch == k
  {
    if h != [] {
      WithEpochMembers(h[1..], k);
      assert h == [h[0]] + h[1..];
    }
  }

  /** The table the log builds: one group per epoch that occurs, holding that
      epoch's entries in history order. */
  function Grouping(h: seq<HistoryEntry>): map<int, seq<HistoryEntry>>
  {
    map k | k in Epochs(h) :: WithEpoch(h, k)
  }

  /** The groups concatenated in ascending epoch order, over the epochs
      `lo` to `hi`; an epoch without a group contributes nothing. Integer keys
      of the table are listed in ascending order when the log renders it. */
  function InEpochOrder(groups: map<int, seq<HistoryEntry>>, lo: int, hi: int): seq<HistoryEntry>
    decreases hi - lo
  {
    if lo > hi then []
    else (if lo in groups then groups[lo] else []) + InEpochOrder(groups, lo + 1, hi)
  }

  ghost predicate EpochsNondecreasing(h: seq<HistoryEntry>)
  {
    forall i, j :: 0 <= i < j < |h| ==> h[i].epoch <= h[j].epoch
  }

  ghost predicate EpochsWithin(h: seq<HistoryEntry>, lo: int, hi: int)
  {
    forall i :: 0 <= i < |h| ==> lo <= h[i].epoch <= hi
  }

  /** Appending to the history appends to each group: an entry pushed later
      stands later in its group. */
  lemma {:induction false} WithEpochAppend(a: seq<HistoryEntry>, b: seq<HistoryEntry>, k: int)
    ensures WithEpoch(a + b, k) == WithEpoch(a, k) + WithEpoch(b, k)
  {
    if a == [] {
      assert a + b == b;
    } else {
      var t := a[1..];
      assert a == [a[0]] + t && a + b == [a[0]] + (t + b);
      WithEpochCons(a[0], t, k);
      WithEpochCons(a[0], t + b, k);
      WithEpochAppend(t, b, k);
      if a[0].epoch == k {
        var x, y := WithEpoch(t, k), WithEpoch(b, k);
        assert [a[0]] + (x + y) == ([a[0]] + x) + y;
      }
    }
  }

  /** An epoch that does not occur has no entries. */
  lemma WithEpochAbsent(h: seq<HistoryEntry>, k: int)
    requires k !in Epochs(h)
    ensures WithEpoch(h, k) == []
  {
  }

  lemma EpochsAppend(h: seq<HistoryEntry>, e: HistoryEntry)
    ensures Epochs(h + [e]) == Epochs(h) + {e.epoch}
  {
    var h' := h + [e];
    forall x | x in Epochs(h') ensures x in Epochs(h) + {e.epoch} {
      var i :| 0 <= i < |h'| && h'[i].epoch == x;
      if i < |h| { assert h[i] == h'[i]; }
    }
    forall x | x in Epochs(h) ensures x in Epochs(h') {
      var i :| 0 <= i < |h| && h[i].epoch == x;
      assert h'[i] == h[i];
    }
    assert h'[|h|] == e;
  }

  /** Pushing one entry onto the history pushes it onto its own epoch's
      entries and leaves the other epochs' entries alone. */
  lemma WithEpochPush(h: seq<HistoryEntry>, e: HistoryEntry, k: int)
    ensures WithEpoch(h + [e], k) == WithEpoch(h, k) + (if e.epoch == k then [e] else [])
  {
    WithEpochAppend(h, [e], k);
    assert [e][1..] == [];
  }

  /** One `reduce` step: the new entry is pushed onto the group of its own
      epoch, which is created empty if it was missing; every other group is
      left as it was. */
  lemma GroupingAppend(h: seq<HistoryEntry>, e: HistoryEntry)
    ensures var g := Grouping(h);
      Grouping(h + [e]) == g[e.epoch := (if e.epoch in g then g[e.epoch] else []) + [e]]
  {
    var g := Grouping(h);
    var g' := g[e.epoch := (if e.epoch in g then g[e.epoch] else []) + [e]];
    var G := Grouping(h + [e]);
    EpochsAppend(h, e);
    assert G.Keys == g'.Keys;
    forall k | k in G ensures G[k] == g'[k] {
      WithEpochPush(h, e, k);
      if k !in Epochs(h) { WithEpochAbsent(h, k); }
    }
  }

  /** Every entry of the history lands in the group keyed by its own epoch,
      and a group holds only entries of its key's epoch. */
  lemma GroupsByOwnEpoch(h: seq<HistoryEntry>)
    ensures forall i :: 0 <= i < |h| ==> h[i].epoch in Grouping(h) && h[i] in Grouping(h)[h[i].epoch]
    ensures forall k, e :: k in Grouping(h) && e in Grouping(h)[k] ==> e.epoch == k && e in h
  {
    forall i | 0 <= i < |h| ensures h[i].epoch in Grouping(h) && h[i] in Grouping(h)[h[i].epoch] {
      WithEpochMembers(h, h[i].epoch);
    }
    forall k, e | k in Grouping(h) && e in Grouping(h)[k] ensures e.epoch == k && e in h {
      WithEpochMembers(h, k);
    }
  }

  /** The history is split into its groups by a loop that pushes each entry
      onto the group of its epoch, in history order. */
  method GroupByEpoch(history: seq<HistoryEntry>) returns (groups: map<int, seq<HistoryEntry>>)
    ensures groups == Grouping(history)
  {
    groups := map[];
    for i := 0 to |history|
      invariant groups == Grouping(history[..i])
    {
      var entry := history[i];
      var epoch := entry.epoch;
      ghost var before := groups;
      if epoch !in groups {
        groups := groups[epoch := []];
      }
      groups := groups[epoch := groups[epoch] + [entry]];
      assert groups == before[epoch := (if epoch in before then before[epoch] else []) + [entry]];
      GroupingAppend(history[..i], entry);
      assert history[..i + 1] == history[..i] + [entry];
    }
    assert history[..|history|] == history;
  }

  /** What the log shows: a placeholder for an empty history, otherwise one
      table per epoch. */
  datatype LogView = Placeholder | EpochTables(groups: map<int, seq<HistoryEntry>>)

  method HistoryLog(history: seq<HistoryEntry>) returns (view: LogView)
    ensures view.Placeholder? <==> history == []
    ensures view.EpochTables? ==> view.groups == Grouping(history) && view.groups != map[]
  {
    if |history| == 0 {
      return Placeholder;
    }
    var groups := GroupByEpoch(history);
    assert history[0].epoch in Epochs(history);
    assert history[0].epoch in groups;
    view := EpochTables(groups);
  }

  /** The groups of `h`, in ascending order of epoch, concatenated. */
  function Regroup(h: seq<HistoryEntry>, lo: int, hi: int): seq<HistoryEntry>
    decreases hi - lo
  {
    if lo > hi then [] else WithEpoch(h, lo) + Regroup(h, lo + 1, hi)
  }

  lemma {:induction false} InEpochOrderOfGrouping(h: seq<HistoryEntry>, lo: int, hi: int)
    ensures InEpochOrder(Grouping(h), lo, hi) == Regroup(h, lo, hi)
    decreases hi - lo
  {
    if lo <= hi {
      if lo !in Epochs(h) { WithEpochAbsent(h, lo); }
      InEpochOrderOfGrouping(h, lo + 1, hi);
    }
  }

  lemma {:induction false} RegroupEmpty(lo: int, hi: int)
    ensures Regroup([], lo, hi) == []
    decreases hi - lo
  {
    if lo <= hi { RegroupEmpty(lo + 1, hi); }
  }

  /** The group of epoch `k` of a history that starts with `e`. */
  lemma WithEpochCons(e: HistoryEntry, t: seq<HistoryEntry>, k: int)
    ensures WithEpoch([e] + t, k) == if e.epoch == k then [e] + WithEpoch(t, k) else WithEpoch(t, k)
  {
    assert ([e] + t)[1..] == t;
  }

  lemma {:induction false} RegroupCons(e: HistoryEntry, t: seq<HistoryEntry>, lo: int, hi: int)
    ensures multiset(Regroup([e] + t, lo, hi))
         == (if lo <= e.epoch <= hi then multiset{e} else multiset{}) + multiset(Regroup(t, lo, hi))
    decreases hi - lo
  {
    if lo <= hi {
      WithEpochCons(e, t, lo);
      RegroupCons(e, t, lo + 1, hi);
    }
  }

  lemma {:induction false} RegroupSkipsEarlier(e: HistoryEntry, t: seq<HistoryEntry>, lo: int, hi: int)
    requires e.epoch < lo
    ensures Regroup([e] + t, lo, hi) == Regroup(t, lo, hi)
    decreases hi - lo
  {
    if lo <= hi {
      WithEpochCons(e, t, lo);
      RegroupSkipsEarlier(e, t, lo + 1, hi);
    }
  }

  lemma {:induction false} RegroupMultiset(h: seq<HistoryEntry>, lo: int, hi: int)
    requires EpochsWithin(h, lo, hi)
    ensures multiset(Regroup(h, lo, hi)) == multiset(h)
  {
    if h == [] {
      RegroupEmpty(lo, hi);
    } else {
      assert h == [h[0]] + h[1..];
      RegroupCons(h[0], h[1..], lo, hi);
      RegroupMultiset(h[1..], lo, hi);
    }
  }

  /** No entry is lost or duplicated by the grouping: concatenating the groups
      of every epoch that occurs gives back the history's entries, each as
      many times as it occurs. */
  lemma RegroupingIsLossless(h: seq<HistoryEntry>, lo: int, hi: int)
    requires EpochsWithin(h, lo, hi)
    ensures multiset(InEpochOrder(Grouping(h), lo, hi)) == multiset(h)
  {
    InEpochOrderOfGrouping(h, lo, hi);
    RegroupMultiset(h, lo, hi);
  }

  lemma SortedTail(h: seq<HistoryEntry>, lo: int, hi: int)
    requires h != [] && EpochsNondecreasing(h) && EpochsWithin(h, lo, hi)
    ensures EpochsNondecreasing(h[1..]) && EpochsWithin(h[1..], h[0].epoch, hi)
  {
    forall i | 0 <= i < |h| - 1 ensures h[1..][i] == h[i + 1] && h[0].epoch <= h[i + 1].epoch {
      assert 0 < i + 1;
    }
  }

  lemma {:induction false} RegroupSorted(h: seq<HistoryEntry>, lo: int, hi: int)
    requires EpochsNondecreasing(h) && EpochsWithin(h, lo, hi)
    ensures Regroup(h, lo, hi) == h
    decreases |h|, hi - lo
  {
    if h == [] {
      RegroupEmpty(lo, hi);
    } else if h[0].epoch == lo {
      SortedTail(h, lo, hi);
      RegroupHead(h, lo, hi);
      RegroupSorted(h[1..], lo, hi);
      assert h == [h[0]] + h[1..];
    } else {
      SkipMissingEpoch(h, lo, hi);
      RegroupSorted(h, lo + 1, hi);
    }
  }

  lemma RegroupHead(h: seq<HistoryEntry>, lo: int, hi: int)
    requires h != [] && h[0].epoch == lo <= hi
    ensures Regroup(h, lo, hi) == [h[0]] + Regroup(h[1..], lo, hi)
  {
    var t := h[1..];
    assert h == [h[0]] + t;
    WithEpochCons(h[0], t, lo);
    RegroupSkipsEarlier(h[0], t, lo + 1, hi);
    var w := WithEpoch(t, lo);
    var r := Regroup(t, lo + 1, hi);
    assert Regroup(h, lo, hi) == ([h[0]] + w) + r;
    assert ([h[0]] + w) + r == [h[0]] + (w + r);
  }

  lemma SkipMissingEpoch(h: seq<HistoryEntry>, lo: int, hi: int)
    requires h != [] && EpochsNondecreasing(h) && EpochsWithin(h, lo, hi) && h[0].epoch != lo
    ensures WithEpoch(h, lo) == [] && EpochsWithin(h, lo + 1, hi)
  {
    forall i | 0 <= i < |h| ensures lo + 1 <= h[i].epoch {
      if i > 0 { assert h[0].epoch <= h[i].epoch; }
    }
    assert lo !in Epochs(h);
    WithEpochAbsent(h, lo);
  }

  /** For a history whose epochs never decrease, as the engine produces it,
      the tables shown in ascending epoch order list the history exactly, in
      its own order. */
  lemma RegroupingRestoresHistory(h: seq<HistoryEntry>, lo: int, hi: int)
    requires EpochsNondecreasing(h) && EpochsWithin(h, lo, hi)
    ensures InEpochOrder(Grouping(h), lo, hi) == h
  {
    InEpochOrderOfGrouping(h, lo, hi);
    RegroupSorted(h, lo, hi);
  }
}
