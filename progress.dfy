/**
 * What the barrier dashboard shows for one participant (`barrier_assessment_app.py`, and the
 * same blocks copied into `app.py` and `app_enhanced.py`): the barriers grouped by domain and
 * barrier name for display, and the summary of their changes from baseline.
 */
module Progress {
  import opened Wrappers
  import opened ChangeStats
  import opened Barriers

  // ---------------------------------------------------------------------------------------
  // Summary statistics
  // ---------------------------------------------------------------------------------------

  /** The change scores of the follow-up barriers (those with a change), in list order. */
  function Changes(barriers: seq<BarrierView>): (changes: seq<int>)
    ensures |changes| <= |barriers|
    ensures forall c :: c in changes <==> exists i :: 0 <= i < |barriers| && barriers[i].changeFromBaseline == Some(c)
    decreases |barriers|
  {
    if |barriers| == 0 then []
    else
      var n := |barriers| - 1;
      var prev := Changes(barriers[..n]);
      assert forall i :: 0 <= i < n ==> barriers[..n][i] == barriers[i];
      match barriers[n].changeFromBaseline
      case Some(c) => prev + [c]
      case None => prev
  }

  /** No barrier in the list carries a change: every one is a baseline. */
  predicate BaselinesOnly(barriers: seq<BarrierView>) {
    forall i :: 0 <= i < |barriers| ==> barriers[i].changeFromBaseline.None?
  }

  /** The dictionary `calculate_progress_stats` returns when there are follow-ups. */
  datatype ProgressStats =
    | BaselineOnly
    | Progress(totalBarriers: nat, improved: nat, stable: nat, worsened: nat,
               avgChange: real, maxImprovement: int, maxWorsening: int)

  /**
   * `calculate_progress_stats`: nothing for no barriers, `baseline_only` when no barrier
   * has a change, otherwise the counts by sign, the mean, and the extreme changes.
   */
  function ProgressStatsOf(barriers: seq<BarrierView>): Option<ProgressStats> {
    if |barriers| == 0 then None
    else
      var changes := Changes(barriers);
      if |changes| == 0 then Some(BaselineOnly)
      else Some(Progress(|changes|, |WithSign(changes, -1)|, |WithSign(changes, 0)|, |WithSign(changes, 1)|,
                         Mean(changes), Min(changes), Max(changes)))
  }

  /** The three outcomes: no statistics, baseline only, or a summary of the follow-ups. */
  lemma ProgressStatsCases(barriers: seq<BarrierView>)
    ensures ProgressStatsOf(barriers).None? <==> |barriers| == 0
    ensures ProgressStatsOf(barriers) == Some(BaselineOnly) <==> |barriers| > 0 && BaselinesOnly(barriers)
  {
    if |barriers| > 0 && !BaselinesOnly(barriers) {
      var i :| 0 <= i < |barriers| && barriers[i].changeFromBaseline.Some?;
      assert barriers[i].changeFromBaseline.value in Changes(barriers);
    }
  }

  /**
   * A summary counts every follow-up barrier exactly once, as improved, stable or worsened;
   * its mean lies between the best improvement and the worst worsening, which are changes
   * that occur; and there is an improvement (a worsening) exactly when the extreme is negative
   * (positive).
   */
  lemma ProgressSummary(barriers: seq<BarrierView>)
    requires ProgressStatsOf(barriers).Some? && ProgressStatsOf(barriers).value.Progress?
    ensures var p := ProgressStatsOf(barriers).value;
      && p.improved + p.stable + p.worsened == p.totalBarriers == |Changes(barriers)|
      && p.maxImprovement as real <= p.avgChange <= p.maxWorsening as real
      && p.maxImprovement in Changes(barriers) && p.maxWorsening in Changes(barriers)
      && (p.improved > 0 <==> p.maxImprovement < 0)
      && (p.worsened > 0 <==> p.maxWorsening > 0)
  {
    var changes := Changes(barriers);
    SignPartition(changes);
    MeanBounds(changes);
    var p := ProgressStatsOf(barriers).value;
    SignCountPositive(changes, -1, Min(changes));
    SignCountPositive(changes, 1, Max(changes));
  }

  /** There is a change of sign `k` exactly when the extreme `m` has sign `k`. */
  lemma SignCountPositive(changes: seq<int>, k: int, m: int)
    requires k == -1 || k == 1
    requires m in changes
    requires k == -1 ==> forall c :: c in changes ==> m <= c
    requires k == 1 ==> forall c :: c in changes ==> c <= m
    ensures |WithSign(changes, k)| > 0 <==> Sign(m) == k
  {
    var r := WithSign(changes, k);
    if Sign(m) == k {
      assert multiset(r)[m] == multiset(changes)[m] > 0;
    }
    if |r| > 0 {
      var x := r[0];
      assert x in r;
      assert Sign(x) == k;
      assert x in multiset(r);
      assert multiset(r)[x] == multiset(changes)[x];
      assert x in multiset(changes);
      assert x in changes;
    }
  }

  /** The statistics block of the participant-progress pages in `app.py` and `app_enhanced.py`. */
  datatype PageStats =
    | PageBaselineOnly
    | PageProgress(totalBarriers: nat, improved: nat, stable: nat, worsened: nat, avgChange: real)

  function PageStatsOf(barriers: seq<BarrierView>): PageStats {
    var changes := Changes(barriers);
    if |changes| == 0 then PageBaselineOnly
    else PageProgress(|changes|, |WithSign(changes, -1)|, |WithSign(changes, 0)|, |WithSign(changes, 1)|, Mean(changes))
  }

  /**
   * The pages' copy agrees with `calculate_progress_stats` on every non-empty list (less the
   * two extremes), and reports baseline only where the latter reports nothing.
   */
  lemma PageStatsAgree(barriers: seq<BarrierView>)
    ensures |barriers| == 0 ==> PageStatsOf(barriers) == PageBaselineOnly && ProgressStatsOf(barriers).None?
    ensures |barriers| > 0 ==>
      match PageStatsOf(barriers)
      case PageBaselineOnly => ProgressStatsOf(barriers) == Some(BaselineOnly)
      case PageProgress(t, i, s, w, a) =>
        exists lo, hi :: ProgressStatsOf(barriers) == Some(Progress(t, i, s, w, a, lo, hi))
  {
    if |barriers| > 0 && |Changes(barriers)| > 0 {
      var changes := Changes(barriers);
      assert ProgressStatsOf(barriers) == Some(Progress(|changes|, |WithSign(changes, -1)|, |WithSign(changes, 0)|,
        |WithSign(changes, 1)|, Mean(changes), Min(changes), Max(changes)));
    }
  }

  // ---------------------------------------------------------------------------------------
  // Reading the change as the source does (see `Barriers.ChangeAsWritten`)
  // ---------------------------------------------------------------------------------------

  /** A list entry as `get_participant_barriers` builds it, with a zero change read as absent. */
  function ReadAsWritten(barriers: seq<BarrierView>): (read: seq<BarrierView>)
    ensures |read| == |barriers|
    ensures forall i :: 0 <= i < |barriers| ==>
      read[i] == barriers[i].(changeFromBaseline := ChangeAsWritten(barriers[i].changeFromBaseline))
  {
    seq(|barriers|, i requires 0 <= i < |barriers| =>
      barriers[i].(changeFromBaseline := ChangeAsWritten(barriers[i].changeFromBaseline)))
  }

  /**
   * The entries `get_participant_barriers` returns are the entries the rows denote, read
   * as written: the summary of a participant's list sees no zero change.
   */
  lemma EntriesReadAsWritten(rows: seq<Row>, entries: seq<BarrierView>)
    requires |entries| == |rows| && forall i :: 0 <= i < |rows| ==> entries[i] == ViewAsWritten(rows[i])
    ensures entries == ReadAsWritten(seq(|rows|, i requires 0 <= i < |rows| => ViewOf(rows[i])))
  {
  }

  /** Read as written, no barrier's change is zero. */
  lemma NoZeroChangeAsWritten(barriers: seq<BarrierView>)
    ensures 0 !in Changes(ReadAsWritten(barriers))
  {
  }

  lemma NoZeroNoneStable(changes: seq<int>)
    requires 0 !in changes
    ensures WithSign(changes, 0) == []
  {
  }

  /** With the change read as written, the summary never counts a barrier as stable. */
  lemma StableNeverCountedAsWritten(barriers: seq<BarrierView>)
    requires ProgressStatsOf(ReadAsWritten(barriers)).Some? && ProgressStatsOf(ReadAsWritten(barriers)).value.Progress?
    ensures ProgressStatsOf(ReadAsWritten(barriers)).value.stable == 0
  {
    NoZeroChangeAsWritten(barriers);
    NoZeroNoneStable(Changes(ReadAsWritten(barriers)));
  }

  /** One barrier that held steady at a follow-up: stable as stored, "baseline only" as read. */
  lemma StableBarrierReadAsBaseline()
    ensures var b := BarrierView("http://interventions.org/barrier/P001/employment/physical_capability/day_30",
                                 "Physical Capability Barrier", "Employment_Domain", "Day_30", 3, Some(0));
      && ProgressStatsOf([b]) == Some(Progress(1, 0, 1, 0, 0.0, 0, 0))
      && ProgressStatsOf(ReadAsWritten([b])) == Some(BaselineOnly)
  {
    var b := BarrierView("http://interventions.org/barrier/P001/employment/physical_capability/day_30",
                         "Physical Capability Barrier", "Employment_Domain", "Day_30", 3, Some(0));
    assert Changes([b]) == [0] by {
      assert [b][..0] == [];
    }
    assert WithSign([0], 0) == [0] && WithSign([0], -1) == [] && WithSign([0], 1) == [] by {
      assert [0][..0] == [];
    }
    assert Sum([0]) == 0 by {
      assert [0][..0] == [];
    }
    var read := ReadAsWritten([b]);
    assert read[0].changeFromBaseline.None?;
    assert Changes(read) == [] by {
      assert read[..0] == [];
    }
  }

  // ---------------------------------------------------------------------------------------
  // Grouping for display
  // ---------------------------------------------------------------------------------------

  /** One timepoint of a barrier as the progress page plots it. */
  datatype TimepointEntry = TimepointEntry(timepoint: string, score: int, change: Option<int>)

  function EntryOf(b: BarrierView): TimepointEntry {
    TimepointEntry(b.timepoint, b.severityScore, b.changeFromBaseline)
  }

  /** The entries of the barriers with this domain and name, in list order. */
  function Group(barriers: seq<BarrierView>, domain: string, name: string): seq<TimepointEntry>
    decreases |barriers|
  {
    if |barriers| == 0 then []
    else
      var n := |barriers| - 1;
      var prev := Group(barriers[..n], domain, name);
      if barriers[n].domain == domain && barriers[n].name == name then prev + [EntryOf(barriers[n])] else prev
  }

  /** Some barrier in the list has this domain and name. */
  predicate HasKey(barriers: seq<BarrierView>, domain: string, name: string) {
    exists i :: 0 <= i < |barriers| && barriers[i].domain == domain && barriers[i].name == name
  }

  /** Some barrier in the list has this domain. */
  predicate HasDomain(barriers: seq<BarrierView>, domain: string) {
    exists i :: 0 <= i < |barriers| && barriers[i].domain == domain
  }

  /**
   * `organize_barriers_for_display`: a dictionary from each domain that occurs to a
   * dictionary from each barrier name that occurs in it to that barrier's timepoint entries.
   */
  method OrganizeForDisplay(barriers: seq<BarrierView>) returns (organized: map<string, map<string, seq<TimepointEntry>>>)
    ensures forall d :: d in organized <==> HasDomain(barriers, d)
    ensures forall d, n :: d in organized ==> (n in organized[d] <==> HasKey(barriers, d, n))
    ensures forall d, n :: d in organized && n in organized[d] ==> organized[d][n] == Group(barriers, d, n)
  {
    organized := map[];
    var i := 0;
    while i < |barriers|
      invariant i <= |barriers|
      invariant Organizes(organized, barriers[..i])
    {
      var b := barriers[i];
      assert barriers[..i + 1] == barriers[..i] + [b];
      var inner := if b.domain in organized then organized[b.domain] else map[];
      var entries := if b.name in inner then inner[b.name] else [];
      OrganizeStep(organized, barriers[..i], b);
      organized := organized[b.domain := inner[b.name := entries + [EntryOf(b)]]];
      i := i + 1;
    }
    assert barriers[..i] == barriers;
  }

  /** `organized` holds exactly the domains, the names and the groups of `barriers`. */
  ghost predicate Organizes(organized: map<string, map<string, seq<TimepointEntry>>>, barriers: seq<BarrierView>) {
    && (forall d :: d in organized <==> HasDomain(barriers, d))
    && (forall d, n :: d in organized ==> (n in organized[d] <==> HasKey(barriers, d, n)))
    && (forall d, n :: d in organized && n in organized[d] ==> organized[d][n] == Group(barriers, d, n))
  }

  /** Appending one barrier's entry to its group keeps the dictionary organising the longer list. */
  lemma OrganizeStep(organized: map<string, map<string, seq<TimepointEntry>>>, pre: seq<BarrierView>, b: BarrierView)
    requires Organizes(organized, pre)
    ensures var inner := if b.domain in organized then organized[b.domain] else map[];
      var entries := if b.name in inner then inner[b.name] else [];
      Organizes(organized[b.domain := inner[b.name := entries + [EntryOf(b)]]], pre + [b])
  {
    var inner := if b.domain in organized then organized[b.domain] else map[];
    var entries := if b.name in inner then inner[b.name] else [];
    var next := organized[b.domain := inner[b.name := entries + [EntryOf(b)]]];
    OrganizeDomainsStep(organized, pre, b);
    OrganizeKeysStep(organized, pre, b);
    OrganizeGroupsStep(organized, pre, b);
    assert Organizes(next, pre + [b]);
  }

  lemma OrganizeDomainsStep(organized: map<string, map<string, seq<TimepointEntry>>>, pre: seq<BarrierView>, b: BarrierView)
    requires Organizes(organized, pre)
    ensures var inner := if b.domain in organized then organized[b.domain] else map[];
      var entries := if b.name in inner then inner[b.name] else [];
      var next := organized[b.domain := inner[b.name := entries + [EntryOf(b)]]];
      forall d :: d in next <==> HasDomain(pre + [b], d)
  {
    SnocFacts(pre, b);
  }

  lemma OrganizeKeysStep(organized: map<string, map<string, seq<TimepointEntry>>>, pre: seq<BarrierView>, b: BarrierView)
    requires Organizes(organized, pre)
    ensures var inner := if b.domain in organized then organized[b.domain] else map[];
      var entries := if b.name in inner then inner[b.name] else [];
      var next := organized[b.domain := inner[b.name := entries + [EntryOf(b)]]];
      forall d, n :: d in next ==> (n in next[d] <==> HasKey(pre + [b], d, n))
  {
    SnocFacts(pre, b);
  }

  lemma OrganizeGroupsStep(organized: map<string, map<string, seq<TimepointEntry>>>, pre: seq<BarrierView>, b: BarrierView)
    requires Organizes(organized, pre)
    ensures var inner := if b.domain in organized then organized[b.domain] else map[];
      var entries := if b.name in inner then inner[b.name] else [];
      var next := organized[b.domain := inner[b.name := entries + [EntryOf(b)]]];
      forall d, n :: d in next && n in next[d] ==> next[d][n] == Group(pre + [b], d, n)
  {
    SnocFacts(pre, b);
  }

  /** What one more barrier does to the domains, the keys and the groups. */
  lemma SnocFacts(pre: seq<BarrierView>, b: BarrierView)
    ensures forall d :: HasDomain(pre + [b], d) <==> HasDomain(pre, d) || d == b.domain
    ensures forall d, n :: HasKey(pre + [b], d, n) <==> HasKey(pre, d, n) || (d == b.domain && n == b.name)
    ensures forall d, n :: Group(pre + [b], d, n)
              == if d == b.domain && n == b.name then Group(pre, d, n) + [EntryOf(b)] else Group(pre, d, n)
    ensures forall d, n :: HasKey(pre, d, n) ==> HasDomain(pre, d)
    ensures forall d, n :: !HasKey(pre, d, n) ==> Group(pre, d, n) == []
  {
    var next := pre + [b];
    assert next[..|pre|] == pre;
    assert forall j :: 0 <= j < |pre| ==> next[j] == pre[j];
    assert next[|pre|] == b;
    GroupEmptyWithoutKey(pre);
  }

  lemma {:induction false} GroupEmptyWithoutKey(barriers: seq<BarrierView>)
    ensures forall d, n :: !HasKey(barriers, d, n) ==> Group(barriers, d, n) == []
    decreases |barriers|
  {
    if |barriers| > 0 {
      var last := |barriers| - 1;
      GroupEmptyWithoutKey(barriers[..last]);
      assert forall j :: 0 <= j < last ==> barriers[..last][j] == barriers[j];
    }
  }

  /** The (domain, name) key of each barrier, in list order. */
  function Keys(barriers: seq<BarrierView>): (keys: seq<(string, string)>)
    ensures |keys| == |barriers|
    ensures forall i :: 0 <= i < |barriers| ==> keys[i] == (barriers[i].domain, barriers[i].name)
  {
    seq(|barriers|, i requires 0 <= i < |barriers| => (barriers[i].domain, barriers[i].name))
  }

  /** A group holds one entry for each barrier with its key. */
  lemma {:induction false} GroupSize(barriers: seq<BarrierView>, domain: string, name: string)
    ensures |Group(barriers, domain, name)| == multiset(Keys(barriers))[(domain, name)]
    decreases |barriers|
  {
    if |barriers| > 0 {
      var n := |barriers| - 1;
      GroupSize(barriers[..n], domain, name);
      assert Keys(barriers) == Keys(barriers[..n]) + [Keys(barriers)[n]];
    }
  }

  /** The total size of the groups of the keys `keys`. */
  function GroupedTotal(barriers: seq<BarrierView>, keys: seq<(string, string)>): nat
    decreases |keys|
  {
    if |keys| == 0 then 0
    else
      var k := keys[|keys| - 1];
      GroupedTotal(barriers, keys[..|keys| - 1]) + |Group(barriers, k.0, k.1)|
  }

  lemma {:induction false} GroupedTotalCounts(barriers: seq<BarrierView>, keys: seq<(string, string)>)
    ensures GroupedTotal(barriers, keys) == CountOver(multiset(Keys(barriers)), keys)
    decreases |keys|
  {
    if |keys| > 0 {
      var k := keys[|keys| - 1];
      GroupedTotalCounts(barriers, keys[..|keys| - 1]);
      GroupSize(barriers, k.0, k.1);
    }
  }

  /**
   * Every barrier is placed in exactly one group: over any listing of the distinct keys
   * that occur, the group sizes add up to the number of barriers.
   */
  lemma EachBarrierGroupedOnce(barriers: seq<BarrierView>, keys: seq<(string, string)>)
    requires Distinct(keys)
    requires forall i :: 0 <= i < |barriers| ==> (barriers[i].domain, barriers[i].name) in keys
    ensures GroupedTotal(barriers, keys) == |barriers|
  {
    GroupedTotalCounts(barriers, keys);
    CountOverAll(Keys(barriers), keys);
  }
}
