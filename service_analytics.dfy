/**
 * The service-wide analytics over the whole graph (`barrier_assessment_app.py`, and the
 * analytics dashboard of `app.py` and `app_enhanced.py`): the number of assessments, the
 * average change from baseline, targeted against non-targeted domains, and the distribution
 * of change scores. The SPARQL engine's answer to each query is a parameter: a listing of
 * the query's solutions, each once, in an order the engine chooses. Each result is stated
 * in terms of the graph alone, so no result depends on that order.
 */
module ServiceAnalytics {
  import opened Rdf
  import opened ChangeStats
  import opened Barriers
  import opened Records
  import opened OntologyCore
  import opened OntologyFacts

  // ---------------------------------------------------------------------------------------
  // Solutions and their listings
  // ---------------------------------------------------------------------------------------

  /** The solutions of `?barrier bcio:has_change_from_baseline ?change` (integer changes). */
  function ChangeSolutions(g: set<Triple>): (s: set<(string, int)>)
    ensures forall b, c :: (b, c) in s <==> Triple(b, HasChangeFromBaseline, IntLit(c)) in g
  {
    set t | t in g && t.p == HasChangeFromBaseline && t.o.IntLit? :: (t.s, t.o.value)
  }

  /** The domain the prototype treats as the one the intervention targets. */
  const EMPLOYMENT_DOMAIN := "http://interventions.org/domain/Employment_Domain"

  /** The targeted query adds `?barrier bcio:concerns_domain <Employment_Domain>`. */
  function TargetedSolutions(g: set<Triple>): (s: set<(string, int)>)
    ensures forall b, c :: (b, c) in s <==>
      Triple(b, HasChangeFromBaseline, IntLit(c)) in g && Triple(b, ConcernsDomain, Iri(EMPLOYMENT_DOMAIN)) in g
  {
    set p | p in ChangeSolutions(g) && Triple(p.0, ConcernsDomain, Iri(EMPLOYMENT_DOMAIN)) in g
  }

  /**
   * The non-targeted query binds `?domain` too, so a solution is a barrier, one of its
   * domains other than employment, and its change.
   */
  function NontargetedSolutions(g: set<Triple>): (s: set<((string, Node), int)>)
    ensures forall b, d, c :: ((b, d), c) in s <==>
      Triple(b, HasChangeFromBaseline, IntLit(c)) in g && Triple(b, ConcernsDomain, d) in g && d != Iri(EMPLOYMENT_DOMAIN)
  {
    set t, u | t in g && u in g && t.p == ConcernsDomain && t.o != Iri(EMPLOYMENT_DOMAIN)
                 && u.s == t.s && u.p == HasChangeFromBaseline && u.o.IntLit?
      :: ((t.s, t.o), u.o.value)
  }

  /** `rows` lists every solution in `s` exactly once. */
  ghost predicate Lists<T(!new)>(rows: seq<T>, s: set<T>) {
    (forall x :: x in rows <==> x in s) && Distinct(rows)
  }

  /** The `?change` column of a listing. */
  function Values<K(!new)>(rows: seq<(K, int)>): (changes: seq<int>)
    ensures |changes| == |rows| && forall i :: 0 <= i < |rows| ==> changes[i] == rows[i].1
  {
    seq(|rows|, i requires 0 <= i < |rows| => rows[i].1)
  }

  lemma ListsSnoc<T(!new)>(rows: seq<T>, s: set<T>)
    requires Lists(rows, s) && |rows| > 0
    ensures Lists(rows[..|rows| - 1], s - {rows[|rows| - 1]})
    ensures rows[|rows| - 1] in s
  {
    var n := |rows| - 1;
    forall x
      ensures x in rows[..n] <==> x in s - {rows[n]}
    {
      if x in rows[..n] {
        var i :| 0 <= i < n && rows[..n][i] == x;
        assert rows[i] == x;
      }
      if x in s - {rows[n]} {
        assert x in rows;
        var i :| 0 <= i < |rows| && rows[i] == x;
        assert rows[..n][i] == x;
      }
    }
  }

  /** Every finite set of solutions has a listing. */
  lemma {:induction false} ListingExists<T(!new)>(s: set<T>)
    ensures exists rows :: Lists(rows, s)
    decreases |s|
  {
    if s == {} {
      assert Lists([], s);
    } else {
      var x :| x in s;
      ListingExists(s - {x});
      var rest :| Lists(rest, s - {x});
      assert Lists(rest + [x], s) by {
        forall y
          ensures y in rest + [x] <==> y in s
        {
        }
      }
    }
  }

  /** The number of solutions, the length of any listing. */
  lemma {:induction false} ListingLength<T(!new)>(rows: seq<T>, s: set<T>)
    requires Lists(rows, s)
    ensures |rows| == |s|
    decreases |rows|
  {
    if |rows| > 0 {
      ListsSnoc(rows, s);
      ListingLength(rows[..|rows| - 1], s - {rows[|rows| - 1]});
    } else {
      assert forall x :: x !in s;
    }
  }

  // ---------------------------------------------------------------------------------------
  // Aggregates over a set of solutions
  // ---------------------------------------------------------------------------------------

  /** `SUM(?change)` over the solutions. */
  ghost function SumOver<K(!new)>(s: set<(K, int)>): int
    decreases |s|
  {
    if s == {} then 0 else var p :| p in s; SumOver(s - {p}) + p.1
  }

  /** The sum over the solutions is independent of the order they are taken in. */
  lemma {:induction false} SumOverRemove<K(!new)>(s: set<(K, int)>, p: (K, int))
    requires p in s
    ensures SumOver(s) == SumOver(s - {p}) + p.1
    decreases |s|
  {
    var q :| q in s && SumOver(s) == SumOver(s - {q}) + q.1;
    if q != p {
      SumOverRemove(s - {q}, p);
      SumOverRemove(s - {p}, q);
      assert s - {q} - {p} == s - {p} - {q};
    }
  }

  /** `AVG(?change)` over the solutions, read as 0 when there are none. */
  ghost function MeanOver<K(!new)>(s: set<(K, int)>): real {
    if s == {} then 0.0 else SumOver(s) as real / |s| as real
  }

  /** The solutions with a change of sign `k`. */
  function SignSet<K(==)>(s: set<(K, int)>, k: int): set<(K, int)> {
    set p | p in s && Sign(p.1) == k
  }

  /** The solutions with change `c`. */
  function ValueSet<K(==)>(s: set<(K, int)>, c: int): set<(K, int)> {
    set p | p in s && p.1 == c
  }

  /** A listing's change column sums to the sum over the solutions. */
  lemma {:induction false} ListsSum<K(!new)>(rows: seq<(K, int)>, s: set<(K, int)>)
    requires Lists(rows, s)
    ensures Sum(Values(rows)) == SumOver(s)
    decreases |rows|
  {
    if |rows| == 0 {
      assert forall x :: x !in s;
    } else {
      var n := |rows| - 1;
      ListsSnoc(rows, s);
      ListsSum(rows[..n], s - {rows[n]});
      SumOverRemove(s, rows[n]);
      assert Values(rows)[..n] == Values(rows[..n]);
    }
  }

  /** A listing's changes of sign `k` are as many as the solutions of that sign. */
  lemma {:induction false} ListsSignCount<K(!new)>(rows: seq<(K, int)>, s: set<(K, int)>, k: int)
    requires Lists(rows, s)
    ensures |WithSign(Values(rows), k)| == |SignSet(s, k)|
    decreases |rows|
  {
    if |rows| == 0 {
      assert SignSet(s, k) == {};
    } else {
      var n := |rows| - 1;
      var x := rows[n];
      ListsSnoc(rows, s);
      ListsSignCount(rows[..n], s - {x}, k);
      assert Values(rows) == Values(rows[..n]) + [x.1];
      WithSignSnoc(Values(rows[..n]), x.1, k);
      SignSetRemove(s, x, k);
    }
  }

  lemma WithSignSnoc(pre: seq<int>, c: int, k: int)
    ensures |WithSign(pre + [c], k)| == |WithSign(pre, k)| + (if Sign(c) == k then 1 else 0)
  {
    assert (pre + [c])[..|pre|] == pre;
  }

  lemma SignSetRemove<K>(s: set<(K, int)>, x: (K, int), k: int)
    requires x in s
    ensures |SignSet(s, k)| == |SignSet(s - {x}, k)| + (if Sign(x.1) == k then 1 else 0)
  {
    if Sign(x.1) == k {
      assert SignSet(s, k) == SignSet(s - {x}, k) + {x};
    } else {
      assert SignSet(s, k) == SignSet(s - {x}, k);
    }
  }

  /** A listing's change column holds `c` once for each solution with change `c`. */
  lemma {:induction false} ListsValueCount<K(!new)>(rows: seq<(K, int)>, s: set<(K, int)>, c: int)
    requires Lists(rows, s)
    ensures multiset(Values(rows))[c] == |ValueSet(s, c)|
    decreases |rows|
  {
    if |rows| == 0 {
      assert ValueSet(s, c) == {};
    } else {
      var n := |rows| - 1;
      var x := rows[n];
      ListsSnoc(rows, s);
      ListsValueCount(rows[..n], s - {x}, c);
      assert Values(rows) == Values(rows[..n]) + [x.1];
      if x.1 == c {
        assert ValueSet(s, c) == ValueSet(s - {x}, c) + {x};
      } else {
        assert ValueSet(s, c) == ValueSet(s - {x}, c);
      }
    }
  }

  /** Two listings of the same solutions have the same change column up to order. */
  lemma ListingsAgree<K(!new)>(rows1: seq<(K, int)>, rows2: seq<(K, int)>, s: set<(K, int)>)
    requires Lists(rows1, s) && Lists(rows2, s)
    ensures multiset(Values(rows1)) == multiset(Values(rows2))
  {
    forall c
      ensures multiset(Values(rows1))[c] == multiset(Values(rows2))[c]
    {
      ListsValueCount(rows1, s, c);
      ListsValueCount(rows2, s, c);
    }
  }

  /** The mean of a listing's changes is the mean over the solutions. */
  lemma ListsMean<K(!new)>(rows: seq<(K, int)>, s: set<(K, int)>)
    requires Lists(rows, s)
    ensures Mean(Values(rows)) == MeanOver(s)
  {
    ListsSum(rows, s);
    ListingLength(rows, s);
  }

  /** Bounds on every solution's change bound the mean over them. */
  lemma MeanOverBounds<K(!new)>(s: set<(K, int)>, lo: int, hi: int)
    requires s != {}
    requires forall p :: p in s ==> lo <= p.1 <= hi
    ensures lo as real <= MeanOver(s) <= hi as real
  {
    ListingExists(s);
    var rows :| Lists(rows, s);
    ListsMean(rows, s);
    ListingLength(rows, s);
    forall c | c in Values(rows)
      ensures lo <= c <= hi
    {
      var i :| 0 <= i < |rows| && Values(rows)[i] == c;
      assert rows[i] in s;
    }
    SumBounds(Values(rows), lo, hi);
    QuotientBounds(Sum(Values(rows)), |rows|, lo, hi);
  }

  // ---------------------------------------------------------------------------------------
  // The analytics
  // ---------------------------------------------------------------------------------------

  /**
   * `calculate_avg_barrier_reduction`, given the engine's listing of the change solutions:
   * the mean change over every barrier node's change in the graph, 0 with none.
   */
  function AvgBarrierReduction(g: set<Triple>, rows: seq<(string, int)>): (avg: real)
    requires Lists(rows, ChangeSolutions(g))
    ensures avg == MeanOver(ChangeSolutions(g))
  {
    ListsMean(rows, ChangeSolutions(g));
    Mean(Values(rows))
  }

  /** What `compare_targeted_domains` returns. */
  datatype DomainComparison = DomainComparison(targetedAvg: real, nontargetedAvg: real, difference: real)

  /**
   * `compare_targeted_domains`, given the engine's listings of its two queries: the mean
   * change of barriers concerning employment, the mean over (barrier, other domain) pairs,
   * and their difference.
   */
  function CompareTargetedDomains(g: set<Triple>, targetedRows: seq<(string, int)>,
                                  nontargetedRows: seq<((string, Node), int)>): (r: DomainComparison)
    requires Lists(targetedRows, TargetedSolutions(g))
    requires Lists(nontargetedRows, NontargetedSolutions(g))
    ensures r.targetedAvg == MeanOver(TargetedSolutions(g))
    ensures r.nontargetedAvg == MeanOver(NontargetedSolutions(g))
    ensures r.difference == r.targetedAvg - r.nontargetedAvg
  {
    ListsMean(targetedRows, TargetedSolutions(g));
    ListsMean(nontargetedRows, NontargetedSolutions(g));
    var targeted := Mean(Values(targetedRows));
    var nontargeted := Mean(Values(nontargetedRows));
    DomainComparison(targeted, nontargeted, targeted - nontargeted)
  }

  /** A barrier with one domain is on exactly one side of the comparison. */
  lemma TargetedOrNot(g: set<Triple>, b: string, c: int, d: Node)
    requires Triple(b, HasChangeFromBaseline, IntLit(c)) in g
    requires Objects(g, b, ConcernsDomain) == {d}
    ensures (b, c) in TargetedSolutions(g) <==> ((b, d), c) !in NontargetedSolutions(g)
    ensures forall d' :: ((b, d'), c) in NontargetedSolutions(g) ==> d' == d
  {
    assert Triple(b, ConcernsDomain, d) in g;
  }

  /** What `get_change_score_distribution` returns (and the dashboard's `change_distribution`, less `has_data`). */
  datatype Distribution = Distribution(changes: seq<int>, histogram: map<int, nat>,
                                       improvedCount: nat, stableCount: nat, worsenedCount: nat)

  /** The histogram and the counts by sign of a list of changes. */
  function DistributionOf(changes: seq<int>): Distribution {
    Distribution(changes, Histogram(changes), |WithSign(changes, -1)|, |WithSign(changes, 0)|, |WithSign(changes, 1)|)
  }

  /**
   * `get_change_score_distribution`, given the engine's listing of the change solutions
   * before its `ORDER BY ?change`: the changes in ascending order, one per (barrier, change)
   * solution; a histogram bin per change that occurs, counting its solutions; and the
   * numbers of improved, stable and worsened solutions.
   */
  function ChangeScoreDistribution(g: set<Triple>, rows: seq<(string, int)>): (d: Distribution)
    requires Lists(rows, ChangeSolutions(g))
    ensures Ascending(d.changes) && multiset(d.changes) == multiset(Values(rows))
    ensures |d.changes| == |ChangeSolutions(g)|
    ensures forall c :: c in d.histogram <==> exists b :: (b, c) in ChangeSolutions(g)
    ensures forall c :: c in d.histogram ==> d.histogram[c] == |ValueSet(ChangeSolutions(g), c)|
    ensures d.improvedCount == |SignSet(ChangeSolutions(g), -1)|
    ensures d.stableCount == |SignSet(ChangeSolutions(g), 0)|
    ensures d.worsenedCount == |SignSet(ChangeSolutions(g), 1)|
  {
    var s := ChangeSolutions(g);
    var changes := Sorted(Values(rows));
    ListingLength(rows, s);
    DistributionFacts(rows, s, changes);
    DistributionOf(changes)
  }

  lemma DistributionFacts(rows: seq<(string, int)>, s: set<(string, int)>, changes: seq<int>)
    requires Lists(rows, s) && multiset(changes) == multiset(Values(rows))
    ensures forall c :: c in Histogram(changes) <==> exists b :: (b, c) in s
    ensures forall c :: c in Histogram(changes) ==> Histogram(changes)[c] == |ValueSet(s, c)|
    ensures forall k :: |WithSign(changes, k)| == |SignSet(s, k)|
  {
    HistogramPermutation(changes, Values(rows));
    forall c
      ensures c in Histogram(changes) <==> exists b :: (b, c) in s
      ensures c in Histogram(changes) ==> Histogram(changes)[c] == |ValueSet(s, c)|
    {
      ListsValueCount(rows, s, c);
      if c in Histogram(changes) {
        assert c in multiset(Values(rows));
        var i :| 0 <= i < |rows| && Values(rows)[i] == c;
        assert (rows[i].0, c) in s;
      }
      if p :| p in s && p.1 == c {
        assert p in ValueSet(s, c);
      }
    }
    forall k
      ensures |WithSign(changes, k)| == |SignSet(s, k)|
    {
      SignCountPermutation(changes, Values(rows), k);
      ListsSignCount(rows, s, k);
    }
  }

  /** Every change solution is counted once, as improved, stable or worsened. */
  lemma DistributionAccountsForAll(g: set<Triple>, rows: seq<(string, int)>)
    requires Lists(rows, ChangeSolutions(g))
    ensures var d := ChangeScoreDistribution(g, rows);
      d.improvedCount + d.stableCount + d.worsenedCount == |ChangeSolutions(g)|
  {
    SignPartition(Sorted(Values(rows)));
  }

  // ---------------------------------------------------------------------------------------
  // The dashboard of `app_enhanced.py`
  // ---------------------------------------------------------------------------------------

  /** The dashboard's `targeted_vs_nontargeted` block. */
  datatype TargetSummary = TargetSummary(targetedAvg: real, nontargetedAvg: real, difference: real, absDifference: real)

  datatype Dashboard = Dashboard(avgBarrierReduction: real, targetedVsNontargeted: TargetSummary,
                                 distribution: Distribution, hasData: bool)

  /**
   * The analytics route of `app_enhanced.py` (without its assessment count), given two
   * listings of the change solutions, one for its average and one for its unordered
   * change list: the average of all changes, reported as the targeted average against a
   * non-targeted 0, and the distribution of the changes in the engine's order.
   */
  function DashboardOf(g: set<Triple>, avgRows: seq<(string, int)>, rows: seq<(string, int)>): (r: Dashboard)
    requires Lists(avgRows, ChangeSolutions(g)) && Lists(rows, ChangeSolutions(g))
    ensures r.avgBarrierReduction == MeanOver(ChangeSolutions(g))
    ensures r.targetedVsNontargeted.targetedAvg == r.targetedVsNontargeted.difference == r.avgBarrierReduction
    ensures r.targetedVsNontargeted.nontargetedAvg == 0.0 && r.targetedVsNontargeted.absDifference >= 0.0
    ensures r.targetedVsNontargeted.absDifference
      == (if r.avgBarrierReduction < 0.0 then -r.avgBarrierReduction else r.avgBarrierReduction)
    ensures r.hasData <==> ChangeSolutions(g) != {}
  {
    var avg := AvgBarrierReduction(g, avgRows);
    var changes := Values(rows);
    ListingLength(rows, ChangeSolutions(g));
    Dashboard(avg, TargetSummary(avg, 0.0, avg, if avg < 0.0 then -avg else avg), DistributionOf(changes), |changes| > 0)
  }

  /**
   * The dashboard's distribution agrees with `get_change_score_distribution` on the same
   * graph in everything but the order of its change list.
   */
  lemma DashboardDistributionAgrees(g: set<Triple>, avgRows: seq<(string, int)>, rows: seq<(string, int)>,
                                    orderedRows: seq<(string, int)>)
    requires Lists(avgRows, ChangeSolutions(g)) && Lists(rows, ChangeSolutions(g))
    requires Lists(orderedRows, ChangeSolutions(g))
    ensures var mine := DashboardOf(g, avgRows, rows).distribution;
      var theirs := ChangeScoreDistribution(g, orderedRows);
      && multiset(mine.changes) == multiset(theirs.changes)
      && mine.histogram == theirs.histogram
      && mine.improvedCount == theirs.improvedCount
      && mine.stableCount == theirs.stableCount
      && mine.worsenedCount == theirs.worsenedCount
  {
    ListingsAgree(rows, orderedRows, ChangeSolutions(g));
    var changes := Values(rows);
    DistributionFacts(rows, ChangeSolutions(g), changes);
    HistogramPermutation(changes, Sorted(Values(orderedRows)));
  }

  // ---------------------------------------------------------------------------------------
  // Counting assessments
  // ---------------------------------------------------------------------------------------

  /** The solutions of `?assessment a bcio:0000001 . ?assessment bcio:has_temporal_value ?date`, by assessment. */
  function AssessmentEvents(g: set<Triple>): (events: set<string>)
    ensures forall a :: a in events <==> Triple(a, RdfType, Iri(BCIO_ASSESSMENT)) in g && Objects(g, a, HasTemporalValue) != {}
  {
    set t | t in g && t.p == RdfType && t.o == Iri(BCIO_ASSESSMENT) && Objects(g, t.s, HasTemporalValue) != {} :: t.s
  }

  /** `count_total_assessments`: the number of distinct dated assessments. */
  function CountTotalAssessments(g: set<Triple>): nat {
    |AssessmentEvents(g)|
  }

  /**
   * Every call of `add_barrier_assessment` leaves its assessment counted, including a call
   * that raises on an unknown timepoint, domain or barrier type (the typed, dated assessment
   * node is written before the lookups).
   */
  lemma AssessmentCounted(g: set<Triple>, participantId: string, domain: string, timepoint: string,
                          scores: seq<(string, int)>, date: string)
    ensures AssessmentUri(participantId, domain, timepoint, date)
            in AssessmentEvents(g + AssessmentWrites(participantId, domain, timepoint, scores, date))
    ensures CountTotalAssessments(g + AssessmentWrites(participantId, domain, timepoint, scores, date)) > 0
  {
    var a := AssessmentUri(participantId, domain, timepoint, date);
    var g' := g + AssessmentWrites(participantId, domain, timepoint, scores, date);
    assert AssessmentHeadTriples(participantId, domain, timepoint, date) <= g';
    assert Triple(a, HasTemporalValue, DateTimeLit(date)) in g';
    assert DateTimeLit(date) in Objects(g', a, HasTemporalValue);
  }

  /**
   * An encounter (typed `BCIO_000001`, one digit short of an assessment's class) is not
   * counted: adding an encounter's triples counts nothing new for its node.
   */
  lemma EncounterNotCounted(g: set<Triple>, e: EncounterData, minutes: int)
    requires BctsApart(e)
    requires Triple(e.encounterUri, RdfType, Iri(BCIO_ASSESSMENT)) !in g
    ensures e.encounterUri !in AssessmentEvents(g + EncounterTriples(e, minutes))
  {
    EncounterTypes(e, minutes);
    EncounterClassNotCounted(g, EncounterTriples(e, minutes), e.encounterUri);
  }

  lemma EncounterClassNotCounted(g: set<Triple>, h: set<Triple>, x: string)
    requires Triple(x, RdfType, Iri(BCIO_ASSESSMENT)) !in g
    requires Objects(h, x, RdfType) == {Iri(BCIO_ENCOUNTER), Iri(BFO_PROCESS)}
    ensures x !in AssessmentEvents(g + h)
  {
    AssessmentClassApart();
    UntypedNotCounted(g, h, x);
  }

  lemma AssessmentClassApart()
    ensures Iri(BCIO_ASSESSMENT) != Iri(BCIO_ENCOUNTER) && Iri(BCIO_ASSESSMENT) != Iri(BFO_PROCESS)
  {
    assert |BCIO_ASSESSMENT| == 43 && |BCIO_ENCOUNTER| == 42;
    assert BCIO_ASSESSMENT[31] == 'B' && BFO_PROCESS[31] == 'B' && BCIO_ASSESSMENT[32] == 'C' && BFO_PROCESS[32] == 'F';
  }

  lemma UntypedNotCounted(g: set<Triple>, h: set<Triple>, x: string)
    requires Triple(x, RdfType, Iri(BCIO_ASSESSMENT)) !in g
    requires Iri(BCIO_ASSESSMENT) !in Objects(h, x, RdfType)
    ensures x !in AssessmentEvents(g + h)
  {
  }
}
