/**
 * Arithmetic on lists of change scores, as the barrier analytics use it: the changes of one
 * sign, the sum, minimum, maximum and mean, a histogram (a `collections.Counter`), and the
 * sort an `ORDER BY ?change` applies. Each is specified by what it means for the multiset of
 * changes, so the analytics can show that their answers do not depend on row order.
 */
module ChangeStats {

  /** -1, 0 or 1: an improvement (the score fell), no change, or a worsening. */
  function Sign(c: int): int {
    if c < 0 then -1 else if c == 0 then 0 else 1
  }

  /** The changes of sign `k`, in order: `[c for c in changes if c < 0]` and its two siblings. */
  function WithSign(changes: seq<int>, k: int): (r: seq<int>)
    ensures forall c :: c in r ==> Sign(c) == k
    ensures forall c :: Sign(c) == k ==> multiset(r)[c] == multiset(changes)[c]
    decreases |changes|
  {
    if |changes| == 0 then []
    else
      var n := |changes| - 1;
      assert changes == changes[..n] + [changes[n]];
      var prev := WithSign(changes[..n], k);
      if Sign(changes[n]) == k then prev + [changes[n]] else prev
  }

  /** Every change has exactly one sign: the three lists share out the changes between them. */
  lemma SignShares(changes: seq<int>)
    ensures multiset(WithSign(changes, -1)) + multiset(WithSign(changes, 0)) + multiset(WithSign(changes, 1))
            == multiset(changes)
  {
    var down, same, up := WithSign(changes, -1), WithSign(changes, 0), WithSign(changes, 1);
    forall c
      ensures (multiset(down) + multiset(same) + multiset(up))[c] == multiset(changes)[c]
    {
      if c < 0 {
        assert c !in same && c !in up;
      } else if c == 0 {
        assert c !in down && c !in up;
      } else {
        assert c !in down && c !in same;
      }
    }
  }

  /** Every change is counted under exactly one of improved, stable and worsened. */
  lemma SignPartition(changes: seq<int>)
    ensures |WithSign(changes, -1)| + |WithSign(changes, 0)| + |WithSign(changes, 1)| == |changes|
  {
    SignShares(changes);
    var all := multiset(WithSign(changes, -1)) + multiset(WithSign(changes, 0)) + multiset(WithSign(changes, 1));
    assert |all| == |WithSign(changes, -1)| + |WithSign(changes, 0)| + |WithSign(changes, 1)|;
  }

  /** How many changes of each sign there are depends only on the multiset of changes. */
  lemma SignCountPermutation(a: seq<int>, b: seq<int>, k: int)
    requires multiset(a) == multiset(b)
    ensures multiset(WithSign(a, k)) == multiset(WithSign(b, k))
    ensures |WithSign(a, k)| == |WithSign(b, k)|
  {
    var ra, rb := WithSign(a, k), WithSign(b, k);
    forall c
      ensures multiset(ra)[c] == multiset(rb)[c]
    {
      if Sign(c) != k {
        assert c !in ra && c !in rb;
      }
    }
    assert multiset(ra) == multiset(rb);
    assert |multiset(ra)| == |multiset(rb)|;
  }

  function Sum(s: seq<int>): int
    decreases |s|
  {
    if |s| == 0 then 0 else Sum(s[..|s| - 1]) + s[|s| - 1]
  }

  lemma {:induction false} SumConcat(a: seq<int>, b: seq<int>)
    ensures Sum(a + b) == Sum(a) + Sum(b)
    decreases |b|
  {
    if |b| > 0 {
      var n := |b| - 1;
      assert (a + b)[..|a + b| - 1] == a + b[..n];
      assert (a + b)[|a + b| - 1] == b[n];
      SumConcat(a, b[..n]);
    } else {
      assert a + b == a;
    }
  }

  /** Taking out the element at `j` takes it out of the multiset and off the sum. */
  lemma RemoveAt(b: seq<int>, j: int)
    requires 0 <= j < |b|
    ensures multiset(b) == multiset(b[..j] + b[j + 1..]) + multiset{b[j]}
    ensures Sum(b) == Sum(b[..j] + b[j + 1..]) + b[j]
  {
    RemoveAtMultiset(b, j);
    RemoveAtSum(b, j);
  }

  lemma RemoveAtMultiset(b: seq<int>, j: int)
    requires 0 <= j < |b|
    ensures multiset(b) == multiset(b[..j] + b[j + 1..]) + multiset{b[j]}
  {
    assert b == b[..j] + [b[j]] + b[j + 1..];
  }

  lemma RemoveAtSum(b: seq<int>, j: int)
    requires 0 <= j < |b|
    ensures Sum(b) == Sum(b[..j] + b[j + 1..]) + b[j]
  {
    assert b == b[..j] + [b[j]] + b[j + 1..];
    SumWithout(b[..j], b[j], b[j + 1..]);
  }

  lemma SumWithout(pre: seq<int>, x: int, post: seq<int>)
    ensures Sum(pre + [x] + post) == Sum(pre + post) + x
  {
    SumConcat(pre + [x], post);
    SumConcat(pre, [x]);
    SumConcat(pre, post);
    assert Sum([x]) == x by {
      assert [x][..0] == [];
    }
  }

  /** The sum does not depend on the order of the changes. */
  lemma {:induction false} SumPermutation(a: seq<int>, b: seq<int>)
    requires multiset(a) == multiset(b)
    ensures Sum(a) == Sum(b)
    decreases |a|
  {
    if |a| > 0 {
      var n := |a| - 1;
      var x := a[n];
      assert a == a[..n] + [x];
      assert x in multiset(b);
      var j :| 0 <= j < |b| && b[j] == x;
      RemoveAt(b, j);
      assert multiset(a) == multiset(a[..n]) + multiset{x};
      assert multiset(a[..n]) == multiset(a) - multiset{x};
      assert multiset(b[..j] + b[j + 1..]) == multiset(b) - multiset{x};
      SumPermutation(a[..n], b[..j] + b[j + 1..]);
    }
  }

  /** Bounds on every change bound the sum. */
  lemma {:induction false} SumBounds(s: seq<int>, lo: int, hi: int)
    requires forall c :: c in s ==> lo <= c <= hi
    ensures |s| * lo <= Sum(s) <= |s| * hi
    decreases |s|
  {
    if |s| > 0 {
      var n := |s| - 1;
      assert s[n] in s;
      assert forall c :: c in s[..n] ==> c in s;
      SumBounds(s[..n], lo, hi);
      MulSucc(n, lo);
      MulSucc(n, hi);
    }
  }

  lemma MulSucc(n: int, x: int)
    ensures (n + 1) * x == n * x + x
  {
  }

  /** `min(changes)`: the most negative change. */
  function Min(s: seq<int>): (m: int)
    requires |s| > 0
    ensures m in s && forall c :: c in s ==> m <= c
    decreases |s|
  {
    if |s| == 1 then s[0]
    else
      var n := |s| - 1;
      assert s == s[..n] + [s[n]];
      var p := Min(s[..n]);
      if s[n] < p then s[n] else p
  }

  /** `max(changes)`: the most positive change. */
  function Max(s: seq<int>): (m: int)
    requires |s| > 0
    ensures m in s && forall c :: c in s ==> c <= m
    decreases |s|
  {
    if |s| == 1 then s[0]
    else
      var n := |s| - 1;
      assert s == s[..n] + [s[n]];
      var p := Max(s[..n]);
      if s[n] > p then s[n] else p
  }

  /** `sum(changes) / len(changes)` as an exact quotient, and 0 for no changes (a SPARQL `AVG` read with a default of 0). */
  function Mean(s: seq<int>): real {
    if |s| == 0 then 0.0 else Sum(s) as real / |s| as real
  }

  /** The mean lies between the smallest and the largest change. */
  lemma MeanBounds(s: seq<int>)
    requires |s| > 0
    ensures Min(s) as real <= Mean(s) <= Max(s) as real
  {
    SumBounds(s, Min(s), Max(s));
    QuotientBounds(Sum(s), |s|, Min(s), Max(s));
  }

  lemma QuotientBounds(total: int, n: int, lo: int, hi: int)
    requires n > 0 && n * lo <= total <= n * hi
    ensures lo as real <= total as real / n as real <= hi as real
  {
    var q := total as real / n as real;
    assert q * n as real == total as real;
    assert (n * lo) as real == n as real * lo as real;
    assert (n * hi) as real == n as real * hi as real;
  }

  /** The mean does not depend on the order of the changes. */
  lemma MeanPermutation(a: seq<int>, b: seq<int>)
    requires multiset(a) == multiset(b)
    ensures Mean(a) == Mean(b)
  {
    SumPermutation(a, b);
    assert |multiset(a)| == |multiset(b)|;
  }

  /** `collections.Counter(changes)`: each change once per occurrence, counted in order. */
  function Histogram(changes: seq<int>): (h: map<int, nat>)
    ensures forall c :: c in h <==> c in changes
    ensures forall c :: c in h ==> h[c] == multiset(changes)[c]
    decreases |changes|
  {
    if |changes| == 0 then map[]
    else
      var n := |changes| - 1;
      assert changes == changes[..n] + [changes[n]];
      var h := Histogram(changes[..n]);
      h[changes[n] := (if changes[n] in h then h[changes[n]] else 0) + 1]
  }

  /** The histogram depends only on the multiset of changes, not on their order. */
  lemma HistogramPermutation(a: seq<int>, b: seq<int>)
    requires multiset(a) == multiset(b)
    ensures Histogram(a) == Histogram(b)
  {
    forall c
      ensures c in a <==> c in b
    {
      assert c in a <==> c in multiset(a);
      assert c in b <==> c in multiset(b);
    }
  }

  /** The total of the multiplicities in `m` of the distinct values `keys`. */
  function CountOver<T>(m: multiset<T>, keys: seq<T>): nat
    decreases |keys|
  {
    if |keys| == 0 then 0 else CountOver(m, keys[..|keys| - 1]) + m[keys[|keys| - 1]]
  }

  ghost predicate Distinct<T>(keys: seq<T>) {
    forall i, j :: 0 <= i < j < |keys| ==> keys[i] != keys[j]
  }

  /** Adding one occurrence of `x` adds one to the total exactly when `x` is one of the keys. */
  lemma {:induction false} CountOverAdd<T>(m: multiset<T>, x: T, keys: seq<T>)
    requires Distinct(keys)
    ensures CountOver(m + multiset{x}, keys) == CountOver(m, keys) + (if x in keys then 1 else 0)
    decreases |keys|
  {
    if |keys| > 0 {
      var n := |keys| - 1;
      assert keys == keys[..n] + [keys[n]];
      CountOverAdd(m, x, keys[..n]);
      if x in keys[..n] {
        var i :| 0 <= i < n && keys[i] == x;
        assert keys[n] != x;
      }
    }
  }

  /** Summed over distinct keys that cover `s`, the multiplicities account for every element once. */
  lemma {:induction false} CountOverAll<T>(s: seq<T>, keys: seq<T>)
    requires Distinct(keys)
    requires forall i :: 0 <= i < |s| ==> s[i] in keys
    ensures CountOver(multiset(s), keys) == |s|
    decreases |s|
  {
    if |s| == 0 {
      CountOverEmpty(keys);
    } else {
      var n := |s| - 1;
      assert s == s[..n] + [s[n]];
      CountOverAll(s[..n], keys);
      CountOverAdd(multiset(s[..n]), s[n], keys);
    }
  }

  lemma {:induction false} CountOverEmpty<T>(keys: seq<T>)
    ensures CountOver(multiset{}, keys) == 0
    decreases |keys|
  {
    if |keys| > 0 {
      CountOverEmpty(keys[..|keys| - 1]);
    }
  }

  /** The total of the histogram's bins `bins`. */
  function HistogramTotal(h: map<int, nat>, bins: seq<int>): nat
    decreases |bins|
  {
    if |bins| == 0 then 0
    else
      var b := bins[|bins| - 1];
      HistogramTotal(h, bins[..|bins| - 1]) + (if b in h then h[b] else 0)
  }

  lemma {:induction false} HistogramTotalCounts(changes: seq<int>, bins: seq<int>)
    ensures HistogramTotal(Histogram(changes), bins) == CountOver(multiset(changes), bins)
    decreases |bins|
  {
    if |bins| > 0 {
      var b := bins[|bins| - 1];
      HistogramTotalCounts(changes, bins[..|bins| - 1]);
      if b !in Histogram(changes) {
        assert b !in changes;
      }
    }
  }

  /** The histogram's bins, over any listing of its distinct values, hold every change once. */
  lemma HistogramAccountsForAll(changes: seq<int>, bins: seq<int>)
    requires Distinct(bins)
    requires forall i :: 0 <= i < |changes| ==> changes[i] in bins
    ensures HistogramTotal(Histogram(changes), bins) == |changes|
  {
    HistogramTotalCounts(changes, bins);
    CountOverAll(changes, bins);
  }

  ghost predicate Ascending(s: seq<int>) {
    forall i, j :: 0 <= i < j < |s| ==> s[i] <= s[j]
  }

  lemma AscendingCons(y: int, r: seq<int>)
    requires Ascending(r) && (|r| > 0 ==> y <= r[0])
    ensures Ascending([y] + r)
  {
    forall i, j | 0 <= i < j < |r| + 1
      ensures ([y] + r)[i] <= ([y] + r)[j]
    {
      if i == 0 && j > 1 {
        assert r[0] <= r[j - 1];
      }
    }
  }

  /** `x` placed before the first larger element of an ascending list. */
  function Insert(s: seq<int>, x: int): (r: seq<int>)
    requires Ascending(s)
    ensures Ascending(r) && multiset(r) == multiset(s) + multiset{x}
    ensures |r| > 0 && r[0] == (if |s| == 0 || x <= s[0] then x else s[0])
    decreases |s|
  {
    if |s| == 0 then [x]
    else if x <= s[0] then AscendingCons(x, s); [x] + s
    else
      assert s == [s[0]] + s[1..];
      var r := Insert(s[1..], x);
      AscendingCons(s[0], r);
      [s[0]] + r
  }

  /** The changes in ascending order, as `ORDER BY ?change` returns them. */
  function Sorted(s: seq<int>): (r: seq<int>)
    ensures Ascending(r) && multiset(r) == multiset(s)
    decreases |s|
  {
    if |s| == 0 then []
    else
      var n := |s| - 1;
      assert s == s[..n] + [s[n]];
      Insert(Sorted(s[..n]), s[n])
  }
}
