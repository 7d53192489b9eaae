/** The windowed aggregator `liteSummary` (exporter.go:42-86): running min, max,
    sum and count of the observations made since the last scrape, read and reset
    together by each scrape.

    The window is the sequence of values observed since the summary was created
    or last collected. The specification functions below say what the four
    fields must hold for a given window; the class keeps them in step. */
module Summary {
  import opened ExtReal

  /** Least value of the window; +Inf for an empty window. */
  function SeqMin(w: seq<real>): (m: Ext)
  {
    if w == [] then PosInf else Min(SeqMin(w[..|w| - 1]), Fin(w[|w| - 1]))
  }

  /** Greatest value of the window; -Inf for an empty window. */
  function SeqMax(w: seq<real>): (m: Ext)
  {
    if w == [] then NegInf else Max(SeqMax(w[..|w| - 1]), Fin(w[|w| - 1]))
  }

  function Sum(w: seq<real>): (total: real)
  {
    if w == [] then 0.0 else Sum(w[..|w| - 1]) + w[|w| - 1]
  }

  /** The mean Collect reports: sum/count, or the bare sum when nothing was observed. */
  function Mean(w: seq<real>): (mean: real)
  {
    if |w| > 0 then Sum(w) / (|w| as real) else Sum(w)
  }

  /** One labelled gauge reading of a summary (the "stat" label and its value). */
  datatype Reading = Reading(stat: string, value: Ext)

  /** The metric descriptor: fully qualified name, help text, variable labels. */
  datatype Desc = Desc(fqName: string, help: string, variableLabels: seq<string>)

  /** The three readings a scrape of a summary with window `w` emits, in order. */
  function Snapshot(w: seq<real>): (readings: seq<Reading>)
  {
    [Reading("min", SeqMin(w)), Reading("max", SeqMax(w)), Reading("mean", Fin(Mean(w)))]
  }

  lemma {:induction false} SeqMinIsLeast(w: seq<real>)
    ensures w == [] <==> SeqMin(w) == PosInf
    ensures w != [] ==> SeqMin(w).Fin? && SeqMin(w).r in w
    ensures forall x :: x in w ==> Le(SeqMin(w), Fin(x))
  {
    if w != [] {
      var init := w[..|w| - 1];
      SeqMinIsLeast(init);
      assert w == init + [w[|w| - 1]];
      forall x | x in w ensures Le(SeqMin(w), Fin(x)) {
        if x in init {
          assert Le(SeqMin(init), Fin(x));
        }
      }
    }
  }

  lemma {:induction false} SeqMaxIsGreatest(w: seq<real>)
    ensures w == [] <==> SeqMax(w) == NegInf
    ensures w != [] ==> SeqMax(w).Fin? && SeqMax(w).r in w
    ensures forall x :: x in w ==> Le(Fin(x), SeqMax(w))
  {
    if w != [] {
      var init := w[..|w| - 1];
      SeqMaxIsGreatest(init);
      assert w == init + [w[|w| - 1]];
      forall x | x in w ensures Le(Fin(x), SeqMax(w)) {
        if x in init {
          assert Le(Fin(x), SeqMax(init));
        }
      }
    }
  }

  /** Summing a window that lies within [lo, hi]. */
  lemma {:induction false} SumBounds(w: seq<real>, lo: real, hi: real)
    requires forall x :: x in w ==> lo <= x <= hi
    ensures (|w| as real) * lo <= Sum(w) <= (|w| as real) * hi
  {
    if w != [] {
      var init := w[..|w| - 1];
      assert forall x :: x in init ==> x in w;
      SumBounds(init, lo, hi);
      assert w[|w| - 1] in w;
    }
  }

  lemma DivisionBounds(s: real, n: real, lo: real, hi: real)
    requires n > 0.0 && n * lo <= s <= n * hi
    ensures lo <= s / n <= hi
  {
    var q := s / n;
    assert s == n * q;
    assert n * (q - lo) >= 0.0;
    assert n * (hi - q) >= 0.0;
  }

  /** The mean of a non-empty window within [lo, hi] lies within [lo, hi]. */
  lemma MeanBetween(w: seq<real>, lo: real, hi: real)
    requires w != [] && forall x :: x in w ==> lo <= x <= hi
    ensures lo <= Mean(w) <= hi
  {
    SumBounds(w, lo, hi);
    DivisionBounds(Sum(w), |w| as real, lo, hi);
  }

  /** The mean of a non-empty window lies between its least and greatest values. */
  lemma MeanWithinBounds(w: seq<real>)
    requires w != []
    ensures SeqMin(w).Fin? && SeqMax(w).Fin?
    ensures SeqMin(w).r <= Mean(w) <= SeqMax(w).r
  {
    SeqMinIsLeast(w);
    SeqMaxIsGreatest(w);
    var lo, hi := SeqMin(w).r, SeqMax(w).r;
    forall x | x in w ensures lo <= x <= hi {
      assert Le(Fin(lo), Fin(x)) && Le(Fin(x), Fin(hi));
    }
    MeanBetween(w, lo, hi);
  }

  /** Taking one element out of a window subtracts exactly it from the sum. */
  lemma {:induction false} SumRemove(w: seq<real>, i: nat)
    requires i < |w|
    ensures Sum(w) == w[i] + Sum(w[..i] + w[i + 1..])
  {
    var n := |w|;
    if i == n - 1 {
      assert w[..i] + w[i + 1..] == w[..n - 1];
    } else {
      var init := w[..n - 1];
      SumRemove(init, i);
      var rest := w[..i] + w[i + 1..];
      assert rest[..|rest| - 1] == init[..i] + init[i + 1..];
      assert rest[|rest| - 1] == w[n - 1];
    }
  }

  /** Taking the element at `j` out of a sequence takes one copy of it out of its multiset. */
  lemma MultisetRemove(b: seq<real>, j: nat)
    requires j < |b|
    ensures multiset(b[..j] + b[j + 1..]) == multiset(b) - multiset{b[j]}
  {
    assert b == b[..j] + [b[j]] + b[j + 1..];
  }

  /** The sum of a window does not depend on the order of its observations. */
  lemma {:induction false} SumPermutation(a: seq<real>, b: seq<real>)
    requires multiset(a) == multiset(b)
    ensures Sum(a) == Sum(b)
  {
    if a == [] {
      assert |b| == |multiset(b)| == 0;
    } else {
      var n := |a|;
      var x := a[n - 1];
      assert x in multiset(b) by {
        assert a == a[..n - 1] + [x];
      }
      var j :| 0 <= j < |b| && b[j] == x;
      MultisetRemove(a, n - 1);
      MultisetRemove(b, j);
      assert a[..n - 1] + a[n..] == a[..n - 1];
      SumPermutation(a[..n - 1], b[..j] + b[j + 1..]);
      SumRemove(b, j);
    }
  }

  /** Two windows holding the same values have the same least and greatest value. */
  lemma SameValuesSameBounds(a: seq<real>, b: seq<real>)
    requires forall x :: x in a <==> x in b
    ensures SeqMin(a) == SeqMin(b) && SeqMax(a) == SeqMax(b)
  {
    SeqMinIsLeast(a);
    SeqMinIsLeast(b);
    SeqMaxIsGreatest(a);
    SeqMaxIsGreatest(b);
    if a != [] {
      assert SeqMin(a).r in b && SeqMin(b).r in a;
      assert SeqMax(a).r in b && SeqMax(b).r in a;
    }
  }

  /** What a scrape reports depends only on the multiset of observations in the
      window, not on the order in which they were made. */
  lemma SnapshotDependsOnMultiset(a: seq<real>, b: seq<real>)
    requires multiset(a) == multiset(b)
    ensures Snapshot(a) == Snapshot(b)
  {
    assert |a| == |multiset(a)| == |multiset(b)| == |b|;
    forall x ensures x in a <==> x in b {
      assert x in a <==> x in multiset(a);
      assert x in b <==> x in multiset(b);
    }
    SameValuesSameBounds(a, b);
    SumPermutation(a, b);
  }

  /** A scrape emits exactly three readings, labelled min, max and mean in
      that order; over a non-empty window they are its least value, its
      greatest value and its arithmetic mean, and over an empty window they
      are the sentinels +Inf, -Inf and a mean of 0. */
  lemma SnapshotMeaning(w: seq<real>)
    ensures |Snapshot(w)| == 3
    ensures Snapshot(w)[0].stat == "min" && Snapshot(w)[1].stat == "max" && Snapshot(w)[2].stat == "mean"
    ensures w == [] ==> Snapshot(w) == [Reading("min", PosInf), Reading("max", NegInf), Reading("mean", Fin(0.0))]
    ensures w != [] ==>
      && Snapshot(w)[0].value.Fin? && Snapshot(w)[0].value.r in w
      && (forall x :: x in w ==> Snapshot(w)[0].value.r <= x)
      && Snapshot(w)[1].value.Fin? && Snapshot(w)[1].value.r in w
      && (forall x :: x in w ==> x <= Snapshot(w)[1].value.r)
      && Snapshot(w)[2].value == Fin(Sum(w) / (|w| as real))
  {
    SeqMinIsLeast(w);
    SeqMaxIsGreatest(w);
  }

  /** The summary of one metric (exporter.go:42-50). The mutex is not modelled:
      each method runs atomically, as it does under the lock. */
  class LiteSummary {
    var min: Ext
    var max: Ext
    var sum: real
    var count: nat
    const desc: Desc

    /** The observations made since creation or since the last Collect. */
    ghost var window: seq<real>

    ghost predicate Valid()
      reads this
    {
      && min == SeqMin(window)
      && max == SeqMax(window)
      && sum == Sum(window)
      && count == |window|
    }

    /** newLiteSummary (exporter.go:52-60): the sentinel state with an empty window.
        Registration with the metrics registry is not modelled. */
    constructor (varName: string, help: string)
      ensures Valid() && window == []
      ensures min == PosInf && max == NegInf && sum == 0.0 && count == 0
      ensures desc == Desc("lifepo4wered_" + varName, help, ["stat"])
    {
      min := PosInf;
      max := NegInf;
      sum, count := 0.0, 0;
      desc := Desc("lifepo4wered_" + varName, help, ["stat"]);
      window := [];
    }

    /** Folds one value into the window (exporter.go:79-86). */
    method Observe(x: real)
      requires Valid()
      modifies this
      ensures Valid() && window == old(window) + [x]
      ensures min == Min(old(min), Fin(x)) && max == Max(old(max), Fin(x))
      ensures sum == old(sum) + x && count == old(count) + 1
      ensures Le(min, Fin(x)) && Le(Fin(x), max)
    {
      min := Min(min, Fin(x));
      max := Max(max, Fin(x));
      sum := sum + x;
      count := count + 1;
      window := window + [x];
      assert window[..|window| - 1] == old(window);
    }

    /** Emits min, max and mean, then resets to the sentinel state (exporter.go:64-77). */
    method Collect() returns (readings: seq<Reading>)
      requires Valid()
      modifies this
      ensures readings == Snapshot(old(window))
      ensures readings == [Reading("min", old(min)), Reading("max", old(max)),
                           Reading("mean", Fin(if old(count) > 0 then old(sum) / (old(count) as real) else old(sum)))]
      ensures Valid() && window == []
      ensures min == PosInf && max == NegInf && sum == 0.0 && count == 0
    {
      readings := [Reading("min", min), Reading("max", max)];
      var mean := sum;
      if count > 0 {
        mean := mean / (count as real);
      }
      readings := readings + [Reading("mean", Fin(mean))];
      min := PosInf;
      max := NegInf;
      sum, count := 0.0, 0;
      window := [];
    }

    /** Two scrapes with no observation between them: the second reports the
        sentinels +Inf, -Inf and a mean of 0. */
    method CollectTwice() returns (first: seq<Reading>, second: seq<Reading>)
      requires Valid()
      modifies this
      ensures first == Snapshot(old(window))
      ensures second == [Reading("min", PosInf), Reading("max", NegInf), Reading("mean", Fin(0.0))]
      ensures Valid() && window == []
    {
      first := Collect();
      second := Collect();
      SnapshotMeaning([]);
    }
  }
}
