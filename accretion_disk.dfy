/** The accretion disk's ring layout (generateAcretionDisks).
    The span from `min` to `max` is cut into bands of width `gap`, indexed
    from 0; every even-indexed band becomes a ring and every odd-indexed one
    is left empty, so rings and gaps alternate.  The source fixes
    min = 2, max = 5, gap = 0.01; here they are parameters. */
module AccretionDisk {
  import opened Loops

  /** One ring of the disk: inner and outer radius. */
  datatype Band = Band(inner: real, outer: real)

  /** The distance i·gap from `min` to the start of band i, laid out one
      band at a time. */
  function Offset(i: nat, gap: real): real
  {
    if i == 0 then 0.0 else Offset(i - 1, gap) + gap
  }

  /** The band with index i: [min + i·gap, min + (i+1)·gap]. */
  function BandAt(min: real, gap: real, i: nat): (b: Band)
    ensures b.outer - b.inner == gap
  {
    Band(min + Offset(i, gap), min + Offset(i + 1, gap))
  }

  /** Number of bands of width `gap` that fit in [min, max], as a real:
      the source's `ringCount`, which need not be whole. */
  function RingCount(min: real, max: real, gap: real): (c: real)
    requires gap > 0.0
    ensures c * gap == max - min
  {
    (max - min) / gap
  }

  /** The first n rings, in the order the source pushes them. */
  function Layout(min: real, gap: real, n: nat): (r: seq<Band>)
    ensures |r| == n
  {
    if n == 0 then [] else Layout(min, gap, n - 1) + [BandAt(min, gap, 2 * (n - 1))]
  }

  /** The rings emitted for (min, max, gap): one per pass of the loop. */
  function Disks(min: real, max: real, gap: real): (r: seq<Band>)
    requires gap > 0.0
    ensures |r| == TripCount(RingCount(min, max, gap))
  {
    Layout(min, gap, TripCount(RingCount(min, max, gap)))
  }

  /** generateAcretionDisks: push the even-indexed bands while i < ringCount. */
  method GenerateAcretionDisks(min: real, max: real, gap: real) returns (levels: seq<Band>)
    requires gap > 0.0
    ensures levels == Disks(min, max, gap)
  {
    var ringCount := (max - min) / gap;
    ghost var passes := TripCount(ringCount);
    levels := [];
    var i: nat := 0;
    while (i as real) < ringCount
      invariant i == 2 * |levels|
      invariant |levels| <= passes
      invariant levels == Layout(min, gap, |levels|)
      decreases passes - |levels|
    {
      PassRuns(ringCount, |levels|);
      var g := i + 1;
      var start, end := min + (i as real) * gap, min + (g as real) * gap;
      OffsetIsProduct(i, gap);
      OffsetIsProduct(g, gap);
      PushBand(min, gap, |levels|);
      levels := levels + [Band(start, end)];
      i := i + 2;
    }
    PassRuns(ringCount, |levels|);
  }

  /** One pass of the loop: band 2n extends the first n rings to the first n + 1. */
  lemma PushBand(min: real, gap: real, n: nat)
    ensures Layout(min, gap, n + 1) == Layout(min, gap, n) + [BandAt(min, gap, 2 * n)]
  {
  }

  /** The offset of band i is the product the source computes, i·gap. */
  lemma {:induction false} OffsetIsProduct(i: nat, gap: real)
    ensures Offset(i, gap) == (i as real) * gap
  {
    if i > 0 {
      OffsetIsProduct(i - 1, gap);
      assert ((i - 1) as real) * gap + gap == (i as real) * gap;
    }
  }

  /** With a positive gap, a later band starts at least one gap further out. */
  lemma {:induction false} OffsetGrows(a: nat, b: nat, gap: real)
    requires a < b && gap > 0.0
    ensures Offset(a, gap) + gap <= Offset(b, gap)
  {
    if a < b - 1 {
      OffsetGrows(a, b - 1, gap);
    }
  }

  /** Comparing x·gap with a span is comparing x with span / gap. */
  lemma ScaledCompare(x: real, span: real, gap: real)
    requires gap > 0.0
    ensures x * gap < span <==> x < span / gap
    ensures x * gap <= span <==> x <= span / gap
  {
    var q := span / gap;
    assert q * gap == span;
    assert x * gap - span == (x - q) * gap;
  }

  /** The k-th emitted ring is band 2k. */
  lemma {:induction false} LayoutAt(min: real, gap: real, n: nat, k: nat)
    requires k < n
    ensures Layout(min, gap, n)[k] == BandAt(min, gap, 2 * k)
  {
    if k < n - 1 {
      LayoutAt(min, gap, n - 1, k);
    }
  }

  /** Every ring is exactly `gap` wide, so it is a proper band. */
  lemma RingWidth(min: real, gap: real, n: nat, k: nat)
    requires gap > 0.0 && k < n
    ensures Layout(min, gap, n)[k].outer - Layout(min, gap, n)[k].inner == gap
    ensures Layout(min, gap, n)[k].inner < Layout(min, gap, n)[k].outer
  {
    LayoutAt(min, gap, n, k);
  }

  /** Consecutive rings start 2·gap apart, so each ends one gap before the next begins. */
  lemma RingSpacing(min: real, gap: real, n: nat, k: nat)
    requires k + 1 < n
    ensures Layout(min, gap, n)[k + 1].inner - Layout(min, gap, n)[k].inner == 2.0 * gap
    ensures Layout(min, gap, n)[k + 1].inner - Layout(min, gap, n)[k].outer == gap
  {
    LayoutAt(min, gap, n, k);
    LayoutAt(min, gap, n, k + 1);
    assert Offset(2 * k + 2, gap) == Offset(2 * k + 1, gap) + gap;
  }

  /** Rings are in increasing order and no two overlap: every earlier ring ends
      at least one gap before every later ring begins. */
  lemma RingsDisjoint(min: real, gap: real, n: nat, j: nat, k: nat)
    requires gap > 0.0 && j < k < n
    ensures Layout(min, gap, n)[j].outer + gap <= Layout(min, gap, n)[k].inner
    ensures Layout(min, gap, n)[j].outer < Layout(min, gap, n)[k].inner
  {
    LayoutAt(min, gap, n, j);
    LayoutAt(min, gap, n, k);
    OffsetGrows(2 * j + 1, 2 * k, gap);
  }

  /** Every emitted ring starts inside [min, max) and ends before max + gap. */
  lemma RingsWithinBounds(min: real, max: real, gap: real, k: nat)
    requires gap > 0.0 && k < |Disks(min, max, gap)|
    ensures min <= Disks(min, max, gap)[k].inner < max
    ensures Disks(min, max, gap)[k].outer < max + gap
  {
    var c := RingCount(min, max, gap);
    LayoutAt(min, gap, TripCount(c), k);
    PassRuns(c, k);
    if k > 0 {
      OffsetGrows(0, 2 * k, gap);
    }
    OffsetIsProduct(2 * k, gap);
    ScaledCompare((2 * k) as real, max - min, gap);
  }

  /** The last ring stays inside max exactly when its outer band index, 2n - 1,
      still fits within ringCount; otherwise it overruns max. */
  lemma LastRingFits(min: real, max: real, gap: real)
    requires gap > 0.0 && |Disks(min, max, gap)| > 0
    ensures var n := |Disks(min, max, gap)|;
      Disks(min, max, gap)[n - 1].outer <= max <==> ((2 * n - 1) as real) <= RingCount(min, max, gap)
  {
    var n := |Disks(min, max, gap)|;
    LayoutAt(min, gap, n, n - 1);
    OffsetIsProduct(2 * n - 1, gap);
    ScaledCompare((2 * n - 1) as real, max - min, gap);
  }

  /** With the source's constants (2, 5, 0.01): ringCount is 300, 150 rings,
      the first [2, 2.01] and the last [4.98, 4.99]. */
  lemma SourceDisk()
    ensures RingCount(2.0, 5.0, 0.01) == 300.0
    ensures |Disks(2.0, 5.0, 0.01)| == 150
    ensures Disks(2.0, 5.0, 0.01)[0] == Band(2.0, 2.01)
    ensures Disks(2.0, 5.0, 0.01)[149] == Band(4.98, 4.99)
  {
    assert RingCount(2.0, 5.0, 0.01) == 300.0;
    TripCountOfInt(300);
    assert |Disks(2.0, 5.0, 0.01)| == 150;
    LayoutAt(2.0, 0.01, 150, 0);
    LayoutAt(2.0, 0.01, 150, 149);
    OffsetIsProduct(1, 0.01);
    OffsetIsProduct(298, 0.01);
    OffsetIsProduct(299, 0.01);
  }

  /** A partial last band is not dropped: with min = 0, max = 1, gap = 0.4,
      ringCount is 2.5, two rings are emitted, and the second, [0.8, 1.2],
      reaches past max. */
  lemma PartialBandKept()
    ensures |Disks(0.0, 1.0, 0.4)| == 2
    ensures Disks(0.0, 1.0, 0.4)[1] == Band(0.8, 1.2)
    ensures Disks(0.0, 1.0, 0.4)[1].outer > 1.0
  {
    assert RingCount(0.0, 1.0, 0.4) == 2.5;
    assert TripCount(2.5) == 2 by {
      PassRuns(2.5, 1);
      PassRuns(2.5, 2);
    }
    LayoutAt(0.0, 0.4, 2, 1);
    OffsetIsProduct(2, 0.4);
    OffsetIsProduct(3, 0.4);
  }
}
