/*
 * What the two multi-graph viewers (SVGrafsM_Im for an Imec probe,
 * SVGrafsM_Ni for the NI-DAQ stream) share: the trim of a block to whole
 * downsample bins, the points one channel contributes (plain decimation, or
 * the per-bin maximum and minimum), and the per-channel graph records ic2Y
 * with their type and right-hand-side label.
 *
 * A block is interleaved: the sample of channel ic at scan t sits at data
 * index t * nC + ic. The adjusted sample values (DC level, gain ratio,
 * spatial average, filters, float scaling) are not computed here: they
 * enter as a function from data index to value.
 */
module SVGrafs {

  /* ---------------------------------------------------------------- */
  /* Trim ------------------------------------------------------------ */
  /* ---------------------------------------------------------------- */

  lemma MulLe(a: nat, b: nat, c: nat)
    requires a <= b
    ensures a * c <= b * c
  {
    if a < b {
      MulLe(a, b - 1, c);
      assert b * c == (b - 1) * c + c;
    }
  }

  /** The whole bins of dwnSmp scans of nC channels that fit in dSize samples. */
  function TrimBins(dSize: nat, dwnSmp: nat, nC: nat): (q: nat)
    requires dwnSmp >= 1 && nC >= 1
    ensures q * (dwnSmp * nC) <= dSize < q * (dwnSmp * nC) + dwnSmp * nC
  {
    var s := dwnSmp * nC;
    assert s >= 1 by {
      MulLe(1, dwnSmp, nC);
    }
    dSize / s
  }

  /** The scans putScans keeps of a block of dSize samples: TrimBins whole bins. */
  function TrimScans(dSize: nat, dwnSmp: nat, nC: nat): (ntpts: nat)
    requires dwnSmp >= 1 && nC >= 1
    ensures ntpts * nC <= dSize < ntpts * nC + dwnSmp * nC
  {
    var q := TrimBins(dSize, dwnSmp, nC);
    assert (q * dwnSmp) * nC == q * (dwnSmp * nC);
    q * dwnSmp
  }

  /** The resized block: a prefix of data holding ntpts whole scans. */
  function Trim(data: seq<int>, dwnSmp: nat, nC: nat): (r: seq<int>)
    requires dwnSmp >= 1 && nC >= 1
    ensures |r| == TrimScans(|data|, dwnSmp, nC) * nC
    ensures r == data[..|r|]
    ensures |data| - |r| < dwnSmp * nC
  {
    data[..TrimScans(|data|, dwnSmp, nC) * nC]
  }

  lemma MulLtInv(a: nat, b: nat, c: nat)
    requires a * c < b * c
    ensures a < b
  {
    if a >= b {
      MulLe(b, a, c);
    }
  }

  /** The bin count the trim keeps is the only one within one bin of dSize. */
  lemma TrimBinsUnique(dSize: nat, dwnSmp: nat, nC: nat, q: nat)
    requires dwnSmp >= 1 && nC >= 1
    requires q * (dwnSmp * nC) <= dSize < q * (dwnSmp * nC) + dwnSmp * nC
    ensures TrimBins(dSize, dwnSmp, nC) == q
  {
    var s := dwnSmp * nC;
    var p := TrimBins(dSize, dwnSmp, nC);
    assert (p + 1) * s == p * s + s;
    assert (q + 1) * s == q * s + s;
    MulLtInv(q, p + 1, s);
    MulLtInv(p, q + 1, s);
  }

  /** A trimmed block is trimmed already: the trim is idempotent. */
  lemma TrimIdempotent(data: seq<int>, dwnSmp: nat, nC: nat)
    requires dwnSmp >= 1 && nC >= 1
    ensures Trim(Trim(data, dwnSmp, nC), dwnSmp, nC) == Trim(data, dwnSmp, nC)
  {
    var r := Trim(data, dwnSmp, nC);
    var q := TrimBins(|data|, dwnSmp, nC);
    assert (q * dwnSmp) * nC == q * (dwnSmp * nC);
    TrimBinsUnique(|r|, dwnSmp, nC, q);
  }

  /* ---------------------------------------------------------------- */
  /* Points of one channel ------------------------------------------- */
  /* ---------------------------------------------------------------- */

  /** The value of channel ic at scan t, v giving the value at each data index. */
  function At(v: nat -> int, nC: nat, ic: nat, t: nat): int
  {
    v(Idx(t, nC, ic))
  }

  /** The data index of channel ic at scan t, stepped scan by scan as putScans steps its pointer. */
  function Idx(t: nat, nC: nat, ic: nat): nat
  {
    if t == 0 then ic else Idx(t - 1, nC, ic) + nC
  }

  lemma {:induction false} IdxIs(t: nat, nC: nat, ic: nat)
    ensures Idx(t, nC, ic) == t * nC + ic
  {
    if t > 0 {
      IdxIs(t - 1, nC, ic);
    }
  }

  lemma {:induction false} IdxStep(t: nat, n: nat, nC: nat, ic: nat)
    ensures Idx(t + n, nC, ic) == Idx(t, nC, ic) + n * nC
  {
    if n > 0 {
      IdxStep(t, n - 1, nC, ic);
    }
  }

  /** The data itself as a value function (0 past the end). */
  function Raw(data: seq<int>): nat -> int
  {
    (k: nat) => if k < |data| then data[k] else 0
  }

  /** The data less a DC level, as the LFP trace draws it (0 past the end). */
  function Offset(data: seq<int>, level: int): nat -> int
  {
    (k: nat) => (if k < |data| then data[k] else 0) - level
  }

  lemma {:induction false} IdxBound(t: nat, ntpts: nat, nC: nat, ic: nat)
    requires t < ntpts && ic < nC
    ensures Idx(t, nC, ic) < ntpts * nC
  {
    IdxIs(t, nC, ic);
    MulLe(t + 1, ntpts, nC);
    assert (t + 1) * nC == t * nC + nC;
  }

  /** Plain decimation from scan it on: the values at scans it, it + dwnSmp, ... below ntpts. */
  function Decimated(v: nat -> int, nC: nat, ic: nat, it: nat, ntpts: nat, dwnSmp: nat): seq<int>
    requires dwnSmp >= 1
    decreases ntpts - it
  {
    if it >= ntpts then [] else [At(v, nC, ic, it)] + Decimated(v, nC, ic, it + dwnSmp, ntpts, dwnSmp)
  }

  /** The j-th decimated point is the value at scan it + j * dwnSmp. */
  lemma {:induction false} DecimatedAt(v: nat -> int, nC: nat, ic: nat, it: nat, ntpts: nat, dwnSmp: nat, j: nat)
    requires dwnSmp >= 1
    requires j < |Decimated(v, nC, ic, it, ntpts, dwnSmp)|
    ensures it + j * dwnSmp < ntpts
    ensures Decimated(v, nC, ic, it, ntpts, dwnSmp)[j] == At(v, nC, ic, it + j * dwnSmp)
    decreases ntpts - it
  {
    if j > 0 {
      DecimatedAt(v, nC, ic, it + dwnSmp, ntpts, dwnSmp, j - 1);
      assert it + dwnSmp + (j - 1) * dwnSmp == it + j * dwnSmp;
    }
  }

  /** Over a trimmed block of m bins, decimation gives one point per bin. */
  lemma {:induction false} DecimatedCount(v: nat -> int, nC: nat, ic: nat, j: nat, m: nat, dwnSmp: nat)
    requires dwnSmp >= 1 && j <= m
    ensures |Decimated(v, nC, ic, j * dwnSmp, m * dwnSmp, dwnSmp)| == m - j
    decreases m - j
  {
    if j < m {
      MulLe(j + 1, m, dwnSmp);
      assert (j + 1) * dwnSmp == j * dwnSmp + dwnSmp;
      DecimatedCount(v, nC, ic, j + 1, m, dwnSmp);
    }
  }

  /** putScans over ntpts trimmed scans: ntpts / dwnSmp points, one from every dwnSmp-th scan. */
  lemma DecimatedTrimmed(v: nat -> int, nC: nat, ic: nat, ntpts: nat, dwnSmp: nat)
    requires dwnSmp >= 1 && ntpts % dwnSmp == 0
    ensures |Decimated(v, nC, ic, 0, ntpts, dwnSmp)| == ntpts / dwnSmp
    ensures forall j :: 0 <= j < ntpts / dwnSmp ==> Decimated(v, nC, ic, 0, ntpts, dwnSmp)[j] == At(v, nC, ic, j * dwnSmp)
  {
    DecimatedCount(v, nC, ic, 0, ntpts / dwnSmp, dwnSmp);
    forall j | 0 <= j < ntpts / dwnSmp
      ensures Decimated(v, nC, ic, 0, ntpts, dwnSmp)[j] == At(v, nC, ic, j * dwnSmp)
    {
      DecimatedAt(v, nC, ic, 0, ntpts, dwnSmp, j);
    }
  }

  /**
   * Over a trimmed block, point j of a raw channel is the stored sample of
   * scan j * dwnSmp, taken as is.
   */
  lemma RawPoints(data: seq<int>, nC: nat, ic: nat, ntpts: nat, dwnSmp: nat, j: nat)
    requires dwnSmp >= 1 && ntpts % dwnSmp == 0 && |data| == ntpts * nC && ic < nC
    requires j < ntpts / dwnSmp
    ensures j < |Decimated(Raw(data), nC, ic, 0, ntpts, dwnSmp)|
    ensures j * dwnSmp * nC + ic < |data|
    ensures Decimated(Raw(data), nC, ic, 0, ntpts, dwnSmp)[j] == data[j * dwnSmp * nC + ic]
  {
    DecimatedTrimmed(Raw(data), nC, ic, ntpts, dwnSmp);
    DecimatedAt(Raw(data), nC, ic, 0, ntpts, dwnSmp, j);
    IdxBound(j * dwnSmp, ntpts, nC, ic);
    IdxIs(j * dwnSmp, nC, ic);
  }

  /** The scan of the first maximum of channel ic over scans [lo, hi), as the bin loop finds it. */
  function FirstMax(v: nat -> int, nC: nat, ic: nat, lo: nat, hi: nat): (t: nat)
    requires lo < hi
    ensures lo <= t < hi
    decreases hi - lo
  {
    if hi == lo + 1 then lo
    else
      var m := FirstMax(v, nC, ic, lo, hi - 1);
      if At(v, nC, ic, hi - 1) > At(v, nC, ic, m) then hi - 1 else m
  }

  /** The scan of the first minimum of channel ic over scans [lo, hi), as the bin loop finds it. */
  function FirstMin(v: nat -> int, nC: nat, ic: nat, lo: nat, hi: nat): (t: nat)
    requires lo < hi
    ensures lo <= t < hi
    decreases hi - lo
  {
    if hi == lo + 1 then lo
    else
      var m := FirstMin(v, nC, ic, lo, hi - 1);
      if At(v, nC, ic, hi - 1) < At(v, nC, ic, m) then hi - 1 else m
  }

  lemma MinBelowMax(v: nat -> int, nC: nat, ic: nat, lo: nat, hi: nat)
    requires lo < hi
    ensures At(v, nC, ic, FirstMin(v, nC, ic, lo, hi)) <= At(v, nC, ic, FirstMax(v, nC, ic, lo, hi))
  {
    FirstMaxIsFirstMaximum(v, nC, ic, lo, hi);
    FirstMinIsFirstMinimum(v, nC, ic, lo, hi);
  }

  /** FirstMax is a maximum of the bin, and no earlier scan reaches it. */
  lemma {:induction false} FirstMaxIsFirstMaximum(v: nat -> int, nC: nat, ic: nat, lo: nat, hi: nat)
    requires lo < hi
    ensures var t := FirstMax(v, nC, ic, lo, hi);
      && (forall u :: lo <= u < hi ==> At(v, nC, ic, u) <= At(v, nC, ic, t))
      && (forall u :: lo <= u < t ==> At(v, nC, ic, u) < At(v, nC, ic, t))
    decreases hi - lo
  {
    if hi > lo + 1 {
      FirstMaxIsFirstMaximum(v, nC, ic, lo, hi - 1);
    }
  }

  /** FirstMin is a minimum of the bin, and no earlier scan reaches it. */
  lemma {:induction false} FirstMinIsFirstMinimum(v: nat -> int, nC: nat, ic: nat, lo: nat, hi: nat)
    requires lo < hi
    ensures var t := FirstMin(v, nC, ic, lo, hi);
      && (forall u :: lo <= u < hi ==> At(v, nC, ic, t) <= At(v, nC, ic, u))
      && (forall u :: lo <= u < t ==> At(v, nC, ic, t) < At(v, nC, ic, u))
    decreases hi - lo
  {
    if hi > lo + 1 {
      FirstMinIsFirstMinimum(v, nC, ic, lo, hi - 1);
    }
  }

  /** The end of the bin starting at scan it: dwnSmp scans, or what remains. */
  function BinEnd(it: nat, ntpts: nat, dwnSmp: nat): nat
  {
    if ntpts - it < dwnSmp then ntpts else it + dwnSmp
  }

  /** Bin-max drawing, upper trace: each bin's maximum, from scan it on. */
  function BinPeaks(v: nat -> int, nC: nat, ic: nat, it: nat, ntpts: nat, dwnSmp: nat): seq<int>
    requires dwnSmp >= 1
    decreases ntpts - it
  {
    if it >= ntpts then []
    else [At(v, nC, ic, FirstMax(v, nC, ic, it, BinEnd(it, ntpts, dwnSmp)))] + BinPeaks(v, nC, ic, it + dwnSmp, ntpts, dwnSmp)
  }

  /** Bin-max drawing, lower trace: each bin's minimum, from scan it on. */
  function BinTroughs(v: nat -> int, nC: nat, ic: nat, it: nat, ntpts: nat, dwnSmp: nat): seq<int>
    requires dwnSmp >= 1
    decreases ntpts - it
  {
    if it >= ntpts then []
    else [At(v, nC, ic, FirstMin(v, nC, ic, it, BinEnd(it, ntpts, dwnSmp)))] + BinTroughs(v, nC, ic, it + dwnSmp, ntpts, dwnSmp)
  }

  /** Bin-max drawing keeps one upper and one lower point per bin, as many as plain decimation draws. */
  lemma {:induction false} BinCounts(v: nat -> int, nC: nat, ic: nat, it: nat, ntpts: nat, dwnSmp: nat)
    requires dwnSmp >= 1
    ensures |BinPeaks(v, nC, ic, it, ntpts, dwnSmp)| == |Decimated(v, nC, ic, it, ntpts, dwnSmp)|
    ensures |BinTroughs(v, nC, ic, it, ntpts, dwnSmp)| == |Decimated(v, nC, ic, it, ntpts, dwnSmp)|
    decreases ntpts - it
  {
    if it < ntpts {
      BinCounts(v, nC, ic, it + dwnSmp, ntpts, dwnSmp);
    }
  }

  /**
   * The point plain decimation would draw for a bin lies between the bin's
   * lower and upper points, so bin-max drawing loses no sample the plain
   * trace shows.
   */
  lemma {:induction false} BinEnvelope(v: nat -> int, nC: nat, ic: nat, it: nat, ntpts: nat, dwnSmp: nat, j: nat)
    requires dwnSmp >= 1
    requires j < |Decimated(v, nC, ic, it, ntpts, dwnSmp)|
    ensures j < |BinPeaks(v, nC, ic, it, ntpts, dwnSmp)| && j < |BinTroughs(v, nC, ic, it, ntpts, dwnSmp)|
    ensures BinTroughs(v, nC, ic, it, ntpts, dwnSmp)[j] <= Decimated(v, nC, ic, it, ntpts, dwnSmp)[j]
    ensures Decimated(v, nC, ic, it, ntpts, dwnSmp)[j] <= BinPeaks(v, nC, ic, it, ntpts, dwnSmp)[j]
    decreases ntpts - it
  {
    BinCounts(v, nC, ic, it, ntpts, dwnSmp);
    if j > 0 {
      BinEnvelope(v, nC, ic, it + dwnSmp, ntpts, dwnSmp, j - 1);
    } else {
      var e := BinEnd(it, ntpts, dwnSmp);
      FirstMaxIsFirstMaximum(v, nC, ic, it, e);
      FirstMinIsFirstMinimum(v, nC, ic, it, e);
      assert At(v, nC, ic, FirstMin(v, nC, ic, it, e)) <= At(v, nC, ic, it) <= At(v, nC, ic, FirstMax(v, nC, ic, it, e));
    }
  }

  /** The plain decimation loop of putScans over channel ic. */
  method Decimate(v: nat -> int, nC: nat, ic: nat, ntpts: nat, dwnSmp: nat) returns (ys: seq<int>)
    requires dwnSmp >= 1
    ensures ys == Decimated(v, nC, ic, 0, ntpts, dwnSmp)
  {
    ys := [];
    var it: nat := 0;
    var d: nat := ic;
    while it < ntpts
      invariant d == Idx(it, nC, ic)
      invariant ys + Decimated(v, nC, ic, it, ntpts, dwnSmp) == Decimated(v, nC, ic, 0, ntpts, dwnSmp)
      decreases ntpts - it
    {
      assert Decimated(v, nC, ic, it, ntpts, dwnSmp) == [v(d)] + Decimated(v, nC, ic, it + dwnSmp, ntpts, dwnSmp);
      assert ys + [v(d)] + Decimated(v, nC, ic, it + dwnSmp, ntpts, dwnSmp) == ys + ([v(d)] + Decimated(v, nC, ic, it + dwnSmp, ntpts, dwnSmp));
      ys := ys + [v(d)];
      IdxStep(it, dwnSmp, nC, ic);
      it := it + dwnSmp;
      d := d + dwnSmp * nC;
    }
  }

  /**
   * One bin of the bin-max loop: the first maximum and first minimum over
   * scans [it, it + binWid); the data pointer moves from scan it to the end
   * of the bin.
   */
  method BinExtremes(v: nat -> int, nC: nat, ic: nat, it: nat, binWid: nat, d0: nat) returns (vmax: int, vmin: int, d: nat)
    requires binWid >= 1 && d0 == Idx(it, nC, ic)
    ensures vmax == At(v, nC, ic, FirstMax(v, nC, ic, it, it + binWid))
    ensures vmin == At(v, nC, ic, FirstMin(v, nC, ic, it, it + binWid))
    ensures d == Idx(it + binWid, nC, ic)
  {
    d := d0;
    ghost var tmax, tmin := it, it;
    var val := v(d);
    vmax, vmin := val, val;
    d := d + nC;
    var ib := 1;
    while ib < binWid
      invariant 1 <= ib <= binWid
      invariant d == Idx(it + ib, nC, ic)
      invariant tmax == FirstMax(v, nC, ic, it, it + ib) && vmax == At(v, nC, ic, tmax)
      invariant tmin == FirstMin(v, nC, ic, it, it + ib) && vmin == At(v, nC, ic, tmin)
    {
      val := v(d);
      assert val == At(v, nC, ic, it + ib);
      if val > vmax {
        MinBelowMax(v, nC, ic, it, it + ib);
        vmax, tmax := val, it + ib;
      } else if val < vmin {
        vmin, tmin := val, it + ib;
      }
      ib := ib + 1;
      d := d + nC;
    }
  }

  /** The bin-max loop of putScans over channel ic: upper points in ymax, lower in ymin. */
  method BinMaxMin(v: nat -> int, nC: nat, ic: nat, ntpts: nat, dwnSmp: nat) returns (ymax: seq<int>, ymin: seq<int>)
    requires dwnSmp >= 1
    ensures ymax == BinPeaks(v, nC, ic, 0, ntpts, dwnSmp)
    ensures ymin == BinTroughs(v, nC, ic, 0, ntpts, dwnSmp)
  {
    ymax, ymin := [], [];
    var ndRem: int := ntpts;
    var it: nat := 0;
    var d: nat := ic;
    while it < ntpts
      invariant it < ntpts ==> ndRem == ntpts - it && d == Idx(it, nC, ic)
      invariant BinsSoFar(v, nC, ic, it, ntpts, dwnSmp, ymax, ymin)
      decreases ntpts - it
    {
      ymax, ymin, d, ndRem := BinStep(v, nC, ic, ntpts, dwnSmp, it, d, ndRem, ymax, ymin);
      it := it + dwnSmp;
    }
  }

  /** The points so far, followed by those of the bins from scan it on, are all the channel's. */
  predicate BinsSoFar(v: nat -> int, nC: nat, ic: nat, it: nat, ntpts: nat, dwnSmp: nat, ymax: seq<int>, ymin: seq<int>)
    requires dwnSmp >= 1
  {
    && ymax + BinPeaks(v, nC, ic, it, ntpts, dwnSmp) == BinPeaks(v, nC, ic, 0, ntpts, dwnSmp)
    && ymin + BinTroughs(v, nC, ic, it, ntpts, dwnSmp) == BinTroughs(v, nC, ic, 0, ntpts, dwnSmp)
  }

  /** One pass of the bin-max loop: the bin at scan it, its points appended. */
  method BinStep(v: nat -> int, nC: nat, ic: nat, ntpts: nat, dwnSmp: nat, it: nat, d0: nat, ndRem0: int,
                 ymax0: seq<int>, ymin0: seq<int>) returns (ymax: seq<int>, ymin: seq<int>, d: nat, ndRem: int)
    requires dwnSmp >= 1 && it < ntpts && ndRem0 == ntpts - it && d0 == Idx(it, nC, ic)
    requires BinsSoFar(v, nC, ic, it, ntpts, dwnSmp, ymax0, ymin0)
    ensures it + dwnSmp < ntpts ==> ndRem == ntpts - (it + dwnSmp) && d == Idx(it + dwnSmp, nC, ic)
    ensures BinsSoFar(v, nC, ic, it + dwnSmp, ntpts, dwnSmp, ymax, ymin)
  {
    var binWid := dwnSmp;
    if ndRem0 < binWid {
      binWid := ndRem0;
    }
    assert it + binWid == BinEnd(it, ntpts, dwnSmp);
    var vmax, vmin;
    vmax, vmin, d := BinExtremes(v, nC, ic, it, binWid, d0);
    ndRem := ndRem0 - binWid;
    PeaksStep(v, nC, ic, it, ntpts, dwnSmp, ymax0, vmax);
    TroughsStep(v, nC, ic, it, ntpts, dwnSmp, ymin0, vmin);
    ymax := ymax0 + [vmax];
    ymin := ymin0 + [vmin];
  }

  lemma PeaksStep(v: nat -> int, nC: nat, ic: nat, it: nat, ntpts: nat, dwnSmp: nat, ys: seq<int>, y: int)
    requires dwnSmp >= 1 && it < ntpts
    requires y == At(v, nC, ic, FirstMax(v, nC, ic, it, BinEnd(it, ntpts, dwnSmp)))
    requires ys + BinPeaks(v, nC, ic, it, ntpts, dwnSmp) == BinPeaks(v, nC, ic, 0, ntpts, dwnSmp)
    ensures (ys + [y]) + BinPeaks(v, nC, ic, it + dwnSmp, ntpts, dwnSmp) == BinPeaks(v, nC, ic, 0, ntpts, dwnSmp)
  {
    assert BinPeaks(v, nC, ic, it, ntpts, dwnSmp) == [y] + BinPeaks(v, nC, ic, it + dwnSmp, ntpts, dwnSmp);
    assert ys + ([y] + BinPeaks(v, nC, ic, it + dwnSmp, ntpts, dwnSmp)) == (ys + [y]) + BinPeaks(v, nC, ic, it + dwnSmp, ntpts, dwnSmp);
  }

  lemma TroughsStep(v: nat -> int, nC: nat, ic: nat, it: nat, ntpts: nat, dwnSmp: nat, ys: seq<int>, y: int)
    requires dwnSmp >= 1 && it < ntpts
    requires y == At(v, nC, ic, FirstMin(v, nC, ic, it, BinEnd(it, ntpts, dwnSmp)))
    requires ys + BinTroughs(v, nC, ic, it, ntpts, dwnSmp) == BinTroughs(v, nC, ic, 0, ntpts, dwnSmp)
    ensures (ys + [y]) + BinTroughs(v, nC, ic, it + dwnSmp, ntpts, dwnSmp) == BinTroughs(v, nC, ic, 0, ntpts, dwnSmp)
  {
    assert BinTroughs(v, nC, ic, it, ntpts, dwnSmp) == [y] + BinTroughs(v, nC, ic, it + dwnSmp, ntpts, dwnSmp);
    assert ys + ([y] + BinTroughs(v, nC, ic, it + dwnSmp, ntpts, dwnSmp)) == (ys + [y]) + BinTroughs(v, nC, ic, it + dwnSmp, ntpts, dwnSmp);
  }

  /**
   * What putScans appends for one channel: its upper points, its lower
   * points (bin-max drawing only) and the channel's bin-max flag afterwards.
   */
  datatype Points = Points(y: seq<int>, y2: seq<int>, binMax: bool)

  /** A channel's record after putData of p: the flag taken from p, its points appended. */
  predicate Appended(p: Points, y0: seq<int>, y20: seq<int>, flag: bool, y: seq<int>, y2: seq<int>)
  {
    flag == p.binMax && y == y0 + p.y && y2 == y20 + p.y2
  }

  /**
   * putScans's channel loop after ic channels: those have their points pts
   * appended to the records b0, y0, y20 it started from; the others are
   * unchanged.
   */
  ghost predicate PutSoFar(pts: seq<Points>, b0: seq<bool>, y0: seq<seq<int>>, y20: seq<seq<int>>,
                           b: seq<bool>, y: seq<seq<int>>, y2: seq<seq<int>>, ic: nat)
  {
    |b0| == |pts| && |y0| == |pts| && |y20| == |pts| && |b| == |pts| && |y| == |pts| && |y2| == |pts| && ic <= |pts|
    && (forall j :: ic <= j < |pts| ==> b[j] == b0[j] && y[j] == y0[j] && y2[j] == y20[j])
    && (forall j :: 0 <= j < ic ==> Appended(pts[j], y0[j], y20[j], b[j], y[j], y2[j]))
  }

  /** A shown channel: putData of its points (the lower ones only in bin-max drawing). */
  lemma PutStep(pts: seq<Points>, b0: seq<bool>, y0: seq<seq<int>>, y20: seq<seq<int>>,
                b: seq<bool>, y: seq<seq<int>>, y2: seq<seq<int>>, ic: nat, p: Points)
    requires PutSoFar(pts, b0, y0, y20, b, y, y2, ic) && ic < |pts| && p == pts[ic]
    requires p.y2 != [] ==> p.binMax
    ensures PutSoFar(pts, b0, y0, y20, b[ic := p.binMax], y[ic := y[ic] + p.y],
                     y2[ic := y2[ic] + (if p.binMax then p.y2 else [])], ic + 1)
  {
    assert y20[ic] + [] == y20[ic];
  }

  /** A hidden channel: nothing appended, its flag kept. */
  lemma PutSkip(pts: seq<Points>, b0: seq<bool>, y0: seq<seq<int>>, y20: seq<seq<int>>,
                b: seq<bool>, y: seq<seq<int>>, y2: seq<seq<int>>, ic: nat)
    requires PutSoFar(pts, b0, y0, y20, b, y, y2, ic) && ic < |pts| && pts[ic] == Points([], [], b0[ic])
    ensures PutSoFar(pts, b0, y0, y20, b, y, y2, ic + 1)
  {
    assert y0[ic] + [] == y0[ic] && y20[ic] + [] == y20[ic];
  }

  /* ---------------------------------------------------------------- */
  /* Channel records ----------------------------------------------- */
  /* ---------------------------------------------------------------- */

  /** The right-hand-side label of a graph: S when saved, prefixed A for an audio channel. */
  function RhsLabel(saved: bool, audio: bool): (s: string)
    ensures 'S' in s <==> saved
    ensures (|s| > 0 && s[0] == 'A') <==> audio
    ensures audio ==> |s| == 3
  {
    if audio then (if saved then "A S" else "A  ")
    else (if saved then "S" else "")
  }

  /**
   * The ic2Y vector: per channel its user type, right-hand-side label,
   * whether it draws a bin-max pair, and the points appended to its upper
   * (yval) and lower (yval2) traces.
   */
  class Graphs {
    var usrType: seq<int>
    var rhsLabel: seq<string>
    var drawBinMax: seq<bool>
    var yval: seq<seq<int>>
    var yval2: seq<seq<int>>

    predicate Valid()
      reads this
    {
      |rhsLabel| == |usrType| && |drawBinMax| == |usrType| && |yval| == |usrType| && |yval2| == |usrType|
    }

    /** nC graph records with empty traces, no label and no bin-max. */
    constructor(nC: nat)
      ensures Valid() && |usrType| == nC
      ensures forall ic :: 0 <= ic < nC ==> usrType[ic] == 0 && rhsLabel[ic] == "" && !drawBinMax[ic]
      ensures forall ic :: 0 <= ic < nC ==> yval[ic] == [] && yval2[ic] == []
    {
      usrType := seq(nC, _ => 0);
      rhsLabel := seq(nC, _ => "");
      drawBinMax := seq(nC, _ => false);
      yval := seq(nC, _ => []);
      yval2 := seq(nC, _ => []);
    }

    /** One type loop of mySetUsrTypes: channels [c0, cLim) get type t, the others keep theirs. */
    method SetTypes(c0: int, cLim: int, t: int)
      requires Valid() && 0 <= c0 && (c0 < cLim ==> cLim <= |usrType|)
      modifies this`usrType
      ensures Valid() && |usrType| == |old(usrType)|
      ensures forall ic :: 0 <= ic < |usrType| ==> usrType[ic] == if c0 <= ic < cLim then t else old(usrType)[ic]
    {
      var ic := c0;
      while ic < cLim
        invariant ic == c0 || c0 <= ic <= cLim
        invariant |usrType| == |old(usrType)|
        invariant forall j :: 0 <= j < |usrType| ==> usrType[j] == if c0 <= j < ic then t else old(usrType)[j]
      {
        usrType := usrType[ic := t];
        ic := ic + 1;
      }
    }

    /**
     * updateRHSFlags: every label from its save bit, then the channels the
     * audio output plays (AOCtl::uniqueAIs, given as audio) rewritten.
     */
    method UpdateRHSFlags(saveBits: seq<bool>, audio: seq<int>)
      requires Valid() && |saveBits| >= |rhsLabel|
      requires forall k :: 0 <= k < |audio| ==> 0 <= audio[k] < |rhsLabel|
      modifies this`rhsLabel
      ensures Valid() && |rhsLabel| == |old(rhsLabel)|
      ensures forall ic :: 0 <= ic < |rhsLabel| ==> rhsLabel[ic] == RhsLabel(saveBits[ic], ic in audio)
    {
      var nC := |rhsLabel|;
      var ic := 0;
      while ic < nC
        invariant 0 <= ic <= nC && |rhsLabel| == nC
        invariant forall j :: 0 <= j < ic ==> rhsLabel[j] == RhsLabel(saveBits[j], false)
      {
        if saveBits[ic] {
          rhsLabel := rhsLabel[ic := "S"];
        } else {
          rhsLabel := rhsLabel[ic := ""];
        }
        ic := ic + 1;
      }
      var k := 0;
      while k < |audio|
        invariant 0 <= k <= |audio| && |rhsLabel| == nC
        invariant forall j :: 0 <= j < nC ==> rhsLabel[j] == RhsLabel(saveBits[j], j in audio[..k])
      {
        ic := audio[k];
        if saveBits[ic] {
          rhsLabel := rhsLabel[ic := "A S"];
        } else {
          rhsLabel := rhsLabel[ic := "A  "];
        }
        assert audio[..k + 1] == audio[..k] + [ic];
        k := k + 1;
      }
      assert audio[..k] == audio;
    }

    /** The end of putScans for one channel: its bin-max flag set, its points appended. */
    method PutData(ic: nat, p: Points)
      requires Valid() && ic < |usrType|
      modifies this`drawBinMax, this`yval, this`yval2
      ensures Valid()
      ensures drawBinMax == old(drawBinMax)[ic := p.binMax]
      ensures yval == old(yval)[ic := old(yval)[ic] + p.y]
      ensures yval2 == old(yval2)[ic := old(yval2)[ic] + (if p.binMax then p.y2 else [])]
    {
      drawBinMax := drawBinMax[ic := p.binMax];
      yval := yval[ic := yval[ic] + p.y];
      if p.binMax {
        yval2 := yval2[ic := yval2[ic] + p.y2];
      } else {
        assert yval2[ic] + [] == yval2[ic];
      }
    }
  }
}
