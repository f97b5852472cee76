/*
 * The Imec probe viewer (SVGrafsM_Im): putScans, the channel-type labels
 * and the right-hand-side flags. The probe's cumulative channel counts
 * imCumTypCnt are [AP, AP + LF, AP + LF + SY]: channels below cum[0] are
 * AP, below cum[1] neural (AP or LF), below cum[2] all of them.
 */
module GraphsIm {
  import opened SVGrafs

  /**
   * What putScans appends for channel ic of a block trimmed to ntpts scans:
   * nothing for a hidden channel or an empty block; for an AP channel the
   * bin maximum and minimum of the adjusted values when bin-max drawing is
   * on and dwnSmp > 1, else their plain decimation; for an LF channel the
   * samples less the channel's DC level; for the sync channel the raw
   * samples.
   */
  function ImPoints(cum: seq<int>, ic2iy: seq<int>, adj: nat -> int, lvl: seq<int>, data: seq<int>,
                    ntpts: nat, dwnSmp: nat, binMaxOn: bool, ic: nat, wasBinMax: bool): (p: Points)
    requires |cum| == 3 && 0 <= cum[0] <= cum[1] <= cum[2] && ic < cum[2] && |ic2iy| == cum[2]
    requires |lvl| >= cum[1] && dwnSmp >= 1
    ensures p.y2 != [] ==> p.binMax
    ensures (ntpts == 0 || ic2iy[ic] < 0) ==> p == Points([], [], wasBinMax)
    ensures cum[0] <= ic && p.binMax ==> wasBinMax
  {
    var nC := cum[2];
    if ntpts == 0 || ic2iy[ic] < 0 then Points([], [], wasBinMax)
    else if ic < cum[0] then
      if binMaxOn && dwnSmp > 1 then
        var y2 := BinTroughs(adj, nC, ic, 0, ntpts, dwnSmp);
        Points(BinPeaks(adj, nC, ic, 0, ntpts, dwnSmp), y2, true)
      else Points(Decimated(adj, nC, ic, 0, ntpts, dwnSmp), [], false)
    else if ic < cum[1] then Points(Decimated(Offset(data, lvl[ic]), nC, ic, 0, ntpts, dwnSmp), [], wasBinMax)
    else Points(Decimated(Raw(data), nC, ic, 0, ntpts, dwnSmp), [], wasBinMax)
  }

  /**
   * Over a trimmed block an AP channel gets ntpts / dwnSmp points and, in
   * bin-max drawing, as many lower points as upper ones.
   */
  lemma ApPointCounts(cum: seq<int>, ic2iy: seq<int>, adj: nat -> int, lvl: seq<int>, data: seq<int>,
                      ntpts: nat, dwnSmp: nat, binMaxOn: bool, ic: nat, wasBinMax: bool)
    requires |cum| == 3 && 0 <= cum[0] <= cum[1] <= cum[2] && ic < cum[0] && |ic2iy| == cum[2]
    requires |lvl| >= cum[1] && dwnSmp >= 1
    requires ntpts % dwnSmp == 0 && ntpts > 0 && ic2iy[ic] >= 0
    ensures var p := ImPoints(cum, ic2iy, adj, lvl, data, ntpts, dwnSmp, binMaxOn, ic, wasBinMax);
      |p.y| == ntpts / dwnSmp && (p.binMax ==> |p.y2| == |p.y|)
  {
    DecimatedTrimmed(adj, cum[2], ic, ntpts, dwnSmp);
    BinCounts(adj, cum[2], ic, 0, ntpts, dwnSmp);
  }

  /**
   * Over a trimmed block the sync channel's points are its stored samples
   * of every dwnSmp-th scan, ntpts / dwnSmp of them.
   */
  lemma SyncPoints(cum: seq<int>, ic2iy: seq<int>, adj: nat -> int, lvl: seq<int>, data: seq<int>,
                   ntpts: nat, dwnSmp: nat, binMaxOn: bool, ic: nat, wasBinMax: bool, j: nat)
    requires |cum| == 3 && 0 <= cum[0] <= cum[1] <= ic < cum[2] && |ic2iy| == cum[2]
    requires |lvl| >= cum[1] && dwnSmp >= 1
    requires ntpts % dwnSmp == 0 && |data| == ntpts * cum[2] && ntpts > 0 && ic2iy[ic] >= 0
    requires j < ntpts / dwnSmp
    ensures var p := ImPoints(cum, ic2iy, adj, lvl, data, ntpts, dwnSmp, binMaxOn, ic, wasBinMax);
      |p.y| == ntpts / dwnSmp && j * dwnSmp * cum[2] + ic < |data| && p.y[j] == data[j * dwnSmp * cum[2] + ic]
  {
    DecimatedTrimmed(Raw(data), cum[2], ic, ntpts, dwnSmp);
    RawPoints(data, cum[2], ic, ntpts, dwnSmp, j);
  }

  /** The points putScans computes for one channel. */
  method ChannelPoints(cum: seq<int>, ic2iy: seq<int>, adj: nat -> int, lvl: seq<int>, data: seq<int>,
                       ntpts: nat, dwnSmp: nat, binMaxOn: bool, ic: nat, wasBinMax: bool) returns (p: Points)
    requires |cum| == 3 && 0 <= cum[0] <= cum[1] <= cum[2] && ic < cum[2] && |ic2iy| == cum[2]
    requires |lvl| >= cum[1] && dwnSmp >= 1 && ntpts > 0 && ic2iy[ic] >= 0
    ensures p == ImPoints(cum, ic2iy, adj, lvl, data, ntpts, dwnSmp, binMaxOn, ic, wasBinMax)
  {
    var nC := cum[2];
    if ic < cum[0] {
      if binMaxOn && dwnSmp > 1 {
        var y, y2 := BinMaxMin(adj, nC, ic, ntpts, dwnSmp);
        p := Points(y, y2, true);
      } else {
        var y := Decimate(adj, nC, ic, ntpts, dwnSmp);
        p := Points(y, [], false);
      }
    } else if ic < cum[1] {
      var y := Decimate(Offset(data, lvl[ic]), nC, ic, ntpts, dwnSmp);
      p := Points(y, [], wasBinMax);
    } else {
      var y := Decimate(Raw(data), nC, ic, ntpts, dwnSmp);
      p := Points(y, [], wasBinMax);
    }
  }

  class SVGrafsIm {
    const cum: seq<int>
    const ic2iy: seq<int>
    const ic2Y: Graphs
    var binMaxOn: bool

    /** ic2Y has a record per channel, and only AP channels ever draw bin-max pairs. */
    ghost predicate Valid()
      reads this, ic2Y
    {
      |cum| == 3 && 0 <= cum[0] <= cum[1] <= cum[2] && |ic2iy| == cum[2]
      && ic2Y.Valid() && |ic2Y.usrType| == cum[2]
      && forall ic :: cum[0] <= ic < cum[2] ==> !ic2Y.drawBinMax[ic]
    }

    constructor(cum: seq<int>, ic2iy: seq<int>, binMaxOn: bool)
      requires |cum| == 3 && 0 <= cum[0] <= cum[1] <= cum[2] && |ic2iy| == cum[2]
      ensures Valid() && fresh(ic2Y)
      ensures this.cum == cum && this.ic2iy == ic2iy && this.binMaxOn == binMaxOn
    {
      this.cum := cum;
      this.ic2iy := ic2iy;
      this.binMaxOn := binMaxOn;
      ic2Y := new Graphs(cum[2]);
    }

    /**
     * putScans: trims data to whole bins (returned, as the caller's vector
     * is resized), then appends each shown channel's points. adj gives the
     * adjusted AP value at each data index, lvl the DC level per channel.
     */
    method PutScans(data: seq<int>, dwnSmp: nat, adj: nat -> int, lvl: seq<int>) returns (trimmed: seq<int>)
      requires Valid() && dwnSmp >= 1 && cum[2] >= 1 && |lvl| >= cum[1]
      modifies ic2Y
      ensures Valid()
      ensures trimmed == Trim(data, dwnSmp, cum[2])
      ensures ic2Y.usrType == old(ic2Y.usrType) && ic2Y.rhsLabel == old(ic2Y.rhsLabel)
      ensures forall ic :: 0 <= ic < cum[2] ==>
        Appended(ImPoints(cum, ic2iy, adj, lvl, trimmed, TrimScans(|data|, dwnSmp, cum[2]), dwnSmp, binMaxOn, ic, old(ic2Y.drawBinMax[ic])),
                 old(ic2Y.yval[ic]), old(ic2Y.yval2[ic]), ic2Y.drawBinMax[ic], ic2Y.yval[ic], ic2Y.yval2[ic])
    {
      var nC := cum[2];
      var dSize := |data|;
      var ntpts := TrimScans(dSize, dwnSmp, nC);
      var newSize := ntpts * nC;
      trimmed := data;
      if dSize != newSize {
        trimmed := data[..newSize];
      }
      if newSize == 0 {
        return;
      }
      ghost var b0, y0, y20 := ic2Y.drawBinMax, ic2Y.yval, ic2Y.yval2;
      ghost var bm := binMaxOn;
      ghost var pts := seq(nC, j requires 0 <= j < nC => ImPoints(cum, ic2iy, adj, lvl, trimmed, ntpts, dwnSmp, bm, j, b0[j]));
      var ic := 0;
      while ic < nC
        invariant 0 <= ic <= nC && ic2Y.Valid() && |ic2Y.usrType| == nC
        invariant ic2Y.usrType == old(ic2Y.usrType) && ic2Y.rhsLabel == old(ic2Y.rhsLabel)
        invariant PutSoFar(pts, b0, y0, y20, ic2Y.drawBinMax, ic2Y.yval, ic2Y.yval2, ic)
      {
        if ic2iy[ic] >= 0 {
          var p := ChannelPoints(cum, ic2iy, adj, lvl, trimmed, ntpts, dwnSmp, binMaxOn, ic, ic2Y.drawBinMax[ic]);
          PutStep(pts, b0, y0, y20, ic2Y.drawBinMax, ic2Y.yval, ic2Y.yval2, ic, p);
          ic2Y.PutData(ic, p);
        } else {
          PutSkip(pts, b0, y0, y20, ic2Y.drawBinMax, ic2Y.yval, ic2Y.yval2, ic);
        }
        ic := ic + 1;
      }
    }

    /** mySetUsrTypes: AP channels type 0, LF type 1, sync type 2; returns the sync type. */
    method MySetUsrTypes() returns (digitalType: int)
      requires Valid()
      modifies ic2Y`usrType
      ensures Valid() && digitalType == 2
      ensures forall ic :: 0 <= ic < cum[2] ==> ic2Y.usrType[ic] == if ic < cum[0] then 0 else if ic < cum[1] then 1 else 2
    {
      ic2Y.SetTypes(0, cum[0], 0);
      ic2Y.SetTypes(cum[0], cum[1], 1);
      ic2Y.SetTypes(cum[1], cum[2], 2);
      return 2;
    }

    /** updateRHSFlags over the probe's save bits and the audio channels. */
    method UpdateRHSFlags(saveBits: seq<bool>, audio: seq<int>)
      requires Valid() && |saveBits| >= cum[2]
      requires forall k :: 0 <= k < |audio| ==> 0 <= audio[k] < cum[2]
      modifies ic2Y`rhsLabel
      ensures Valid()
      ensures forall ic :: 0 <= ic < cum[2] ==> ic2Y.rhsLabel[ic] == RhsLabel(saveBits[ic], ic in audio)
    {
      ic2Y.UpdateRHSFlags(saveBits, audio);
    }
  }
}
