/*
 * The NI-DAQ viewer (SVGrafsM_Ni): putScans, the band filter selection,
 * the channel-type labels and the right-hand-side flags. The cumulative
 * channel counts niCumTypCnt are [MN, MN + MA, MN + MA + XA, all]:
 * channels below cum[0] are neural, below cum[2] analog, below cum[3] all.
 */
module GraphsNi {
  import opened SVGrafs
  import opened QtText

  datatype BqType = Highpass | Lowpass

  /** A biquad filter: its type and its cutoff as a fraction of the sample rate. */
  datatype Biquad = Biquad(kind: BqType, fc: real)

  predicate CumCounts(cum: seq<int>)
  {
    |cum| == 4 && 0 <= cum[0] <= cum[1] <= cum[2] <= cum[3]
  }

  /** Bin-max drawing: on, downsampling, and not the low-frequency band (bandSel 2). */
  predicate DrawBinMax(binMaxOn: bool, dwnSmp: nat, bandSel: int)
  {
    binMaxOn && dwnSmp > 1 && bandSel != 2
  }

  /**
   * What putScans appends for channel ic of a block trimmed to ntpts scans:
   * nothing for a hidden channel or an empty block; for a neural channel
   * the bin maximum and minimum of its adjusted values in bin-max drawing,
   * else their plain decimation; for an analog or digital channel its
   * stored samples.
   */
  function NiPoints(cum: seq<int>, ic2iy: seq<int>, adj: nat -> int, data: seq<int>, ntpts: nat,
                    dwnSmp: nat, binMaxOn: bool, bandSel: int, ic: nat, wasBinMax: bool): (p: Points)
    requires CumCounts(cum) && ic < cum[3] && |ic2iy| == cum[3] && dwnSmp >= 1
    ensures p.y2 != [] ==> p.binMax
    ensures (ntpts == 0 || ic2iy[ic] < 0) ==> p == Points([], [], wasBinMax)
    ensures cum[0] <= ic && p.binMax ==> wasBinMax
  {
    var nC := cum[3];
    if ntpts == 0 || ic2iy[ic] < 0 then Points([], [], wasBinMax)
    else if ic < cum[0] then
      if DrawBinMax(binMaxOn, dwnSmp, bandSel) then
        var y2 := BinTroughs(adj, nC, ic, 0, ntpts, dwnSmp);
        Points(BinPeaks(adj, nC, ic, 0, ntpts, dwnSmp), y2, true)
      else Points(Decimated(adj, nC, ic, 0, ntpts, dwnSmp), [], false)
    else Points(Decimated(Raw(data), nC, ic, 0, ntpts, dwnSmp), [], wasBinMax)
  }

  /**
   * In the low-frequency band a shown neural channel draws no bin-max pair,
   * however bin-max drawing is set.
   */
  lemma LowBandNoBinMax(cum: seq<int>, ic2iy: seq<int>, adj: nat -> int, data: seq<int>, ntpts: nat,
                        dwnSmp: nat, binMaxOn: bool, ic: nat, wasBinMax: bool)
    requires CumCounts(cum) && ic < cum[0] && |ic2iy| == cum[3] && dwnSmp >= 1
    requires ntpts > 0 && ic2iy[ic] >= 0
    ensures var p := NiPoints(cum, ic2iy, adj, data, ntpts, dwnSmp, binMaxOn, 2, ic, wasBinMax);
      !p.binMax && p.y2 == [] && p.y == Decimated(adj, cum[3], ic, 0, ntpts, dwnSmp)
  {
  }

  /**
   * Over a trimmed block a neural channel gets ntpts / dwnSmp points and,
   * in bin-max drawing, as many lower points as upper ones.
   */
  lemma NeuralPointCounts(cum: seq<int>, ic2iy: seq<int>, adj: nat -> int, data: seq<int>, ntpts: nat,
                          dwnSmp: nat, binMaxOn: bool, bandSel: int, ic: nat, wasBinMax: bool)
    requires CumCounts(cum) && ic < cum[0] && |ic2iy| == cum[3] && dwnSmp >= 1
    requires ntpts % dwnSmp == 0 && ntpts > 0 && ic2iy[ic] >= 0
    ensures var p := NiPoints(cum, ic2iy, adj, data, ntpts, dwnSmp, binMaxOn, bandSel, ic, wasBinMax);
      |p.y| == ntpts / dwnSmp && (p.binMax ==> |p.y2| == |p.y|)
  {
    DecimatedTrimmed(adj, cum[3], ic, ntpts, dwnSmp);
    BinCounts(adj, cum[3], ic, 0, ntpts, dwnSmp);
  }

  /** In bin-max drawing each upper and lower point enclose the first scan of their bin. */
  lemma NeuralEnvelope(cum: seq<int>, ic2iy: seq<int>, adj: nat -> int, data: seq<int>, ntpts: nat,
                       dwnSmp: nat, binMaxOn: bool, bandSel: int, ic: nat, wasBinMax: bool, j: nat)
    requires CumCounts(cum) && ic < cum[0] && |ic2iy| == cum[3] && dwnSmp >= 1
    requires ntpts > 0 && ic2iy[ic] >= 0
    requires DrawBinMax(binMaxOn, dwnSmp, bandSel)
    requires j < |Decimated(adj, cum[3], ic, 0, ntpts, dwnSmp)|
    ensures var p := NiPoints(cum, ic2iy, adj, data, ntpts, dwnSmp, binMaxOn, bandSel, ic, wasBinMax);
      j < |p.y| && j < |p.y2| && p.y2[j] <= At(adj, cum[3], ic, j * dwnSmp) <= p.y[j]
  {
    BinEnvelope(adj, cum[3], ic, 0, ntpts, dwnSmp, j);
    DecimatedAt(adj, cum[3], ic, 0, ntpts, dwnSmp, j);
  }

  /**
   * Over a trimmed block an analog or digital channel's points are its
   * stored samples of every dwnSmp-th scan, ntpts / dwnSmp of them.
   */
  lemma AuxPoints(cum: seq<int>, ic2iy: seq<int>, adj: nat -> int, data: seq<int>, ntpts: nat,
                  dwnSmp: nat, binMaxOn: bool, bandSel: int, ic: nat, wasBinMax: bool, j: nat)
    requires CumCounts(cum) && cum[0] <= ic < cum[3] && |ic2iy| == cum[3] && dwnSmp >= 1
    requires ntpts % dwnSmp == 0 && |data| == ntpts * cum[3] && ntpts > 0 && ic2iy[ic] >= 0
    requires j < ntpts / dwnSmp
    ensures var p := NiPoints(cum, ic2iy, adj, data, ntpts, dwnSmp, binMaxOn, bandSel, ic, wasBinMax);
      |p.y| == ntpts / dwnSmp && j * dwnSmp * cum[3] + ic < |data| && p.y[j] == data[j * dwnSmp * cum[3] + ic]
  {
    DecimatedTrimmed(Raw(data), cum[3], ic, ntpts, dwnSmp);
    RawPoints(data, cum[3], ic, ntpts, dwnSmp, j);
  }

  /** The points putScans computes for one channel. */
  method ChannelPoints(cum: seq<int>, ic2iy: seq<int>, adj: nat -> int, data: seq<int>, ntpts: nat,
                       dwnSmp: nat, binMaxOn: bool, bandSel: int, ic: nat, wasBinMax: bool) returns (p: Points)
    requires CumCounts(cum) && ic < cum[3] && |ic2iy| == cum[3] && dwnSmp >= 1
    requires ntpts > 0 && ic2iy[ic] >= 0
    ensures p == NiPoints(cum, ic2iy, adj, data, ntpts, dwnSmp, binMaxOn, bandSel, ic, wasBinMax)
  {
    var nC := cum[3];
    if ic < cum[0] {
      if binMaxOn && dwnSmp > 1 && bandSel != 2 {
        var y, y2 := BinMaxMin(adj, nC, ic, ntpts, dwnSmp);
        p := Points(y, y2, true);
      } else {
        var y := Decimate(adj, nC, ic, ntpts, dwnSmp);
        p := Points(y, [], false);
      }
    } else {
      var y := Decimate(Raw(data), nC, ic, ntpts, dwnSmp);
      p := Points(y, [], wasBinMax);
    }
  }

  /**
   * mySetUsrTypes as written: its digital loop stores type 2 at the first
   * digital channel on every pass, so the other digital channels keep
   * their previous type.
   */
  function NiTypesAsWritten(cum: seq<int>, prev: seq<int>): (r: seq<int>)
    requires CumCounts(cum) && |prev| == cum[3]
    ensures |r| == |prev|
  {
    seq(|prev|, ic requires 0 <= ic < |prev| =>
      if ic < cum[0] then 0 else if ic < cum[2] then 1 else if ic == cum[2] then 2 else prev[ic])
  }

  /** With two digital channels the second keeps whatever type it had. */
  lemma AsWrittenMissesDigital(cum: seq<int>, prev: seq<int>)
    requires CumCounts(cum) && |prev| == cum[3] && cum[2] + 1 < cum[3]
    ensures NiTypesAsWritten(cum, prev)[cum[2] + 1] == prev[cum[2] + 1]
  {
  }

  /**
   * One neural and two digital channels, all of type 0 as ic2Y starts:
   * as written the last digital channel is left at 0.
   */
  lemma AsWrittenCounterexample()
    ensures NiTypesAsWritten([1, 1, 1, 3], [0, 0, 0]) == [0, 2, 0]
  {
  }

  class SVGrafsNi {
    const cum: seq<int>
    const ic2iy: seq<int>
    const ic2Y: Graphs
    const srate: real
    var binMaxOn: bool
    var bandSel: int
    var hipass: Option<Biquad>
    var lopass: Option<Biquad>

    /** ic2Y has a record per channel, and only neural channels ever draw bin-max pairs. */
    ghost predicate Valid()
      reads this, ic2Y
    {
      CumCounts(cum) && |ic2iy| == cum[3] && srate > 0.0
      && ic2Y.Valid() && |ic2Y.usrType| == cum[3]
      && forall ic :: cum[0] <= ic < cum[3] ==> !ic2Y.drawBinMax[ic]
    }

    /**
     * The viewer with its saved settings: binMaxOn and bandSel are those
     * loadSettings reads (defaults true and 0); no filter is set yet.
     */
    constructor(cum: seq<int>, ic2iy: seq<int>, srate: real, binMaxOn: bool, bandSel: int)
      requires CumCounts(cum) && |ic2iy| == cum[3] && srate > 0.0
      ensures Valid() && fresh(ic2Y)
      ensures this.cum == cum && this.ic2iy == ic2iy && this.srate == srate && this.binMaxOn == binMaxOn
      ensures this.bandSel == bandSel && hipass == None && lopass == None
    {
      this.cum := cum;
      this.ic2iy := ic2iy;
      this.srate := srate;
      this.binMaxOn := binMaxOn;
      this.bandSel := bandSel;
      hipass := None;
      lopass := None;
      ic2Y := new Graphs(cum[3]);
    }

    /**
     * putScans: trims data to whole bins (returned, as the caller's vector
     * is resized), then appends each shown channel's points. The source also
     * runs the hipass/lopass filters over the neural channels of the caller's
     * vector in place; trimmed is the block before that filtering, and adj
     * gives the filtered, adjusted neural value at each data index.
     */
    method PutScans(data: seq<int>, dwnSmp: nat, adj: nat -> int) returns (trimmed: seq<int>)
      requires Valid() && dwnSmp >= 1 && cum[3] >= 1
      modifies ic2Y
      ensures Valid()
      ensures trimmed == Trim(data, dwnSmp, cum[3])
      ensures ic2Y.usrType == old(ic2Y.usrType) && ic2Y.rhsLabel == old(ic2Y.rhsLabel)
      ensures forall ic :: 0 <= ic < cum[3] ==>
        Appended(NiPoints(cum, ic2iy, adj, trimmed, TrimScans(|data|, dwnSmp, cum[3]), dwnSmp, binMaxOn, bandSel, ic, old(ic2Y.drawBinMax[ic])),
                 old(ic2Y.yval[ic]), old(ic2Y.yval2[ic]), ic2Y.drawBinMax[ic], ic2Y.yval[ic], ic2Y.yval2[ic])
    {
      var nC := cum[3];
      var dSize := |data|;
      var ntpts := TrimScans(dSize, dwnSmp, nC);
      var newSize := ntpts * nC;
      trimmed := data;
      if dSize != newSize {
        trimmed := data[..newSize];
      }
      if newSize == 0 {
        return;
      }
      ghost var b0, y0, y20 := ic2Y.drawBinMax, ic2Y.yval, ic2Y.yval2;
      ghost var bm, band := binMaxOn, bandSel;
      ghost var pts := seq(nC, j requires 0 <= j < nC => NiPoints(cum, ic2iy, adj, trimmed, ntpts, dwnSmp, bm, band, j, b0[j]));
      var ic := 0;
      while ic < nC
        invariant 0 <= ic <= nC && ic2Y.Valid() && |ic2Y.usrType| == nC
        invariant ic2Y.usrType == old(ic2Y.usrType) && ic2Y.rhsLabel == old(ic2Y.rhsLabel)
        invariant PutSoFar(pts, b0, y0, y20, ic2Y.drawBinMax, ic2Y.yval, ic2Y.yval2, ic)
      {
        if ic2iy[ic] >= 0 {
          var p := ChannelPoints(cum, ic2iy, adj, trimmed, ntpts, dwnSmp, binMaxOn, bandSel, ic, ic2Y.drawBinMax[ic]);
          PutStep(pts, b0, y0, y20, ic2Y.drawBinMax, ic2Y.yval, ic2Y.yval2, ic, p);
          ic2Y.PutData(ic, p);
        } else {
          PutSkip(pts, b0, y0, y20, ic2Y.drawBinMax, ic2Y.yval, ic2Y.yval2, ic);
        }
        ic := ic + 1;
      }
    }

    /**
     * bandSelChanged: band 0 is unfiltered, band 1 a 300 Hz high-pass, any
     * other a 0.1 Hz high-pass followed by a 300 Hz low-pass. Returns
     * whether the graphs are to be erased: in bin-max drawing, unless the
     * low-frequency band was chosen.
     */
    method BandSelChanged(sel: int) returns (erase: bool)
      requires Valid()
      modifies this`hipass, this`lopass, this`bandSel
      ensures Valid() && bandSel == sel
      ensures sel == 0 <==> hipass.None?
      ensures lopass.Some? <==> sel != 0 && sel != 1
      ensures hipass.Some? ==> hipass.value.kind == Highpass && hipass.value.fc == (if sel == 1 then 300.0 else 0.1) / srate
      ensures lopass.Some? ==> lopass.value.kind == Lowpass && lopass.value.fc == 300.0 / srate
      ensures lopass.Some? ==> hipass.Some? && hipass.value.fc < lopass.value.fc
      ensures erase <==> binMaxOn && sel != 2
    {
      hipass := None;
      lopass := None;
      if sel == 0 {
      } else if sel == 1 {
        hipass := Some(Biquad(Highpass, 300.0 / srate));
      } else {
        hipass := Some(Biquad(Highpass, 0.1 / srate));
        lopass := Some(Biquad(Lowpass, 300.0 / srate));
        assert 0.1 / srate < 300.0 / srate;
      }
      bandSel := sel;
      erase := binMaxOn && sel != 2;
    }

    /** mySetUsrTypes as written: see NiTypesAsWritten. Returns the digital type. */
    method MySetUsrTypesAsWritten() returns (digitalType: int)
      requires Valid()
      modifies ic2Y`usrType
      ensures Valid() && digitalType == 2
      ensures ic2Y.usrType == NiTypesAsWritten(cum, old(ic2Y.usrType))
    {
      ic2Y.SetTypes(0, cum[0], 0);
      ic2Y.SetTypes(cum[0], cum[2], 1);
      var c0, cLim := cum[2], cum[3];
      var ic := c0;
      while ic < cLim
        invariant c0 <= ic <= cLim && ic2Y.Valid() && |ic2Y.usrType| == cum[3]
        invariant forall k :: 0 <= k < cum[3] ==>
          ic2Y.usrType[k] == (if k < cum[0] then 0 else if k < cum[2] then 1 else if k == c0 && c0 < ic then 2 else old(ic2Y.usrType)[k])
      {
        ic2Y.usrType := ic2Y.usrType[c0 := 2];
        ic := ic + 1;
      }
      return 2;
    }

    /**
     * mySetUsrTypes as intended: neural channels type 0, analog type 1,
     * every digital channel type 2; returns the digital type.
     */
    method MySetUsrTypes() returns (digitalType: int)
      requires Valid()
      modifies ic2Y`usrType
      ensures Valid() && digitalType == 2
      ensures forall ic :: 0 <= ic < cum[3] ==> ic2Y.usrType[ic] == if ic < cum[0] then 0 else if ic < cum[2] then 1 else 2
    {
      ic2Y.SetTypes(0, cum[0], 0);
      ic2Y.SetTypes(cum[0], cum[2], 1);
      ic2Y.SetTypes(cum[2], cum[3], 2);
      return 2;
    }

    /** updateRHSFlags over the NI save bits and the audio channels. */
    method UpdateRHSFlags(saveBits: seq<bool>, audio: seq<int>)
      requires Valid() && |saveBits| >= cum[3]
      requires forall k :: 0 <= k < |audio| ==> 0 <= audio[k] < cum[3]
      modifies ic2Y`rhsLabel
      ensures Valid()
      ensures forall ic :: 0 <= ic < cum[3] ==> ic2Y.rhsLabel[ic] == RhsLabel(saveBits[ic], ic in audio)
    {
      ic2Y.UpdateRHSFlags(saveBits, audio);
    }
  }
}
