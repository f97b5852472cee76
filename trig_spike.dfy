/**
 * The spike trigger: a high-pass functor that zeroes filter transients,
 * per-stream peri-event windows fetched from the sample queues, the edge
 * search with its start clamp and resume cache, the partition of the imec
 * probes into worker groups, and the GetEdge -> Write -> Done loop.
 *
 * The sample queues (getNScansFromCt, nextCt, qHeadCt, mapTime2Ct,
 * mapCt2Time, findFltFallingEdge), the stream alignment and the file
 * writer are collaborators whose code is not part of this model: their
 * answers enter as parameters.
 */
module TrigSpike {
  import opened QtText

  /* ---------------------------------------------------------------- */
  /* HiPassFnctr ----------------------------------------------------- */
  /* ---------------------------------------------------------------- */

  /**
   * s with the samples of channel ichan in the first k scans set to 0;
   * s is interleaved, nchans samples per scan.
   */
  function Zeroed(s: seq<int>, nchans: int, ichan: int, k: int): (r: seq<int>)
    requires nchans > 0
    ensures |r| == |s|
  {
    seq(|s|, i requires 0 <= i < |s| => if i % nchans == ichan && i / nchans < k then 0 else s[i])
  }

  lemma MulAtLeast(a: int, n: int)
    requires a >= 1 && n > 0
    ensures a * n >= n
  {
    assert a * n == (a - 1) * n + n;
    assert (a - 1) * n >= 0;
  }

  /** Sample t * n + c belongs to scan t and channel c. */
  lemma ScanChannel(t: int, c: int, n: int)
    requires n > 0 && 0 <= c < n && t >= 0
    ensures (t * n + c) % n == c && (t * n + c) / n == t
  {
    var x := t * n + c;
    var q, r := x / n, x % n;
    assert x == q * n + r;
    assert (q - t) * n == c - r;
    if q > t {
      MulAtLeast(q - t, n);
      assert false;
    } else if q < t {
      MulAtLeast(t - q, n);
      assert false;
    }
  }

  /** The sample of channel ichan in scan j of a block of ntpts whole scans lies inside the block. */
  lemma InBlock(j: int, ntpts: int, nchans: int, ichan: int, len: int)
    requires nchans > 0 && 0 <= ichan < nchans && 0 <= j < ntpts && len >= 0
    requires ntpts <= len / nchans
    ensures 0 <= ichan + j * nchans < len
  {
    assert j * nchans >= 0;
    assert ntpts * nchans == (ntpts - j - 1) * nchans + j * nchans + nchans;
    assert (ntpts - j - 1) * nchans >= 0;
    assert (len / nchans - ntpts) * nchans >= 0;
    assert len == (len / nchans) * nchans + len % nchans;
  }

  /**
   * Stated per scan t and channel c: exactly the first k samples of
   * channel ichan become 0, and no other channel's sample changes.
   */
  lemma ZeroedExactly(s: seq<int>, nchans: int, ichan: int, k: int, t: int, c: int)
    requires nchans > 0 && 0 <= c < nchans && t >= 0 && t * nchans + c < |s|
    ensures Zeroed(s, nchans, ichan, k)[t * nchans + c] == if c == ichan && t < k then 0 else s[t * nchans + c]
  {
    ScanChannel(t, c, nchans);
  }

  lemma ZeroedNone(s: seq<int>, nchans: int, ichan: int)
    requires nchans > 0
    ensures Zeroed(s, nchans, ichan, 0) == s
  {
  }

  /**
   * The functor handed to the edge scanner. hasFilter says whether the
   * constructor created a Biquad; transWide is BIQUAD_TRANS_WIDE.
   */
  class HiPassFnctr {
    const hasFilter: bool
    const nchans: int
    const ichan: int
    const transWide: nat
    var nzero: int

    predicate Valid()
      reads this
    {
      hasFilter ==> 0 <= ichan < nchans
    }

    /**
     * HiPassFnctr( p ): a filter only for a neural channel of the trigger
     * stream (below niCumTypCnt[niSumNeural] for nidq, below
     * imCumTypCnt[imSumAP] for imec); then nchans is the stream's whole
     * channel count. The constructor ends with reset().
     */
    constructor (isNidq: bool, ichan: int, niCumTypCnt: seq<int>, imCumTypCnt: seq<int>, transWide: nat)
      requires |niCumTypCnt| == 4 && |imCumTypCnt| == 3
      requires 0 <= ichan
      requires niCumTypCnt[0] <= niCumTypCnt[3] && imCumTypCnt[0] <= imCumTypCnt[2]
      ensures Valid()
      ensures this.ichan == ichan && this.transWide == transWide
      ensures hasFilter <==> (if isNidq then ichan < niCumTypCnt[0] else ichan < imCumTypCnt[0])
      ensures hasFilter ==> nchans == (if isNidq then niCumTypCnt[3] else imCumTypCnt[2])
      ensures !hasFilter ==> nchans == 0
      ensures nzero == transWide
    {
      this.ichan := ichan;
      this.transWide := transWide;
      if isNidq {
        hasFilter := ichan < niCumTypCnt[0];
        nchans := if ichan < niCumTypCnt[0] then niCumTypCnt[3] else 0;
      } else {
        hasFilter := ichan < imCumTypCnt[0];
        nchans := if ichan < imCumTypCnt[0] then imCumTypCnt[2] else 0;
      }
      nzero := transWide;
    }

    /** HiPassFnctr::reset. */
    method Reset()
      modifies this
      ensures nzero == transWide
    {
      nzero := transWide;
    }

    /**
     * HiPassFnctr::operator(): the block is filtered (the Biquad's output
     * is the filtered parameter), then while nzero > 0 the first
     * min(ntpts, nzero) samples of channel ichan are zeroed and nzero is
     * reduced by that many. Without a filter nothing happens.
     */
    method Apply(data: array<int>, filtered: seq<int>)
      requires Valid()
      requires |filtered| == data.Length
      requires hasFilter ==> forall i :: 0 <= i < |filtered| && i % nchans != ichan ==> filtered[i] == data[i]
      modifies this, data
      ensures !hasFilter ==> data[..] == old(data[..]) && nzero == old(nzero)
      ensures hasFilter ==>
        var ntpts := data.Length / nchans;
        var k := if old(nzero) > 0 then Min(ntpts, old(nzero)) else 0;
        data[..] == Zeroed(filtered, nchans, ichan, k) && nzero == old(nzero) - k
      ensures hasFilter ==> forall i :: 0 <= i < data.Length && i % nchans != ichan ==> data[i] == old(data[i])
      ensures old(nzero) >= 0 ==> nzero >= 0
    {
      if hasFilter {
        var ntpts := data.Length / nchans;
        forall i | 0 <= i < data.Length {
          data[i] := filtered[i];
        }
        assert data[..] == filtered;
        ZeroedNone(filtered, nchans, ichan);
        if nzero > 0 {
          if ntpts > nzero {
            ntpts := nzero;
          }
          ZeroChannel(data, nchans, ichan, ntpts);
          nzero := nzero - ntpts;
        }
      }
    }
  }

  /** The pointer loop of operator(): channel ichan of scans 0 .. k-1 set to 0. */
  method ZeroChannel(data: array<int>, nchans: int, ichan: int, k: int)
    requires 0 <= ichan < nchans && 0 <= k <= data.Length / nchans
    modifies data
    ensures data[..] == Zeroed(old(data[..]), nchans, ichan, k)
  {
    ghost var s := data[..];
    ZeroedNone(s, nchans, ichan);
    var j := 0;
    while j < k
      invariant 0 <= j <= k
      invariant data[..] == Zeroed(s, nchans, ichan, j)
    {
      var d := ichan + j * nchans;
      InBlock(j, k, nchans, ichan, data.Length);
      data[d] := 0;
      ZeroStep(s, nchans, ichan, j, data[..]);
      j := j + 1;
    }
  }

  function Min(a: int, b: int): int { if a < b then a else b }

  lemma ZeroStep(s: seq<int>, nchans: int, ichan: int, j: int, r: seq<int>)
    requires nchans > 0 && 0 <= ichan < nchans && j >= 0
    requires ichan + j * nchans < |s| == |r|
    requires r == Zeroed(s, nchans, ichan, j)[ichan + j * nchans := 0]
    ensures r == Zeroed(s, nchans, ichan, j + 1)
  {
    ScanChannel(j, ichan, nchans);
    forall i | 0 <= i < |s|
      ensures r[i] == Zeroed(s, nchans, ichan, j + 1)[i]
    {
      if i % nchans == ichan && i / nchans == j {
        assert i == (i / nchans) * nchans + i % nchans;
      }
    }
  }

  /* ---------------------------------------------------------------- */
  /* Peri-event windows ---------------------------------------------- */
  /* ---------------------------------------------------------------- */

  /** The per-stream tracking pair: next count to fetch, scans still owed. */
  datatype Window = Window(nextCt: int, remCt: int)

  /** remCt == -1 marks a window not yet opened for the current edge. */
  const UNOPENED: int := -1

  /** What getNScansFromCt returned: nb blocks, the first block's headCt, and nextCt( vB ). */
  datatype Fetch = Fetch(nb: nat, headCt: int, endCt: int)

  /**
   * First use of a window: it starts periEvtCt before the edge and is
   * 2 * periEvtCt + 1 scans long, so the edge is its middle scan.
   */
  function Open(w: Window, edgeCt: int, periEvtCt: nat): (r: Window)
    ensures w.remCt != UNOPENED ==> r == w
    ensures w.remCt == UNOPENED ==>
      edgeCt - r.nextCt == periEvtCt && (r.nextCt + r.remCt - 1) - edgeCt == periEvtCt
  {
    if w.remCt == UNOPENED then Window(edgeCt - periEvtCt, 2 * periEvtCt + 1) else w
  }

  /**
   * The tracking update after a fetch: nothing for an empty fetch,
   * otherwise the window moves to nextCt( vB ) and owes as many scans
   * fewer as were fetched.
   */
  function Track(w: Window, f: Fetch): (r: Window)
    ensures f.nb == 0 ==> r == w
    ensures f.nb != 0 ==> r.nextCt == f.endCt && w.remCt - r.remCt == f.endCt - f.headCt
  {
    if f.nb == 0 then w else Window(f.endCt, w.remCt - (f.endCt - f.headCt))
  }

  /**
   * What the queue promises of a fetch: it starts where the window asks,
   * and delivers no more scans than are owed.
   */
  predicate Fits(w: Window, f: Fetch)
  {
    f.nb == 0 || (f.headCt == w.nextCt && f.headCt <= f.endCt && f.endCt - f.headCt <= w.remCt)
  }

  function TrackAll(w: Window, fs: seq<Fetch>): Window
    decreases |fs|
  {
    if fs == [] then w else TrackAll(Track(w, fs[0]), fs[1..])
  }

  predicate FitsAll(w: Window, fs: seq<Fetch>)
    decreases |fs|
  {
    fs == [] || (Fits(w, fs[0]) && FitsAll(Track(w, fs[0]), fs[1..]))
  }

  /** Scans delivered by a run of fetches. */
  function Scans(fs: seq<Fetch>): int
  {
    if fs == [] then 0 else (if fs[0].nb == 0 then 0 else fs[0].endCt - fs[0].headCt) + Scans(fs[1..])
  }

  /**
   * Over any run of fetches that fit, the end of the window
   * (nextCt + remCt) never moves, remCt stays between 0 and where it
   * started, and nextCt advances by exactly the scans delivered.
   */
  lemma {:induction false} TrackAllCovers(w: Window, fs: seq<Fetch>)
    requires w.remCt >= 0
    requires FitsAll(w, fs)
    ensures TrackAll(w, fs).nextCt + TrackAll(w, fs).remCt == w.nextCt + w.remCt
    ensures 0 <= TrackAll(w, fs).remCt <= w.remCt
    ensures TrackAll(w, fs).nextCt == w.nextCt + Scans(fs)
    decreases |fs|
  {
    if fs != [] {
      TrackAllCovers(Track(w, fs[0]), fs[1..]);
    }
  }

  /**
   * A freshly opened window is complete (remCt <= 0) after a run of
   * fitting fetches exactly when they delivered all 2 * periEvtCt + 1
   * scans, i.e. when the fetch position has passed edgeCt + periEvtCt.
   */
  lemma WindowComplete(edgeCt: int, periEvtCt: nat, fs: seq<Fetch>)
    requires FitsAll(Open(Window(0, UNOPENED), edgeCt, periEvtCt), fs)
    ensures var r := TrackAll(Open(Window(0, UNOPENED), edgeCt, periEvtCt), fs);
      (r.remCt <= 0 <==> Scans(fs) == 2 * periEvtCt + 1) &&
      (r.remCt <= 0 <==> r.nextCt == edgeCt + periEvtCt + 1)
  {
    TrackAllCovers(Open(Window(0, UNOPENED), edgeCt, periEvtCt), fs);
  }

  /* ---------------------------------------------------------------- */
  /* Edge search ----------------------------------------------------- */
  /* ---------------------------------------------------------------- */

  /** Counts' stream constants, in scans. */
  datatype CountParams = CountParams(periEvtCt: nat, latencyCt: nat, refracCt: nat)

  /** findFltFallingEdge's answer for a search starting at a count: found, and its out-count. */
  datatype EdgeScan = EdgeScan(found: bool, pos: int)

  datatype EdgeResult = EdgeResult(found: bool, aEdgeCt: int, aEdgeCtNext: int, bEdgeCt: int, resetFilter: bool)

  /**
   * The effect of getEdge. scan is the edge finder by start count; mapB
   * maps an A count to a B count through wall time (None when B cannot
   * map it, leaving bEdgeCt as it was), align is alignX12's correction of
   * the B count.
   */
  function EdgeStep(aEdgeCt: int, aEdgeCtNext: int, minCt: int, scan: int -> EdgeScan,
                    hasB: bool, mapB: int -> Option<int>, align: (int, int) -> int, bEdgeCt: int): EdgeResult
  {
    var reset := aEdgeCt < minCt;
    var start := if reset then minCt else aEdgeCt;
    var cached := aEdgeCtNext != 0;
    var found1 := cached || scan(start).found;
    var next := if cached then aEdgeCtNext else scan(start).pos;
    var a1 := if found1 then start else next;
    var n1 := if found1 then next else 0;
    var m := if found1 && hasB then mapB(n1) else None;
    var found := found1 && (!hasB || m.Some?);
    var b1 := if m.Some? then m.value else bEdgeCt;
    if found then EdgeResult(true, n1, 0, align(n1, b1), reset)
    else EdgeResult(false, a1, n1, b1, reset)
  }

  /** The filter is reset, and the search starts at minCt, exactly when aEdgeCt was below minCt. */
  lemma EdgeClamp(aEdgeCt: int, minCt: int, scan: int -> EdgeScan, hasB: bool,
                  mapB: int -> Option<int>, align: (int, int) -> int, bEdgeCt: int)
    ensures EdgeStep(aEdgeCt, 0, minCt, scan, hasB, mapB, align, bEdgeCt).resetFilter <==> aEdgeCt < minCt
    ensures var start := if aEdgeCt < minCt then minCt else aEdgeCt;
      start >= minCt && start >= aEdgeCt &&
      (!scan(start).found ==> EdgeStep(aEdgeCt, 0, minCt, scan, hasB, mapB, align, bEdgeCt)
                              == EdgeResult(false, scan(start).pos, 0, bEdgeCt, aEdgeCt < minCt))
  {
  }

  /**
   * When the edge finder never answers a count before its start, getEdge
   * leaves aEdgeCt at or after minCt, found or not.
   */
  lemma EdgeNeverBeforeMin(aEdgeCt: int, minCt: int, scan: int -> EdgeScan, hasB: bool,
                           mapB: int -> Option<int>, align: (int, int) -> int, bEdgeCt: int)
    requires forall s :: scan(s).pos >= s
    ensures EdgeStep(aEdgeCt, 0, minCt, scan, hasB, mapB, align, bEdgeCt).aEdgeCt >= minCt
  {
    var start := if aEdgeCt < minCt then minCt else aEdgeCt;
    assert scan(start).pos >= start;
  }

  /**
   * A found A edge whose B mapping failed is kept in aEdgeCtNext: the
   * call reports not found, aEdgeCt stays at the clamped start, and B's
   * count is untouched.
   */
  lemma EdgeMapFailureCaches(aEdgeCt: int, minCt: int, scan: int -> EdgeScan,
                             mapB: int -> Option<int>, align: (int, int) -> int, bEdgeCt: int)
    requires var start := if aEdgeCt < minCt then minCt else aEdgeCt;
      scan(start).found && mapB(scan(start).pos).None?
    ensures var start := if aEdgeCt < minCt then minCt else aEdgeCt;
      EdgeStep(aEdgeCt, 0, minCt, scan, true, mapB, align, bEdgeCt)
      == EdgeResult(false, start, scan(start).pos, bEdgeCt, aEdgeCt < minCt)
  {
  }

  /** With a cached A edge the finder is not consulted: any two finders give the same outcome. */
  lemma EdgeCacheSkipsSearch(aEdgeCt: int, aEdgeCtNext: int, minCt: int, scan1: int -> EdgeScan,
                             scan2: int -> EdgeScan, hasB: bool, mapB: int -> Option<int>,
                             align: (int, int) -> int, bEdgeCt: int)
    requires aEdgeCtNext != 0
    ensures EdgeStep(aEdgeCt, aEdgeCtNext, minCt, scan1, hasB, mapB, align, bEdgeCt)
         == EdgeStep(aEdgeCt, aEdgeCtNext, minCt, scan2, hasB, mapB, align, bEdgeCt)
    ensures !hasB ==> EdgeStep(aEdgeCt, aEdgeCtNext, minCt, scan1, hasB, mapB, align, bEdgeCt).found
  {
  }

  /**
   * On success aEdgeCt becomes the found (or cached) position, the cache
   * is emptied, and B's count is the aligned mapping of that position.
   */
  lemma EdgeFound(aEdgeCt: int, aEdgeCtNext: int, minCt: int, scan: int -> EdgeScan, hasB: bool,
                  mapB: int -> Option<int>, align: (int, int) -> int, bEdgeCt: int)
    requires EdgeStep(aEdgeCt, aEdgeCtNext, minCt, scan, hasB, mapB, align, bEdgeCt).found
    ensures var r := EdgeStep(aEdgeCt, aEdgeCtNext, minCt, scan, hasB, mapB, align, bEdgeCt);
      var start := if aEdgeCt < minCt then minCt else aEdgeCt;
      var pos := if aEdgeCtNext != 0 then aEdgeCtNext else scan(start).pos;
      r.aEdgeCt == pos && r.aEdgeCtNext == 0 &&
      (hasB ==> mapB(pos).Some? && r.bEdgeCt == align(pos, mapB(pos).value)) &&
      (!hasB ==> r.bEdgeCt == align(pos, bEdgeCt))
  {
  }

  /* ---------------------------------------------------------------- */
  /* Worker partition ------------------------------------------------ */
  /* ---------------------------------------------------------------- */

  const nPrbPerThd: int := 2

  function Indices(n: nat): (r: seq<int>)
    ensures |r| == n && forall i :: 0 <= i < n ==> r[i] == i
  {
    seq(n, i => i)
  }

  function Flatten(gs: seq<seq<int>>): seq<int>
  {
    if gs == [] then [] else Flatten(gs[..|gs| - 1]) + gs[|gs| - 1]
  }

  lemma FlattenSnoc(gs: seq<seq<int>>, g: seq<int>)
    ensures Flatten(gs + [g]) == Flatten(gs) + g
  {
    assert (gs + [g])[..|gs|] == gs;
  }

  /**
   * The index lists of the trigger's worker threads: groups of at most
   * two probes, in order, covering [0, nImQ) once; one group per thread.
   */
  method Partition(nImQ: int) returns (groups: seq<seq<int>>, nThd: int)
    ensures nThd == |groups| == (if nImQ <= 0 then 0 else (nImQ + 1) / 2)
    ensures forall g :: 0 <= g < |groups| ==> 1 <= |groups[g]| <= nPrbPerThd
    ensures Flatten(groups) == Indices(if nImQ <= 0 then 0 else nImQ)
  {
    groups := [];
    nThd := 0;
    var ip0 := 0;
    while ip0 < nImQ
      invariant 0 <= ip0 && ip0 == nPrbPerThd * nThd && nThd == |groups|
      invariant ip0 <= (if nImQ <= 0 then 0 else nImQ) + 1
      invariant ip0 > nImQ ==> ip0 == (if nImQ <= 0 then 0 else nImQ + 1)
      invariant forall g :: 0 <= g < |groups| ==> 1 <= |groups[g]| <= nPrbPerThd
      invariant Flatten(groups) == Indices(Min(ip0, if nImQ <= 0 then 0 else nImQ))
    {
      var vID: seq<int> := [];
      var id := 0;
      while id < nPrbPerThd
        invariant 0 <= id <= nPrbPerThd && ip0 + id <= nImQ
        invariant vID == seq(id, k => ip0 + k)
      {
        if ip0 + id < nImQ {
          vID := vID + [ip0 + id];
        } else {
          break;
        }
        id := id + 1;
      }
      FlattenSnoc(groups, vID);
      assert Indices(ip0) + vID == Indices(ip0 + |vID|);
      groups := groups + [vID];
      nThd := nThd + 1;
      ip0 := ip0 + nPrbPerThd;
    }
  }

  /* ---------------------------------------------------------------- */
  /* Gate start ------------------------------------------------------ */
  /* ---------------------------------------------------------------- */

  /**
   * The gate-start test as written: no imec edge counts yet, or no NI
   * edge count yet. With no imec stream the first part never clears, and
   * with no NI stream the second never does.
   */
  function GateStartAsWritten(imEdgeCount: nat, niEdgeCt: int): bool
  {
    imEdgeCount == 0 || niEdgeCt == 0
  }

  /** The gate-start test with each stream's part asked only of a stream that exists. */
  function GateStartPending(nImQ: nat, hasNiQ: bool, imEdgeCount: nat, niEdgeCt: int): (r: bool)
    ensures nImQ > 0 && hasNiQ ==> r == GateStartAsWritten(imEdgeCount, niEdgeCt)
  {
    (nImQ > 0 && imEdgeCount == 0) || (hasNiQ && niEdgeCt == 0)
  }

  /**
   * With an NI stream and no imec stream, the test as written still
   * holds after the gate start set the NI edge count, so every later
   * pass sets the edge back to the gate count.
   */
  lemma GateStartRepeatsWithoutImec(niGateCt: int)
    requires niGateCt != 0
    ensures GateStartAsWritten(0, niGateCt)
    ensures !GateStartPending(0, true, 0, niGateCt)
  {
  }

  /**
   * Likewise for one imec stream and no NI stream, whose edge count is 0
   * until the first completed trigger adds the NI refractory count.
   */
  lemma GateStartRepeatsWithoutNi(nImQ: nat)
    requires nImQ > 0
    ensures GateStartAsWritten(nImQ, 0)
    ensures !GateStartPending(nImQ, false, nImQ, 0)
  {
  }

  /**
   * Once a gate start has seeded every existing stream with a non-zero
   * count, the corrected test stays false however far the refractory
   * advances move the edges, so those advances survive the next pass.
   */
  lemma GateStartOnce(nImQ: nat, hasNiQ: bool, niEdgeCt: int, refracCt: nat, k: nat)
    requires hasNiQ ==> niEdgeCt > 0
    ensures !GateStartPending(nImQ, hasNiQ, nImQ, niEdgeCt + k * refracCt)
  {
    assert k * refracCt >= 0;
  }

  /* ---------------------------------------------------------------- */
  /* TrigSpike ------------------------------------------------------- */
  /* ---------------------------------------------------------------- */

  datatype TState = GetEdge | Write | Done

  /** p.trgSpike.stream: "nidq", or the imec stream of probe ip. */
  datatype Stream = Nidq | Imec(ip: int)

  /** What the queues and the writer answer during one pass of the loop. */
  datatype TickEnv = TickEnv(
    gateHi: bool,
    gateImCt: Option<int>,
    gateNiCt: Option<int>,
    qHeadCt: int,
    scan: int -> EdgeScan,
    mapB: int -> Option<int>,
    align: (int, int) -> int,
    newTrigOK: bool,
    imFetch: seq<Fetch>,
    imWriteOK: seq<bool>,
    niFetch: Fetch,
    niWriteOK: bool)

  function AllDone(ws: seq<Window>): bool
  {
    forall i :: 0 <= i < |ws| ==> ws[i].remCt <= 0
  }

  function Advanced(edges: seq<int>, refracCt: nat): (r: seq<int>)
    ensures |r| == |edges| && forall i :: 0 <= i < |edges| ==> r[i] == edges[i] + refracCt
  {
    seq(|edges|, i requires 0 <= i < |edges| => edges[i] + refracCt)
  }

  function Filled(x: int, n: nat): (r: seq<int>)
    ensures |r| == n && forall i :: 0 <= i < n ==> r[i] == x
  {
    seq(n, _ => x)
  }

  function Unopened(ws: seq<Window>): (r: seq<Window>)
    ensures |r| == |ws| && forall i :: 0 <= i < |ws| ==> r[i] == Window(ws[i].nextCt, UNOPENED)
  {
    seq(|ws|, i requires 0 <= i < |ws| => Window(ws[i].nextCt, UNOPENED))
  }

  /** A write fails only when blocks came back and the writer refused them. */
  predicate WriteFails(f: Fetch, writeOK: bool)
  {
    f.nb != 0 && !writeOK
  }

  /** One probe's step of writeSomeIM: open the window on first use, then track the fetch. */
  function WindowStep(w: Window, edgeCt: int, f: Fetch, periEvtCt: nat): Window
  {
    Track(Open(w, edgeCt, periEvtCt), f)
  }

  /**
   * The imec windows after one worker's pass over the probes vID: each
   * probe in turn takes its window step, and the pass stops after the
   * first probe whose write fails.
   */
  function WorkerWins(ws: seq<Window>, edges: seq<int>, vID: seq<int>, fs: seq<Fetch>, oks: seq<bool>,
                      periEvtCt: nat): (r: seq<Window>)
    requires |fs| == |oks| == |ws| == |edges|
    requires forall k :: 0 <= k < |vID| ==> 0 <= vID[k] < |ws|
    ensures |r| == |ws|
    ensures forall i :: 0 <= i < |ws| && i !in vID ==> r[i] == ws[i]
    decreases |vID|
  {
    if vID == [] then ws
    else
      var ip := vID[0];
      var ws1 := ws[ip := WindowStep(ws[ip], edges[ip], fs[ip], periEvtCt)];
      if WriteFails(fs[ip], oks[ip]) then ws1 else WorkerWins(ws1, edges, vID[1..], fs, oks, periEvtCt)
  }

  /** No write of a probe listed in vID fails. */
  predicate WorkerOK(vID: seq<int>, fs: seq<Fetch>, oks: seq<bool>)
    requires |fs| == |oks|
    requires forall k :: 0 <= k < |vID| ==> 0 <= vID[k] < |fs|
  {
    forall k :: 0 <= k < |vID| ==> !WriteFails(fs[vID[k]], oks[vID[k]])
  }

  /** The imec windows after every worker group in gs made its pass, in order. */
  function XferWins(ws: seq<Window>, edges: seq<int>, gs: seq<seq<int>>, fs: seq<Fetch>, oks: seq<bool>,
                    periEvtCt: nat): (r: seq<Window>)
    requires |fs| == |oks| == |ws| == |edges|
    requires forall g, k :: 0 <= g < |gs| && 0 <= k < |gs[g]| ==> 0 <= gs[g][k] < |ws|
    ensures |r| == |ws|
    decreases |gs|
  {
    if gs == [] then ws
    else
      WorkerWins(XferWins(ws, edges, gs[..|gs| - 1], fs, oks, periEvtCt), edges, gs[|gs| - 1], fs, oks, periEvtCt)
  }

  /** No write of a probe in any group fails. */
  predicate GroupsOK(gs: seq<seq<int>>, fs: seq<Fetch>, oks: seq<bool>)
    requires |fs| == |oks|
    requires forall g, k :: 0 <= g < |gs| && 0 <= k < |gs[g]| ==> 0 <= gs[g][k] < |fs|
  {
    forall g, k :: 0 <= g < |gs| && 0 <= k < |gs[g]| ==> !WriteFails(fs[gs[g][k]], oks[gs[g][k]])
  }

  lemma GroupsOKSnoc(gs: seq<seq<int>>, g: seq<int>, fs: seq<Fetch>, oks: seq<bool>)
    requires |fs| == |oks|
    requires forall h, k :: 0 <= h < |gs| && 0 <= k < |gs[h]| ==> 0 <= gs[h][k] < |fs|
    requires forall k :: 0 <= k < |g| ==> 0 <= g[k] < |fs|
    ensures GroupsOK(gs + [g], fs, oks) <==> GroupsOK(gs, fs, oks) && WorkerOK(g, fs, oks)
  {
    var u := gs + [g];
    assert forall h :: 0 <= h < |gs| ==> u[h] == gs[h];
    assert u[|gs|] == g;
  }

  lemma XferWinsSnoc(ws: seq<Window>, edges: seq<int>, gs: seq<seq<int>>, g: seq<int>, fs: seq<Fetch>,
                     oks: seq<bool>, periEvtCt: nat)
    requires |fs| == |oks| == |ws| == |edges|
    requires forall h, k :: 0 <= h < |gs| && 0 <= k < |gs[h]| ==> 0 <= gs[h][k] < |ws|
    requires forall k :: 0 <= k < |g| ==> 0 <= g[k] < |ws|
    ensures XferWins(ws, edges, gs + [g], fs, oks, periEvtCt)
         == WorkerWins(XferWins(ws, edges, gs, fs, oks, periEvtCt), edges, g, fs, oks, periEvtCt)
  {
    assert (gs + [g])[..|gs|] == gs;
  }

  predicate Distinct(s: seq<int>)
  {
    forall a, b :: 0 <= a < b < |s| ==> s[a] != s[b]
  }

  lemma DistinctTail(s: seq<int>)
    requires Distinct(s) && s != []
    ensures s[0] !in s[1..] && Distinct(s[1..])
  {
    var t := s[1..];
    forall k | 0 <= k < |t| ensures t[k] != s[0] {
      assert t[k] == s[k + 1];
    }
    forall a, b | 0 <= a < b < |t| ensures t[a] != t[b] {
      assert t[a] == s[a + 1] && t[b] == s[b + 1];
    }
  }

  lemma WorkerOKCons(ip: int, t: seq<int>, fs: seq<Fetch>, oks: seq<bool>)
    requires |fs| == |oks| && 0 <= ip < |fs|
    requires forall k :: 0 <= k < |t| ==> 0 <= t[k] < |fs|
    ensures WorkerOK([ip] + t, fs, oks) <==> !WriteFails(fs[ip], oks[ip]) && WorkerOK(t, fs, oks)
  {
    var u := [ip] + t;
    if WorkerOK(u, fs, oks) {
      forall k | 0 <= k < |t| ensures !WriteFails(fs[t[k]], oks[t[k]]) {
        assert u[k + 1] == t[k];
      }
      assert u[0] == ip;
    }
    if !WriteFails(fs[ip], oks[ip]) && WorkerOK(t, fs, oks) {
      forall k | 0 <= k < |u| ensures !WriteFails(fs[u[k]], oks[u[k]]) {
        if k > 0 {
          assert u[k] == t[k - 1];
        }
      }
    }
  }

  /**
   * In one worker's pass over distinct probes, probe vID[j] takes its
   * window step exactly when no earlier probe of the pass failed to
   * write; otherwise its window is untouched.
   */
  lemma {:induction false} WorkerWinsAt(ws: seq<Window>, edges: seq<int>, vID: seq<int>, fs: seq<Fetch>,
                                        oks: seq<bool>, periEvtCt: nat, j: int)
    requires |fs| == |oks| == |ws| == |edges|
    requires forall k :: 0 <= k < |vID| ==> 0 <= vID[k] < |ws|
    requires Distinct(vID) && 0 <= j < |vID|
    ensures WorkerWins(ws, edges, vID, fs, oks, periEvtCt)[vID[j]] ==
      if WorkerOK(vID[..j], fs, oks) then WindowStep(ws[vID[j]], edges[vID[j]], fs[vID[j]], periEvtCt)
      else ws[vID[j]]
    decreases |vID|
  {
    var ip := vID[0];
    var ws1 := ws[ip := WindowStep(ws[ip], edges[ip], fs[ip], periEvtCt)];
    var rest := vID[1..];
    assert WorkerWins(ws, edges, vID, fs, oks, periEvtCt)
        == if WriteFails(fs[ip], oks[ip]) then ws1 else WorkerWins(ws1, edges, rest, fs, oks, periEvtCt);
    DistinctTail(vID);
    if j == 0 {
      assert vID[..0] == [];
    } else {
      assert rest[j - 1] == vID[j];
      assert vID[..j] == [ip] + rest[..j - 1];
      WorkerOKCons(ip, rest[..j - 1], fs, oks);
      if !WriteFails(fs[ip], oks[ip]) {
        WorkerWinsAt(ws1, edges, rest, fs, oks, periEvtCt, j - 1);
        assert ws1[vID[j]] == ws[vID[j]];
        assert WorkerOK(vID[..j], fs, oks) == WorkerOK(rest[..j - 1], fs, oks);
      } else {
        assert !WorkerOK(vID[..j], fs, oks);
        assert ws1[vID[j]] == ws[vID[j]];
      }
    }
  }

  /**
   * When no write fails and the groups list every probe at most once,
   * xferAll gives each listed probe its window step, and leaves every
   * other window alone.
   */
  lemma {:induction false} XferWinsAt(ws: seq<Window>, edges: seq<int>, gs: seq<seq<int>>, fs: seq<Fetch>,
                                      oks: seq<bool>, periEvtCt: nat, i: int)
    requires |fs| == |oks| == |ws| == |edges|
    requires forall g, k :: 0 <= g < |gs| && 0 <= k < |gs[g]| ==> 0 <= gs[g][k] < |ws|
    requires Distinct(Flatten(gs))
    requires forall k :: 0 <= k < |ws| ==> !WriteFails(fs[k], oks[k])
    requires 0 <= i < |ws|
    ensures XferWins(ws, edges, gs, fs, oks, periEvtCt)[i] ==
      if i in Flatten(gs) then WindowStep(ws[i], edges[i], fs[i], periEvtCt) else ws[i]
    decreases |gs|
  {
    if gs != [] {
      var front, last := gs[..|gs| - 1], gs[|gs| - 1];
      assert gs == front + [last];
      FlattenSnoc(front, last);
      var flat := Flatten(front);
      assert Flatten(gs) == flat + last;
      assert Distinct(flat) by {
        forall a, b | 0 <= a < b < |flat| ensures flat[a] != flat[b] {
          assert Flatten(gs)[a] == flat[a] && Flatten(gs)[b] == flat[b];
        }
      }
      assert Distinct(last) by {
        forall a, b | 0 <= a < b < |last| ensures last[a] != last[b] {
          assert Flatten(gs)[|flat| + a] == last[a] && Flatten(gs)[|flat| + b] == last[b];
        }
      }
      XferWinsAt(ws, edges, front, fs, oks, periEvtCt, i);
      var mid := XferWins(ws, edges, front, fs, oks, periEvtCt);
      if i in last {
        var j :| 0 <= j < |last| && last[j] == i;
        assert i !in flat by {
          forall a | 0 <= a < |flat| ensures flat[a] != i {
            assert Flatten(gs)[a] == flat[a] && Flatten(gs)[|flat| + j] == last[j];
          }
        }
        WorkerWinsAt(mid, edges, last, fs, oks, periEvtCt, j);
      }
    }
  }

  /**
   * With worker groups that cover the probes 0 .. n-1 once each, as run()
   * builds them, a transfer in which no write fails gives every probe its
   * window step.
   */
  lemma XferAllSteps(ws: seq<Window>, edges: seq<int>, gs: seq<seq<int>>, fs: seq<Fetch>,
                     oks: seq<bool>, periEvtCt: nat, i: int)
    requires |fs| == |oks| == |ws| == |edges|
    requires forall g, k :: 0 <= g < |gs| && 0 <= k < |gs[g]| ==> 0 <= gs[g][k] < |ws|
    requires Flatten(gs) == Indices(|ws|)
    requires forall k :: 0 <= k < |ws| ==> !WriteFails(fs[k], oks[k])
    requires 0 <= i < |ws|
    ensures XferWins(ws, edges, gs, fs, oks, periEvtCt)[i] == WindowStep(ws[i], edges[i], fs[i], periEvtCt)
  {
    assert Indices(|ws|)[i] == i;
    XferWinsAt(ws, edges, gs, fs, oks, periEvtCt, i);
  }

  /** The trigger's changing state, as one value. */
  datatype Snapshot = Snapshot(state: TState, nS: int, aEdgeCtNext: int, imEdgeCt: seq<int>,
                               imWin: seq<Window>, niEdgeCt: int, niWin: Window, nzero: int)

  /** A step's new state; go says the pass goes on, endRun that run() must end. */
  datatype Outcome = Outcome(s: Snapshot, go: bool, endRun: bool)

  class TrigSpike {
    const nImQ: nat
    const hasNiQ: bool
    const trigStream: Stream
    const imPar: CountParams
    const niPar: CountParams
    const nCycMax: int
    const usrFlt: HiPassFnctr
    var state: TState
    var nS: int
    var aEdgeCtNext: int
    var imEdgeCt: seq<int>
    var imWin: seq<Window>
    var niEdgeCt: int
    var niWin: Window
    var groups: seq<seq<int>>
    var nThd: int

    predicate Valid()
      reads this, usrFlt
    {
      usrFlt.Valid() &&
      |imWin| == nImQ && (|imEdgeCt| == 0 || |imEdgeCt| == nImQ) &&
      (state == Write ==> |imEdgeCt| == nImQ) &&
      (trigStream.Nidq? ==> hasNiQ) &&
      (trigStream.Imec? ==> 0 <= trigStream.ip < nImQ) &&
      nS >= 0 && (state == Done ==> nS >= nCycMax)
    }

    /** The changing state as a value. */
    function Snap(): Snapshot
      reads this, usrFlt
    {
      Snapshot(state, nS, aEdgeCtNext, imEdgeCt, imWin, niEdgeCt, niWin, usrFlt.nzero)
    }

    /** What Valid asks of the changing state. */
    predicate Consistent(s: Snapshot)
    {
      |s.imWin| == nImQ && (|s.imEdgeCt| == 0 || |s.imEdgeCt| == nImQ) &&
      (s.state == Write ==> |s.imEdgeCt| == nImQ) &&
      s.nS >= 0 && (s.state == Done ==> s.nS >= nCycMax)
    }

    /**
     * The gate-start block on a state: the filter is reset, every imec
     * edge becomes the gate time's imec count, then the NI edge its NI
     * count; the pass stops where a stream cannot map the gate time.
     */
    function Seeded(s: Snapshot, gateImCt: Option<int>, gateNiCt: Option<int>): Outcome
    {
      var s1 := s.(nzero := usrFlt.transWide);
      if nImQ > 0 && gateImCt.None? then Outcome(s1, false, false)
      else
        var s2 := s1.(imEdgeCt := if nImQ == 0 then [] else Filled(gateImCt.value, nImQ));
        if hasNiQ && gateNiCt.None? then Outcome(s2, false, false)
        else Outcome(s2.(niEdgeCt := if hasNiQ then gateNiCt.value else s.niEdgeCt), true, false)
    }

    /** getEdge on the trigger stream: nidq with imec as B, or imec probe ip with NI as B. */
    function TrigEdge(s: Snapshot, env: TickEnv): EdgeResult
      requires nImQ > 0 ==> |s.imEdgeCt| == nImQ
      requires trigStream.Imec? ==> 0 <= trigStream.ip < nImQ
    {
      if trigStream.Nidq? then
        EdgeStep(s.niEdgeCt, s.aEdgeCtNext, env.qHeadCt + niPar.periEvtCt + niPar.latencyCt, env.scan,
                 nImQ > 0, env.mapB, env.align, if nImQ > 0 then s.imEdgeCt[0] else 0)
      else
        EdgeStep(s.imEdgeCt[trigStream.ip], s.aEdgeCtNext, env.qHeadCt + imPar.periEvtCt + imPar.latencyCt,
                 env.scan, hasNiQ, env.mapB, env.align, s.niEdgeCt)
    }

    /**
     * The GetEdge state on a state: the edge search moves the NI edge,
     * the cache and the filter; a found edge is copied to every imec
     * edge, every window is unopened, and newTrig either ends the run or
     * the state becomes Write.
     */
    function Sought(s: Snapshot, env: TickEnv): Outcome
      requires nImQ > 0 ==> |s.imEdgeCt| == nImQ
      requires trigStream.Imec? ==> 0 <= trigStream.ip < nImQ
    {
      var r := TrigEdge(s, env);
      var s1 := s.(niEdgeCt := if trigStream.Nidq? then r.aEdgeCt else r.bEdgeCt,
                   aEdgeCtNext := r.aEdgeCtNext,
                   nzero := if r.resetFilter then usrFlt.transWide else s.nzero);
      if !r.found then Outcome(s1, false, false)
      else
        var s2 := s1.(imEdgeCt := Filled(if trigStream.Nidq? then r.bEdgeCt else r.aEdgeCt, nImQ),
                      imWin := Unopened(s.imWin), niWin := Window(s.niWin.nextCt, UNOPENED));
        if !env.newTrigOK then Outcome(s2, false, true)
        else Outcome(s2.(state := Write, aEdgeCtNext := 0), true, false)
    }

    /** xferAll on a state: every group's pass and the NI write; a failed write ends the run. */
    function Transferred(s: Snapshot, env: TickEnv, gs: seq<seq<int>>): Outcome
      requires |s.imWin| == |s.imEdgeCt| == |env.imFetch| == |env.imWriteOK|
      requires forall g, k :: 0 <= g < |gs| && 0 <= k < |gs[g]| ==> 0 <= gs[g][k] < |s.imWin|
    {
      var ok := (!hasNiQ || !WriteFails(env.niFetch, env.niWriteOK)) && GroupsOK(gs, env.imFetch, env.imWriteOK);
      var s1 := s.(imWin := XferWins(s.imWin, s.imEdgeCt, gs, env.imFetch, env.imWriteOK, imPar.periEvtCt),
                   niWin := if hasNiQ then WindowStep(s.niWin, s.niEdgeCt, env.niFetch, niPar.periEvtCt) else s.niWin);
      Outcome(s1, ok, !ok)
    }

    /**
     * The end of a trigger on a state: once every window is complete the
     * filter is reset, the edges move on by the refractory counts, and
     * the trigger is counted, ending in Done after nCycMax of them.
     */
    function Finished(s: Snapshot): Snapshot
    {
      if s.niWin.remCt <= 0 && AllDone(s.imWin) then
        s.(nzero := usrFlt.transWide, imEdgeCt := Advanced(s.imEdgeCt, imPar.refracCt),
           niEdgeCt := s.niEdgeCt + niPar.refracCt, nS := s.nS + 1,
           state := if s.nS + 1 >= nCycMax then Done else GetEdge)
      else s
    }

    /** The Write state on a state: the transfer, then the end-of-trigger step. */
    function Written(s: Snapshot, env: TickEnv, gs: seq<seq<int>>): Outcome
      requires |s.imWin| == |s.imEdgeCt| == nImQ && |env.imFetch| == |env.imWriteOK| == nImQ
      requires forall g, k :: 0 <= g < |gs| && 0 <= k < |gs[g]| ==> 0 <= gs[g][k] < nImQ
    {
      var c := Transferred(s, env, gs);
      if !c.go then c else Outcome(Finished(c.s), false, false)
    }

    /**
     * The GetEdge and Write states of a pass on a state whose gate start
     * is behind it: a search in GetEdge, and in Write (reached or already
     * there) the transfer.
     */
    function Searched(s: Snapshot, env: TickEnv, gs: seq<seq<int>>): Outcome
      requires Consistent(s) && (nImQ > 0 ==> |s.imEdgeCt| == nImQ)
      requires trigStream.Imec? ==> 0 <= trigStream.ip < nImQ
      requires |env.imFetch| == |env.imWriteOK| == nImQ
      requires forall g, k :: 0 <= g < |gs| && 0 <= k < |gs[g]| ==> 0 <= gs[g][k] < nImQ
    {
      var b := if s.state == GetEdge then Sought(s, env) else Outcome(s, true, false);
      if !b.go then b
      else if b.s.state == Write then Written(b.s, env, gs)
      else Outcome(b.s, false, false)
    }

    /**
     * One pass of run()'s loop on a state, given the value of the
     * gate-start test: nothing while Done or the gate is low; otherwise
     * the gate-start block when the test holds, then the GetEdge and
     * Write states, each possibly cutting the pass short.
     */
    function PassFrom(s: Snapshot, env: TickEnv, gs: seq<seq<int>>, pending: bool): Outcome
      requires Consistent(s) && (!pending ==> |s.imEdgeCt| == nImQ)
      requires trigStream.Imec? ==> 0 <= trigStream.ip < nImQ
      requires |env.imFetch| == |env.imWriteOK| == nImQ
      requires forall g, k :: 0 <= g < |gs| && 0 <= k < |gs[g]| ==> 0 <= gs[g][k] < nImQ
    {
      if s.state == Done || !env.gateHi then Outcome(s, false, false)
      else
        var a := if pending then Seeded(s, env.gateImCt, env.gateNiCt) else Outcome(s, true, false);
        if !a.go then a else Searched(a.s, env, gs)
    }

    /**
     * TrigSpike( p, gw, imQ, niQ ): nCycMax is the qlonglong maximum for
     * an unbounded trigger count, else nS; aEdgeCtNext starts at 0. The
     * edge state is that of initState, which run() calls first.
     */
    constructor (nImQ: nat, hasNiQ: bool, trigStream: Stream, imPar: CountParams, niPar: CountParams,
                 isNInf: bool, nSParam: int, flt: HiPassFnctr)
      requires flt.Valid()
      requires trigStream.Nidq? ==> hasNiQ
      requires trigStream.Imec? ==> 0 <= trigStream.ip < nImQ
      ensures Valid()
      ensures this.nImQ == nImQ && this.hasNiQ == hasNiQ && this.trigStream == trigStream
      ensures this.imPar == imPar && this.niPar == niPar && usrFlt == flt
      ensures nCycMax == if isNInf then INT64_MAX else nSParam
      ensures aEdgeCtNext == 0 && state == GetEdge && nS == 0 && imEdgeCt == [] && niEdgeCt == 0
      ensures imWin == seq(nImQ, _ => Window(0, UNOPENED)) && niWin == Window(0, UNOPENED)
    {
      this.nImQ := nImQ;
      this.hasNiQ := hasNiQ;
      this.trigStream := trigStream;
      this.imPar := imPar;
      this.niPar := niPar;
      nCycMax := if isNInf then INT64_MAX else nSParam;
      usrFlt := flt;
      aEdgeCtNext := 0;
      state := GetEdge;
      nS := 0;
      imEdgeCt := [];
      niEdgeCt := 0;
      imWin := seq(nImQ, _ => Window(0, UNOPENED));
      niWin := Window(0, UNOPENED);
      groups := [];
      nThd := 0;
    }

    /** The worker groups run() creates before its loop. */
    method Configure()
      modifies this
      ensures nThd == |groups| == (nImQ + 1) / 2
      ensures Flatten(groups) == Indices(nImQ)
      ensures forall g :: 0 <= g < |groups| ==> 1 <= |groups[g]| <= nPrbPerThd
      ensures state == old(state) && nS == old(nS) && aEdgeCtNext == old(aEdgeCtNext)
      ensures imEdgeCt == old(imEdgeCt) && imWin == old(imWin)
      ensures niEdgeCt == old(niEdgeCt) && niWin == old(niWin)
    {
      groups, nThd := Partition(nImQ);
    }

    /** initState: filter reset, edges cleared, no triggers yet, seeking an edge. */
    method InitState()
      requires Valid()
      modifies this, usrFlt
      ensures Valid()
      ensures usrFlt.nzero == usrFlt.transWide
      ensures imEdgeCt == [] && niEdgeCt == 0 && nS == 0 && state == GetEdge
      ensures aEdgeCtNext == old(aEdgeCtNext) && imWin == old(imWin) && niWin == old(niWin)
      ensures groups == old(groups) && nThd == old(nThd)
    {
      usrFlt.Reset();
      imEdgeCt := [];
      niEdgeCt := 0;
      nS := 0;
      state := GetEdge;
    }

    /** setGate: initState, then the base class's baseSetGate (not modelled) records the gate level. */
    method SetGate(hi: bool) returns (gateHi: bool)
      requires Valid()
      modifies this, usrFlt
      ensures Valid() && gateHi == hi
      ensures imEdgeCt == [] && niEdgeCt == 0 && nS == 0 && state == GetEdge
      ensures usrFlt.nzero == usrFlt.transWide
      ensures aEdgeCtNext == old(aEdgeCtNext) && imWin == old(imWin) && niWin == old(niWin)
      ensures groups == old(groups) && nThd == old(nThd)
    {
      InitState();
      gateHi := hi;
    }

    /** resetGTCounters: the base class's baseResetGTCounters (not modelled), then initState. */
    method ResetGTCounters()
      requires Valid()
      modifies this, usrFlt
      ensures Valid()
      ensures imEdgeCt == [] && niEdgeCt == 0 && nS == 0 && state == GetEdge
      ensures usrFlt.nzero == usrFlt.transWide
      ensures aEdgeCtNext == old(aEdgeCtNext) && imWin == old(imWin) && niWin == old(niWin)
      ensures groups == old(groups) && nThd == old(nThd)
    {
      InitState();
    }

    /** SETSTATE_Write: writing, with no cached A edge. */
    method SetStateWrite()
      modifies this
      ensures state == Write && aEdgeCtNext == 0
      ensures nS == old(nS) && imEdgeCt == old(imEdgeCt) && imWin == old(imWin)
      ensures niEdgeCt == old(niEdgeCt) && niWin == old(niWin)
      ensures groups == old(groups) && nThd == old(nThd)
    {
      state := Write;
      aEdgeCtNext := 0;
    }

    /**
     * getEdge on stream A with constants cA, B's count in bEdgeCt. The
     * filter is reset when the search start is clamped.
     */
    method GetEdgeOf(aEdgeCt: int, cA: CountParams, qHeadCt: int, bEdgeCt: int, hasB: bool,
                     scan: int -> EdgeScan, mapB: int -> Option<int>, align: (int, int) -> int)
      returns (found: bool, aOut: int, bOut: int)
      modifies this`aEdgeCtNext, usrFlt
      ensures var r := EdgeStep(aEdgeCt, old(aEdgeCtNext), qHeadCt + cA.periEvtCt + cA.latencyCt,
                                scan, hasB, mapB, align, bEdgeCt);
        found == r.found && aOut == r.aEdgeCt && bOut == r.bEdgeCt && aEdgeCtNext == r.aEdgeCtNext &&
        usrFlt.nzero == (if r.resetFilter then usrFlt.transWide else old(usrFlt.nzero))
    {
      aOut, bOut := aEdgeCt, bEdgeCt;
      var minCt := qHeadCt + cA.periEvtCt + cA.latencyCt;
      if aOut < minCt {
        usrFlt.Reset();
        aOut := minCt;
      }
      if aEdgeCtNext != 0 {
        found := true;
      } else {
        var sc := scan(aOut);
        found := sc.found;
        aEdgeCtNext := sc.pos;
        if !found {
          aOut := aEdgeCtNext;
          aEdgeCtNext := 0;
        }
      }
      if found && hasB {
        var m := mapB(aEdgeCtNext);
        found := m.Some?;
        if m.Some? {
          bOut := m.value;
        }
      }
      if found {
        bOut := align(aEdgeCtNext, bOut);
        aOut := aEdgeCtNext;
        aEdgeCtNext := 0;
      }
    }

    /**
     * writeSomeIM( ip ): open the window on first use, fetch, and on a
     * non-empty fetch update the tracking and write the blocks.
     */
    method WriteSomeIM(ip: int, f: Fetch, writeOK: bool) returns (ok: bool)
      requires 0 <= ip < |imWin| && ip < |imEdgeCt|
      modifies this`imWin
      ensures imWin == old(imWin)[ip := Track(Open(old(imWin)[ip], imEdgeCt[ip], imPar.periEvtCt), f)]
      ensures ok <==> !WriteFails(f, writeOK)
    {
      var w := Open(imWin[ip], imEdgeCt[ip], imPar.periEvtCt);
      imWin := imWin[ip := w];
      if f.nb == 0 {
        return true;
      }
      imWin := imWin[ip := Track(w, f)];
      return writeOK;
    }

    /** writeSomeNI: the same for the NI stream; nothing to do without one. */
    method WriteSomeNI(f: Fetch, writeOK: bool) returns (ok: bool)
      modifies this`niWin
      ensures niWin == if hasNiQ then Track(Open(old(niWin), niEdgeCt, niPar.periEvtCt), f) else old(niWin)
      ensures ok <==> !hasNiQ || !WriteFails(f, writeOK)
    {
      if !hasNiQ {
        return true;
      }
      niWin := Open(niWin, niEdgeCt, niPar.periEvtCt);
      if f.nb == 0 {
        return true;
      }
      niWin := Track(niWin, f);
      return writeOK;
    }

    /**
     * One worker's pass over its probes: it stops at the first probe
     * whose write fails.
     */
    method WorkerPass(vID: seq<int>, fs: seq<Fetch>, ws: seq<bool>) returns (ok: bool)
      requires |fs| == |ws| == |imWin| && |imEdgeCt| == |imWin|
      requires forall k :: 0 <= k < |vID| ==> 0 <= vID[k] < |imWin|
      modifies this`imWin
      ensures imWin == WorkerWins(old(imWin), imEdgeCt, vID, fs, ws, imPar.periEvtCt)
      ensures ok <==> WorkerOK(vID, fs, ws)
      ensures forall i :: 0 <= i < |imWin| && i !in vID ==> imWin[i] == old(imWin)[i]
    {
      ok := true;
      var k := 0;
      while k < |vID|
        invariant 0 <= k <= |vID| && |imWin| == |old(imWin)|
        invariant forall j :: 0 <= j < k ==> !WriteFails(fs[vID[j]], ws[vID[j]])
        invariant WorkerWins(old(imWin), imEdgeCt, vID, fs, ws, imPar.periEvtCt)
               == WorkerWins(imWin, imEdgeCt, vID[k..], fs, ws, imPar.periEvtCt)
      {
        ghost var before := imWin;
        assert vID[k..][0] == vID[k] && vID[k..][1..] == vID[k + 1..];
        ok := WriteSomeIM(vID[k], fs[vID[k]], ws[vID[k]]);
        assert imWin == before[vID[k] := WindowStep(before[vID[k]], imEdgeCt[vID[k]], fs[vID[k]], imPar.periEvtCt)];
        if !ok {
          return;
        }
        k := k + 1;
      }
    }

    /**
     * xferAll: every worker makes one pass and the NI stream is written
     * locally; the result is niOK and no worker error. The threads'
     * rendezvous is not modelled: the passes run one after another.
     */
    method XferAll(imFetch: seq<Fetch>, imWriteOK: seq<bool>, niFetch: Fetch, niWriteOK: bool)
      returns (ok: bool)
      requires |imFetch| == |imWriteOK| == |imWin| == |imEdgeCt|
      requires forall g, k :: 0 <= g < |groups| && 0 <= k < |groups[g]| ==> 0 <= groups[g][k] < |imWin|
      modifies this`imWin, this`niWin
      ensures imWin == XferWins(old(imWin), imEdgeCt, groups, imFetch, imWriteOK, imPar.periEvtCt)
      ensures niWin == if hasNiQ then WindowStep(old(niWin), niEdgeCt, niFetch, niPar.periEvtCt) else old(niWin)
      ensures ok <==> (!hasNiQ || !WriteFails(niFetch, niWriteOK)) && GroupsOK(groups, imFetch, imWriteOK)
    {
      var niOK := WriteSomeNI(niFetch, niWriteOK);
      var errors := 0;
      var g := 0;
      while g < |groups|
        invariant 0 <= g <= |groups| && |imWin| == |old(imWin)| && errors >= 0
        invariant niWin == if hasNiQ then WindowStep(old(niWin), niEdgeCt, niFetch, niPar.periEvtCt) else old(niWin)
        invariant imWin == XferWins(old(imWin), imEdgeCt, groups[..g], imFetch, imWriteOK, imPar.periEvtCt)
        invariant errors == 0 <==> GroupsOK(groups[..g], imFetch, imWriteOK)
      {
        assert groups[..g + 1] == groups[..g] + [groups[g]];
        XferWinsSnoc(old(imWin), imEdgeCt, groups[..g], groups[g], imFetch, imWriteOK, imPar.periEvtCt);
        GroupsOKSnoc(groups[..g], groups[g], imFetch, imWriteOK);
        var wOK := WorkerPass(groups[g], imFetch, imWriteOK);
        if !wOK {
          errors := errors + 1;
        }
        g := g + 1;
      }
      assert groups[..g] == groups;
      ok := niOK && errors == 0;
    }

    /**
     * The end-of-window step of the Write state: when every window is
     * complete, the filter is reset, the edges move on by the refractory
     * count, one more trigger is counted, and the state becomes Done once
     * nCycMax triggers are done, else GetEdge.
     */
    method FinishIfDone()
      requires Valid() && state == Write
      modifies this, usrFlt
      ensures Valid()
      ensures Snap() == Finished(old(Snap()))
      ensures var done := niWin.remCt <= 0 && AllDone(imWin);
        (done ==> usrFlt.nzero == usrFlt.transWide && nS == old(nS) + 1 &&
                  imEdgeCt == Advanced(old(imEdgeCt), imPar.refracCt) &&
                  niEdgeCt == old(niEdgeCt) + niPar.refracCt &&
                  state == (if nS >= nCycMax then Done else GetEdge)) &&
        (!done ==> usrFlt.nzero == old(usrFlt.nzero) && nS == old(nS) && state == Write &&
                   imEdgeCt == old(imEdgeCt) && niEdgeCt == old(niEdgeCt))
      ensures imWin == old(imWin) && niWin == old(niWin) && aEdgeCtNext == old(aEdgeCtNext)
      ensures groups == old(groups) && nThd == old(nThd)
    {
      if niWin.remCt <= 0 && AllDone(imWin) {
        usrFlt.Reset();
        imEdgeCt := Advanced(imEdgeCt, imPar.refracCt);
        niEdgeCt := niEdgeCt + niPar.refracCt;
        nS := nS + 1;
        if nS >= nCycMax {
          state := Done;
        } else {
          state := GetEdge;
        }
      }
    }

    /**
     * Gate start: the filter is reset and the gate time's counts become
     * the edge counts of every stream; false when a stream cannot map the
     * gate time yet (the imec edges may then be set already).
     */
    method SeedFromGate(gateImCt: Option<int>, gateNiCt: Option<int>) returns (ok: bool)
      requires Valid()
      modifies this, usrFlt
      ensures Valid()
      ensures Snap() == Seeded(old(Snap()), gateImCt, gateNiCt).s && ok == Seeded(old(Snap()), gateImCt, gateNiCt).go
      ensures usrFlt.nzero == usrFlt.transWide
      ensures ok <==> (nImQ == 0 || gateImCt.Some?) && (!hasNiQ || gateNiCt.Some?)
      ensures nImQ > 0 && gateImCt.None? ==> imEdgeCt == old(imEdgeCt) && niEdgeCt == old(niEdgeCt)
      ensures (nImQ == 0 || gateImCt.Some?) ==>
        imEdgeCt == (if nImQ == 0 then [] else Filled(gateImCt.value, nImQ)) &&
        niEdgeCt == (if hasNiQ && gateNiCt.Some? then gateNiCt.value else old(niEdgeCt))
      ensures groups == old(groups) && nThd == old(nThd)
    {
      usrFlt.Reset();
      if nImQ > 0 && gateImCt.None? {
        return false;
      }
      imEdgeCt := if nImQ == 0 then [] else Filled(gateImCt.value, nImQ);
      if hasNiQ {
        if gateNiCt.None? {
          return false;
        }
        niEdgeCt := gateNiCt.value;
      }
      return true;
    }

    /**
     * getEdge on the trigger stream: nidq with the first imec stream as B,
     * or imec probe ip with the NI stream as B. imEdge is the count that
     * the imec edges take when the edge is found.
     */
    method SearchTrigger(env: TickEnv) returns (found: bool, imEdge: int)
      requires nImQ > 0 ==> |imEdgeCt| == nImQ
      requires trigStream.Imec? ==> 0 <= trigStream.ip < nImQ
      modifies this`niEdgeCt, this`aEdgeCtNext, usrFlt
      ensures var r := TrigEdge(old(Snap()), env);
        found == r.found && imEdge == (if trigStream.Nidq? then r.bEdgeCt else r.aEdgeCt) &&
        niEdgeCt == (if trigStream.Nidq? then r.aEdgeCt else r.bEdgeCt) && aEdgeCtNext == r.aEdgeCtNext &&
        usrFlt.nzero == (if r.resetFilter then usrFlt.transWide else old(usrFlt.nzero))
    {
      if trigStream.Nidq? {
        imEdge := if nImQ > 0 then imEdgeCt[0] else 0;
        var niOut;
        found, niOut, imEdge := GetEdgeOf(niEdgeCt, niPar, env.qHeadCt, imEdge, nImQ > 0,
                                          env.scan, env.mapB, env.align);
        niEdgeCt := niOut;
      } else {
        var ip := trigStream.ip;
        imEdge := imEdgeCt[ip];
        var niOut;
        found, imEdge, niOut := GetEdgeOf(imEdge, imPar, env.qHeadCt, niEdgeCt, hasNiQ,
                                          env.scan, env.mapB, env.align);
        niEdgeCt := niOut;
      }
    }

    /**
     * The GetEdge state: search the trigger stream, copy the A or B count
     * to every imec stream, unopen every window, start new files and
     * enter Write. found is false when no edge could be placed yet, and
     * then only the search's own moves (NI edge, cache, filter) remain;
     * endRun is true when newTrig failed.
     */
    method SeekEdge(env: TickEnv) returns (found: bool, endRun: bool)
      requires Valid() && state == GetEdge
      requires nImQ > 0 ==> |imEdgeCt| == nImQ
      modifies this, usrFlt
      ensures Valid()
      ensures Snap() == Sought(old(Snap()), env).s
      ensures found == TrigEdge(old(Snap()), env).found && endRun == (found && !env.newTrigOK)
      ensures groups == old(groups) && nThd == old(nThd)
    {
      var imEdge;
      found, imEdge := SearchTrigger(env);
      if !found {
        return false, false;
      }
      imEdgeCt := Filled(imEdge, nImQ);
      imWin := Unopened(imWin);
      niWin := Window(niWin.nextCt, UNOPENED);
      if !env.newTrigOK {
        return true, true;
      }
      SetStateWrite();
      return true, false;
    }

    /** The Write state of a pass: xferAll, then the end-of-trigger step. */
    method WriteState(env: TickEnv) returns (endRun: bool)
      requires Valid() && state == Write
      requires |env.imFetch| == |env.imWriteOK| == nImQ
      requires forall g, k :: 0 <= g < |groups| && 0 <= k < |groups[g]| ==> 0 <= groups[g][k] < nImQ
      modifies this, usrFlt
      ensures Valid()
      ensures Snap() == Written(old(Snap()), env, old(groups)).s
      ensures endRun == Written(old(Snap()), env, old(groups)).endRun
      ensures groups == old(groups) && nThd == old(nThd)
    {
      var ok := XferAll(env.imFetch, env.imWriteOK, env.niFetch, env.niWriteOK);
      if !ok {
        return true;
      }
      FinishIfDone();
      return false;
    }

    /** The GetEdge and Write states of a pass, once the gate start is behind it. */
    method SearchStates(env: TickEnv) returns (endRun: bool)
      requires Valid() && state != Done && (nImQ > 0 ==> |imEdgeCt| == nImQ)
      requires |env.imFetch| == |env.imWriteOK| == nImQ
      requires forall g, k :: 0 <= g < |groups| && 0 <= k < |groups[g]| ==> 0 <= groups[g][k] < nImQ
      modifies this, usrFlt
      ensures Valid()
      ensures Snap() == Searched(old(Snap()), env, old(groups)).s
      ensures endRun == Searched(old(Snap()), env, old(groups)).endRun
      ensures groups == old(groups) && nThd == old(nThd)
    {
      if state == GetEdge {
        var found, stop := SeekEdge(env);
        if stop {
          return true;
        }
        if !found {
          return false;
        }
      }
      endRun := WriteState(env);
    }

    /**
     * One pass of run()'s loop, once the gate-start test has been
     * evaluated to pending. endRun is true when the loop must end
     * (newTrig or a transfer failed).
     */
    method Pass(env: TickEnv, pending: bool) returns (endRun: bool)
      requires Valid() && (!pending ==> |imEdgeCt| == nImQ)
      requires |env.imFetch| == |env.imWriteOK| == nImQ
      requires forall g, k :: 0 <= g < |groups| && 0 <= k < |groups[g]| ==> 0 <= groups[g][k] < nImQ
      modifies this, usrFlt
      ensures Valid()
      ensures Snap() == PassFrom(old(Snap()), env, old(groups), pending).s
      ensures endRun == PassFrom(old(Snap()), env, old(groups), pending).endRun
      ensures groups == old(groups) && nThd == old(nThd)
    {
      if state == Done || !env.gateHi {
        return false;
      }
      if pending {
        var seeded := SeedFromGate(env.gateImCt, env.gateNiCt);
        if !seeded {
          return false;
        }
      }
      endRun := SearchStates(env);
    }

    /**
     * One pass of run()'s loop with the gate-start test of line 324 as
     * written: no imec edges yet, or an NI edge count of 0.
     */
    method TickAsWritten(env: TickEnv) returns (endRun: bool)
      requires Valid()
      requires |env.imFetch| == |env.imWriteOK| == nImQ
      requires forall g, k :: 0 <= g < |groups| && 0 <= k < |groups[g]| ==> 0 <= groups[g][k] < nImQ
      modifies this, usrFlt
      ensures Valid()
      ensures var o := PassFrom(old(Snap()), env, old(groups), GateStartAsWritten(|old(imEdgeCt)|, old(niEdgeCt)));
        Snap() == o.s && endRun == o.endRun
      ensures groups == old(groups) && nThd == old(nThd)
    {
      endRun := Pass(env, GateStartAsWritten(|imEdgeCt|, niEdgeCt));
    }

    /**
     * One pass of run()'s loop with the corrected gate-start test, which
     * asks each stream's part only of a stream that exists.
     */
    method Tick(env: TickEnv) returns (endRun: bool)
      requires Valid()
      requires |env.imFetch| == |env.imWriteOK| == nImQ
      requires forall g, k :: 0 <= g < |groups| && 0 <= k < |groups[g]| ==> 0 <= groups[g][k] < nImQ
      modifies this, usrFlt
      ensures Valid()
      ensures var o := PassFrom(old(Snap()), env, old(groups),
                                GateStartPending(nImQ, hasNiQ, |old(imEdgeCt)|, old(niEdgeCt)));
        Snap() == o.s && endRun == o.endRun
      ensures groups == old(groups) && nThd == old(nThd)
    {
      endRun := Pass(env, GateStartPending(nImQ, hasNiQ, |imEdgeCt|, niEdgeCt));
    }

    /**
     * With no imec stream and an NI stream, the pass as written is the
     * corrected pass started from the state in which the NI edge was set
     * back to the gate time's count and the filter reset: whatever
     * refractory advance the NI edge had is lost.
     */
    lemma AsWrittenPassReseeds(s: Snapshot, env: TickEnv, gs: seq<seq<int>>, g: int)
      requires nImQ == 0 && hasNiQ && trigStream.Nidq?
      requires Consistent(s) && s.state != Done && env.gateHi && s.niEdgeCt != 0
      requires env.gateNiCt == Some(g) && g != 0
      requires |env.imFetch| == |env.imWriteOK| == 0
      requires forall h, k :: 0 <= h < |gs| && 0 <= k < |gs[h]| ==> 0 <= gs[h][k] < nImQ
      ensures GateStartAsWritten(|s.imEdgeCt|, s.niEdgeCt) && !GateStartPending(nImQ, hasNiQ, |s.imEdgeCt|, s.niEdgeCt)
      ensures PassFrom(s, env, gs, GateStartAsWritten(|s.imEdgeCt|, s.niEdgeCt))
           == PassFrom(s.(niEdgeCt := g, nzero := usrFlt.transWide), env, gs, false)
    {
      assert s.imEdgeCt == [];
    }

    /**
     * What the GetEdge state does, searched on the trigger stream: the NI
     * edge, the filter and, for a miss, the cache are the search's; a
     * found edge becomes every imec edge (the B count for an NI trigger,
     * the A count for an imec one), empties the cache and unopens every
     * window; the state becomes Write iff an edge was found and newTrig
     * succeeded, and the run ends iff newTrig failed.
     */
    lemma SoughtState(s: Snapshot, env: TickEnv)
      requires nImQ > 0 ==> |s.imEdgeCt| == nImQ
      requires trigStream.Imec? ==> 0 <= trigStream.ip < nImQ
      requires s.state == GetEdge
      ensures var r := TrigEdge(s, env); var o := Sought(s, env);
        o.s.niEdgeCt == (if trigStream.Nidq? then r.aEdgeCt else r.bEdgeCt) &&
        o.s.nzero == (if r.resetFilter then usrFlt.transWide else s.nzero) &&
        o.s.nS == s.nS &&
        (r.found ==> o.s.imEdgeCt == Filled(if trigStream.Nidq? then r.bEdgeCt else r.aEdgeCt, nImQ) &&
                     o.s.aEdgeCtNext == 0 && o.s.imWin == Unopened(s.imWin) &&
                     o.s.niWin == Window(s.niWin.nextCt, UNOPENED)) &&
        (!r.found ==> o.s.aEdgeCtNext == r.aEdgeCtNext && o.s.imEdgeCt == s.imEdgeCt &&
                      o.s.imWin == s.imWin && o.s.niWin == s.niWin) &&
        (o.s.state == Write <==> r.found && env.newTrigOK) &&
        (o.s.state != Write ==> o.s.state == GetEdge) &&
        (o.endRun <==> r.found && !env.newTrigOK) && (o.go <==> o.s.state == Write)
    {
    }

    /** A pass ends the run only when newTrig failed or a write of the transfer failed. */
    lemma PassEndsOnFailure(s: Snapshot, env: TickEnv, gs: seq<seq<int>>, pending: bool)
      requires Consistent(s) && (!pending ==> |s.imEdgeCt| == nImQ)
      requires trigStream.Imec? ==> 0 <= trigStream.ip < nImQ
      requires |env.imFetch| == |env.imWriteOK| == nImQ
      requires forall h, k :: 0 <= h < |gs| && 0 <= k < |gs[h]| ==> 0 <= gs[h][k] < nImQ
      ensures PassFrom(s, env, gs, pending).endRun ==>
        !env.newTrigOK || (hasNiQ && WriteFails(env.niFetch, env.niWriteOK)) ||
        !GroupsOK(gs, env.imFetch, env.imWriteOK)
    {
    }

    /** The Write state counts at most one trigger, and leaves Write when it does. */
    lemma WrittenCounts(s: Snapshot, env: TickEnv, gs: seq<seq<int>>)
      requires Consistent(s) && s.state == Write
      requires |env.imFetch| == |env.imWriteOK| == nImQ
      requires forall g, k :: 0 <= g < |gs| && 0 <= k < |gs[g]| ==> 0 <= gs[g][k] < nImQ
      ensures var r := Written(s, env, gs).s;
        Consistent(r) && (r.nS == s.nS || (r.nS == s.nS + 1 && r.state != Write))
    {
    }

    /** Likewise for the GetEdge and Write states together. */
    lemma SearchedCounts(s: Snapshot, env: TickEnv, gs: seq<seq<int>>)
      requires Consistent(s) && (nImQ > 0 ==> |s.imEdgeCt| == nImQ) && s.state != Done
      requires trigStream.Imec? ==> 0 <= trigStream.ip < nImQ
      requires |env.imFetch| == |env.imWriteOK| == nImQ
      requires forall g, k :: 0 <= g < |gs| && 0 <= k < |gs[g]| ==> 0 <= gs[g][k] < nImQ
      ensures var r := Searched(s, env, gs).s;
        Consistent(r) && (r.nS == s.nS || (r.nS == s.nS + 1 && r.state != Write))
    {
      if s.state == GetEdge {
        SoughtState(s, env);
        var b := Sought(s, env);
        if b.go {
          WrittenCounts(b.s, env, gs);
        }
      } else {
        WrittenCounts(s, env, gs);
      }
    }

    /**
     * A pass counts at most one trigger, and the state after counting one
     * is GetEdge or Done; Done is reached only after nCycMax triggers, and
     * a pass in Done changes nothing.
     */
    lemma {:induction false} PassCounts(s: Snapshot, env: TickEnv, gs: seq<seq<int>>, pending: bool)
      requires Consistent(s) && (!pending ==> |s.imEdgeCt| == nImQ)
      requires trigStream.Imec? ==> 0 <= trigStream.ip < nImQ
      requires |env.imFetch| == |env.imWriteOK| == nImQ
      requires forall h, k :: 0 <= h < |gs| && 0 <= k < |gs[h]| ==> 0 <= gs[h][k] < nImQ
      ensures var r := PassFrom(s, env, gs, pending).s;
        Consistent(r) &&
        (r.nS == s.nS || (r.nS == s.nS + 1 && r.state != Write)) &&
        (s.state == Done ==> r == s)
    {
      if s.state != Done && env.gateHi {
        var a := if pending then Seeded(s, env.gateImCt, env.gateNiCt) else Outcome(s, true, false);
        if a.go {
          SearchedCounts(a.s, env, gs);
        }
      }
    }
  }
}
