/*
 * The run controller (Run): starting and stopping an acquisition, the
 * objects a run owns, the queries that are answered only while running,
 * the audio fetcher and the status text. Each owned pointer is a field
 * that is true (or Some) while the object exists; the queue aiQ carries
 * the values the model needs of it.
 */
module RunCtl {
  import opened QtText

  /** The objects a run owns. */
  datatype Part = AoFetcher | GraphFetcher | Gate | Trg | NiReader | AiQ | GraphsWindow

  /**
   * Uses(a, b): a holds b from its creation on (the constructor arguments
   * startRun and aoStart pass), so b must outlive a.
   */
  predicate Uses(a: Part, b: Part)
  {
    match a
    case AoFetcher => b == AiQ
    case GraphFetcher => b == AiQ || b == GraphsWindow
    case Gate => b == Trg || b == GraphsWindow
    case Trg => b == AiQ || b == GraphsWindow
    case NiReader => b == AiQ
    case _ => false
  }

  /** The order in which stopRun deletes what exists. */
  const TeardownOrder: seq<Part> := [AoFetcher, GraphFetcher, Gate, Trg, NiReader, AiQ, GraphsWindow]

  /** No part is deleted before a part that still uses it. */
  predicate UsersFirst(s: seq<Part>)
  {
    forall i, j :: 0 <= i < j < |s| ==> !Uses(s[j], s[i])
  }

  /** The first n parts of order whose entry in alive is set, in order. */
  function Teardown(order: seq<Part>, alive: seq<bool>, n: nat): seq<Part>
    requires |alive| == |order| && n <= |order|
  {
    if n == 0 then [] else Teardown(order, alive, n - 1) + Step(alive[n - 1], order[n - 1])
  }

  /** The deletion of part, if it exists. */
  function Step(alive: bool, part: Part): (s: seq<Part>)
    ensures part in s <==> alive
    ensures |s| <= 1 && forall x :: x in s ==> x == part
  {
    if alive then [part] else []
  }

  /** Exactly the parts that exist are deleted. */
  lemma {:induction false} TeardownDeletesAlive(order: seq<Part>, alive: seq<bool>, n: nat, x: Part)
    requires |alive| == |order| && n <= |order|
    ensures x in Teardown(order, alive, n) <==> exists i :: 0 <= i < n && alive[i] && order[i] == x
  {
    if n > 0 {
      TeardownDeletesAlive(order, alive, n - 1, x);
    }
  }

  /** Deleting in a users-first order, skipping what does not exist, stays users-first. */
  lemma {:induction false} TeardownKeepsUsersFirst(order: seq<Part>, alive: seq<bool>, n: nat)
    requires |alive| == |order| && n <= |order| && UsersFirst(order)
    ensures UsersFirst(Teardown(order, alive, n))
  {
    if n > 0 {
      TeardownKeepsUsersFirst(order, alive, n - 1);
      var t := Teardown(order, alive, n - 1);
      var s := t + Step(alive[n - 1], order[n - 1]);
      forall i, j | 0 <= i < j < |s|
        ensures !Uses(s[j], s[i])
      {
        if j >= |t| {
          assert s[i] in t;
          TeardownDeletesAlive(order, alive, n - 1, s[i]);
          assert s[j] in Step(alive[n - 1], order[n - 1]);
        } else {
          assert s[j] == t[j] && s[i] == t[i];
        }
      }
    }
  }

  /** The teardown of seven parts, one step per part. */
  lemma TeardownSteps(o: seq<Part>, m: seq<bool>)
    requires |o| == 7 && |m| == 7
    ensures Teardown(o, m, 7) == Step(m[0], o[0]) + Step(m[1], o[1]) + Step(m[2], o[2]) + Step(m[3], o[3])
      + Step(m[4], o[4]) + Step(m[5], o[5]) + Step(m[6], o[6])
  {
    assert Teardown(o, m, 1) == Step(m[0], o[0]);
    assert Teardown(o, m, 2) == Teardown(o, m, 1) + Step(m[1], o[1]);
    assert Teardown(o, m, 3) == Teardown(o, m, 2) + Step(m[2], o[2]);
    assert Teardown(o, m, 4) == Teardown(o, m, 3) + Step(m[3], o[3]);
    assert Teardown(o, m, 5) == Teardown(o, m, 4) + Step(m[4], o[4]);
    assert Teardown(o, m, 6) == Teardown(o, m, 5) + Step(m[5], o[5]);
  }

  /**
   * Whatever subset of a run's objects exists, stopRun deletes the gate
   * before the trigger, the queue after all its users and the graphs
   * window last of those that talk to it.
   */
  lemma StopRunOrderSafe(alive: seq<bool>)
    requires |alive| == |TeardownOrder|
    ensures UsersFirst(Teardown(TeardownOrder, alive, |TeardownOrder|))
  {
    assert UsersFirst(TeardownOrder);
    TeardownKeepsUsersFirst(TeardownOrder, alive, |TeardownOrder|);
  }

  /** The console status: "RUNNING - " and the run name while running, else "READY". */
  function StatusText(running: bool, runName: string): (s: string)
    ensures running ==> |s| >= 10 && s[..10] == "RUNNING - " && s[10..] == runName
    ensures !running ==> s == "READY"
    ensures s == "READY" <==> !running
  {
    if running then
      var s := "RUNNING - " + runName;
      assert s[2] == 'N' != "READY"[2];
      s
    else "READY"
  }

  /** The data queue: its sample rate, channel count, capacity in seconds and scans so far. */
  datatype Aiq = Aiq(srate: real, nChans: int, secs: int, count: nat)

  /** What dfSetTrgEnabled asks for: the graphs window to reflect it, or the trigger to pause. */
  datatype TrgAction = SetInGraphs(enabled: bool) | PauseTrigger(paused: bool) | NoAction

  class Run {
    var running: bool
    var aiQ: Option<Aiq>
    var graphsWindow: bool
    var graphFetcher: bool
    var aoFetcher: bool
    var niReader: bool
    var gate: bool
    var trg: bool
    /** The status text the run last gave the console. */
    var title: string
    /** The objects deleted so far, in order. */
    ghost var deleted: seq<Part>

    /** Which objects exist (non-null pointers), in teardown order. */
    function Alive(): (alive: seq<bool>)
      reads this
      ensures |alive| == |TeardownOrder|
    {
      [aoFetcher, graphFetcher, gate, trg, niReader, aiQ.Some?, graphsWindow]
    }

    /** Nothing exists between runs; during a run all but the audio fetcher do. */
    ghost predicate Valid()
      reads this
    {
      (!running ==> !aoFetcher && !graphFetcher && !gate && !trg && !niReader && aiQ.None? && !graphsWindow)
      && (running ==> aiQ.Some? && graphsWindow && graphFetcher && niReader && gate && trg)
    }

    constructor()
      ensures Valid() && !running && deleted == []
    {
      running := false;
      aiQ := None;
      graphsWindow, graphFetcher, aoFetcher, niReader, gate, trg := false, false, false, false, false, false;
      title := "";
      deleted := [];
    }

    /** getScanCount: the queue's count while running, else 0. */
    function ScanCount(): (n: nat)
      requires Valid()
      reads this
      ensures !running ==> n == 0
      ensures running ==> n == aiQ.value.count
    {
      if running then aiQ.value.count else 0
    }

    /** getAIQ: the queue while running, else null. */
    function GetAIQ(): (q: Option<Aiq>)
      requires Valid()
      reads this
      ensures q.Some? <==> running
      ensures running ==> q == aiQ
    {
      if running then aiQ else None
    }

    /** grfUpdateWindowTitles: sets the console status from the run state. */
    method GrfUpdateWindowTitles(runName: string)
      modifies this`title
      ensures title == StatusText(running, runName)
    {
      if running {
        title := "RUNNING - " + runName;
      } else {
        title := "READY";
      }
    }

    /**
     * startRun: refuses, changing nothing, while running or before the app
     * is ready; otherwise creates the graphs window, the queue (at the NI
     * rate and channel count, 30 seconds long), the reader, the trigger,
     * the gate and the graph fetcher, and is running. aoQueued tells
     * whether an aoStart was queued.
     */
    method StartRun(ready: bool, srate: real, nChans: int, runName: string, autoStartAO: bool)
      returns (ok: bool, errTitle: string, errMsg: string, aoQueued: bool)
      requires Valid()
      modifies this
      ensures Valid() && deleted == old(deleted)
      ensures old(running) ==> !ok && errTitle == "Already running" && errMsg == "Stop previous run before starting another."
      ensures !old(running) && !ready ==> !ok && errTitle == "Creating Graphs Pool" && errMsg == "Run cannot start until graphs ready."
      ensures !ok ==> !aoQueued && running == old(running) && Alive() == old(Alive()) && aiQ == old(aiQ) && title == old(title)
      ensures ok <==> !old(running) && ready
      ensures ok ==> running && aiQ == Some(Aiq(srate, nChans, 30, 0)) && !aoFetcher
      ensures ok ==> title == StatusText(true, runName) && aoQueued == autoStartAO
    {
      aoQueued := false;
      if running {
        ok, errTitle, errMsg := false, "Already running", "Stop previous run before starting another.";
        return;
      }
      if !ready {
        ok, errTitle, errMsg := false, "Creating Graphs Pool", "Run cannot start until graphs ready.";
        return;
      }
      errTitle, errMsg := "", "";
      graphsWindow := true;
      aiQ := Some(Aiq(srate, nChans, 30, 0));
      niReader := true;
      trg := true;
      running := true;
      title := StatusText(running, runName);
      gate := true;
      graphFetcher := true;
      aoQueued := autoStartAO;
      ok := true;
    }

    /**
     * stopRun: does nothing unless running; then is no longer running,
     * deletes what exists in the teardown order and retitles the console.
     */
    method StopRun(runName: string)
      requires Valid()
      modifies this
      ensures Valid() && !running
      ensures !old(running) ==> deleted == old(deleted) && title == old(title) && Alive() == old(Alive())
      ensures old(running) ==> title == StatusText(false, runName)
      ensures old(running) ==> deleted == old(deleted) + Teardown(TeardownOrder, old(Alive()), |TeardownOrder|)
    {
      if !running {
        return;
      }
      running := false;
      DeleteOwned();
      title := StatusText(false, runName);
    }

    /** The deletions of stopRun: each object that exists, in the teardown order. */
    method DeleteOwned()
      modifies this`aoFetcher, this`graphFetcher, this`gate, this`trg, this`niReader, this`aiQ, this`graphsWindow, this`deleted
      ensures !aoFetcher && !graphFetcher && !gate && !trg && !niReader && aiQ.None? && !graphsWindow
      ensures deleted == old(deleted) + Teardown(TeardownOrder, old(Alive()), |TeardownOrder|)
    {
      ghost var alive := Alive();
      ghost var log: seq<Part>;
      log := Step(aoFetcher, AoFetcher);
      aoFetcher := false;
      log := log + Step(graphFetcher, GraphFetcher);
      graphFetcher := false;
      log := log + Step(gate, Gate);
      gate := false;
      log := log + Step(trg, Trg);
      trg := false;
      log := log + Step(niReader, NiReader);
      niReader := false;
      log := log + Step(aiQ.Some?, AiQ);
      aiQ := None;
      log := log + Step(graphsWindow, GraphsWindow);
      graphsWindow := false;
      TeardownSteps(TeardownOrder, alive);
      deleted := deleted + log;
    }

    /** aoStop: deletes the audio fetcher if there is one. */
    method AoStop()
      modifies this`aoFetcher, this`deleted
      ensures !aoFetcher
      ensures deleted == old(deleted) + (if old(aoFetcher) then [AoFetcher] else [])
    {
      if aoFetcher {
        aoFetcher := false;
        deleted := deleted + [AoFetcher];
      }
    }

    /** aoStart: stops any audio fetcher, then makes a new one only while running. */
    method AoStart()
      requires Valid()
      modifies this`aoFetcher, this`deleted
      ensures Valid() && aoFetcher == running
      ensures deleted == old(deleted) + (if old(aoFetcher) then [AoFetcher] else [])
    {
      AoStop();
      if running {
        aoFetcher := true;
      }
    }

    /**
     * dfSetTrgEnabled: a remote request goes to the graphs window when
     * there is one; otherwise the trigger, if any, pauses when disabled.
     */
    method DfSetTrgEnabled(enabled: bool, remote: bool) returns (act: TrgAction)
      ensures remote && graphsWindow ==> act == SetInGraphs(enabled)
      ensures !(remote && graphsWindow) && trg ==> act == PauseTrigger(!enabled)
      ensures !(remote && graphsWindow) && !trg ==> act == NoAction
    {
      if remote && graphsWindow {
        return SetInGraphs(enabled);
      }
      if trg {
        return PauseTrigger(!enabled);
      }
      return NoAction;
    }
  }
}
