/*
 * The graph fetcher's worker state (GraphFetcher.h): the streams it
 * serves, its two pause flags and its stop request. Viewers and queues
 * are identified by handles.
 */
module GraphFetch {
  import opened QtText

  /** One stream the fetcher feeds: its name, its viewer, its queue and the next scan to fetch. */
  datatype GFStream = GFStream(stream: string, w: Option<nat>, aiQ: Option<nat>, nextCt: nat)

  /** The default GFStream constructor: no name, no viewer, no queue, from scan 0. */
  function DefaultStream(): (s: GFStream)
    ensures s.stream == "" && s.w.None? && s.aiQ.None? && s.nextCt == 0
  {
    GFStream("", None, None, 0)
  }

  /** The GFStream constructor naming a stream and its viewer; its queue is set later. */
  function NewStream(stream: string, w: Option<nat>): (s: GFStream)
    ensures s.stream == stream && s.w == w
    ensures s.aiQ.None? && s.nextCt == 0
  {
    GFStream(stream, w, None, 0)
  }

  class GFWorker {
    var gfs: seq<GFStream>
    /** Set by the Pause button. */
    var hardPaused: bool
    /** Set by the window state. */
    var softPaused: bool
    var pleaseStop: bool

    constructor()
      ensures gfs == [] && !IsPaused() && !IsStopped()
    {
      gfs := [];
      hardPaused, softPaused, pleaseStop := false, false, false;
    }

    /** Paused by either cause. */
    predicate IsPaused()
      reads this
    {
      hardPaused || softPaused
    }

    predicate IsStopped()
      reads this
    {
      pleaseStop
    }

    /** setStreams replaces the whole stream list. */
    method SetStreams(g: seq<GFStream>)
      modifies this`gfs
      ensures gfs == g
    {
      gfs := g;
    }

    /** hardPause: the worker is paused iff asked to or the window pauses it. */
    method HardPause(pause: bool)
      modifies this`hardPaused
      ensures hardPaused == pause
      ensures IsPaused() <==> pause || softPaused
    {
      hardPaused := pause;
    }

    /** softPause: the worker is paused iff asked to or the button pauses it. */
    method SoftPause(pause: bool)
      modifies this`softPaused
      ensures softPaused == pause
      ensures IsPaused() <==> pause || hardPaused
    {
      softPaused := pause;
    }

    /** stop: a request nothing withdraws. */
    method Stop()
      modifies this`pleaseStop
      ensures IsStopped()
    {
      pleaseStop := true;
    }
  }

  /** The fetcher: it forwards the stream list and the pauses to its worker. */
  class GraphFetcher {
    const worker: GFWorker

    constructor()
      ensures fresh(worker) && worker.gfs == [] && !worker.IsPaused() && !worker.IsStopped()
    {
      worker := new GFWorker();
    }

    method SetStreams(g: seq<GFStream>)
      modifies worker`gfs
      ensures worker.gfs == g
    {
      worker.SetStreams(g);
    }

    method HardPause(pause: bool)
      modifies worker`hardPaused
      ensures worker.hardPaused == pause
      ensures worker.IsPaused() <==> pause || worker.softPaused
    {
      worker.HardPause(pause);
    }

    method SoftPause(pause: bool)
      modifies worker`softPaused
      ensures worker.softPaused == pause
      ensures worker.IsPaused() <==> pause || worker.hardPaused
    {
      worker.SoftPause(pause);
    }
  }
}
