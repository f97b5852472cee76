/*
 * The remote-control command server's per-connection worker (CmdWorker):
 * a command line is split on whitespace, its first token upper-cased and
 * dispatched to a query or a command handler, and the handler's error
 * message decides whether the client gets "OK" or "ERROR <msg>"; the
 * session loop gives up after five failures in a row.
 *
 * What the application answers (run state, configuration, the sample
 * queues, the file system, the SHA1/PAR2 workers) is code this model does
 * not contain; it enters as the App value below.
 */
module CmdServer {
  import opened QtText
  import CimCfg

  /** What the worker puts on the socket: a text line or a binary frame of samples. */
  datatype Msg = Text(s: string) | Binary(nSamples: nat)

  datatype DirEntry = DirEntry(name: string, isDir: bool)

  /** One block handed out by a sample queue: its first count and its scan count. */
  datatype Block = Block(headCt: int, nScans: nat)

  /** A running sample queue: channel count, getNScansFromCt, and whether catBlocks succeeds. */
  datatype Queue = Queue(nChans: nat, fetch: (int, int) -> seq<Block>, catOK: bool)

  /** Subset::cmdStr2Bits: an error message, or the number of channels the pattern keeps. */
  datatype SubsetResult = SubsetResult(err: string, nKeep: nat)

  datatype Par2Op = Create | Verify | Repair

  /**
   * The application behind the worker.
   *   answer        the always-present reply of the plain queries (GETVERSION, ...)
   *   configAnswer  the reply of the configuration queries, null when absent
   *   command       the error message a modelled-elsewhere command leaves
   *   downsample    scans left in a block after Subset::downsample by a factor
   */
  datatype App = App(
    validated: bool,
    imEnabled: bool, nProbes: int, imCum: seq<seq<int>>,
    niEnabled: bool, niCum: seq<int>,
    runDir: string, runDirExists: bool, entries: seq<DirEntry>,
    imQ: int -> Option<Queue>, imSaveCount: int -> nat,
    niQ: Option<Queue>, niSaveCount: nat,
    subset: (string, nat) -> SubsetResult,
    downsample: (nat, nat) -> nat,
    answer: (string, seq<string>) -> string,
    configAnswer: (string, seq<string>) -> Option<string>,
    command: (string, seq<string>) -> string,
    par2: (Par2Op, string) -> string)
  {
    /** Each probe carries three cumulative type counts, NI carries four. */
    predicate Valid()
    {
      0 <= nProbes <= |imCum| && (forall ip :: 0 <= ip < |imCum| ==> |imCum[ip]| == 3) && |niCum| == 4
    }
  }

  /** A handler's outcome: errMsg as it leaves it, what it sends, whether it closes the socket. */
  datatype Effect = Effect(err: string, out: seq<Msg>, close: bool)

  function Fail(err: string): (e: Effect)
    ensures e.err == err && e.out == [] && !e.close
  {
    Effect(err, [], false)
  }

  /* ---------------------------------------------------------------- */
  /* Channel-count replies ------------------------------------------- */
  /* ---------------------------------------------------------------- */

  /** Per-type counts from cumulative ones: the first, then each step up. */
  function Differences(cum: seq<int>): (d: seq<int>)
    ensures |d| == |cum|
  {
    seq(|cum|, i requires 0 <= i < |cum| => if i == 0 then cum[0] else cum[i] - cum[i - 1])
  }

  lemma {:induction false} IntegratedDifferences(cum: seq<int>)
    ensures CimCfg.Integrated(Differences(cum)) == cum
  {
    if cum != [] {
      var n := |cum|;
      var d := Differences(cum);
      var front := cum[..n - 1];
      assert d[..n - 1] == Differences(front);
      IntegratedDifferences(front);
      assert cum == front + [cum[n - 1]];
    }
  }

  lemma {:induction false} DifferencesIntegrated(counts: seq<int>)
    ensures Differences(CimCfg.Integrated(counts)) == counts
  {
    if counts != [] {
      var n := |counts|;
      var front := counts[..n - 1];
      var r := CimCfg.Integrated(counts);
      assert r[..n - 1] == CimCfg.Integrated(front);
      DifferencesIntegrated(front);
      assert Differences(r)[..n - 1] == Differences(r[..n - 1]);
      assert counts == front + [counts[n - 1]];
    }
  }

  /** "%1 %2 ...\n". */
  function CountsLine(ns: seq<int>): string
  {
    JoinWith(seq(|ns|, i requires 0 <= i < |ns| => IntToString(ns[i])), " ") + "\n"
  }

  /** The argument given to toUInt by a handler that reads toks.front() (0 when absent). */
  function FirstArg(args: seq<string>): string
  {
    if args == [] then "" else args[0]
  }

  /** getAcqChanCountsIm: (errMsg, resp). */
  function AcqChanCountsIm(app: App, args: seq<string>): (r: (string, Option<string>))
    requires app.Valid()
    ensures r.0 == "" <==> r.1.Some?
    ensures r.1.Some? <==> app.validated && (!app.imEnabled || ToUInt(FirstArg(args)) < app.nProbes)
    ensures app.validated && !app.imEnabled ==> r.1 == Some(CountsLine([0, 0, 0]))
  {
    if !app.validated then ("GETACQCHANCOUNTSIM: Run parameters never validated.", None)
    else if !app.imEnabled then ("", Some(CountsLine([0, 0, 0])))
    else
      var ip := ToUInt(FirstArg(args));
      if ip >= app.nProbes then
        ("GETACQCHANCOUNTSIM: StreamID must be in range [0.." + IntToString(app.nProbes - 1) + "].", None)
      else ("", Some(CountsLine(Differences(app.imCum[ip]))))
  }

  /** The reply is AP, LF-AP, SY-LF, whose running sums give back the cumulative counts. */
  lemma ImCountsReply(app: App, args: seq<string>)
    requires app.Valid() && app.validated && app.imEnabled
    requires ToUInt(FirstArg(args)) < app.nProbes
    ensures var c := app.imCum[ToUInt(FirstArg(args))];
      && AcqChanCountsIm(app, args) == ("", Some(CountsLine([c[0], c[1] - c[0], c[2] - c[1]])))
      && CimCfg.Integrated([c[0], c[1] - c[0], c[2] - c[1]]) == c
  {
    var c := app.imCum[ToUInt(FirstArg(args))];
    assert Differences(c) == [c[0], c[1] - c[0], c[2] - c[1]];
    IntegratedDifferences(c);
  }

  /** getAcqChanCountsNi: (errMsg, resp). */
  function AcqChanCountsNi(app: App): (r: (string, Option<string>))
    requires app.Valid()
    ensures r.0 == "" <==> r.1.Some?
    ensures r.1.Some? <==> app.validated
    ensures app.validated && !app.niEnabled ==> r.1 == Some(CountsLine([0, 0, 0, 0]))
  {
    if !app.validated then ("GETACQCHANCOUNTSNI: Run parameters never validated.", None)
    else if !app.niEnabled then ("", Some(CountsLine([0, 0, 0, 0])))
    else ("", Some(CountsLine(Differences(app.niCum))))
  }

  lemma NiCountsReply(app: App)
    requires app.Valid() && app.validated && app.niEnabled
    ensures var c := app.niCum;
      var ns := [c[0], c[1] - c[0], c[2] - c[1], c[3] - c[2]];
      && AcqChanCountsNi(app) == ("", Some(CountsLine(ns)))
      && CimCfg.Integrated(ns) == c
  {
    var c := app.niCum;
    assert Differences(c) == [c[0], c[1] - c[0], c[2] - c[1], c[3] - c[2]];
    IntegratedDifferences(c);
  }

  /* ---------------------------------------------------------------- */
  /* Run-directory listing ------------------------------------------- */
  /* ---------------------------------------------------------------- */

  predicate StartsWith(s: string, p: string) { |p| <= |s| && s[..|p|] == p }

  /** A listing line: "/" after a directory; a leading space keeps "ERROR" off the line head. */
  function FormatEntry(e: DirEntry): (r: string)
    ensures !StartsWith(r, "ERROR")
  {
    var entry := e.name + (if e.isDir then "/" else "");
    if StartsWith(entry, "ERROR") then
      var r := " " + entry;
      assert r[0] == ' ';
      r
    else entry
  }

  /** How a client reads a listing line back. */
  function ParseEntry(s: string): DirEntry
  {
    var t := if StartsWith(s, " ERROR") then s[1..] else s;
    if t != [] && t[|t| - 1] == '/' then DirEntry(t[..|t| - 1], true) else DirEntry(t, false)
  }

  /** A file name holds no '/'; one starting " ERROR" would read back without its space. */
  lemma EntryRoundTrip(e: DirEntry)
    requires forall j :: 0 <= j < |e.name| ==> e.name[j] != '/'
    requires !StartsWith(e.name, " ERROR")
    ensures ParseEntry(FormatEntry(e)) == e
  {
    var entry := e.name + (if e.isDir then "/" else "");
    if StartsWith(entry, "ERROR") {
      assert (" " + entry)[..6] == " " + entry[..5];
      assert (" " + entry)[1..] == entry;
    } else {
      assert !StartsWith(entry, " ERROR") by {
        if |e.name| >= 6 {
          assert entry[..6] == e.name[..6];
        } else {
          assert |entry| < 6 || entry[5] == '/';
        }
      }
    }
    if e.isDir {
      assert entry[..|entry| - 1] == e.name;
    } else if e.name != [] {
      assert entry[|entry| - 1] == e.name[|e.name| - 1];
    }
  }

  function DirListing(entries: seq<DirEntry>): (r: seq<Msg>)
    ensures |r| == |entries|
    ensures forall i :: 0 <= i < |entries| ==> r[i] == Text(FormatEntry(entries[i]) + "\n")
  {
    seq(|entries|, i requires 0 <= i < |entries| => Text(FormatEntry(entries[i]) + "\n"))
  }

  /** enumRunDir: a missing run directory is an error; otherwise one line per entry. */
  function EnumRunDirSpec(app: App): (r: Effect)
    ensures r.err == "" <==> app.runDirExists
    ensures r.err == "" ==> |r.out| == |app.entries|
    ensures r.err == "" ==> forall i :: 0 <= i < |r.out| ==> r.out[i] == Text(FormatEntry(app.entries[i]) + "\n")
  {
    if !app.runDirExists then Fail("Directory does not exist: " + app.runDir)
    else Effect("", DirListing(app.entries), false)
  }

  /* ---------------------------------------------------------------- */
  /* Fetch ----------------------------------------------------------- */
  /* ---------------------------------------------------------------- */

  function Header(nChans: int, nScans: int, headCt: int): string
  {
    "BINARY_DATA " + IntToString(nChans) + " " + IntToString(nScans) + " uint64(" + IntToString(headCt) + ")\n"
  }

  function Sum(ns: seq<nat>): nat
  {
    if ns == [] then 0 else Sum(ns[..|ns| - 1]) + ns[|ns| - 1]
  }

  /** The quint64 a toLongLong is stored into. */
  function UInt64(v: int): (r: nat)
    ensures r < 0x1_0000_0000_0000_0000
    ensures 0 <= v < 0x1_0000_0000_0000_0000 ==> r == v
  {
    v % 0x1_0000_0000_0000_0000
  }

  /** The channel-subset step: cmdStr2Bits of the pattern, or all the saved channels. */
  function SubsetOf(app: App, q: Queue, saveCount: nat, pattern: Option<string>): SubsetResult
  {
    if pattern.Some? then app.subset(pattern.value, q.nChans) else SubsetResult("", saveCount)
  }

  /** The channel count sent: the kept channels when fewer than the queue's. */
  function ChansSent(q: Queue, sub: SubsetResult): (n: nat)
    ensures n <= q.nChans && n <= sub.nKeep
  {
    if sub.nKeep < q.nChans then sub.nKeep else q.nChans
  }

  /** Scans left in each fetched block once downsampled (a factor of 0 or 1 keeps them all). */
  function ScansSent(app: App, vB: seq<Block>, dnsmp: int): (r: seq<nat>)
    ensures |r| == |vB|
    ensures dnsmp <= 1 ==> forall i :: 0 <= i < |vB| ==> r[i] == vB[i].nScans
  {
    seq(|vB|, i requires 0 <= i < |vB| => Kept(app, vB[i], dnsmp))
  }

  function Kept(app: App, b: Block, dnsmp: int): nat
  {
    if dnsmp > 1 then app.downsample(b.nScans, dnsmp) else b.nScans
  }

  /** The frame over blocks whose concatenation holds Sum(scans) scans of nChans samples each. */
  function Frame(nChans: nat, scans: seq<nat>, headCt: int): (r: Effect)
    ensures r.err == "" && !r.close
    ensures 0 < nChans ==> r.out == [Text(Header(nChans, Sum(scans), headCt)), Binary(nChans * Sum(scans))]
  {
    var size := Sum(scans) * nChans;
    if nChans > 0 then MulDiv(Sum(scans), nChans); assert size == nChans * Sum(scans);
      Effect("", [Text(Header(nChans, size / nChans, headCt)), Binary(size)], false)
    else Effect("", [Text(Header(nChans, 0, headCt)), Binary(size)], false)
  }

  /**
   * The shared body of fetchIm and fetchNi once the queue is known:
   * the channel subset, the downsample factor, the fetch of whole scans,
   * and the header-plus-binary reply.
   */
  function FetchReply(app: App, q: Queue, saveCount: nat, pattern: Option<string>, dnsmpTok: Option<string>,
                      fromTok: string, nMaxTok: string, queueTag: string, memTag: string): (r: Effect)
    ensures !r.close
    ensures r.err != "" ==> r.out == []
    ensures var vB := q.fetch(UInt64(ToLongLong(fromTok)), ToInt(nMaxTok));
      var sub := SubsetOf(app, q, saveCount, pattern);
      && (sub.err != "" ==> r == Fail(sub.err))
      && (sub.err == "" && vB == [] ==> r == Fail("No data read from " + queueTag + " queue."))
      && (r.err == "" ==> vB != [] && q.catOK)
      && (r.err == "" && ChansSent(q, sub) > 0 ==>
            var nScans := Sum(ScansSent(app, vB, if dnsmpTok.Some? then ToUInt(dnsmpTok.value) else 1));
            r.out == [Text(Header(ChansSent(q, sub), nScans, vB[0].headCt)), Binary(ChansSent(q, sub) * nScans)])
  {
    var sub := SubsetOf(app, q, saveCount, pattern);
    if sub.err != "" then Fail(sub.err)
    else
      var dnsmp := if dnsmpTok.Some? then ToUInt(dnsmpTok.value) else 1;
      var vB := q.fetch(UInt64(ToLongLong(fromTok)), ToInt(nMaxTok));
      if vB == [] then Fail("No data read from " + queueTag + " queue.")
      else if !q.catOK then Fail(memTag + " mem failure.")
      else Frame(ChansSent(q, sub), ScansSent(app, vB, dnsmp), vB[0].headCt)
  }

  lemma MulMono(x: nat, y: nat, b: nat)
    requires x <= y
    ensures x * b <= y * b
  {
    assert y * b == x * b + (y - x) * b;
  }

  lemma MulDiv(a: nat, b: nat)
    requires b > 0
    ensures (a * b) / b == a
  {
    var q := (a * b) / b;
    var r := (a * b) % b;
    assert q * b + r == a * b;
    if q < a {
      MulMono(q + 1, a, b);
    } else if q > a {
      MulMono(a + 1, q, b);
    }
  }


  /** fetchIm: "ip fromCt nMax [subset [dnsmp]]". */
  function FetchIm(app: App, args: seq<string>): (r: Effect)
    ensures !r.close
    ensures |args| < 3 ==> r == Fail("FETCHIM: Requires at least 3 params.")
    ensures r.err == "" ==> |args| >= 3 && app.imQ(ToUInt(args[0])).Some?
    ensures |args| >= 3 && app.imQ(ToUInt(args[0])).None? ==> r == Fail("Not running.")
  {
    if |args| >= 3 then
      var ip := ToUInt(args[0]);
      match app.imQ(ip)
      case None => Fail("Not running.")
      case Some(q) =>
        FetchReply(app, q, app.imSaveCount(ip),
                   if |args| >= 4 then Some(args[3]) else None,
                   if |args| >= 5 then Some(args[4]) else None,
                   args[1], args[2], "IM", "FetchIm")
    else Fail("FETCHIM: Requires at least 3 params.")
  }

  /** fetchNi: "fromCt nMax [subset [dnsmp]]"; the queue is checked before the arity. */
  function FetchNi(app: App, args: seq<string>): (r: Effect)
    ensures !r.close
    ensures app.niQ.None? ==> r == Fail("Not running.")
    ensures app.niQ.Some? && |args| < 2 ==> r == Fail("FETCHNI: Requires at least 2 params.")
    ensures r.err == "" ==> app.niQ.Some? && |args| >= 2
  {
    match app.niQ
    case None => Fail("Not running.")
    case Some(q) =>
      if |args| >= 2 then
        FetchReply(app, q, app.niSaveCount,
                   if |args| >= 3 then Some(args[2]) else None,
                   if |args| >= 4 then Some(args[3]) else None,
                   args[0], args[1], "NI", "FetchNi")
      else Fail("FETCHNI: Requires at least 2 params.")
  }

  /* ---------------------------------------------------------------- */
  /* PAR2 ------------------------------------------------------------ */
  /* ---------------------------------------------------------------- */

  /** The operation named by the first letter of a token, in either case. */
  function Par2OpOf(tok: string): (r: Option<Par2Op>)
    ensures r == Some(Create) <==> tok != [] && (tok[0] == 'c' || tok[0] == 'C')
    ensures r == Some(Verify) <==> tok != [] && (tok[0] == 'v' || tok[0] == 'V')
    ensures r == Some(Repair) <==> tok != [] && (tok[0] == 'r' || tok[0] == 'R')
  {
    if tok == [] then None
    else
      var c := LowerChar(tok[0]);
      if c == 'c' then Some(Create)
      else if c == 'v' then Some(Verify)
      else if c == 'r' then Some(Repair)
      else None
  }

  const PAR2_OP_ERROR: string := "Error: operation must be one of {\"c\", \"v\", \"r\"}"

  /** par2Start: "op file name ...", the file name being the rest joined by single spaces. */
  function Par2Start(app: App, args: seq<string>): (r: Effect)
    ensures !r.close && r.out == []
    ensures |args| < 2 ==> r.err == "PAR2: Requires at least 2 arguments."
    ensures |args| >= 2 && Par2OpOf(args[0]).None? ==> r.err == PAR2_OP_ERROR
    ensures |args| >= 2 && Par2OpOf(args[0]).Some? ==>
      r.err == app.par2(Par2OpOf(args[0]).value, JoinWith(args[1..], " "))
  {
    if |args| >= 2 then
      match Par2OpOf(args[0])
      case None => Fail(PAR2_OP_ERROR)
      case Some(op) => Fail(app.par2(op, JoinWith(args[1..], " ")))
    else Fail("PAR2: Requires at least 2 arguments.")
  }

  /* ---------------------------------------------------------------- */
  /* Dispatch -------------------------------------------------------- */
  /* ---------------------------------------------------------------- */

  const QUERIES: set<string> := {
    "GETVERSION", "ISINITIALIZED", "GETTIME", "GETRUNDIR", "GETPARAMS",
    "GETACQCHANCOUNTSIM", "GETACQCHANCOUNTSNI", "ISRUNNING", "ISSAVING",
    "ISUSRORDERIM", "ISUSRORDERNI", "GETCURRUNFILE", "GETFILESTARTIM",
    "GETFILESTARTNI", "GETSCANCOUNTIM", "GETSCANCOUNTNI", "GETSAVECHANSIM",
    "GETSAVECHANSNI", "ISCONSOLEHIDDEN"}

  /** The queries whose reply comes from the configuration and needs validated parameters. */
  const CONFIG_QUERIES: set<string> := {"GETPARAMS", "GETSAVECHANSIM", "GETSAVECHANSNI"}

  const CLOSERS: set<string> := {"BYE", "QUIT", "EXIT", "CLOSE"}

  const COMMANDS: set<string> := {
    "NOOP", "SETRUNDIR", "ENUMRUNDIR", "SETPARAMS", "SETAUDIOPARAMS",
    "SETAUDIOENABLE", "SETRECORDENAB", "SETRUNNAME", "SETMETADATA",
    "STARTRUN", "STOPRUN", "SETDIGOUT", "FETCHIM", "FETCHNI",
    "CONSOLEHIDE", "CONSOLESHOW", "VERIFYSHA1", "PAR2"} + CLOSERS

  const EMPTY_RESPONSE: string := "CmdWorker: Application response is empty."

  /** A query handler's (errMsg, resp): None when cmd is not a query. */
  function Query(app: App, cmd: string, args: seq<string>): (r: Option<(string, Option<string>)>)
    requires app.Valid()
    ensures r.Some? <==> cmd in QUERIES
    ensures r.Some? && r.value.1.None? && r.value.0 == "" ==> cmd in CONFIG_QUERIES
  {
    if cmd in CONFIG_QUERIES then
      if !app.validated then Some((cmd + ": Run parameters never validated.", None))
      else Some(("", app.configAnswer(cmd, args)))
    else if cmd == "GETACQCHANCOUNTSIM" then Some(AcqChanCountsIm(app, args))
    else if cmd == "GETACQCHANCOUNTSNI" then Some(AcqChanCountsNi(app))
    else if cmd in QUERIES then Some(("", Some(app.answer(cmd, args))))
    else None
  }

  /** doQuery's reply rule: a null response is an error, whose text is kept if the handler gave one. */
  function Respond(err: string, resp: Option<string>): (r: Effect)
    ensures r.err == "" <==> err == "" && resp.Some?
    ensures resp.None? && err == "" ==> r.err == EMPTY_RESPONSE
    ensures resp.Some? ==> r.out == [Text(resp.value)] && r.err == err
    ensures resp.None? ==> r.out == []
  {
    match resp
    case None => Fail(if err == "" then EMPTY_RESPONSE else err)
    case Some(s) => Effect(err, [Text(s)], false)
  }

  /** A command handler's outcome: None when cmd is not a command. */
  function Command(app: App, cmd: string, args: seq<string>): (r: Option<Effect>)
    ensures r.Some? <==> cmd in COMMANDS
    ensures r.Some? && r.value.close <==> cmd in CLOSERS
    ensures r.Some? && r.value.close ==> r.value.err == "" && r.value.out == []
    ensures cmd == "NOOP" ==> r == Some(Effect("", [], false))
  {
    if cmd == "NOOP" then Some(Effect("", [], false))
    else if cmd == "ENUMRUNDIR" then Some(EnumRunDirSpec(app))
    else if cmd == "STARTRUN" then
      Some(Fail(if !app.validated then "STARTRUN: Run parameters never validated." else app.command(cmd, args)))
    else if cmd == "FETCHIM" then Some(FetchIm(app, args))
    else if cmd == "FETCHNI" then Some(FetchNi(app, args))
    else if cmd == "PAR2" then Some(Par2Start(app, args))
    else if cmd in CLOSERS then Some(Effect("", [], true))
    else if cmd in COMMANDS then Some(Fail(app.command(cmd, args)))
    else None
  }

  /** Queries first, then commands. */
  function Dispatch(app: App, cmd: string, args: seq<string>): (r: Option<Effect>)
    requires app.Valid()
    ensures r.Some? <==> cmd in QUERIES || cmd in COMMANDS
    ensures r.Some? && r.value.close ==> r.value.err == ""
  {
    match Query(app, cmd, args)
    case Some(q) => Some(Respond(q.0, q.1))
    case None => Command(app, cmd, args)
  }

  /* ---------------------------------------------------------------- */
  /* processLine ----------------------------------------------------- */
  /* ---------------------------------------------------------------- */

  datatype LineResult = LineResult(ok: bool, errMsg: string, out: seq<Msg>, close: bool)

  const MISSING_TOKEN: string := "CmdWorker: Missing command token."

  function UnknownCommand(cmd: string): string
  {
    "CmdWorker: Unknown command [" + cmd + "]."
  }

  /** The line's result once its command token has been looked up. */
  function Outcome(cmd: string, d: Option<Effect>): (r: LineResult)
    ensures r.ok <==> r.errMsg == ""
    ensures d.None? ==> r == LineResult(false, UnknownCommand(cmd), [], false)
    ensures d.Some? ==> r.errMsg == d.value.err && r.out == d.value.out && r.close == d.value.close
  {
    match d
    case None => LineResult(false, UnknownCommand(cmd), [], false)
    case Some(e) => LineResult(e.err == "", e.err, e.out, e.close)
  }

  /**
   * processLine over any command lookup: the missing-token error for a line
   * with no tokens, else the first token upper-cased, looked up with the
   * remaining tokens as arguments.
   */
  function LineOf(dispatch: (string, seq<string>) -> Option<Effect>, line: string): (r: LineResult)
    ensures r.ok <==> r.errMsg == ""
    ensures Split(line, Spaces) == [] ==> r == LineResult(false, MISSING_TOKEN, [], false)
  {
    var toks := Split(line, Spaces);
    if toks == [] then LineResult(false, MISSING_TOKEN, [], false)
    else
      var cmd := ToUpper(toks[0]);
      Outcome(cmd, dispatch(cmd, toks[1..]))
  }

  /** Dispatch on the worker's application, as a lookup. */
  function DispatchOn(app: App): (string, seq<string>) -> Option<Effect>
  {
    (cmd: string, args: seq<string>) => if app.Valid() then Dispatch(app, cmd, args) else None
  }

  /** processLine: its result, the errMsg it leaves, what it sends and whether it closes. */
  function LineSpec(app: App, line: string): (r: LineResult)
    requires app.Valid()
    ensures r.ok <==> r.errMsg == ""
    ensures r.close ==> r.ok
    ensures Split(line, Spaces) == [] ==> r == LineResult(false, MISSING_TOKEN, [], false)
  {
    LineOf(DispatchOn(app), line)
  }

  /** A line whose first token, upper-cased, names no query and no command is the unknown-command error. */
  lemma UnknownLine(app: App, line: string)
    requires app.Valid()
    requires Split(line, Spaces) != [] && ToUpper(Split(line, Spaces)[0]) !in QUERIES + COMMANDS
    ensures LineSpec(app, line) == LineResult(false, UnknownCommand(ToUpper(Split(line, Spaces)[0])), [], false)
  {
  }

  /** A line of whitespace only is the missing-token error. */
  lemma BlankLine(app: App, line: string)
    requires app.Valid()
    requires forall j :: 0 <= j < |line| ==> IsSpace(line[j])
    ensures LineSpec(app, line) == LineResult(false, MISSING_TOKEN, [], false)
  {
    SplitAllSpaces(line);
  }

  lemma UpperPlain(t: string)
    requires t != [] && AllPlain(Spaces, t)
    ensures ToUpper(t) != [] && AllPlain(Spaces, ToUpper(t))
  {
  }

  /** Over any lookup, a line of single-space-separated tokens is its first token's entry applied to the rest. */
  lemma LineOfTokensWith(dispatch: (string, seq<string>) -> Option<Effect>, t: string, args: seq<string>)
    requires t != [] && AllPlain(Spaces, t)
    requires forall i :: 0 <= i < |args| ==> args[i] != [] && AllPlain(Spaces, args[i])
    ensures LineOf(dispatch, JoinWith([t] + args, " ")) == Outcome(ToUpper(t), dispatch(ToUpper(t), args))
  {
    var ts := [t] + args;
    forall i | 0 <= i < |ts|
      ensures ts[i] != [] && AllPlain(Spaces, ts[i])
    {
      if i > 0 {
        assert ts[i] == args[i - 1];
      }
    }
    SplitJoinSpaces(ts);
    assert ts[0] == t && ts[1..] == args;
  }

  /** A line of single-space-separated tokens is its first token's command applied to the rest. */
  lemma LineOfTokens(app: App, t: string, args: seq<string>)
    requires app.Valid()
    requires t != [] && AllPlain(Spaces, t)
    requires forall i :: 0 <= i < |args| ==> args[i] != [] && AllPlain(Spaces, args[i])
    ensures LineSpec(app, JoinWith([t] + args, " ")) == Outcome(ToUpper(t), Dispatch(app, ToUpper(t), args))
  {
    LineOfTokensWith(DispatchOn(app), t, args);
  }

  /** Over any lookup, the command token's case does not matter. */
  lemma LineCaseInsensitiveWith(dispatch: (string, seq<string>) -> Option<Effect>, t: string, args: seq<string>)
    requires t != [] && AllPlain(Spaces, t)
    requires forall i :: 0 <= i < |args| ==> args[i] != [] && AllPlain(Spaces, args[i])
    ensures LineOf(dispatch, JoinWith([t] + args, " ")) == LineOf(dispatch, JoinWith([ToUpper(t)] + args, " "))
  {
    LineOfTokensWith(dispatch, t, args);
    UpperPlain(t);
    LineOfTokensWith(dispatch, ToUpper(t), args);
    ToUpperIdempotent(t);
  }

  /** The command's case does not matter: "fetchim a b" and "FETCHIM a b" do the same. */
  lemma LineCaseInsensitive(app: App, t: string, args: seq<string>)
    requires app.Valid()
    requires t != [] && AllPlain(Spaces, t)
    requires forall i :: 0 <= i < |args| ==> args[i] != [] && AllPlain(Spaces, args[i])
    ensures LineSpec(app, JoinWith([t] + args, " ")) == LineSpec(app, JoinWith([ToUpper(t)] + args, " "))
  {
    LineCaseInsensitiveWith(DispatchOn(app), t, args);
  }

  /**
   * The handlers see the tokens after the command: the line's error and
   * output are the handler's, or the unknown-command error when there is none.
   */
  lemma LineDispatch(app: App, t: string, args: seq<string>)
    requires app.Valid()
    requires t != [] && AllPlain(Spaces, t)
    requires forall i :: 0 <= i < |args| ==> args[i] != [] && AllPlain(Spaces, args[i])
    ensures var r := LineSpec(app, JoinWith([t] + args, " "));
      && (Dispatch(app, ToUpper(t), args).None? ==> !r.ok && r.errMsg == UnknownCommand(ToUpper(t)))
      && (Dispatch(app, ToUpper(t), args).Some? ==>
            r.errMsg == Dispatch(app, ToUpper(t), args).value.err && r.out == Dispatch(app, ToUpper(t), args).value.out)
  {
    LineOfTokens(app, t, args);
  }

  /* ---------------------------------------------------------------- */
  /* Session --------------------------------------------------------- */
  /* ---------------------------------------------------------------- */

  const MAX_ERR_CT: nat := 5

  /** What one processed line sends: the handler's output, then OK or ERROR unless the socket closed. */
  function LineMsgs(r: LineResult): seq<Msg>
  {
    r.out + (if r.close then [] else [if r.ok then Text("OK\n") else Text("ERROR " + r.errMsg + "\n")])
  }

  /**
   * proc is processLine's outcome on the worker's application. The trigger
   * keeps the handlers out of reasoning about the session loop alone.
   */
  ghost predicate ProcessesLines(app: App, proc: string -> LineResult)
  {
    app.Valid() && forall l :: ProcessesLine(app, proc, l)
  }

  ghost predicate ProcessesLine(app: App, proc: string -> LineResult, line: string)
    requires app.Valid()
  {
    proc(line) == LineSpec(app, line)
  }

  datatype SessionEnd = SessionEnd(consumed: nat, errCt: nat, sent: seq<Msg>, closed: bool, errMsg: string)

  /**
   * The session loop from a given error count, socket state and errMsg, over
   * the lines readLine returns (None: the null line; the end of the sequence
   * reads as one too), each non-empty one handled by proc.
   */
  function Session(proc: string -> LineResult, lines: seq<Option<string>>, errCt: nat, closed: bool, errMsg: string): (r: SessionEnd)
    ensures r.consumed <= |lines|
    ensures errCt <= MAX_ERR_CT ==> r.errCt <= MAX_ERR_CT
    ensures r.consumed < |lines| ==> r.closed || r.errCt >= MAX_ERR_CT || (r.consumed > 0 && lines[r.consumed - 1].None?)
    decreases |lines|
  {
    if closed || errCt >= MAX_ERR_CT || lines == [] then SessionEnd(0, errCt, [], closed, errMsg)
    else match lines[0]
      case None => SessionEnd(1, errCt, [], closed, errMsg)
      case Some(s) =>
        if s == [] then
          var rest := Session(proc, lines[1..], errCt, closed, errMsg);
          rest.(consumed := rest.consumed + 1)
        else
          var r := proc(s);
          var rest := Session(proc, lines[1..], if r.ok then 0 else errCt + 1, r.close, r.errMsg);
          SessionEnd(rest.consumed + 1, rest.errCt, LineMsgs(r) + rest.sent, rest.closed, rest.errMsg)
  }

  lemma SessionStop(proc: string -> LineResult, lines: seq<Option<string>>, errCt: nat, closed: bool, errMsg: string)
    ensures closed || errCt >= MAX_ERR_CT || lines == [] ==>
      Session(proc, lines, errCt, closed, errMsg) == SessionEnd(0, errCt, [], closed, errMsg)
  {
  }

  lemma SessionNull(proc: string -> LineResult, lines: seq<Option<string>>, errCt: nat, closed: bool, errMsg: string)
    requires !closed && errCt < MAX_ERR_CT && lines != [] && lines[0].None?
    ensures Session(proc, lines, errCt, closed, errMsg) == SessionEnd(1, errCt, [], closed, errMsg)
  {
  }

  lemma SessionEmpty(proc: string -> LineResult, lines: seq<Option<string>>, errCt: nat, closed: bool, errMsg: string)
    requires !closed && errCt < MAX_ERR_CT && lines != [] && lines[0] == Some([])
    ensures var rest := Session(proc, lines[1..], errCt, closed, errMsg);
      Session(proc, lines, errCt, closed, errMsg) == rest.(consumed := rest.consumed + 1)
  {
  }

  lemma SessionLine(proc: string -> LineResult, lines: seq<Option<string>>, errCt: nat, closed: bool, errMsg: string)
    requires !closed && errCt < MAX_ERR_CT && lines != [] && lines[0].Some? && lines[0].value != []
    ensures var r := proc(lines[0].value);
      var rest := Session(proc, lines[1..], if r.ok then 0 else errCt + 1, r.close, r.errMsg);
      Session(proc, lines, errCt, closed, errMsg) ==
        SessionEnd(rest.consumed + 1, rest.errCt, LineMsgs(r) + rest.sent, rest.closed, rest.errMsg)
  {
  }

  /** What one processed line leaves sent: the handler's output, then its reply unless the socket closed. */
  lemma LineSent(r: LineResult, sent0: seq<Msg>, sent1: seq<Msg>, sent: seq<Msg>, ok: bool, closed: bool, errMsg: string)
    requires ok == r.ok && closed == r.close && errMsg == r.errMsg && sent1 == sent0 + r.out
    requires sent == sent1 + (if closed then [] else [if ok then Text("OK\n") else Text("ERROR " + errMsg + "\n")])
    ensures sent == sent0 + LineMsgs(r)
  {
  }

  lemma Assoc(a: seq<Msg>, b: seq<Msg>, c: seq<Msg>)
    ensures a + (b + c) == (a + b) + c
  {
  }

  /** A line proc fails without closing the socket (processLine closes only on success). */
  predicate Failing(proc: string -> LineResult, l: Option<string>)
  {
    l.Some? && l.value != [] && !proc(l.value).ok && !proc(l.value).close
  }

  /** MAX_ERR_CT - errCt failing lines in a row end the session, whatever follows. */
  lemma {:induction false} FailuresEnd(proc: string -> LineResult, fails: seq<Option<string>>, rest: seq<Option<string>>, errCt: nat, errMsg: string)
    requires errCt <= MAX_ERR_CT && |fails| == MAX_ERR_CT - errCt
    requires forall i :: 0 <= i < |fails| ==> Failing(proc, fails[i])
    ensures Session(proc, fails + rest, errCt, false, errMsg).consumed == |fails|
    ensures Session(proc, fails + rest, errCt, false, errMsg).errCt == MAX_ERR_CT
  {
    if fails != [] {
      var r := proc(fails[0].value);
      assert Failing(proc, fails[0]);
      assert (fails + rest)[0] == fails[0] && (fails + rest)[1..] == fails[1..] + rest;
      SessionLine(proc, fails + rest, errCt, false, errMsg);
      FailuresEnd(proc, fails[1..], rest, errCt + 1, r.errMsg);
    }
  }

  /** Five failing lines in a row from a fresh session end it with errCt 5. */
  lemma FiveStrikes(proc: string -> LineResult, fails: seq<Option<string>>, rest: seq<Option<string>>)
    requires |fails| == MAX_ERR_CT
    requires forall i :: 0 <= i < |fails| ==> Failing(proc, fails[i])
    ensures Session(proc, fails + rest, 0, false, "").consumed == MAX_ERR_CT
    ensures Session(proc, fails + rest, 0, false, "").errCt == MAX_ERR_CT
  {
    FailuresEnd(proc, fails, rest, 0, "");
  }

  function DropEmpty(lines: seq<Option<string>>): seq<Option<string>>
  {
    if lines == [] then []
    else if lines[0] == Some([]) then DropEmpty(lines[1..])
    else [lines[0]] + DropEmpty(lines[1..])
  }

  /** Empty lines change nothing but the count of lines read. */
  lemma {:induction false} EmptyLinesIgnored(proc: string -> LineResult, lines: seq<Option<string>>, errCt: nat, closed: bool, errMsg: string)
    ensures var a := Session(proc, lines, errCt, closed, errMsg);
      var b := Session(proc, DropEmpty(lines), errCt, closed, errMsg);
      a.errCt == b.errCt && a.sent == b.sent && a.closed == b.closed && a.errMsg == b.errMsg
  {
    if lines != [] && !closed && errCt < MAX_ERR_CT {
      var d := DropEmpty(lines);
      if lines[0] == Some([]) {
        EmptyLinesIgnored(proc, lines[1..], errCt, closed, errMsg);
      } else {
        assert d == [lines[0]] + DropEmpty(lines[1..]);
        assert d[0] == lines[0] && d[1..] == DropEmpty(lines[1..]);
        match lines[0]
        case None =>
        case Some(s) =>
          var r := proc(s);
          EmptyLinesIgnored(proc, lines[1..], if r.ok then 0 else errCt + 1, r.close, r.errMsg);
      }
    }
  }

  /* ---------------------------------------------------------------- */
  /* The worker ------------------------------------------------------ */
  /* ---------------------------------------------------------------- */

  class CmdWorker {
    var errMsg: string
    var sent: seq<Msg>
    var closed: bool

    constructor()
      ensures errMsg == "" && sent == [] && !closed
    {
      errMsg := "";
      sent := [];
      closed := false;
    }

    /** SU.send: nothing goes out on a closed socket. */
    method Send(m: Msg)
      modifies this`sent
      ensures sent == old(sent) + (if closed then [] else [m])
    {
      if !closed {
        sent := sent + [m];
      }
    }

    /** Records a handler's outcome. */
    method Apply(e: Effect)
      modifies this`errMsg, this`sent, this`closed
      ensures errMsg == e.err
      ensures sent == old(sent) + (if old(closed) then [] else e.out)
      ensures closed == (old(closed) || e.close)
    {
      errMsg := e.err;
      if !closed {
        sent := sent + e.out;
      }
      closed := closed || e.close;
    }

    method EnumRunDir(app: App)
      requires errMsg == ""
      modifies this`errMsg, this`sent
      ensures errMsg == EnumRunDirSpec(app).err
      ensures sent == old(sent) + (if closed then [] else EnumRunDirSpec(app).out)
    {
      if !app.runDirExists {
        errMsg := "Directory does not exist: " + app.runDir;
      } else {
        var entries := app.entries;
        var i := 0;
        while i < |entries|
          invariant 0 <= i <= |entries|
          invariant errMsg == ""
          invariant sent == old(sent) + (if closed then [] else DirListing(entries)[..i])
        {
          var entry := entries[i].name;
          if entries[i].isDir {
            entry := entry + "/";
          }
          if StartsWith(entry, "ERROR") {
            entry := " " + entry;
          }
          assert entry == FormatEntry(entries[i]);
          Send(Text(entry + "\n"));
          CimCfg.TakeNext(DirListing(entries), i);
          i := i + 1;
        }
        CimCfg.TakeAll(DirListing(entries));
      }
    }

    /** doQuery: false when cmd is not a query. */
    method DoQuery(app: App, cmd: string, args: seq<string>) returns (handled: bool)
      requires app.Valid() && errMsg == ""
      modifies this`errMsg, this`sent
      ensures handled <==> cmd in QUERIES
      ensures handled ==> errMsg == Dispatch(app, cmd, args).value.err
      ensures handled ==> sent == old(sent) + (if closed then [] else Dispatch(app, cmd, args).value.out)
      ensures !handled ==> errMsg == old(errMsg) && sent == old(sent)
    {
      var q := Query(app, cmd, args);
      if q.None? {
        return false;
      }
      handled := true;
      var (err, resp) := q.value;
      errMsg := err;
      if resp.None? {
        if errMsg == "" {
          errMsg := EMPTY_RESPONSE;
        }
      } else {
        Send(Text(resp.value));
      }
    }

    /** doCommand: false when cmd is not a command. */
    method DoCommand(app: App, cmd: string, args: seq<string>) returns (handled: bool)
      requires errMsg == ""
      modifies this`errMsg, this`sent, this`closed
      ensures handled <==> cmd in COMMANDS
      ensures handled ==> errMsg == Command(app, cmd, args).value.err
      ensures handled ==> sent == old(sent) + (if old(closed) then [] else Command(app, cmd, args).value.out)
      ensures closed == (old(closed) || (handled && Command(app, cmd, args).value.close))
      ensures !handled ==> errMsg == old(errMsg) && sent == old(sent)
    {
      if cmd == "ENUMRUNDIR" {
        EnumRunDir(app);
        return true;
      }
      var c := Command(app, cmd, args);
      if c.None? {
        return false;
      }
      Apply(c.value);
      handled := true;
    }

    /** processLine, whose outcome proc gives (ProcessesLines: proc is LineSpec on app). */
    method ProcessLine(app: App, ghost proc: string -> LineResult, line: string) returns (ok: bool)
      requires ProcessesLines(app, proc)
      modifies this`errMsg, this`sent, this`closed
      ensures var r := proc(line);
        && ok == r.ok && errMsg == r.errMsg
        && sent == old(sent) + (if old(closed) then [] else r.out)
        && closed == (old(closed) || r.close)
    {
      errMsg := "";
      var toks := Split(line, Spaces);
      if toks == [] {
        errMsg := MISSING_TOKEN;
        assert ProcessesLine(app, proc, line);
        return false;
      }
      var cmd := ToUpper(toks[0]);
      var args := toks[1..];
      var handled := DoQuery(app, cmd, args);
      if !handled {
        handled := DoCommand(app, cmd, args);
      }
      if !handled {
        errMsg := UnknownCommand(cmd);
      }
      ok := errMsg == "";
      assert ProcessesLine(app, proc, line);
    }

    /**
     * One line read by the session loop: the null line ends it; an empty
     * line is skipped; any other goes to processLine, then sendOK and a
     * cleared error count, or sendError and one more error. here is the
     * rest of the session, starting at this line.
     */
    method ServeLine(app: App, ghost proc: string -> LineResult, ghost here: seq<Option<string>>, line: Option<string>, errCt: nat)
      returns (newErrCt: nat, ghost msgs: seq<Msg>, stop: bool)
      requires ProcessesLines(app, proc) && !closed && errCt < MAX_ERR_CT
      requires here != [] && here[0] == line
      modifies this`errMsg, this`sent, this`closed
      ensures sent == old(sent) + msgs
      ensures stop ==> (newErrCt == errCt && msgs == [] &&
        Session(proc, here, errCt, old(closed), old(errMsg)) == SessionEnd(1, errCt, [], closed, errMsg))
      ensures !stop ==> var rest := Session(proc, here[1..], newErrCt, closed, errMsg);
        Session(proc, here, errCt, old(closed), old(errMsg)) ==
          SessionEnd(rest.consumed + 1, rest.errCt, msgs + rest.sent, rest.closed, rest.errMsg)
    {
      msgs := [];
      newErrCt := errCt;
      stop := false;
      if line.None? {
        SessionNull(proc, here, errCt, closed, errMsg);
        stop := true;
      } else if line.value == [] {
        SessionEmpty(proc, here, errCt, closed, errMsg);
      } else {
        newErrCt, msgs := ServeText(app, proc, here, line.value, errCt);
      }
    }

    /** The non-empty line case of ServeLine: processLine, then the reply and the new error count. */
    method ServeText(app: App, ghost proc: string -> LineResult, ghost here: seq<Option<string>>, line: string, errCt: nat)
      returns (newErrCt: nat, ghost msgs: seq<Msg>)
      requires ProcessesLines(app, proc) && !closed && errCt < MAX_ERR_CT
      requires here != [] && here[0] == Some(line) && line != []
      modifies this`errMsg, this`sent, this`closed
      ensures sent == old(sent) + msgs
      ensures var rest := Session(proc, here[1..], newErrCt, closed, errMsg);
        Session(proc, here, errCt, old(closed), old(errMsg)) ==
          SessionEnd(rest.consumed + 1, rest.errCt, msgs + rest.sent, rest.closed, rest.errMsg)
    {
      ghost var r := proc(line);
      SessionLine(proc, here, errCt, closed, errMsg);
      var ok := ProcessLine(app, proc, line);
      ghost var sent1 := sent;
      if ok {
        Send(Text("OK\n"));
        newErrCt := 0;
      } else {
        Send(Text("ERROR " + errMsg + "\n"));
        newErrCt := errCt + 1;
      }
      msgs := LineMsgs(r);
      LineSent(r, old(sent), sent1, sent, ok, closed, errMsg);
    }

    /** CmdWorker::run's message loop over the lines the client sends. */
    method Run(app: App, ghost proc: string -> LineResult, lines: seq<Option<string>>) returns (consumed: nat, errCt: nat)
      requires ProcessesLines(app, proc)
      modifies this`errMsg, this`sent, this`closed
      ensures var s := Session(proc, lines, 0, old(closed), old(errMsg));
        && consumed == s.consumed && errCt == s.errCt && closed == s.closed && errMsg == s.errMsg
        && sent == old(sent) + s.sent
    {
      ghost var total := Session(proc, lines, 0, closed, errMsg);
      ghost var acc: seq<Msg> := [];
      ghost var stopped := false;
      var i := 0;
      errCt := 0;
      assert lines[0..] == lines;
      while !closed && errCt < MAX_ERR_CT && i < |lines|
        invariant 0 <= i <= |lines| && !stopped
        invariant errCt <= MAX_ERR_CT
        invariant sent == old(sent) + acc
        invariant RunInv(proc, lines, i, errCt, closed, errMsg, acc, total)
        decreases |lines| - i
      {
        ghost var here := lines[i..];
        var line := lines[i];
        assert here[0] == line && here[1..] == lines[i + 1..];
        ghost var errCt0, acc0, closed0, errMsg0 := errCt, acc, closed, errMsg;
        i := i + 1;
        ghost var msgs;
        var stop;
        errCt, msgs, stop := ServeLine(app, proc, here, line, errCt);
        if stop {
          RunStopped(proc, lines, i - 1, errCt0, closed0, errMsg0, closed, errMsg, acc0, total);
          stopped := true;
          break;
        }
        RunStep(proc, lines, i - 1, errCt0, closed0, errMsg0, errCt, closed, errMsg, acc0, msgs, total);
        Assoc(old(sent), acc, msgs);
        acc := acc + msgs;
      }
      if !stopped {
        RunDone(proc, lines, i, errCt, closed, errMsg, acc, total);
      }
      consumed := i;
    }
  }

  /** The session so far: acc sent over the first i lines, the rest still to come. */
  ghost predicate RunInv(proc: string -> LineResult, lines: seq<Option<string>>, i: nat, errCt: nat, closed: bool,
                         errMsg: string, acc: seq<Msg>, total: SessionEnd)
    requires i <= |lines|
  {
    var s := Session(proc, lines[i..], errCt, closed, errMsg);
    total == SessionEnd(i + s.consumed, s.errCt, acc + s.sent, s.closed, s.errMsg)
  }

  lemma RunStep(proc: string -> LineResult, lines: seq<Option<string>>, i: nat, errCt: nat, closed: bool, errMsg: string,
                newErrCt: nat, newClosed: bool, newErrMsg: string, acc: seq<Msg>, msgs: seq<Msg>, total: SessionEnd)
    requires i < |lines| && RunInv(proc, lines, i, errCt, closed, errMsg, acc, total)
    requires var rest := Session(proc, lines[i + 1..], newErrCt, newClosed, newErrMsg);
      Session(proc, lines[i..], errCt, closed, errMsg) ==
        SessionEnd(rest.consumed + 1, rest.errCt, msgs + rest.sent, rest.closed, rest.errMsg)
    ensures RunInv(proc, lines, i + 1, newErrCt, newClosed, newErrMsg, acc + msgs, total)
  {
    var rest := Session(proc, lines[i + 1..], newErrCt, newClosed, newErrMsg);
    Assoc(acc, msgs, rest.sent);
  }

  lemma RunStopped(proc: string -> LineResult, lines: seq<Option<string>>, i: nat, errCt: nat, closed: bool, errMsg: string,
                   newClosed: bool, newErrMsg: string, acc: seq<Msg>, total: SessionEnd)
    requires i < |lines| && RunInv(proc, lines, i, errCt, closed, errMsg, acc, total)
    requires Session(proc, lines[i..], errCt, closed, errMsg) == SessionEnd(1, errCt, [], newClosed, newErrMsg)
    ensures total == SessionEnd(i + 1, errCt, acc, newClosed, newErrMsg)
  {
    assert acc + [] == acc;
  }

  lemma RunDone(proc: string -> LineResult, lines: seq<Option<string>>, i: nat, errCt: nat, closed: bool, errMsg: string,
                acc: seq<Msg>, total: SessionEnd)
    requires i <= |lines| && RunInv(proc, lines, i, errCt, closed, errMsg, acc, total)
    requires closed || errCt >= MAX_ERR_CT || i == |lines|
    ensures total == SessionEnd(i, errCt, acc, closed, errMsg)
  {
    SessionStop(proc, lines[i..], errCt, closed, errMsg);
    assert acc + [] == acc;
  }
}
