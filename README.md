# SpikeGLX acquisition core, modelled in Dafny

This project models the logic at the centre of SpikeGLX, a Qt application that
acquires data from Imec Neuropixels probes and National Instruments devices.
The model is written in Dafny, and it proves properties of that logic.

The model covers these parts, one module each:

- **TrigSpike** is the spike-triggered recording state machine. It cycles
  GetEdge → Write → Done, and it keeps these pieces of state:
  - the per-stream window counters (`remCt`, `nextCt`);
  - the edge-search clamp and its resume cache (`aEdgeCtNext`);
  - the high-pass functor's transient zeroing counter (`nzero`);
  - the partition of probes into worker threads.
- **CimCfg** is the Imec probe configuration:
  - the read-out table text format `(type,n)(chn bank refid apgn lfgn apflt)...`;
  - the gain/index tables;
  - the channel-to-electrode arithmetic;
  - the cumulative channel-type counts;
  - AP/LF save-bit masking and the gain clamp;
  - probe ordering and the "not detected" sentinels;
  - the enabled-probe and slot lists that probe detection builds.
- **CmdServer** is the remote command server:
  - tokenising, upper-casing and dispatching a line;
  - the error rules;
  - the five-consecutive-errors session cutoff;
  - the channel-count replies;
  - directory listing lines;
  - fetch argument checks and the binary reply header;
  - the PAR2 operation letter.
- **SVGrafs**, **GraphsIm** and **GraphsNi** are the graph viewers' data feed:
  - trimming a block to whole downsample bins;
  - per-bin maximum/minimum selection and plain decimation;
  - channel-type labels (including the NI digital-range quirk);
  - the save/audio labels;
  - the NI band-filter selection.
- **RunCtl** is the run lifecycle:
  - the start guards;
  - an idempotent stop with a fixed teardown order;
  - queries that answer 0 or null when no run is active;
  - audio-fetcher restart;
  - the status text.
- **CniCfg** and **GraphFetch** are small flag holders: the dual-device string
  accessors, the muxing predicate, and the graph fetcher's pause and stop flags.
- **QtText** models the Qt string behaviour the core relies on:
  - `QString::toInt`, `toUInt` and `toLongLong` (optional sign, decimal digits, range check, 0 on failure);
  - ASCII `toUpper`;
  - decimal formatting;
  - `QString::split` with the regular expressions the core uses and `SkipEmptyParts`.

Imperative parts are Dafny classes whose methods change fields:
`TrigSpike`, `HiPassFnctr`, `IMROTbl`, `AttrEach`, `ImProbeDat`, `ImProbeTable`,
`CmdWorker`, `Graphs`, `SVGrafsIm`, `SVGrafsNi`, `Run`, `NiCfg`, `GFWorker` and
`GraphFetcher`. Their loops carry invariants. Each method is tied to a
specification function, and the lemmas are proved about that function.

Collaborators whose code is not part of this model become parameters:
- the sample queue (AIQ): fetch, time mapping, head count and edge finder;
- the Biquad filters;
- the channel-subset helpers;
- the configuration controller;
- the socket.

## Model

| member | source | states |
|---|---|---|
| QtText.ToIntRoundTrip | Src-params/CimCfg.cpp:44-47 | toInt reads back every 32-bit value that decimal formatting wrote |
| QtText.ToUIntRoundTrip | Src-params/CimCfg.cpp:111 | toUInt reads back every unsigned 32-bit value that decimal formatting wrote |
| QtText.ToUInt | Src-remote/CmdServer.cpp:226 | the parsed value when the text is an optionally "+"-signed run of digits within the quint32 range; 0 otherwise |
| QtText.ToInt | Src-params/CimCfg.cpp:44-47 | the parsed value when the text is an optionally signed run of digits within the qint32 range; 0 otherwise |
| QtText.ToLongLong | Src-remote/CmdServer.cpp:626 | the parsed value when the text is an optionally signed run of digits within the qlonglong range; 0 otherwise |
| QtText.IntToString | Src-params/CimCfg.cpp:26-30 | decimal text, non-empty, starting with a digit iff the value is non-negative, with no space, parenthesis, comma or colon |
| QtText.ToUpper | Src-remote/CmdServer.cpp:1212 | same length; each ASCII lower-case letter becomes upper case; the model keeps every other character |
| QtText.ToUpperIdempotent | Src-remote/CmdServer.cpp:1212 | upper-casing the command token twice is the same as once |
| QtText.SplitJoinSpaces | Src-remote/CmdServer.cpp:1203-1205 | splitting single-space-joined tokens on \s+ with SkipEmptyParts gives the tokens back |
| QtText.SplitAllSpaces | Src-remote/CmdServer.cpp:1203-1209 | a line of whitespace only splits into no tokens |
| QtText.SplitSpacesPlain | Src-remote/CmdServer.cpp:1203-1205 | no token from a split on \s+ holds whitespace |
| QtText.SplitParenthesised | Src-params/CimCfg.cpp:100-102 | splitting "(p0)(p1)...(pn)" on the table regex gives the pieces back |
| QtText.SplitAround | Src-params/CimCfg.cpp:107-109 | splitting "a,b" (or "a:b") on ^\s+\|\s*c\s* gives [a, b] |
| CimCfg.MakeDesc | Src-params/CimCfg.h:30-31 | the 5-argument constructor puts (bank, refid, apgn, lfgn, apflt) into the matching fields, exact for values in the qint16/qint8 range |
| CimCfg.DefaultDesc | Src-params/CimCfg.h:28-29 | the default entry is bank 0, refid 0, apgn 500, lfgn 250, apflt 1 |
| CimCfg.DescEquals | Src-params/CimCfg.h:32-34 | entry equality holds iff all five fields are equal |
| CimCfg.DescText | Src-params/CimCfg.cpp:24-31 | an entry's text: the channel number and the five fields in decimal, separated by single spaces (read back by DescRoundTrip) |
| CimCfg.DescFromText | Src-params/CimCfg.cpp:38-48 | the entry built from fields 1 to 5 of the whitespace split, the channel field discarded; none for fewer than six fields |
| CimCfg.TableText | Src-params/CimCfg.cpp:81-93 | "(type,n)" followed by one parenthesised entry text per entry (read back by TableRoundTrip) |
| CimCfg.ParseTable | Src-params/CimCfg.cpp:98-120 | the type from the header's first field and one entry per further piece; none where the source indexes an empty list or an entry is short |
| CimCfg.DescRoundTrip | Src-params/CimCfg.cpp:24-48 | parsing an entry's text gives the entry back, with apflt read back as a bool, whatever the channel number |
| CimCfg.DescRoundTripExact | Src-params/CimCfg.cpp:24-48 | the round trip is exact when apflt is 0 or 1 |
| CimCfg.TableRoundTrip | Src-params/CimCfg.cpp:81-120 | parsing a table's text restores its type and every entry |
| CimCfg.PrefixFailure | Src-params/CimCfg.cpp:117-119 | one malformed entry makes the whole table fail to parse |
| CimCfg.IMROTbl.FillDefault | Src-params/CimCfg.cpp:54-60 | the table gets the given type and 384 default entries |
| CimCfg.IMROTbl.constructor | Src-params/CimCfg.h:40-56 | a default-constructed table has no entries |
| CimCfg.IMROTbl.Equals | Src-params/CimCfg.h:62-63 | tables are equal iff the types are equal and the entries are equal one by one |
| CimCfg.IMROTbl.NotEquals | Src-params/CimCfg.h:64-65 | != is the negation of == |
| CimCfg.IMROTbl.NChan | Src-params/CimCfg.h:59 | the number of entries |
| CimCfg.IMROTbl.BanksSame | Src-params/CimCfg.cpp:65-76 | true iff every entry below nChan() has the same bank in both tables |
| CimCfg.IMROTbl.ToString | Src-params/CimCfg.cpp:81-93 | the stream output is the table text "(type,n)" followed by one "(entry)" per entry |
| CimCfg.IMROTbl.FromString | Src-params/CimCfg.cpp:98-120 | success iff the text parses; then the type and entries are the parsed ones, and nChan() is the number of pieces after the header |
| CimCfg.TypeToNElec | Src-params/CimCfg.cpp:190-195 | every probe type has 960 electrodes |
| CimCfg.IdxToGain | Src-params/CimCfg.cpp:187-213 | the result is a table gain; an index outside 0..7 gives 500 |
| CimCfg.GainToIdx | Src-params/CimCfg.cpp:216-240 | the result is an index 0..7; an unknown gain gives 3 |
| CimCfg.ChToEl384 | Src-params/CimCfg.cpp:198-201 | the 1-based electrode (ch + 1) + bank * 384, 0 for a negative channel (inverted by ElectrodeInverse) |
| CimCfg.ChIsRef | Src-params/CimCfg.cpp:204-207 | channel 191 is the reference channel |
| CimCfg.GainOfIndexRoundTrip | Src-params/CimCfg.cpp:210-240 | gainToIdx(idxToGain(i)) == i for 0 <= i < 8 |
| CimCfg.IndexOfGainRoundTrip | Src-params/CimCfg.cpp:210-240 | idxToGain(gainToIdx(g)) == g for every table gain |
| CimCfg.ElectrodeInverse | Src-params/CimCfg.cpp:198-201 | the channel and bank are recovered from chToEl384's electrode number |
| CimCfg.ElectrodeInjective | Src-params/CimCfg.cpp:198-201 | distinct (channel, bank) pairs give distinct electrodes |
| CimCfg.ReferenceElectrode | Src-params/CimCfg.cpp:198-207 | the reference channel 191 is electrode 192 of its bank |
| CimCfg.ClearedCount | Src-params/CimCfg.cpp:647-662 | clearing a bit range removes exactly that range's set bits from the count |
| CimCfg.Cleared | Src-params/CimCfg.cpp:652 | QBitArray::fill(0, lo, hi): the same length, with the positions in [lo, hi) cleared |
| CimCfg.Integrated | Src-params/CimCfg.cpp:598-599 | the running sums of the counts, as many as the counts |
| CimCfg.APLFDisjoint | Src-params/CimCfg.cpp:647-662 | below the sync range, each saved bit is in exactly one of the AP and LF masks |
| CimCfg.APLFPartition | Src-params/CimCfg.cpp:677-691 | the AP and LF save counts add up to all saved bits plus the sync bits counted twice |
| CimCfg.IntegratedNonDecreasing | Src-params/CimCfg.cpp:596-599 | running sums of non-negative counts start at the first count and never decrease |
| CimCfg.IntegratedChanCounts | Src-params/CimCfg.cpp:590-599 | the Imec counts integrate to [384, 768, 769] |
| CimCfg.AttrEach.DeriveChanCounts | Src-params/CimCfg.cpp:580-600 | imCumTypCnt becomes the running sums of the type counts, [384, 768, 769] |
| CimCfg.AttrEach.JustAPBits | Src-params/CimCfg.cpp:647-653 | the result equals saveBits with exactly the bits in [AP, LF) cleared |
| CimCfg.AttrEach.JustLFBits | Src-params/CimCfg.cpp:656-662 | the result equals saveBits with exactly the bits in [0, AP) cleared |
| CimCfg.AttrEach.APSaveChanCount | Src-params/CimCfg.cpp:677-682 | the saved channels outside the LF range |
| CimCfg.AttrEach.LFSaveChanCount | Src-params/CimCfg.cpp:685-690 | the saved channels outside the AP range |
| CimCfg.AttrEach.ChanGain | Src-params/CimCfg.cpp:693-713 | 1 for ic < 0 and at or above the LF range; otherwise the AP or LF table gain when it is at least 50, and 50 when it is below |
| CimCfg.AttrEach.constructor | Src-params/CimCfg.h:195 | skipCal and LEDEnable start false |
| CimCfg.KeyLessIrreflexive | Src-params/CimCfg.h:130-138 | no probe is below itself |
| CimCfg.KeyLessTransitive | Src-params/CimCfg.h:130-138 | the (slot, port) order is transitive |
| CimCfg.KeyLessTotal | Src-params/CimCfg.h:130-138 | any two distinct (slot, port) keys are ordered one way or the other |
| CimCfg.KeyLess | Src-params/CimCfg.h:130-138 | lexicographic order on (slot, port) (a strict total order by the three lemmas above) |
| CimCfg.ImProbeDat.Less | Src-params/CimCfg.h:130-138 | operator< is lexicographic on (slot, port) |
| CimCfg.ImProbeDat.constructor | Src-params/CimCfg.h:116-117 | slot and port as given (narrowed to quint16), enab true, detection fields at their sentinels |
| CimCfg.ImProbeDat.Blank | Src-params/CimCfg.h:118-119 | enab true, detection fields at their sentinels |
| CimCfg.ImProbeDat.Init | Src-params/CimCfg.h:121-128 | hssn, sn, type and ip get the -1 / qlonglong-max sentinels, hsfw empty; slot, port and enab unchanged |
| CimCfg.RowRoundTrip | Src-params/CimCfg.cpp:246-285 | loading the row that save stored gives back slot, port and enab |
| CimCfg.DefaultRow | Src-params/CimCfg.cpp:248-251 | the default row reads as slot 0, port 0, enabled |
| CimCfg.RowText | Src-params/CimCfg.cpp:283-284 | the row "slot:%1 port:%2 enab:%3" in decimal, enab as 1 or 0 |
| CimCfg.ParseRow | Src-params/CimCfg.cpp:253-275 | the second part of each of the first three fields, narrowed to quint16 and bool; none for a row the source would index past its end |
| CimCfg.ImProbeDat.SaveText | Src-params/CimCfg.cpp:279-285 | the saved row parses back to this probe's slot, port and enab |
| CimCfg.ImProbeDat.Load | Src-params/CimCfg.cpp:246-276 | success iff the row parses; then slot, port and enab are the parsed ones and the detection fields are untouched |
| CimCfg.InsertKey | Src-params/CimCfg.cpp:866 | QMap insertion keeps the keys strictly increasing and adds exactly the new key |
| CimCfg.ImProbeTable.Init | Src-params/CimCfg.cpp:291-301 | every probe is back to "not detected" with its slot, port and enab kept; the lists are cleared |
| CimCfg.ImProbeTable.constructor | Src-params/CimCfg.h:151-157 | the probe list, reverse map, slot list and api text start empty |
| CimCfg.ImProbeTable.LocalLists | Src-params/CimCfg.cpp:854-874 | the enabled probes' indices in table order, and the distinct slots they use in ascending order |
| CimCfg.CimCfg.constructor | Src-params/CimCfg.h:231 | one probe, disabled, one attribute record |
| TrigSpike.ZeroedExactly | Src-triggers/TrigSpike.cpp:178-189 | zeroing changes exactly the first k samples of channel ichan and no other sample |
| TrigSpike.HiPassFnctr.constructor | Src-triggers/TrigSpike.cpp:123-152 | a filter exists iff the trigger channel is neural in its stream; nchans is then the stream's channel count; nzero starts at the transition width |
| TrigSpike.HiPassFnctr.Reset | Src-triggers/TrigSpike.cpp:162-165 | nzero becomes the transition width |
| TrigSpike.HiPassFnctr.Apply | Src-triggers/TrigSpike.cpp:168-192 | with a filter, the filtered block with the first min(ntpts, nzero) samples of ichan zeroed, and nzero reduced by that many and never below 0; without a filter nothing changes |
| TrigSpike.ZeroChannel | Src-triggers/TrigSpike.cpp:181-187 | the pointer loop sets channel ichan of scans 0..k-1 to 0 |
| TrigSpike.ZeroedNone | Src-triggers/TrigSpike.cpp:178-189 | zeroing no scans leaves the block unchanged |
| TrigSpike.Open | Src-triggers/TrigSpike.cpp:54-57 | first use of a window (as an edge is found, lines 562-565): it starts periEvtCt before the edge and ends periEvtCt after it |
| TrigSpike.Track | Src-triggers/TrigSpike.cpp:63-71 | an empty fetch changes nothing; otherwise nextCt moves to the fetch end and remCt drops by the scans fetched (the step lines 571-579 take) |
| TrigSpike.TrackAllCovers | Src-triggers/TrigSpike.cpp:54-71 | over fitting fetches, the window's end never moves, remCt stays in range, and nextCt advances by the scans delivered |
| TrigSpike.WindowComplete | Src-triggers/TrigSpike.cpp:54-71 | an opened window is done iff all 2 * periEvtCt + 1 scans were delivered (the test of line 402) |
| TrigSpike.EdgeClamp | Src-triggers/TrigSpike.cpp:499-506 | the filter is reset and the search starts at minCt exactly when aEdgeCt < minCt |
| TrigSpike.EdgeNeverBeforeMin | Src-triggers/TrigSpike.cpp:499-527 | the edge never ends up before minCt when the finder never answers before its start |
| TrigSpike.EdgeMapFailureCaches | Src-triggers/TrigSpike.cpp:512-538 | a found edge that B cannot map is kept in aEdgeCtNext; the call reports not found and leaves B's count alone |
| TrigSpike.EdgeCacheSkipsSearch | Src-triggers/TrigSpike.cpp:512-513 | with a cached edge the finder is not consulted |
| TrigSpike.EdgeFound | Src-triggers/TrigSpike.cpp:533-545 | on success aEdgeCt is the found position, the cache is 0, and B's count is the aligned mapping |
| TrigSpike.Partition | Src-triggers/TrigSpike.cpp:267-283 | groups of 1 or 2 probes whose concatenation is 0..nImQ-1 in order; nThd = ceil(nImQ / 2) |
| TrigSpike.GateStartPending | Src-triggers/TrigSpike.cpp:324-337 | the corrected gate-start test agrees with the source's test when both streams exist |
| TrigSpike.GateStartRepeatsWithoutImec | Src-triggers/TrigSpike.cpp:324-337 | with no imec stream the source's test stays true after the gate start; the corrected test does not |
| TrigSpike.GateStartRepeatsWithoutNi | Src-triggers/TrigSpike.cpp:324-337 | with no NI stream the source's test stays true after the gate start; the corrected test does not |
| TrigSpike.GateStartOnce | Src-triggers/TrigSpike.cpp:324-337 | once seeded, the corrected test stays false however far the refractory advances of lines 402-412 move the edges |
| TrigSpike.TrigSpike.constructor | Src-triggers/TrigSpike.cpp:198-218 | nCycMax is the qlonglong maximum when unbounded, else nS; aEdgeCtNext 0; the initial edge state |
| TrigSpike.TrigSpike.Configure | Src-triggers/TrigSpike.cpp:263-283 | the worker groups cover every probe once; nothing else changes |
| TrigSpike.TrigSpike.InitState | Src-triggers/TrigSpike.cpp:475-482 | filter reset, edges cleared, nS = 0, state GetEdge |
| TrigSpike.TrigSpike.SetGate | Src-triggers/TrigSpike.cpp:221-227 | initState's new state (filter reset, edges cleared, no triggers, seeking an edge), the cached edge, windows and groups unchanged, and the gate level returned |
| TrigSpike.TrigSpike.ResetGTCounters | Src-triggers/TrigSpike.cpp:230-236 | initState's new state (filter reset, edges cleared, no triggers, seeking an edge), with the cached edge, windows and groups unchanged |
| TrigSpike.EdgeStep | Src-triggers/TrigSpike.cpp:492-546 | getEdge's step as a function: clamp to minCt, the cached or found edge, the B mapping and alignment; characterised by EdgeClamp, EdgeNeverBeforeMin, EdgeMapFailureCaches, EdgeCacheSkipsSearch and EdgeFound, and GetEdgeOf is proved equal to it |
| TrigSpike.GateStartAsWritten | Src-triggers/TrigSpike.cpp:324 | the gate-start test as written: no imec edge counts or a zero NI edge count; GateStartRepeatsWithoutImec/WithoutNi show it never clears for a missing stream, and TickAsWritten runs the pass with it |
| TrigSpike.Advanced | Src-triggers/TrigSpike.cpp:407 | advanceEdgeByRefrac: same length, every imec edge moved on by the refractory count; FinishIfDone's new state uses it |
| TrigSpike.Zeroed | Src-triggers/TrigSpike.cpp:178-189 | the zeroing loop of the functor as a function, same length; ZeroedExactly and ZeroedNone characterise it and ZeroChannel is proved equal to it |
| TrigSpike.TrigSpike.SetStateWrite | Src-triggers/TrigSpike.cpp:461-465 | state Write with no cached edge; nothing else changes |
| TrigSpike.TrigSpike.GetEdgeOf | Src-triggers/TrigSpike.cpp:492-546 | the outcome is the edge-step function of the inputs, with the filter reset iff the start was clamped |
| TrigSpike.TrigSpike.WriteSomeIM | Src-triggers/TrigSpike.cpp:44-76 | probe ip's window is opened if needed and then tracked; the result fails only when blocks came and the write failed |
| TrigSpike.TrigSpike.WriteSomeNI | Src-triggers/TrigSpike.cpp:549-586 | the same for the NI window; true with nothing done when there is no NI stream |
| TrigSpike.WorkerWins | Src-triggers/TrigSpike.cpp:32-36 | a worker's pass steps its probes' windows in order, stopping after the first failed write; windows of probes not in the pass are untouched |
| TrigSpike.WorkerWinsAt | Src-triggers/TrigSpike.cpp:32-36 | over distinct probes, probe vID[j] takes its window step iff no earlier probe of the pass failed to write, else its window is unchanged |
| TrigSpike.WorkerOKCons | Src-triggers/TrigSpike.cpp:32-36 | a pass over ip then t succeeds iff ip's write succeeds and the pass over t does |
| TrigSpike.TrigSpike.WorkerPass | Src-triggers/TrigSpike.cpp:23-41 | the new windows are the worker-pass function of the old ones; the pass succeeds iff none of its probes' writes fail; other probes' windows are untouched |
| TrigSpike.XferWins | Src-triggers/TrigSpike.cpp:589-621 | the windows after every worker group's pass, in order, keep their number |
| TrigSpike.XferWinsSnoc | Src-triggers/TrigSpike.cpp:589-621 | one more group adds one more worker pass on the windows left by the others |
| TrigSpike.GroupsOKSnoc | Src-triggers/TrigSpike.cpp:589-621 | the groups with one more succeed iff the first ones and the new one do |
| TrigSpike.XferWinsAt | Src-triggers/TrigSpike.cpp:589-621 | when no write fails and no probe is listed twice, each listed probe takes its window step and every other window is unchanged |
| TrigSpike.XferAllSteps | Src-triggers/TrigSpike.cpp:263-283 | with the groups built by run() (covering 0 .. nImQ-1 once each) and no failed write, every probe takes its window step |
| TrigSpike.TrigSpike.XferAll | Src-triggers/TrigSpike.cpp:589-621 | the imec windows become the groups' passes, the NI window takes its step iff there is an NI stream; the result is true iff the NI write and every group's writes succeed |
| TrigSpike.TrigSpike.Finished | Src-triggers/TrigSpike.cpp:402-414 | the end-of-trigger step on a state value: when every window is done, filter reset, edges advanced by the refractory counts, nS + 1 and Done iff nS >= nCycMax; otherwise the state unchanged |
| TrigSpike.TrigSpike.FinishIfDone | Src-triggers/TrigSpike.cpp:402-414 | the new state is the end-of-trigger step of the old; when every window is done: filter reset, edges advanced by refracCt, nS + 1, then Done iff nS >= nCycMax, else GetEdge; otherwise nothing changes |
| TrigSpike.TrigSpike.Seeded | Src-triggers/TrigSpike.cpp:326-336 | the gate-start block on a state value: filter reset, all imec edges the gate's imec count, then the NI edge its NI count; stops where a stream cannot map the gate time |
| TrigSpike.TrigSpike.SeedFromGate | Src-triggers/TrigSpike.cpp:324-337 | the new state is the gate-start block on the old; filter reset; the gate counts become every stream's edge; false when a stream cannot map the gate time |
| TrigSpike.TrigSpike.TrigEdge | Src-triggers/TrigSpike.cpp:347-362 | the edge step on the trigger stream: nidq with imec probe 0 as B, or imec probe ip with NI as B |
| TrigSpike.TrigSpike.SearchTrigger | Src-triggers/TrigSpike.cpp:347-362 | the NI edge, cache and filter become those of the trigger stream's edge step; found and the imec edge are the step's |
| TrigSpike.TrigSpike.Sought | Src-triggers/TrigSpike.cpp:343-387 | the GetEdge state on a state value: search, then on an edge every imec edge set, windows unopened, and Write or the end of the run by newTrig |
| TrigSpike.TrigSpike.SoughtState | Src-triggers/TrigSpike.cpp:343-387 | a found edge becomes every imec edge, empties the cache and unopens every window; a miss keeps the edges and windows; Write iff found and newTrig succeeded; the run ends iff newTrig failed |
| TrigSpike.TrigSpike.SeekEdge | Src-triggers/TrigSpike.cpp:343-387 | the new state is the GetEdge step of the old; found is the trigger stream's search result; the run ends iff an edge was found and newTrig failed |
| TrigSpike.TrigSpike.Transferred | Src-triggers/TrigSpike.cpp:395-396 | the transfer on a state value; the run ends iff a write failed |
| TrigSpike.TrigSpike.Written | Src-triggers/TrigSpike.cpp:393-415 | the Write state on a state value: the transfer, then the end-of-trigger step unless a write failed |
| TrigSpike.TrigSpike.WrittenCounts | Src-triggers/TrigSpike.cpp:393-415 | the Write state keeps the state consistent and counts at most one trigger, leaving Write when it does |
| TrigSpike.TrigSpike.WriteState | Src-triggers/TrigSpike.cpp:393-415 | the new state and the end of the run are those of the Write step |
| TrigSpike.TrigSpike.Searched | Src-triggers/TrigSpike.cpp:343-415 | the GetEdge and Write states in sequence on a state value |
| TrigSpike.TrigSpike.SearchedCounts | Src-triggers/TrigSpike.cpp:343-415 | the two states together keep the state consistent and count at most one trigger |
| TrigSpike.TrigSpike.SearchStates | Src-triggers/TrigSpike.cpp:343-415 | the new state and the end of the run are those of the two states together |
| TrigSpike.TrigSpike.PassFrom | Src-triggers/TrigSpike.cpp:312-415 | one pass of run()'s loop on a state value, given the gate-start test's value |
| TrigSpike.TrigSpike.Pass | Src-triggers/TrigSpike.cpp:312-415 | the new state and the end of the run are those of the pass |
| TrigSpike.TrigSpike.PassCounts | Src-triggers/TrigSpike.cpp:402-414 | a pass keeps the state consistent, counts at most one trigger and then leaves Write; a pass in Done changes nothing |
| TrigSpike.TrigSpike.PassEndsOnFailure | Src-triggers/TrigSpike.cpp:380-396 | a pass ends the run only when newTrig fails or a write of the transfer fails |
| TrigSpike.TrigSpike.TickAsWritten | Src-triggers/TrigSpike.cpp:312-415 | the pass with the gate-start test as written at line 324: the new state and the end of the run are the pass function's |
| TrigSpike.TrigSpike.Tick | Src-triggers/TrigSpike.cpp:312-415 | the pass with the corrected gate-start test: the new state and the end of the run are the pass function's |
| TrigSpike.TrigSpike.AsWrittenPassReseeds | Src-triggers/TrigSpike.cpp:324-337 | with no imec stream, the pass as written is the corrected pass after the NI edge is set back to the gate's count and the filter reset: the refractory advance is lost |
| CmdServer.IntegratedDifferences | Src-remote/CmdServer.cpp:236-268 | the reply's differences integrate back to the cumulative counts |
| CmdServer.DifferencesIntegrated | Src-remote/CmdServer.cpp:236-268 | the differences of running sums are the counts |
| CmdServer.AcqChanCountsIm | Src-remote/CmdServer.cpp:210-244 | a reply iff the parameters were validated and the probe index is in range (or Imec is disabled); zeros when disabled; an error exactly when there is no reply |
| CmdServer.ImCountsReply | Src-remote/CmdServer.cpp:236-243 | the reply is AP, LF - AP, SY - LF |
| CmdServer.AcqChanCountsNi | Src-remote/CmdServer.cpp:247-273 | a reply iff validated; zeros when NI is disabled |
| CmdServer.Differences | Src-remote/CmdServer.cpp:237-239 | per-type counts from cumulative ones, as many as given; integrating them gives the cumulative counts back (IntegratedDifferences) |
| CmdServer.CountsLine | Src-remote/CmdServer.cpp:242-243 | the counts in decimal, separated by single spaces, ended by a newline |
| CmdServer.NiCountsReply | Src-remote/CmdServer.cpp:259-272 | the reply is the four successive differences of niCumTypCnt |
| CmdServer.FormatEntry | Src-remote/CmdServer.cpp:306-314 | no listing line starts with "ERROR" |
| CmdServer.EntryRoundTrip | Src-remote/CmdServer.cpp:306-314 | a client recovers the name and the directory flag from a listing line |
| CmdServer.EnumRunDirSpec | Src-remote/CmdServer.cpp:291-320 | an error iff the run directory is missing; otherwise one formatted line per entry |
| CmdServer.DirListing | Src-remote/CmdServer.cpp:300-318 | one message per entry, each the entry's formatted line ended by a newline |
| CmdServer.Frame | Src-remote/CmdServer.cpp:680-692 | the header's channel count times its scan count equals the binary payload's sample count |
| CmdServer.Header | Src-remote/CmdServer.cpp:681-684 | "BINARY_DATA nChans nScans uint64(headCt)" and a newline |
| CmdServer.UInt64 | Src-remote/CmdServer.cpp:626 | the stored count is below 2^64 and equals the parsed value when that is in range |
| CmdServer.ChansSent | Src-remote/CmdServer.cpp:638-652 | the channel count sent is at most the queue's and at most the kept ones |
| CmdServer.ScansSent | Src-remote/CmdServer.cpp:658-667 | one count per block, each block's full scan count when the downsample factor is at most 1 |
| CmdServer.FetchIm | Src-remote/CmdServer.cpp:575-698 | fewer than 3 parameters is an error, no queue is "Not running.", and success needs both |
| CmdServer.FetchNi | Src-remote/CmdServer.cpp:710-827 | no queue is "Not running." (checked first), fewer than 2 parameters is an error, and success needs both |
| CmdServer.FetchReply | Src-remote/CmdServer.cpp:592-697 | an error sends nothing; zero fetched scans is an error, not an empty frame |
| CmdServer.Par2OpOf | Src-remote/CmdServer.cpp:905-925 | c, v and r select Create, Verify and Repair in either case |
| CmdServer.Par2Start | Src-remote/CmdServer.cpp:892-963 | fewer than 2 arguments and an unknown letter are errors; otherwise the file is the rest joined by spaces |
| CmdServer.Query | Src-remote/CmdServer.cpp:968-1067 | the handler exists iff cmd is a query name |
| CmdServer.Respond | Src-remote/CmdServer.cpp:1073-1085 | a null response is an error, and the handler's error text is kept if it gave one; a response is sent as is |
| CmdServer.Command | Src-remote/CmdServer.cpp:1093-1169 | the handler exists iff cmd is a command name; only BYE/QUIT/EXIT/CLOSE close the socket, with no error; NOOP does nothing |
| CmdServer.Dispatch | Src-remote/CmdServer.cpp:1219 | handled iff a query or a command; a close is never an error |
| CmdServer.Outcome | Src-remote/CmdServer.cpp:1219-1222 | an unknown command gives "CmdWorker: Unknown command [CMD]."; success iff errMsg ends empty |
| CmdServer.LineOf | Src-remote/CmdServer.cpp:1191-1223 | for any command lookup, success iff the error is empty, and a line with no tokens is "CmdWorker: Missing command token." |
| CmdServer.LineSpec | Src-remote/CmdServer.cpp:1191-1223 | on the application's handlers: success iff the error is empty; a close is a success; no tokens is the missing-token error |
| CmdServer.UnknownLine | Src-remote/CmdServer.cpp:1218-1219 | a first token naming no query and no command is "CmdWorker: Unknown command [...]." with nothing sent and no close |
| CmdServer.BlankLine | Src-remote/CmdServer.cpp:1203-1210 | a whitespace-only line is the missing-token error |
| CmdServer.LineOfTokensWith | Src-remote/CmdServer.cpp:1203-1220 | for any lookup, a line of single-space-separated tokens is the lookup of its upper-cased first token on the remaining tokens |
| CmdServer.LineOfTokens | Src-remote/CmdServer.cpp:1203-1220 | a line of tokens is its upper-cased first token's handler applied to the remaining tokens |
| CmdServer.LineCaseInsensitiveWith | Src-remote/CmdServer.cpp:1212 | for any lookup, upper-casing the command token does not change the line's outcome |
| CmdServer.LineCaseInsensitive | Src-remote/CmdServer.cpp:1212 | "fetchim a b" and "FETCHIM a b" have the same outcome |
| CmdServer.LineDispatch | Src-remote/CmdServer.cpp:1212-1222 | the handlers see the tokens after the command: the line's error and output are the handler's, or the unknown-command error when none handles it |
| CmdServer.Session | Src-remote/CmdServer.cpp:134-157 | the loop reads no more than the lines given, never lets errCt pass 5, and stops before the input ends only on a close, five errors or a null line |
| CmdServer.SessionLine | Src-remote/CmdServer.cpp:149-156 | a success resets errCt to 0, a failure adds one |
| CmdServer.SessionStop | Src-remote/CmdServer.cpp:137 | a closed socket, five errors or no input ends the session without reading a line |
| CmdServer.SessionNull | Src-remote/CmdServer.cpp:139-142 | a null line ends the session after reading it, with nothing sent |
| CmdServer.SessionEmpty | Src-remote/CmdServer.cpp:146 | an empty line is read and skipped |
| CmdServer.FailuresEnd | Src-remote/CmdServer.cpp:134-157 | 5 - errCt failing lines in a row end the session with errCt 5, whatever follows |
| CmdServer.FiveStrikes | Src-remote/CmdServer.cpp:134-157 | five failing lines from a fresh session end it |
| CmdServer.EmptyLinesIgnored | Src-remote/CmdServer.cpp:146 | empty lines change nothing but the count of lines read |
| CmdServer.CmdWorker.Send | Src-remote/CmdServer.cpp:195-207 | nothing is sent on a closed socket |
| CmdServer.CmdWorker.constructor | Src-remote/CmdServer.cpp:81 | no error, nothing sent, socket open |
| CmdServer.CmdWorker.Apply | Src-remote/CmdServer.cpp:1073-1164 | a handler's error becomes errMsg, its output is sent unless the socket was closed, and a close is recorded |
| CmdServer.CmdWorker.EnumRunDir | Src-remote/CmdServer.cpp:291-320 | the error and the lines sent are those of the listing specification |
| CmdServer.CmdWorker.DoQuery | Src-remote/CmdServer.cpp:968-1088 | handled iff a query; then the error and output are the query's |
| CmdServer.CmdWorker.DoCommand | Src-remote/CmdServer.cpp:1093-1169 | handled iff a command; then the error, output and close are the command's |
| CmdServer.CmdWorker.ProcessLine | Src-remote/CmdServer.cpp:1191-1223 | the result, errMsg, output and close are those of the line specification LineSpec, given as proc |
| CmdServer.CmdWorker.ServeLine | Src-remote/CmdServer.cpp:138-156 | one loop step: the null line stops, an empty line is skipped, any other is processed and answered OK or ERROR |
| CmdServer.CmdWorker.ServeText | Src-remote/CmdServer.cpp:149-156 | a non-empty line is processed and answered OK with the error count cleared, or ERROR with one more error; the rest of the session follows from the new count |
| CmdServer.CmdWorker.Run | Src-remote/CmdServer.cpp:115-166 | the lines read, the messages sent, the final error count and the close are those of the session function |
| SVGrafs.TrimScans | Src-graphs/SVGrafsM_Im.cpp:114-116 | ntpts scans of nC samples fit the block, and less than one more bin would |
| SVGrafs.Trim | Src-graphs/SVGrafsM_Im.cpp:114-119 | the kept prefix is a whole number of scans, is unchanged, and drops less than one bin of scans |
| SVGrafs.TrimBinsUnique | Src-graphs/SVGrafsM_Im.cpp:115 | the bin count is the only one that fits the block |
| SVGrafs.TrimBins | Src-graphs/SVGrafsM_Im.cpp:115 | the bins of dwnSmp * nC samples fit the block, and one more would not |
| SVGrafs.TrimIdempotent | Src-graphs/SVGrafsM_Ni.cpp:104-109 | trimming a trimmed block changes nothing |
| SVGrafs.DecimatedTrimmed | Src-graphs/SVGrafsM_Im.cpp:255-261 | over a trimmed block, decimation gives ntpts / dwnSmp points, the j-th taken from scan j * dwnSmp |
| SVGrafs.DecimatedAt | Src-graphs/SVGrafsM_Im.cpp:255-261 | the j-th decimated point is the value at scan it + j * dwnSmp, which lies below ntpts |
| SVGrafs.Decimated | Src-graphs/SVGrafsM_Im.cpp:255-261 | the values at scans it, it + dwnSmp, ... below ntpts (counted and indexed by DecimatedTrimmed and DecimatedAt) |
| SVGrafs.RawPoints | Src-graphs/SVGrafsM_Im.cpp:284-285 | a raw channel's j-th point is data[j * dwnSmp * nC + ic] |
| SVGrafs.FirstMaxIsFirstMaximum | Src-graphs/SVGrafsM_Im.cpp:200-230 | the bin maximum is the first occurrence of the largest value |
| SVGrafs.FirstMinIsFirstMinimum | Src-graphs/SVGrafsM_Im.cpp:200-230 | the bin minimum is the first occurrence of the smallest value |
| SVGrafs.FirstMax | Src-graphs/SVGrafsM_Im.cpp:216-228 | the scan of the bin maximum lies in the bin |
| SVGrafs.FirstMin | Src-graphs/SVGrafsM_Im.cpp:216-230 | the scan of the bin minimum lies in the bin |
| SVGrafs.MinBelowMax | Src-graphs/SVGrafsM_Im.cpp:216-230 | the bin minimum never exceeds the bin maximum |
| SVGrafs.BinCounts | Src-graphs/SVGrafsM_Im.cpp:194-237 | one maximum and one minimum point per bin, as many as plain decimation gives |
| SVGrafs.BinEnvelope | Src-graphs/SVGrafsM_Im.cpp:194-237 | each bin's minimum <= its first sample <= its maximum |
| SVGrafs.BinPeaks | Src-graphs/SVGrafsM_Im.cpp:200-230 | each bin's first maximum, from scan it on (one per bin by BinCounts) |
| SVGrafs.BinTroughs | Src-graphs/SVGrafsM_Im.cpp:200-230 | each bin's first minimum, from scan it on (one per bin by BinCounts) |
| SVGrafs.Decimate | Src-graphs/SVGrafsM_Im.cpp:255-261 | the loop produces the decimation of the channel |
| SVGrafs.BinExtremes | Src-graphs/SVGrafsM_Im.cpp:202-230 | one bin's loop yields its first maximum and first minimum and steps the pointer past the bin |
| SVGrafs.BinMaxMin | Src-graphs/SVGrafsM_Im.cpp:194-237 | the loop produces the bin maxima and minima of the channel |
| SVGrafs.RhsLabel | Src-graphs/SVGrafsM_Im.cpp:341-368 | "S" appears iff the save bit is set; an audio channel's label starts with "A" and has three characters |
| SVGrafs.Graphs.SetTypes | Src-graphs/SVGrafsM_Im.cpp:711-714 | channels in [c0, cLim) get the type, the others keep theirs |
| SVGrafs.Graphs.UpdateRHSFlags | Src-graphs/SVGrafsM_Im.cpp:341-368 | every label is the save/audio label of its channel |
| SVGrafs.Graphs.PutData | Src-graphs/SVGrafsM_Im.cpp:293-296 | the points are appended to yval, and to yval2 only in bin-max drawing |
| SVGrafs.Graphs.constructor | Src-graphs/SVGrafsM.h:80 | the `ic2Y` vector: one record per channel, type 0, no label, no bin-max, empty traces (starting values assumed, see Left out) |
| GraphsIm.ImPoints | Src-graphs/SVGrafsM_Im.cpp:161-286 | hidden channels and empty blocks get no points; only AP channels can switch bin-max drawing on; lower points only in bin-max drawing |
| GraphsIm.ApPointCounts | Src-graphs/SVGrafsM_Im.cpp:194-262 | an AP channel gets ntpts / dwnSmp points, and as many lower points in bin-max drawing |
| GraphsIm.SyncPoints | Src-graphs/SVGrafsM_Im.cpp:278-286 | the sync channel's points are its raw samples of every dwnSmp-th scan |
| GraphsIm.ChannelPoints | Src-graphs/SVGrafsM_Im.cpp:178-286 | the loops compute the channel's points |
| GraphsIm.SVGrafsIm.PutScans | Src-graphs/SVGrafsM_Im.cpp:94-331 | the block is trimmed to whole bins; each channel gets its points appended; labels and types are unchanged |
| GraphsIm.SVGrafsIm.MySetUsrTypes | Src-graphs/SVGrafsM_Im.cpp:704-729 | AP channels get type 0, LF type 1 and sync type 2; the result is 2 |
| GraphsIm.SVGrafsIm.UpdateRHSFlags | Src-graphs/SVGrafsM_Im.cpp:334-372 | every label is the save/audio label of its channel |
| GraphsIm.SVGrafsIm.constructor | Src-graphs/SVGrafsM_Im.cpp:30-62 | the channel counts, map and bin-max setting as given, with fresh graph records |
| GraphsNi.NiPoints | Src-graphs/SVGrafsM_Ni.cpp:155-283 | hidden channels and empty blocks get no points; only neural channels can switch bin-max drawing on |
| GraphsNi.NeuralPointCounts | Src-graphs/SVGrafsM_Ni.cpp:181-259 | a neural channel gets ntpts / dwnSmp points, and as many lower points in bin-max drawing |
| GraphsNi.NeuralEnvelope | Src-graphs/SVGrafsM_Ni.cpp:191-235 | in bin-max drawing each lower point <= the bin's first value <= the upper point |
| GraphsNi.LowBandNoBinMax | Src-graphs/SVGrafsM_Ni.cpp:150 | in the low band a neural channel is decimated, never drawn as a bin-max pair |
| GraphsNi.DrawBinMax | Src-graphs/SVGrafsM_Ni.cpp:150 | bin-max drawing iff it is on, the data are downsampled and the band is not the low band |
| GraphsNi.AuxPoints | Src-graphs/SVGrafsM_Ni.cpp:261-283 | analog and digital aux points are raw samples of every dwnSmp-th scan |
| GraphsNi.ChannelPoints | Src-graphs/SVGrafsM_Ni.cpp:178-283 | the loops compute the channel's points |
| GraphsNi.SVGrafsNi.PutScans | Src-graphs/SVGrafsM_Ni.cpp:89-296 | the block is trimmed; bin-max drawing iff binMaxOn, dwnSmp > 1 and bandSel != 2; each channel gets its points appended |
| GraphsNi.SVGrafsNi.BandSelChanged | Src-graphs/SVGrafsM_Ni.cpp:397-429 | selection 0 gives no filter, 1 a high-pass only, others a high-pass below a low-pass; bandSel = sel; erase iff binMaxOn and sel != 2 |
| GraphsNi.NiTypesAsWritten | Src-graphs/SVGrafsM_Ni.cpp:654-677 | one type per channel, the digital loop writing only entry c0 |
| GraphsNi.AsWrittenMissesDigital | Src-graphs/SVGrafsM_Ni.cpp:671-674 | as written, with two or more digital channels the second keeps its previous type |
| GraphsNi.AsWrittenCounterexample | Src-graphs/SVGrafsM_Ni.cpp:654-677 | as written, cum [1, 1, 1, 3] and types [0, 0, 0] give [0, 2, 0] |
| GraphsNi.SVGrafsNi.MySetUsrTypesAsWritten | Src-graphs/SVGrafsM_Ni.cpp:654-677 | the loops leave the types of the as-written function |
| GraphsNi.SVGrafsNi.MySetUsrTypes | Src-graphs/SVGrafsM_Ni.cpp:654-677 | neural channels get type 0, aux analog 1, every digital channel 2; the result is 2 |
| GraphsNi.SVGrafsNi.UpdateRHSFlags | Src-graphs/SVGrafsM_Ni.cpp:331-369 | every label is the save/audio label of its channel |
| GraphsNi.SVGrafsNi.constructor | Src-graphs/SVGrafsM_Ni.cpp:28-52 | counts, map and sample rate as given; no filters (`hipass(0), lopass(0)`); bin-max and band selection are the saved settings passed in, as loadSettings reads them at SVGrafsM_Ni.cpp:695-699 |
| RunCtl.Step | Src-run/Run.cpp:252-255 | a part is deleted iff it exists |
| RunCtl.TeardownDeletesAlive | Src-run/Run.cpp:250-292 | the teardown deletes exactly the parts that exist |
| RunCtl.TeardownKeepsUsersFirst | Src-run/Run.cpp:262-286 | a teardown in a users-first order deletes every user before what it uses |
| RunCtl.TeardownSteps | Src-run/Run.cpp:250-292 | the seven-part teardown is one delete-if-present step per part, in order |
| RunCtl.StopRunOrderSafe | Src-run/Run.cpp:250-292 | the order aoFetcher, graphFetcher, gate, trg, niReader, aiQ, graphsWindow deletes users first |
| RunCtl.Uses | Src-run/Run.cpp:169-240 | which part holds which from its creation on: the audio fetcher, reader, trigger and graph fetcher hold the queue; the graph fetcher, gate and trigger the graphs window; the gate the trigger |
| RunCtl.UsersFirst | Src-run/Run.cpp:250-292 | no part comes after a part that uses it |
| RunCtl.Teardown | Src-run/Run.cpp:250-292 | the first n parts of the order that exist, in order |
| RunCtl.StatusText | Src-run/Run.cpp:114-117 | "RUNNING - " + run name when running, else "READY" |
| RunCtl.Run.constructor | Src-run/Run.cpp:26-31 | not running, nothing created |
| RunCtl.Run.ScanCount | Src-run/Run.cpp:142-151 | 0 when not running, else the queue's count |
| RunCtl.Run.GetAIQ | Src-run/Run.cpp:154-163 | the queue iff running, else null |
| RunCtl.Run.GrfUpdateWindowTitles | Src-run/Run.cpp:104-136 | the title becomes the status text |
| RunCtl.Run.StartRun | Src-run/Run.cpp:169-240 | "Already running" or "Creating Graphs Pool" errors with nothing changed; otherwise running, with queue, reader, trigger, gate and graph fetcher created, and the audio start queued iff auto-start |
| RunCtl.Run.StopRun | Src-run/Run.cpp:243-301 | nothing when not running; otherwise every part that existed is deleted in the fixed order and the run ends |
| RunCtl.Run.DeleteOwned | Src-run/Run.cpp:252-292 | all owned parts end null, and the deletions are the teardown of the live ones |
| RunCtl.Run.Alive | Src-run/Run.cpp:250-292 | one existence flag per part of the teardown order |
| RunCtl.Run.AoStop | Src-run/Run.cpp:399-407 | the fetcher ends null and is deleted only if it existed |
| RunCtl.Run.AoStart | Src-run/Run.cpp:387-396 | stops first, then a fetcher exists iff running |
| RunCtl.Run.DfSetTrgEnabled | Src-run/Run.cpp:343-354 | a remote call with a graphs window goes to the window; else the trigger is paused iff disabled; else nothing |
| CniCfg.SumIndicesAliasTypes | Src-params/CniCfg.h:32-41 | the summary indices alias the type ids |
| CniCfg.NiCfg.SetUIMNStr2 | Src-params/CniCfg.h:88-96 | the bare getter returns the value set; the gated one returns it only in dual-device mode |
| CniCfg.NiCfg.SetUIMAStr2 | Src-params/CniCfg.h:89-97 | the bare getter returns the value set; the gated one returns it only in dual-device mode |
| CniCfg.NiCfg.SetUIXAStr2 | Src-params/CniCfg.h:90-98 | the bare getter returns the value set; the gated one returns it only in dual-device mode |
| CniCfg.NiCfg.SetUIXDStr2 | Src-params/CniCfg.h:91-99 | the bare getter returns the value set; the gated one returns it only in dual-device mode |
| CniCfg.NiCfg.UiMNStr2 | Src-params/CniCfg.h:92 | the stored string in dual-device mode, else "" |
| CniCfg.NiCfg.UiMAStr2 | Src-params/CniCfg.h:93 | the stored string in dual-device mode, else "" |
| CniCfg.NiCfg.UiXAStr2 | Src-params/CniCfg.h:94 | the stored string in dual-device mode, else "" |
| CniCfg.NiCfg.UiXDStr2 | Src-params/CniCfg.h:95 | the stored string in dual-device mode, else "" |
| CniCfg.NiCfg.UiMNStr2Bare | Src-params/CniCfg.h:96 | the stored second-device string, whatever the mode |
| CniCfg.NiCfg.UiMAStr2Bare | Src-params/CniCfg.h:97 | the stored second-device string, whatever the mode |
| CniCfg.NiCfg.UiXAStr2Bare | Src-params/CniCfg.h:98 | the stored second-device string, whatever the mode |
| CniCfg.NiCfg.UiXDStr2Bare | Src-params/CniCfg.h:99 | the stored second-device string, whatever the mode |
| CniCfg.NiCfg.IsMuxingMode | Src-params/CniCfg.h:101-105 | some multiplexed channel string of either device, through the gated getters, is non-empty (characterised by MuxingMode) |
| CniCfg.NiCfg.IsClock1Internal | Src-params/CniCfg.h:107 | the first device's clock string is "Internal" |
| CniCfg.NiCfg.MuxingMode | Src-params/CniCfg.h:101-105 | muxing iff uiMNStr1, uiMAStr1 or, in dual-device mode, their second-device strings are non-empty |
| CniCfg.NiCfg.constructor | Src-params/CniCfg.h:56-81 | single-device mode with every device string empty |
| GraphFetch.DefaultStream | Src-graphs/GraphFetcher.h:21-22 | the default stream has no queue and nextCt 0 |
| GraphFetch.NewStream | Src-graphs/GraphFetcher.h:23-24 | the stream and viewer as given, no queue, nextCt 0 |
| GraphFetch.GFWorker.constructor | Src-graphs/GraphFetcher.h:40-43 | a new worker is not paused and not stopped |
| GraphFetch.GFWorker.SetStreams | Src-graphs/GraphFetcher.h:46-47 | the stream list is replaced wholesale |
| GraphFetch.GFWorker.HardPause | Src-graphs/GraphFetcher.h:49-54 | hardPaused as given; paused iff either flag is set |
| GraphFetch.GFWorker.SoftPause | Src-graphs/GraphFetcher.h:51-54 | softPaused as given; paused iff either flag is set |
| GraphFetch.GFWorker.Stop | Src-graphs/GraphFetcher.h:56-57 | the worker is stopped, and no method clears the flag |
| GraphFetch.GFWorker.IsPaused | Src-graphs/GraphFetcher.h:53-54 | paused by either the hard or the soft pause flag |
| GraphFetch.GFWorker.IsStopped | Src-graphs/GraphFetcher.h:57 | the stop flag |
| GraphFetch.GraphFetcher.SetStreams | Src-graphs/GraphFetcher.h:80-84 | forwarded to the worker |
| GraphFetch.GraphFetcher.constructor | Src-graphs/GraphFetcher.h:70-78 | a fresh worker with no streams, not paused and not stopped (assumed, see Left out) |
| GraphFetch.GraphFetcher.HardPause | Src-graphs/GraphFetcher.h:80-84 | forwarded to the worker |
| GraphFetch.GraphFetcher.SoftPause | Src-graphs/GraphFetcher.h:80-84 | forwarded to the worker |

## Left out

- Sockets and Qt threads:
  - Sockets, `SU.send`/`sendBinary` and thread, signal and slot wiring are I/O.
  - The socket's messages are a sequence of `Msg` values, and each line of input is an `Option<string>`.
  - A client sending nothing more is read as the null line that ends the session.
- Concurrency:
  - Concurrency behaviour is not captured: the worker threads' wake/sleep rendezvous in `xferAll`, mutexes, `allStop()`, and the busy-wait loops.
  - `TrigSpike.TrigSpike.XferAll` runs the worker passes one after another.
- Sample queue: the queue (fetch, time mapping, head count, the filtered falling-edge finder) and `alignX12` are function parameters, because their code is not part of this model.
- Undeclared macro and helpers:
  - `BIQUAD_TRANS_WIDE` is a constructor parameter.
  - `remCtDone` is read as "every imec `remCt` <= 0".
  - `advanceEdgeByRefrac` is read as adding `refracCt` to every imec edge.
- Biquad filtering and floating point:
  - left out: the Biquad filtering of samples, float conversion, `ysc` scaling and `V_S_T_FLT_ADJ`-style gain adjustment, spatial averaging (`s_t_Ave`) and DC-level updates;
  - the adjusted AP values are a function `adj` from data index to value;
  - the LF DC level is a per-channel integer subtracted from the sample.
- Viewer side work: the shank viewer, TTL colouring, per-channel statistics and the pseudo time axis in `putScans` are display side work, not modelled.
- Graph ring buffer: the ring buffer's capacity is not modelled, so `yval`/`yval2` are unbounded sequences that grow by appending.
- `GraphsNi.SVGrafsNi.BandSelChanged`:
  - records the filters' kind and cutoff only;
  - the Biquad objects' filtering is not modelled;
  - the erase of the graphs is returned as a flag.
- NI analog versus digital: NI aux analog and digital channels are modelled alike (raw samples), since the only difference in the source is the `ysc` scaling, which is left out.
- Run.h versus Run.cpp: `Run.h` declares `imQ`/`niQ`, but the bodies in `Run.cpp` use one `aiQ`. The model follows `Run.cpp`.
- `RunCtl.Run.StartRun`:
  - leaves out the UI: `createGraphsWindow`, console and systray messages, and `runIniting`/`runStopped`;
  - models only the title text of `grfUpdateWindowTitles`.
- `askThenStopRun`, `rgtSet*`, `dfIsSaving`, `dfResetGTCounters`, `dfForceGTCounters`, `dfGetCurName` and `trgStopsRun` are left out: each is a dialog or a one-line forward to objects whose code is not part of this model.
- CimCfg persistence and detection:
  - left out: `QSettings` load/save of the table, `toGUI`/`fromGUI`, file load/save, `deriveStdbyBits` (it needs the subset helpers) and the vendor SDK calls in `detect`;
  - `ImProbeTable` has no `slot2Vers` field: `init` also clears that map (CimCfg.cpp:300) and `detect` fills it from the SDK (CimCfg.cpp:1037), so it holds only vendor data;
  - only `detect`'s local reverse maps are modelled.
- `CimCfg.IMROTbl.FromString`:
  - a table with a missing header or too few tokens in an entry is undefined behaviour in the source (`QStringList::at` out of range); the model reports it as a parse failure;
  - an entry's fields are narrowed to `qint16`/`qint8` as the C++ conversion does.
- `CmdServer.AcqChanCountsIm`: with no argument the source reads `toks.front()` of an empty list (undefined); the model reads it as "", whose `toUInt` is 0.
- CmdServer handlers: most query and command handlers other than those named in the Model table (set-parameter, audio, run-name, metadata, digital-out, console, SHA1) are modelled only by whether they are handled and by their closing behaviour. Their effects are outside the application model.
- PAR2 and SHA1 workers are not modelled.
- Integer widths: integers are unbounded, except where the source narrows explicitly: qint16/qint8/quint16 fields, quint64 counts from `toLongLong`, and the `-1` sentinels that wrap to each unsigned type's maximum.
- `TrigSpike.EdgeStep`: a failing `mapTime2Ct` is assumed to leave its out-count unchanged, so B's count stays as it was. `alignX12` is assumed to adjust only the B count, never A's. Both are queue and alignment code that is not part of this model.
- `TrigSpike.TrigSpike.SeedFromGate`: a failing `mapTime2Ct` of the gate time is assumed to leave its out-count unchanged.
- `TrigSpike.TrigSpike.SearchTrigger`: `findFltFallingEdge` applies the high-pass functor to the samples it scans, which lowers its `nzero`. The model changes `nzero` only through the resets of the functor.
- `TrigSpike.TrigSpike.FinishIfDone`: `endTrig()` (TrigSpike.cpp:404) closes the trigger's files, which is file I/O and not modelled. `SETSTATE_Done` also calls `dfSetRecordingEnabled(false, true)` on the run (TrigSpike.cpp:468-472). That call is a UI and run-control side effect, so the model only sets the state to Done.
- `CimCfg.ImProbeDat.Load`: a row with fewer than three fields, or a field with no ":" part, is undefined behaviour in the source (`QStringList::at` and `operator[]` out of range). The model reports it as a parse failure. As in the source, the fields read before the failing one (slot, then port) are already assigned, and the contract does not state them on failure.
- `CniCfg.NiCfg.constructor`: the source declares no constructor, so `isDualDevMode` is uninitialised until settings are loaded. The model starts in single-device mode (`isDualDevMode` false), so the gated second-device getters answer "" until the mode is set.
- `CmdServer.Session`: after the server answers "READY" to `SETPARAMS`, `SETAUDIOPARAMS` or `SETMETADATA`, the source reads parameter lines until a blank or null line (CmdServer.cpp:336-345, 372-380, 466-472) and applies them. The model does not consume those lines: each following line is dispatched as a command of its own.
- `CmdServer.CmdWorker.Run`: the same; the parameter lines that follow "READY" are served as command lines.
- `CmdServer.Frame`: with no channel kept, the source divides by zero when it writes the scan count (CmdServer.cpp:683), which is undefined. The model sends a header with 0 scans, and its contract states the header only for a positive channel count.
- `QtText.ToUpper`: upper-cases ASCII letters only. Qt's `toUpper` also maps non-ASCII letters, and can change the length ("ß" becomes "SS"). The command tokens it is applied to are ASCII command names.
- `QtText.IsSpace`: Qt's `\s` also matches Unicode spaces such as the no-break space. The model recognises only the six ASCII whitespace characters.
- `QtText.ToInt`, `ToUInt` and `ToLongLong`: Qt also trims surrounding whitespace before converting. The model's arguments are tokens of a whitespace split, which carry none; a text with whitespace reads as malformed here.
- `SVGrafs.Graphs.constructor`: the starting values of each `ic2Y` record (`usrType` 0, an empty label, `drawBinMax` false, empty traces) come from `MGraphY`'s constructor and from `SVGrafsM::init`/`initGraphs` (SVGrafsM.h:96, 166). Those bodies are not part of this model, so the starting values are assumed. Three things rest on them: the viewers' `Valid()` clause that only AP or neural records draw bin-max pairs; `ImPoints`/`NiPoints` passing the previous bin-max flag through for other channels; and `GraphsNi.AsWrittenCounterexample` starting from all records of type 0.
- `TrigSpike.TrigSpike.SetGate` and `TrigSpike.TrigSpike.ResetGTCounters`: `baseSetGate` and `baseResetGTCounters` (TrigSpike.cpp:225, 233) are base-class code that is not part of this model. The model states only initState's effect; SetGate returns the given level in place of storing it.
- `GraphFetch.GraphFetcher.constructor`: GraphFetcher.h declares only `GraphFetcher();`, and its body is not part of this model, so "a fresh worker with no streams, not paused and not stopped" is assumed. Run.cpp calls a two-argument `new GraphFetcher(graphsWindow, aiQ)` (Run.cpp:234) and `graphFetcher->pause(paused)` (Run.cpp:60); that header declares neither. The model follows the header; RunCtl models the fetcher by its existence and by the parts it holds (Run.cpp:234), and `grfPause` is not modelled.

## Findings

| source | as written | input that shows it | evidently intended | confidence | as-written member | corrected member |
|---|---|---|---|---|---|---|
| Src-triggers/TrigSpike.cpp:324-337 | the gate-start test `!imCnt.edgeCt.size() \|\| !niCnt.edgeCt` asks for both streams' edge counts even when a stream does not exist | no imec stream (nImQ = 0) with an NI stream whose gate count is non-zero; or one imec stream and no NI stream | test only the streams that exist, so the refractory advance of the edges survives the next pass | not executed | TrigSpike.TrigSpike.AsWrittenPassReseeds | TrigSpike.GateStartPending |
| Src-graphs/SVGrafsM_Ni.cpp:671-674 | the digital-channel loop assigns `ic2Y[c0].usrType` instead of `ic2Y[ic].usrType` | cum = [1, 1, 1, 3], previous types [0, 0, 0]: the result is [0, 2, 0] | every digital channel gets type 2: [0, 2, 2] | not executed | GraphsNi.AsWrittenCounterexample | GraphsNi.SVGrafsNi.MySetUsrTypes |
