/**
 * Imec probe configuration: the read-out table (IMRO) entries and tables
 * with their text form, the gain and electrode tables, the per-probe
 * channel-type counts and save-bit masks, the probe records of the probe
 * table and the enabled-probe and slot lists that detection builds.
 */
module CimCfg {
  import opened QtText

  // CimCfg::imTypeId
  const imTypeAP: int := 0
  const imTypeLF: int := 1
  const imTypeSY: int := 2
  const imSumAP: int := 0
  const imSumNeural: int := 1
  const imSumAll: int := 2
  const imNTypes: int := 3

  // IMROTbl::imLims
  const imType0Elec: int := 960
  const imType0Banks: int := 3
  const imType0Chan: int := 384
  const imNRefids: int := 5
  const imNGains: int := 8

  type Int8 = x: int | -0x80 <= x < 0x80
  type Int16 = x: int | -0x8000 <= x < 0x8000
  type UInt16 = x: int | 0 <= x < 0x1_0000
  type UInt32 = x: int | 0 <= x <= UINT32_MAX
  type UInt64 = x: int | 0 <= x < 0x1_0000_0000_0000_0000

  /** Conversion of an int to qint16: the value modulo 2^16, read back signed. */
  function Narrow16(x: int): (r: Int16)
    ensures -0x8000 <= x < 0x8000 ==> r == x
  {
    if -0x8000 <= x < 0x8000 then x else (x + 0x8000) % 0x1_0000 - 0x8000
  }

  /** Conversion of an int to qint8. */
  function Narrow8(x: int): (r: Int8)
    ensures -0x80 <= x < 0x80 ==> r == x
  {
    if -0x80 <= x < 0x80 then x else (x + 0x80) % 0x100 - 0x80
  }

  /** Conversion of an unsigned value to quint16. */
  function NarrowU16(x: int): (r: UInt16)
    ensures 0 <= x < 0x1_0000 ==> r == x
  {
    if 0 <= x < 0x1_0000 then x else x % 0x1_0000
  }

  /* ---------------------------------------------------------------- */
  /* IMRODesc -------------------------------------------------------- */
  /* ---------------------------------------------------------------- */

  /** One read-out table entry; apgn and lfgn are gains, not indices. */
  datatype IMRODesc = IMRODesc(bank: Int16, apgn: Int16, lfgn: Int16, refid: Int8, apflt: Int8)

  /** IMRODesc( bank, refid, apgn, lfgn, apflt ), with C++'s narrowing. */
  function MakeDesc(bank: int, refid: int, apgn: int, lfgn: int, apflt: bool): (d: IMRODesc)
    ensures -0x8000 <= bank < 0x8000 ==> d.bank == bank
    ensures -0x8000 <= apgn < 0x8000 ==> d.apgn == apgn
    ensures -0x8000 <= lfgn < 0x8000 ==> d.lfgn == lfgn
    ensures -0x80 <= refid < 0x80 ==> d.refid == refid
    ensures d.apflt == (if apflt then 1 else 0)
  {
    IMRODesc(Narrow16(bank), Narrow16(apgn), Narrow16(lfgn), Narrow8(refid), if apflt then 1 else 0)
  }

  /** IMRODesc(): the entry a default-constructed table holds. */
  function DefaultDesc(): (d: IMRODesc)
    ensures d == MakeDesc(0, 0, 500, 250, true)
  {
    IMRODesc(0, 500, 250, 0, 1)
  }

  /** IMRODesc::operator==. */
  function DescEquals(a: IMRODesc, b: IMRODesc): (r: bool)
    ensures r <==> a == b
  {
    a.bank == b.bank && a.apgn == b.apgn && a.lfgn == b.lfgn && a.refid == b.refid && a.apflt == b.apflt
  }

  function DescFields(d: IMRODesc, chn: int): seq<string>
  {
    [IntToString(chn), IntToString(d.bank), IntToString(d.refid),
     IntToString(d.apgn), IntToString(d.lfgn), IntToString(d.apflt)]
  }

  /** IMRODesc::toString: "chn bank refid apgn lfgn apflt". */
  function DescText(d: IMRODesc, chn: int): string
  {
    JoinWith(DescFields(d, chn), " ")
  }

  /**
   * IMRODesc::fromString: the channel field is discarded. None stands for
   * a text with fewer than six fields, where the source reads past the end
   * of its field list.
   */
  function DescFromText(s: string): Option<IMRODesc>
  {
    var sl := Split(s, Spaces);
    if |sl| < 6 then None
    else Some(MakeDesc(ToInt(sl[1]), ToInt(sl[2]), ToInt(sl[3]), ToInt(sl[4]), ToInt(sl[5]) != 0))
  }

  /** Formatting then parsing an entry restores it, apflt read back as a bool. */
  lemma DescRoundTrip(d: IMRODesc, chn: int)
    ensures DescFromText(DescText(d, chn)) == Some(d.(apflt := if d.apflt == 0 then 0 else 1))
  {
    var fs := DescFields(d, chn);
    SplitJoinSpaces(fs);
    ToIntRoundTrip(d.bank);
    ToIntRoundTrip(d.refid);
    ToIntRoundTrip(d.apgn);
    ToIntRoundTrip(d.lfgn);
    ToIntRoundTrip(d.apflt);
  }

  /** The round trip is exact for every entry whose apflt is 0 or 1. */
  lemma DescRoundTripExact(d: IMRODesc, chn: int)
    requires 0 <= d.apflt <= 1
    ensures DescFromText(DescText(d, chn)) == Some(d)
  {
    DescRoundTrip(d, chn);
  }

  lemma {:induction false} JoinWithNoClose(ts: seq<string>, sep: string)
    requires forall i :: 0 <= i < |ts| ==> AllPlain(Parens, ts[i])
    requires AllPlain(Parens, sep)
    ensures AllPlain(Parens, JoinWith(ts, sep))
  {
    if |ts| > 1 {
      JoinWithNoClose(ts[1..], sep);
    }
  }

  lemma DescTextShape(d: IMRODesc, chn: int)
    ensures DescText(d, chn) != [] && !IsSpace(DescText(d, chn)[0])
    ensures AllPlain(Parens, DescText(d, chn))
  {
    var fs := DescFields(d, chn);
    assert DescText(d, chn)[0] == fs[0][0];
    JoinWithNoClose(fs, " ");
  }

  /* ---------------------------------------------------------------- */
  /* IMROTbl text form ----------------------------------------------- */
  /* ---------------------------------------------------------------- */

  datatype TableValue = TableValue(probeType: UInt32, e: seq<IMRODesc>)

  function TableHeader(probeType: int, n: int): string
  {
    IntToString(probeType) + "," + IntToString(n)
  }

  function EntryTexts(e: seq<IMRODesc>): (r: seq<string>)
    ensures |r| == |e|
  {
    seq(|e|, i requires 0 <= i < |e| => DescText(e[i], i))
  }

  /** IMROTbl::toString: "(type,nchan)(chn bank refid apgn lfgn apflt)()()...". */
  function TableText(probeType: int, e: seq<IMRODesc>): string
  {
    Parenthesised([TableHeader(probeType, |e|)] + EntryTexts(e))
  }

  /** Each piece parsed as an entry; None as soon as one piece is malformed. */
  function ParseEntries(ps: seq<string>): (r: Option<seq<IMRODesc>>)
    ensures r.Some? ==> |r.value| == |ps|
  {
    if ps == [] then Some([])
    else
      match (ParseEntries(ps[..|ps| - 1]), DescFromText(ps[|ps| - 1]))
      case (Some(es), Some(d)) => Some(es + [d])
      case _ => None
  }

  /**
   * IMROTbl::fromString. The header's channel count is ignored; the type is
   * the first field of the header. None stands for the inputs on which the
   * source indexes an empty list.
   */
  function ParseTable(s: string): Option<TableValue>
  {
    var sl := Split(s, Parens);
    if |sl| == 0 then None
    else
      var hl := Split(sl[0], Around(','));
      if |hl| == 0 then None
      else
        match ParseEntries(sl[1..])
        case Some(es) => Some(TableValue(ToUInt(hl[0]), es))
        case None => None
  }

  lemma EntryTextsLast(e: seq<IMRODesc>, k: nat)
    requires k == |e| - 1
    ensures EntryTexts(e)[..k] == EntryTexts(e[..k]) && EntryTexts(e)[k] == DescText(e[k], k)
  {
  }

  lemma ButLastLast<T>(s: seq<T>)
    requires s != []
    ensures s[..|s| - 1] + [s[|s| - 1]] == s
  {
  }

  lemma ParseEntriesLast(ps: seq<string>, es: seq<IMRODesc>, d: IMRODesc)
    requires ps != [] && ParseEntries(ps[..|ps| - 1]) == Some(es) && DescFromText(ps[|ps| - 1]) == Some(d)
    ensures ParseEntries(ps) == Some(es + [d])
  {
  }

  lemma {:induction false} ParseEntryTexts(e: seq<IMRODesc>)
    requires forall i :: 0 <= i < |e| ==> 0 <= e[i].apflt <= 1
    ensures ParseEntries(EntryTexts(e)) == Some(e)
  {
    if e != [] {
      var k := |e| - 1;
      EntryTextsLast(e, k);
      ParseEntryTexts(e[..k]);
      DescRoundTripExact(e[k], k);
      ParseEntriesLast(EntryTexts(e), e[..k], e[k]);
      ButLastLast(e);
    }
  }

  /** Parsing a table's text restores its type and every entry. */
  lemma TableRoundTrip(probeType: UInt32, e: seq<IMRODesc>)
    requires forall i :: 0 <= i < |e| ==> 0 <= e[i].apflt <= 1
    ensures ParseTable(TableText(probeType, e)) == Some(TableValue(probeType, e))
  {
    var hdr := TableHeader(probeType, |e|);
    var ps := [hdr] + EntryTexts(e);
    forall i | 0 <= i < |ps|
      ensures ps[i] != [] && !IsSpace(ps[i][0]) && AllPlain(Parens, ps[i])
    {
      if i == 0 {
        assert hdr[0] == IntToString(probeType)[0];
      } else {
        DescTextShape(e[i - 1], i - 1);
      }
    }
    SplitParenthesised(ps);
    assert Split(TableText(probeType, e), Parens) == ps;
    SplitAround(IntToString(probeType), IntToString(|e|), ',');
    assert hdr == IntToString(probeType) + [','] + IntToString(|e|);
    ToUIntRoundTrip(probeType);
    assert ps[1..] == EntryTexts(e);
    ParseEntryTexts(e);
  }

  lemma {:induction false} ParenthesisedSnoc(ps: seq<string>, p: string)
    ensures Parenthesised(ps + [p]) == Parenthesised(ps) + "(" + p + ")"
  {
    if ps == [] {
      assert ps + [p] == [p];
      assert [p][1..] == [];
    } else {
      assert (ps + [p])[1..] == ps[1..] + [p];
      ParenthesisedSnoc(ps[1..], p);
    }
  }

  /* ---------------------------------------------------------------- */
  /* IMROTbl --------------------------------------------------------- */
  /* ---------------------------------------------------------------- */

  class IMROTbl {
    var probeType: UInt32
    var e: seq<IMRODesc>

    /** A table as C++ default-constructs it: no entries. */
    constructor ()
      ensures e == []
    {
      probeType := 0;
      e := [];
    }

    function NChan(): int
      reads this
    {
      |e|
    }

    /** IMROTbl::fillDefault. */
    method FillDefault(probeType: UInt32)
      modifies this
      ensures this.probeType == probeType
      ensures |e| == imType0Chan && forall i :: 0 <= i < |e| ==> e[i] == DefaultDesc()
    {
      this.probeType := probeType;
      e := seq(imType0Chan, _ => DefaultDesc());
    }

    /** IMROTbl::operator==: the vectors compare element by element. */
    function Equals(rhs: IMROTbl): (r: bool)
      reads this, rhs
      ensures r <==> probeType == rhs.probeType && |e| == |rhs.e| && forall i :: 0 <= i < |e| ==> DescEquals(e[i], rhs.e[i])
    {
      probeType == rhs.probeType && e == rhs.e
    }

    /** IMROTbl::operator!=. */
    function NotEquals(rhs: IMROTbl): (r: bool)
      reads this, rhs
      ensures r <==> probeType != rhs.probeType || e != rhs.e
    {
      !Equals(rhs)
    }

    /** IMROTbl::banksSame; rhs must have at least as many entries. */
    method BanksSame(rhs: IMROTbl) returns (same: bool)
      requires NChan() <= rhs.NChan()
      ensures same <==> forall i :: 0 <= i < |e| ==> e[i].bank == rhs.e[i].bank
    {
      var n := NChan();
      var i := 0;
      while i < n
        invariant 0 <= i <= n
        invariant forall j :: 0 <= j < i ==> e[j].bank == rhs.e[j].bank
      {
        if e[i].bank != rhs.e[i].bank {
          return false;
        }
        i := i + 1;
      }
      return true;
    }

    /** IMROTbl::toString, built piece by piece as the text stream is. */
    method ToString() returns (s: string)
      ensures s == TableText(probeType, e)
    {
      var n := NChan();
      var hdr := TableHeader(probeType, n);
      s := "(" + hdr + ")";
      ghost var ps := [hdr] + EntryTexts(e);
      assert ps[..1] == [hdr];
      assert s == Parenthesised(ps[..1]) by {
        assert [hdr][1..] == [];
      }
      var i := 0;
      while i < n
        invariant 0 <= i <= n
        invariant s == Parenthesised(ps[..i + 1])
      {
        var piece := DescText(e[i], i);
        assert ps[i + 1] == piece;
        ParenthesisedStep(ps, i, s);
        s := s + "(" + piece + ")";
        i := i + 1;
      }
      TakeAll(ps);
    }

    /**
     * IMROTbl::fromString. The type is set from the header before the
     * entries are read; ok is false on the inputs where the source would
     * index past the end of a list.
     */
    method FromString(s: string) returns (ok: bool)
      modifies this
      ensures ok <==> ParseTable(s).Some?
      ensures ok ==> probeType == ParseTable(s).value.probeType && e == ParseTable(s).value.e
      ensures ok ==> NChan() == |Split(s, Parens)| - 1
    {
      var sl := Split(s, Parens);
      ParseTableCases(s);
      var n := |sl|;
      if n == 0 {
        return false;
      }
      var hl := Split(sl[0], Around(','));
      if |hl| == 0 {
        return false;
      }
      probeType := ToUInt(hl[0]);
      e := [];
      var i := 1;
      while i < n
        invariant 1 <= i <= n
        invariant probeType == ToUInt(hl[0])
        invariant ParseEntries(sl[1..i]) == Some(e)
      {
        var d := DescFromText(sl[i]);
        ParseStep(sl, i, e, d);
        if d.None? {
          return false;
        }
        e := e + [d.value];
        i := i + 1;
      }
      SliceToEnd(sl, 1);
      assert |e| == n - 1;
      return true;
    }
  }

  /** The cases of ParseTable, one by one. */
  lemma ParseTableCases(s: string)
    ensures var sl := Split(s, Parens);
      && (|sl| == 0 ==> ParseTable(s) == None)
      && (|sl| > 0 && |Split(sl[0], Around(','))| == 0 ==> ParseTable(s) == None)
      && (|sl| > 0 && |Split(sl[0], Around(','))| > 0 ==>
            (ParseEntries(sl[1..]).None? ==> ParseTable(s) == None) &&
            (ParseEntries(sl[1..]).Some? ==>
               ParseTable(s) == Some(TableValue(ToUInt(Split(sl[0], Around(','))[0]), ParseEntries(sl[1..]).value))))
  {
  }

  lemma SliceToEnd<T>(s: seq<T>, k: nat)
    requires k <= |s|
    ensures s[k..|s|] == s[k..]
  {
  }

  lemma TakeAll<T>(s: seq<T>)
    ensures s[..|s|] == s && s[0..] == s
  {
  }

  lemma TakeNext<T>(s: seq<T>, i: nat)
    requires i < |s|
    ensures s[..i + 1] == s[..i] + [s[i]]
  {
  }

  /** One pass of toString's loop: appending the next piece in parentheses. */
  lemma ParenthesisedStep(ps: seq<string>, i: nat, s: string)
    requires i + 1 < |ps| && s == Parenthesised(ps[..i + 1])
    ensures s + "(" + ps[i + 1] + ")" == Parenthesised(ps[..i + 2])
  {
    assert ps[..i + 2] == ps[..i + 1] + [ps[i + 1]];
    ParenthesisedSnoc(ps[..i + 1], ps[i + 1]);
  }

  /** One pass of fromString's loop: the next piece extends the entries or fails the whole parse. */
  lemma ParseStep(sl: seq<string>, i: nat, e: seq<IMRODesc>, d: Option<IMRODesc>)
    requires 1 <= i < |sl| && ParseEntries(sl[1..i]) == Some(e) && d == DescFromText(sl[i])
    ensures d.Some? ==> ParseEntries(sl[1..i + 1]) == Some(e + [d.value])
    ensures d.None? ==> ParseEntries(sl[1..]).None?
  {
    assert sl[1..i + 1][..i - 1] == sl[1..i];
    assert sl[1..i + 1][i - 1] == sl[i];
    if d.None? {
      assert sl[1..][..i] == sl[1..i + 1];
      PrefixFailure(sl[1..], i);
    }
  }

  /** A malformed piece makes every longer run of pieces fail to parse. */
  lemma {:induction false} PrefixFailure(ps: seq<string>, k: nat)
    requires k <= |ps|
    requires ParseEntries(ps[..k]).None?
    ensures ParseEntries(ps).None?
    decreases |ps| - k
  {
    if k < |ps| {
      assert ps[..k + 1][..k] == ps[..k];
      PrefixFailure(ps, k + 1);
    } else {
      assert ps[..k] == ps;
    }
  }

  /* ---------------------------------------------------------------- */
  /* Statics --------------------------------------------------------- */
  /* ---------------------------------------------------------------- */

  /** i2gn: the eight selectable gains, by index. */
  const GAINS: seq<int> := [50, 125, 250, 500, 1000, 1500, 2000, 3000]

  /** IMROTbl::typeToNElec: every probe type has 960 electrodes. */
  function TypeToNElec(probeType: int): (n: int)
    ensures n == imType0Elec
  {
    imType0Elec
  }

  /** IMROTbl::chToEl384: channel to 1-based electrode, 0 for a negative channel. */
  function ChToEl384(ch: int, bank: int): int
  {
    if ch >= 0 then (ch + 1) + bank * imType0Chan else 0
  }

  /** IMROTbl::chIsRef. */
  function ChIsRef(ch: int): bool
  {
    ch == 191
  }

  /** IMROTbl::idxToGain: an index outside 0..7 reads as index 3. */
  function IdxToGain(idx: int): (g: int)
    ensures g in GAINS
    ensures !(0 <= idx < imNGains) ==> g == 500
  {
    if 0 <= idx < imNGains then GAINS[idx] else GAINS[3]
  }

  /** IMROTbl::gainToIdx: an unknown gain maps to index 3. */
  function GainToIdx(gain: int): (idx: int)
    ensures 0 <= idx < imNGains
    ensures gain !in GAINS ==> idx == 3
  {
    match gain
    case 50 => 0
    case 125 => 1
    case 250 => 2
    case 500 => 3
    case 1000 => 4
    case 1500 => 5
    case 2000 => 6
    case 3000 => 7
    case _ => 3
  }

  lemma GainOfIndexRoundTrip(idx: int)
    requires 0 <= idx < imNGains
    ensures GainToIdx(IdxToGain(idx)) == idx
  {
  }

  lemma IndexOfGainRoundTrip(gain: int)
    requires gain in GAINS
    ensures IdxToGain(GainToIdx(gain)) == gain
  {
  }

  /** Channel and bank are recovered from the electrode number. */
  lemma ElectrodeInverse(ch: int, bank: int)
    requires 0 <= ch < imType0Chan && bank >= 0
    ensures ChToEl384(ch, bank) >= 1
    ensures (ChToEl384(ch, bank) - 1) % imType0Chan == ch
    ensures (ChToEl384(ch, bank) - 1) / imType0Chan == bank
  {
    var el := ChToEl384(ch, bank);
    assert el - 1 == bank * imType0Chan + ch;
  }

  /** Distinct (channel, bank) pairs name distinct electrodes. */
  lemma ElectrodeInjective(ch1: int, bank1: int, ch2: int, bank2: int)
    requires 0 <= ch1 < imType0Chan && bank1 >= 0
    requires 0 <= ch2 < imType0Chan && bank2 >= 0
    requires ChToEl384(ch1, bank1) == ChToEl384(ch2, bank2)
    ensures ch1 == ch2 && bank1 == bank2
  {
    ElectrodeInverse(ch1, bank1);
    ElectrodeInverse(ch2, bank2);
  }

  /** The reference channel 191 sits at electrode 192 of each bank. */
  lemma ReferenceElectrode(ch: int, bank: int)
    requires ChIsRef(ch)
    ensures ChToEl384(ch, bank) == 192 + imType0Chan * bank
  {
  }

  /* ---------------------------------------------------------------- */
  /* Save-bit masks -------------------------------------------------- */
  /* ---------------------------------------------------------------- */

  /** bits with the positions in [lo, hi) cleared: QBitArray::fill(0, lo, hi). */
  function Cleared(bits: seq<bool>, lo: int, hi: int): (r: seq<bool>)
    ensures |r| == |bits|
  {
    seq(|bits|, i requires 0 <= i < |bits| => if lo <= i < hi then false else bits[i])
  }

  /** QBitArray::count(true). */
  function CountTrue(bits: seq<bool>): nat
  {
    if bits == [] then 0 else CountTrue(bits[..|bits| - 1]) + (if bits[|bits| - 1] then 1 else 0)
  }

  lemma {:induction false} CountTrueAppend(a: seq<bool>, b: seq<bool>)
    ensures CountTrue(a + b) == CountTrue(a) + CountTrue(b)
  {
    if b != [] {
      assert (a + b)[..|a + b| - 1] == a + b[..|b| - 1];
      CountTrueAppend(a, b[..|b| - 1]);
    } else {
      assert a + b == a;
    }
  }

  lemma {:induction false} CountTrueNone(n: nat)
    ensures CountTrue(Falses(n)) == 0
  {
    if n > 0 {
      assert Falses(n)[..n - 1] == Falses(n - 1);
      CountTrueNone(n - 1);
    }
  }

  /** A run of n cleared bits. */
  function Falses(n: nat): (r: seq<bool>)
    ensures |r| == n && forall i :: 0 <= i < n ==> !r[i]
  {
    seq(n, _ => false)
  }

  lemma ClearedSplit(bits: seq<bool>, lo: int, hi: int)
    requires 0 <= lo <= hi <= |bits|
    ensures Cleared(bits, lo, hi) == bits[..lo] + Falses(hi - lo) + bits[hi..]
  {
    var c, q := Cleared(bits, lo, hi), bits[..lo] + Falses(hi - lo) + bits[hi..];
    forall i | 0 <= i < |c|
      ensures c[i] == q[i]
    {
      if i < lo {
        assert q[i] == bits[..lo][i];
      } else if i < hi {
        assert q[i] == Falses(hi - lo)[i - lo];
      } else {
        assert q[i] == bits[hi..][i - hi];
      }
    }
  }

  lemma CountTrueThree(a: seq<bool>, b: seq<bool>, c: seq<bool>)
    ensures CountTrue(a + b + c) == CountTrue(a) + CountTrue(b) + CountTrue(c)
  {
    CountTrueAppend(a + b, c);
    CountTrueAppend(a, b);
  }

  lemma ClearedCountParts(bits: seq<bool>, lo: int, hi: int)
    requires 0 <= lo <= hi <= |bits|
    ensures CountTrue(Cleared(bits, lo, hi)) == CountTrue(bits[..lo]) + CountTrue(bits[hi..])
  {
    ClearedSplit(bits, lo, hi);
    CountTrueThree(bits[..lo], Falses(hi - lo), bits[hi..]);
    CountTrueNone(hi - lo);
  }

  lemma CountParts(bits: seq<bool>, lo: int, hi: int)
    requires 0 <= lo <= hi <= |bits|
    ensures CountTrue(bits) == CountTrue(bits[..lo]) + CountTrue(bits[lo..hi]) + CountTrue(bits[hi..])
  {
    assert bits == bits[..lo] + bits[lo..hi] + bits[hi..];
    CountTrueThree(bits[..lo], bits[lo..hi], bits[hi..]);
  }

  /** Clearing [lo, hi) removes exactly the set bits of that range from the count. */
  lemma ClearedCount(bits: seq<bool>, lo: int, hi: int)
    requires 0 <= lo <= hi <= |bits|
    ensures CountTrue(Cleared(bits, lo, hi)) + CountTrue(bits[lo..hi]) == CountTrue(bits)
  {
    ClearedCountParts(bits, lo, hi);
    CountParts(bits, lo, hi);
  }

  /**
   * The AP and LF masks split the neural save bits between them; the sync
   * bits beyond LF are counted by both.
   */
  lemma APLFPartition(bits: seq<bool>, nAP: int, nLF: int)
    requires 0 <= nAP <= nLF <= |bits|
    ensures CountTrue(Cleared(bits, nAP, nLF)) + CountTrue(Cleared(bits, 0, nAP))
            == CountTrue(bits) + CountTrue(bits[nLF..])
  {
    ClearedCountParts(bits, nAP, nLF);
    ClearedCount(bits, 0, nAP);
    CountParts(bits, nAP, nLF);
    assert bits[0..nAP] == bits[..nAP];
  }

  /** Below the sync range every saved bit lands in exactly one of the two masks. */
  lemma APLFDisjoint(bits: seq<bool>, nAP: int, nLF: int)
    requires 0 <= nAP <= nLF <= |bits|
    ensures forall i :: 0 <= i < nLF ==> (Cleared(bits, nAP, nLF)[i] || Cleared(bits, 0, nAP)[i]) == bits[i]
    ensures forall i :: 0 <= i < nLF ==> !(Cleared(bits, nAP, nLF)[i] && Cleared(bits, 0, nAP)[i])
  {
  }

  /** Running sums: r[i] is the sum of counts[0..i]. */
  function Integrated(counts: seq<int>): (r: seq<int>)
    ensures |r| == |counts|
  {
    if counts == [] then [] else
      var front := Integrated(counts[..|counts| - 1]);
      front + [(if front == [] then 0 else front[|front| - 1]) + counts[|counts| - 1]]
  }

  /** Running sums of non-negative counts never decrease and start at the first count. */
  lemma {:induction false} IntegratedNonDecreasing(counts: seq<int>)
    requires forall i :: 0 <= i < |counts| ==> counts[i] >= 0
    ensures counts != [] ==> Integrated(counts)[0] == counts[0]
    ensures forall i, j :: 0 <= i <= j < |counts| ==> Integrated(counts)[i] <= Integrated(counts)[j]
  {
    if counts != [] {
      var front := counts[..|counts| - 1];
      IntegratedNonDecreasing(front);
      var r := Integrated(counts);
      assert r[..|front|] == Integrated(front);
      if front != [] {
        assert r[|counts| - 1] == Integrated(front)[|front| - 1] + counts[|counts| - 1];
      }
    }
  }

  /** The running sums of the imec channel-type counts. */
  lemma IntegratedChanCounts()
    ensures Integrated([imType0Chan, imType0Chan, 1]) == [384, 768, 769]
  {
    var c := [imType0Chan, imType0Chan, 1];
    assert c[..2][..1] == [384];
    assert Integrated([384]) == [384];
    assert c[..2] == [384, 384];
    assert Integrated(c[..2]) == [384, 768];
  }

  /* ---------------------------------------------------------------- */
  /* AttrEach -------------------------------------------------------- */
  /* ---------------------------------------------------------------- */

  class AttrEach {
    var roTbl: IMROTbl
    var imCumTypCnt: array<int>
    var saveBits: seq<bool>
    var skipCal: bool
    var LEDEnable: bool

    constructor ()
      ensures fresh(roTbl) && fresh(imCumTypCnt)
      ensures imCumTypCnt.Length == imNTypes
      ensures !skipCal && !LEDEnable
    {
      roTbl := new IMROTbl();
      imCumTypCnt := new int[imNTypes];
      saveBits := [];
      skipCal, LEDEnable := false, false;
    }

    /**
     * AttrEach::deriveChanCounts: 384 AP, 384 LF and 1 sync channel,
     * integrated in place into cumulative counts.
     */
    method DeriveChanCounts(probeType: int)
      requires imCumTypCnt.Length == imNTypes
      modifies imCumTypCnt
      ensures imCumTypCnt[..] == Integrated([imType0Chan, imType0Chan, 1])
      ensures imCumTypCnt[..] == [384, 768, 769]
    {
      imCumTypCnt[imTypeAP] := imType0Chan;
      imCumTypCnt[imTypeLF] := imCumTypCnt[imTypeAP];
      imCumTypCnt[imTypeSY] := 1;
      assert imCumTypCnt[..] == [imType0Chan, imType0Chan, 1];
      IntegrateInPlace(imCumTypCnt);
      IntegratedChanCounts();
    }

    /** The in-place loop of deriveChanCounts: each count becomes a running sum. */
    static method IntegrateInPlace(a: array<int>)
      modifies a
      ensures a[..] == Integrated(old(a[..]))
    {
      ghost var counts := a[..];
      if a.Length == 0 {
        return;
      }
      IntegratedFirst(counts);
      var i := 1;
      while i < a.Length
        invariant 1 <= i <= a.Length
        invariant a[..i] == Integrated(counts[..i])
        invariant a[i..] == counts[i..]
      {
        ghost var pre := a[..];
        var v := a[i] + a[i - 1];
        a[i] := v;
        assert a[..] == pre[i := v];
        IntegrateStep(pre, counts, i, v);
        i := i + 1;
      }
      TakeAll(counts);
      TakeAll(a[..]);
    }

    /** The loop above starts with the first count, its own running sum. */
    static lemma IntegratedFirst(counts: seq<int>)
      requires counts != []
      ensures counts[..1] == Integrated(counts[..1])
    {
      assert counts[..1] == [counts[0]];
    }

    /** One pass of the loop above, on the array's contents before and after. */
    static lemma IntegrateStep(pre: seq<int>, counts: seq<int>, i: nat, v: int)
      requires 1 <= i < |pre| == |counts|
      requires pre[..i] == Integrated(counts[..i]) && pre[i..] == counts[i..]
      requires v == pre[i] + pre[i - 1]
      ensures pre[i := v][..i + 1] == Integrated(counts[..i + 1])
      ensures pre[i := v][i + 1..] == counts[i + 1..]
    {
      assert counts[..i + 1][..i] == counts[..i];
      assert pre[i] == counts[i] by {
        assert pre[i..][0] == counts[i..][0];
      }
      assert pre[i - 1] == pre[..i][i - 1];
      assert pre[i := v][..i + 1] == pre[..i] + [v];
      assert pre[i := v][i + 1..] == pre[i..][1..];
      assert counts[i + 1..] == counts[i..][1..];
    }

    /** Clears bits [lo, hi) of a copy of bits, one position at a time. */
    static method FillZero(bits: seq<bool>, lo: int, hi: int) returns (r: seq<bool>)
      requires 0 <= lo
      requires lo < hi ==> hi <= |bits|
      ensures r == Cleared(bits, lo, hi)
    {
      r := bits;
      var i := lo;
      while i < hi
        invariant (i == lo || lo < i <= hi) && |r| == |bits|
        invariant forall j :: 0 <= j < |r| ==> r[j] == if lo <= j < i then false else bits[j]
      {
        r := r[i := false];
        i := i + 1;
      }
      assert forall j :: 0 <= j < |r| ==> r[j] == Cleared(bits, lo, hi)[j];
    }

    /** AttrEach::justAPBits: the save bits with the LF range cleared. */
    method JustAPBits(bits: seq<bool>) returns (apBits: seq<bool>)
      requires imCumTypCnt.Length == imNTypes
      requires 0 <= imCumTypCnt[imTypeAP]
      requires imCumTypCnt[imTypeAP] < imCumTypCnt[imTypeLF] ==> imCumTypCnt[imTypeLF] <= |bits|
      ensures |apBits| == |bits|
      ensures forall i :: 0 <= i < |bits| ==>
        apBits[i] == (bits[i] && !(imCumTypCnt[imTypeAP] <= i < imCumTypCnt[imTypeLF]))
    {
      apBits := FillZero(bits, imCumTypCnt[imTypeAP], imCumTypCnt[imTypeLF]);
    }

    /** AttrEach::justLFBits: the save bits with the AP range cleared. */
    method JustLFBits(bits: seq<bool>) returns (lfBits: seq<bool>)
      requires imCumTypCnt.Length == imNTypes
      requires 0 < imCumTypCnt[imTypeAP] ==> imCumTypCnt[imTypeAP] <= |bits|
      ensures |lfBits| == |bits|
      ensures forall i :: 0 <= i < |bits| ==> lfBits[i] == (bits[i] && !(0 <= i < imCumTypCnt[imTypeAP]))
    {
      lfBits := FillZero(bits, 0, imCumTypCnt[imTypeAP]);
    }

    /** AttrEach::apSaveChanCount: saved channels outside the LF range. */
    method APSaveChanCount() returns (n: int)
      requires imCumTypCnt.Length == imNTypes
      requires 0 <= imCumTypCnt[imTypeAP] <= imCumTypCnt[imTypeLF] <= |saveBits|
      ensures n == CountTrue(saveBits) - CountTrue(saveBits[imCumTypCnt[imTypeAP]..imCumTypCnt[imTypeLF]])
    {
      var apBits := JustAPBits(saveBits);
      assert apBits == Cleared(saveBits, imCumTypCnt[imTypeAP], imCumTypCnt[imTypeLF]);
      ClearedCount(saveBits, imCumTypCnt[imTypeAP], imCumTypCnt[imTypeLF]);
      n := CountTrue(apBits);
    }

    /** AttrEach::lfSaveChanCount: saved channels outside the AP range. */
    method LFSaveChanCount() returns (n: int)
      requires imCumTypCnt.Length == imNTypes
      requires 0 <= imCumTypCnt[imTypeAP] <= |saveBits|
      ensures n == CountTrue(saveBits) - CountTrue(saveBits[..imCumTypCnt[imTypeAP]])
    {
      var lfBits := JustLFBits(saveBits);
      assert lfBits == Cleared(saveBits, 0, imCumTypCnt[imTypeAP]);
      ClearedCount(saveBits, 0, imCumTypCnt[imTypeAP]);
      assert saveBits[0..imCumTypCnt[imTypeAP]] == saveBits[..imCumTypCnt[imTypeAP]];
      n := CountTrue(lfBits);
    }

    /**
     * AttrEach::chanGain: the AP gain of an AP channel, the LF gain of an
     * LF channel, at least 50 either way; 1 for every other channel. The
     * entries the source reads must exist.
     */
    function ChanGain(ic: int): (g: int)
      reads this, imCumTypCnt, roTbl
      requires imCumTypCnt.Length == imNTypes
      requires 0 <= ic < imCumTypCnt[imTypeAP] ==> ic < |roTbl.e|
      requires imCumTypCnt[imTypeAP] <= ic < imCumTypCnt[imTypeLF] ==> 0 <= ic - imCumTypCnt[imTypeAP] < |roTbl.e|
      ensures ic < 0 || (ic >= imCumTypCnt[imTypeAP] && ic >= imCumTypCnt[imTypeLF]) ==> g == 1
      ensures 0 <= ic < imCumTypCnt[imTypeAP] ==>
        g >= 50 && (roTbl.e[ic].apgn >= 50 ==> g == roTbl.e[ic].apgn) && (roTbl.e[ic].apgn < 50 ==> g == 50)
      ensures 0 <= ic && imCumTypCnt[imTypeAP] <= ic < imCumTypCnt[imTypeLF] ==>
        g >= 50 && (roTbl.e[ic - imCumTypCnt[imTypeAP]].lfgn >= 50 ==> g == roTbl.e[ic - imCumTypCnt[imTypeAP]].lfgn)
        && (roTbl.e[ic - imCumTypCnt[imTypeAP]].lfgn < 50 ==> g == 50)
      ensures g == 1 || g >= 50
    {
      if ic > -1 then
        var nAP := imCumTypCnt[imTypeAP];
        if ic < nAP then Clamp50(roTbl.e[ic].apgn)
        else if ic < imCumTypCnt[imTypeLF] then Clamp50(roTbl.e[ic - nAP].lfgn)
        else 1
      else 1
    }
  }

  function Clamp50(g: int): int
  {
    if g < 50 then 50 else g
  }

  /* ---------------------------------------------------------------- */
  /* ImProbeDat ------------------------------------------------------ */
  /* ---------------------------------------------------------------- */

  /** Lexicographic order on (slot, port). */
  predicate KeyLess(slot1: int, port1: int, slot2: int, port2: int)
  {
    if slot1 < slot2 then true
    else if slot1 == slot2 then port1 < port2
    else false
  }

  lemma KeyLessIrreflexive(slot: int, port: int)
    ensures !KeyLess(slot, port, slot, port)
  {
  }

  lemma KeyLessTransitive(s1: int, p1: int, s2: int, p2: int, s3: int, p3: int)
    requires KeyLess(s1, p1, s2, p2) && KeyLess(s2, p2, s3, p3)
    ensures KeyLess(s1, p1, s3, p3)
  {
  }

  /** Any two distinct keys are ordered one way or the other. */
  lemma KeyLessTotal(s1: int, p1: int, s2: int, p2: int)
    ensures (s1, p1) != (s2, p2) <==> KeyLess(s1, p1, s2, p2) || KeyLess(s2, p2, s1, p1)
  {
  }

  const DEFAULT_ROW: string := "slot:0 port:0 enab:1"

  /** The text ImProbeDat::save stores: "slot:%1 port:%2 enab:%3". */
  function RowText(slot: int, port: int, enab: bool): string
  {
    "slot:" + IntToString(slot) + " port:" + IntToString(port) + " enab:" + (if enab then "1" else "0")
  }

  datatype RowValue = RowValue(slot: UInt16, port: UInt16, enab: bool)

  /** The value of a "name:value" field; None when there is no second part. */
  function FieldValue(field: string): Option<int>
  {
    var s := Split(field, Around(':'));
    if |s| < 2 then None else Some(ToUInt(s[1]))
  }

  /**
   * ImProbeDat::load: the second part of each of the first three fields,
   * narrowed to the member types. None for a row with fewer fields, where
   * the source indexes past the end of a list.
   */
  function ParseRow(row: string): Option<RowValue>
  {
    var sl := Split(row, Spaces);
    if |sl| < 3 then None
    else
      match (FieldValue(sl[0]), FieldValue(sl[1]), FieldValue(sl[2]))
      case (Some(s), Some(p), Some(e)) => Some(RowValue(NarrowU16(s), NarrowU16(p), e != 0))
      case _ => None
  }

  lemma FieldRoundTrip(name: string, v: nat)
    requires Token(name)
    requires v <= UINT32_MAX
    ensures FieldValue(name + ":" + IntToString(v)) == Some(v)
  {
    SplitAround(name, IntToString(v), ':');
    assert name + ":" + IntToString(v) == name + [':'] + IntToString(v);
    ToUIntRoundTrip(v);
  }

  lemma PlainField(name: string, v: int)
    requires AllPlain(Spaces, name)
    ensures AllPlain(Spaces, name + ":" + IntToString(v))
  {
  }

  function RowFields(slot: int, port: int, enab: bool): seq<string>
  {
    ["slot:" + IntToString(slot), "port:" + IntToString(port), "enab:" + IntToString(if enab then 1 else 0)]
  }

  /** The stored row is its three "name:value" fields joined by single spaces. */
  lemma RowTextFields(slot: int, port: int, enab: bool)
    ensures RowText(slot, port, enab) == JoinWith(RowFields(slot, port, enab), " ")
  {
    var x, y, z := IntToString(slot), IntToString(port), IntToString(if enab then 1 else 0);
    assert (if enab then "1" else "0") == z;
    assert " port:" == " " + "port:" && " enab:" == " " + "enab:";
    Regroup("slot:", " ", "port:", "enab:", x, y, z);
    JoinThree("slot:" + x, "port:" + y, "enab:" + z, " ");
  }

  lemma Regroup<T>(p0: seq<T>, sep: seq<T>, p1: seq<T>, p2: seq<T>, x: seq<T>, y: seq<T>, z: seq<T>)
    ensures p0 + x + (sep + p1) + y + (sep + p2) + z == p0 + x + sep + ((p1 + y) + sep + (p2 + z))
  {
  }

  /** No stored field holds a space, and none is empty. */
  lemma RowFieldsPlain(slot: int, port: int, enab: bool)
    ensures var fs := RowFields(slot, port, enab);
      forall i :: 0 <= i < |fs| ==> fs[i] != [] && AllPlain(Spaces, fs[i])
  {
    assert AllPlain(Spaces, "slot") && AllPlain(Spaces, "port") && AllPlain(Spaces, "enab");
    RowFieldParts(slot, port, enab);
    PlainField("slot", slot);
    PlainField("port", port);
    PlainField("enab", if enab then 1 else 0);
  }

  lemma RowSplit(slot: int, port: int, enab: bool)
    ensures Split(RowText(slot, port, enab), Spaces) == RowFields(slot, port, enab)
  {
    RowTextFields(slot, port, enab);
    RowFieldsPlain(slot, port, enab);
    SplitJoinSpaces(RowFields(slot, port, enab));
  }

  /** Loading what save stored restores slot, port and enab. */
  lemma RowRoundTrip(slot: UInt16, port: UInt16, enab: bool)
    ensures ParseRow(RowText(slot, port, enab)) == Some(RowValue(slot, port, enab))
  {
    RowSplit(slot, port, enab);
    RowFieldValues(slot, port, enab);
  }

  /** Each stored field reads back as its value. */
  lemma RowFieldValues(slot: UInt16, port: UInt16, enab: bool)
    ensures var fs := RowFields(slot, port, enab);
      FieldValue(fs[0]) == Some(slot as int) && FieldValue(fs[1]) == Some(port as int)
      && FieldValue(fs[2]) == Some(if enab then 1 else 0)
  {
    RowNames();
    RowFieldParts(slot, port, enab);
    FieldRoundTrip("slot", slot);
    FieldRoundTrip("port", port);
    FieldRoundTrip("enab", if enab then 1 else 0);
  }

  lemma RowNames()
    ensures Token("slot") && Token("port") && Token("enab")
  {
  }

  lemma RowFieldParts(slot: int, port: int, enab: bool)
    ensures var fs := RowFields(slot, port, enab);
      fs[0] == "slot" + ":" + IntToString(slot) && fs[1] == "port" + ":" + IntToString(port)
      && fs[2] == "enab" + ":" + IntToString(if enab then 1 else 0)
  {
  }

  /** The default row reads as slot 0, port 0, enabled. */
  lemma DefaultRow()
    ensures ParseRow(DEFAULT_ROW) == Some(RowValue(0, 0, true))
  {
    assert DEFAULT_ROW == RowText(0, 0, true);
    RowRoundTrip(0, 0, true);
  }

  class ImProbeDat {
    var slot: UInt16
    var port: UInt16
    var hssn: UInt32
    var hsfw: string
    var sn: UInt64
    var probeType: UInt16
    var enab: bool
    var ip: UInt16

    /** The "not detected" values ImProbeDat::init assigns. */
    predicate Undetected()
      reads this
    {
      hssn == UINT32_MAX && hsfw == "" && sn == INT64_MAX && probeType == 0xFFFF && ip == 0xFFFF
    }

    /** ImProbeDat( slot, port ). */
    constructor (slot: int, port: int)
      ensures this.slot == NarrowU16(slot) && this.port == NarrowU16(port)
      ensures enab && Undetected()
    {
      this.slot := NarrowU16(slot);
      this.port := NarrowU16(port);
      enab := true;
      hssn, hsfw, sn, probeType, ip := UINT32_MAX, "", INT64_MAX, 0xFFFF, 0xFFFF;
    }

    /** ImProbeDat(); slot and port are left to the caller. */
    constructor Blank()
      ensures enab && Undetected()
    {
      slot, port := 0, 0;
      enab := true;
      hssn, hsfw, sn, probeType, ip := UINT32_MAX, "", INT64_MAX, 0xFFFF, 0xFFFF;
    }

    /** ImProbeDat::init: the -1 assignments wrap to each unsigned type's maximum. */
    method Init()
      modifies this
      ensures Undetected()
      ensures slot == old(slot) && port == old(port) && enab == old(enab)
    {
      hssn := UINT32_MAX;
      hsfw := "";
      sn := INT64_MAX;
      probeType := 0xFFFF;
      ip := 0xFFFF;
    }

    /** ImProbeDat::operator<. */
    function Less(rhs: ImProbeDat): (r: bool)
      reads this, rhs
      ensures r <==> slot < rhs.slot || (slot == rhs.slot && port < rhs.port)
    {
      KeyLess(slot, port, rhs.slot, rhs.port)
    }

    function SaveText(): (row: string)
      reads this
      ensures ParseRow(row) == Some(RowValue(slot, port, enab))
    {
      RowRoundTrip(slot, port, enab);
      RowText(slot, port, enab)
    }

    /** ImProbeDat::load from the stored row text. */
    method Load(row: string) returns (ok: bool)
      modifies this
      ensures ok <==> ParseRow(row).Some?
      ensures ok ==> slot == ParseRow(row).value.slot && port == ParseRow(row).value.port
                     && enab == ParseRow(row).value.enab
      ensures hssn == old(hssn) && hsfw == old(hsfw) && sn == old(sn) && probeType == old(probeType) && ip == old(ip)
    {
      var sl := Split(row, Spaces);
      if |sl| < 3 {
        return false;
      }
      var s := FieldValue(sl[0]);
      if s.None? {
        return false;
      }
      slot := NarrowU16(s.value);
      var p := FieldValue(sl[1]);
      if p.None? {
        return false;
      }
      port := NarrowU16(p.value);
      var e := FieldValue(sl[2]);
      if e.None? {
        return false;
      }
      enab := e.value != 0;
      return true;
    }
  }

  /* ---------------------------------------------------------------- */
  /* ImProbeTable ---------------------------------------------------- */
  /* ---------------------------------------------------------------- */

  predicate StrictlyIncreasing(s: seq<int>)
  {
    forall i, j :: 0 <= i < j < |s| ==> s[i] < s[j]
  }

  /** QMap insertion of a key: the keys stay sorted and distinct. */
  function InsertKey(keys: seq<int>, k: int): (r: seq<int>)
    requires StrictlyIncreasing(keys)
    ensures StrictlyIncreasing(r)
    ensures forall x :: x in r <==> x in keys || x == k
  {
    if keys == [] then [k]
    else if k < keys[0] then [k] + keys
    else if k == keys[0] then keys
    else
      var rest := InsertKey(keys[1..], k);
      InsertKeyBehind(keys, k, rest);
      [keys[0]] + rest
  }

  lemma InsertKeyBehind(keys: seq<int>, k: int, rest: seq<int>)
    requires StrictlyIncreasing(keys) && keys != [] && keys[0] < k
    requires StrictlyIncreasing(rest) && forall x :: x in rest <==> x in keys[1..] || x == k
    ensures StrictlyIncreasing([keys[0]] + rest)
    ensures forall x :: x in [keys[0]] + rest <==> x in keys || x == k
  {
    assert keys == [keys[0]] + keys[1..];
    forall x | x in rest
      ensures keys[0] < x
    {
      if x != k {
        var j :| 0 <= j < |keys[1..]| && keys[1..][j] == x;
        assert keys[j + 1] == x;
      }
    }
    var r := [keys[0]] + rest;
    forall i, j | 0 <= i < j < |r|
      ensures r[i] < r[j]
    {
      if i == 0 {
        assert r[j] == rest[j - 1] && r[j] in rest;
      } else {
        assert r[i] == rest[i - 1] && r[j] == rest[j - 1];
      }
    }
  }

  class ImProbeTable {
    var probes: seq<ImProbeDat>
    var id2dat: seq<int>
    var slot: seq<int>
    var api: string

    constructor ()
      ensures probes == [] && id2dat == [] && slot == [] && api == ""
    {
      probes, id2dat, slot, api := [], [], [], "";
    }

    /** ImProbeTable::init: every probe back to "not detected", lists cleared. */
    method Init()
      modifies this, set p | p in probes
      ensures probes == old(probes)
      ensures forall i :: 0 <= i < |probes| ==> probes[i].Undetected()
      ensures forall i :: 0 <= i < |probes| ==>
        probes[i].slot == old(probes[i].slot) && probes[i].port == old(probes[i].port)
        && probes[i].enab == old(probes[i].enab)
      ensures id2dat == [] && slot == [] && api == ""
    {
      var n := |probes|;
      var i := 0;
      while i < n
        invariant 0 <= i <= n && probes == old(probes)
        invariant forall j :: 0 <= j < i ==> probes[j].Undetected()
        invariant forall j :: 0 <= j < n ==>
          probes[j].slot == old(probes[j].slot) && probes[j].port == old(probes[j].port)
          && probes[j].enab == old(probes[j].enab)
      {
        probes[i].Init();
        i := i + 1;
      }
      id2dat := [];
      slot := [];
      api := "";
    }

    /**
     * The reverse maps CimCfg::detect builds first: the indices of the
     * enabled probes in table order, and the distinct slots they use in
     * ascending order (the keys of a QMap).
     */
    method LocalLists() returns (locId2Dat: seq<int>, locSlot: seq<int>)
      ensures StrictlyIncreasing(locId2Dat)
      ensures forall i :: i in locId2Dat <==> 0 <= i < |probes| && probes[i].enab
      ensures StrictlyIncreasing(locSlot)
      ensures forall s :: s in locSlot <==> exists i :: 0 <= i < |probes| && probes[i].enab && probes[i].slot == s
    {
      var mapSlots: seq<int> := [];
      locId2Dat := [];
      var n := |probes|;
      var i := 0;
      while i < n
        invariant 0 <= i <= n
        invariant StrictlyIncreasing(locId2Dat)
        invariant forall j :: j in locId2Dat <==> 0 <= j < i && probes[j].enab
        invariant forall j :: j in locId2Dat ==> j < i
        invariant StrictlyIncreasing(mapSlots)
        invariant forall s :: s in mapSlots <==> exists j :: 0 <= j < i && probes[j].enab && probes[j].slot == s
      {
        var P := probes[i];
        if P.enab {
          assert forall a :: 0 <= a < |locId2Dat| ==> locId2Dat[a] in locId2Dat;
          locId2Dat := locId2Dat + [i];
          mapSlots := InsertKey(mapSlots, P.slot);
        }
        i := i + 1;
      }
      locSlot := [];
      var k := 0;
      while k < |mapSlots|
        invariant 0 <= k <= |mapSlots|
        invariant locSlot == mapSlots[..k]
      {
        locSlot := locSlot + [mapSlots[k]];
        k := k + 1;
      }
      assert mapSlots[..|mapSlots|] == mapSlots;
    }
  }

  /* ---------------------------------------------------------------- */
  /* CimCfg ---------------------------------------------------------- */
  /* ---------------------------------------------------------------- */

  class CimCfg {
    var each: seq<AttrEach>
    var nProbes: int
    var enabled: bool

    /** CimCfg(): one probe, disabled, one attribute record. */
    constructor ()
      ensures nProbes == 1 && !enabled
      ensures |each| == 1 && fresh(each[0])
    {
      var a := new AttrEach();
      each := [a];
      nProbes := 1;
      enabled := false;
    }
  }
}
