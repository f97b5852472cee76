/*
 * The NI-DAQ configuration's constants and accessors (CniCfg.h). The
 * second device's channel strings are stored as set, but read as empty
 * unless the configuration is in dual-device mode.
 */
module CniCfg {

  /** TermConfig: the terminal configurations, at the NI-DAQmx constants. */
  const TermDefault: int := -1
  const TermRSE: int := 10083
  const TermNRSE: int := 10078
  const TermDiff: int := 10106
  const TermPseudoDiff: int := 12529

  /** niTypeId: the channel types and the summary indices into niCumTypCnt. */
  const NiTypeMN: int := 0
  const NiTypeMA: int := 1
  const NiTypeXA: int := 2
  const NiTypeXD: int := 3
  const NiSumNeural: int := 0
  const NiSumAnalog: int := 2
  const NiSumAll: int := 3
  const NiNTypes: int := 4

  /**
   * The summary indices are the last type each summary covers: neural is
   * the multiplexed neural type, analog runs to the plain analog type and
   * all to the digital type, the last below niNTypes.
   */
  lemma SumIndicesAliasTypes()
    ensures NiSumNeural == NiTypeMN && NiSumAnalog == NiTypeXA && NiSumAll == NiTypeXD
    ensures NiSumAll == NiNTypes - 1
  {
  }

  class NiCfg {
    var isDualDevMode: bool
    var clockStr1: string
    var uiMNStr1: string
    var uiMAStr1: string
    var uiXAStr1: string
    var uiXDStr1: string
    var mnStr2: string
    var maStr2: string
    var xaStr2: string
    var xdStr2: string

    constructor()
      ensures !isDualDevMode && clockStr1 == ""
      ensures uiMNStr1 == "" && uiMAStr1 == "" && uiXAStr1 == "" && uiXDStr1 == ""
      ensures UiMNStr2Bare() == "" && UiMAStr2Bare() == "" && UiXAStr2Bare() == "" && UiXDStr2Bare() == ""
    {
      isDualDevMode := false;
      clockStr1 := "";
      uiMNStr1, uiMAStr1, uiXAStr1, uiXDStr1 := "", "", "", "";
      mnStr2, maStr2, xaStr2, xdStr2 := "", "", "", "";
    }

    method SetUIMNStr2(s: string)
      modifies this`mnStr2
      ensures UiMNStr2Bare() == s
      ensures UiMNStr2() == if isDualDevMode then s else ""
    {
      mnStr2 := s;
    }

    method SetUIMAStr2(s: string)
      modifies this`maStr2
      ensures UiMAStr2Bare() == s
      ensures UiMAStr2() == if isDualDevMode then s else ""
    {
      maStr2 := s;
    }

    method SetUIXAStr2(s: string)
      modifies this`xaStr2
      ensures UiXAStr2Bare() == s
      ensures UiXAStr2() == if isDualDevMode then s else ""
    {
      xaStr2 := s;
    }

    method SetUIXDStr2(s: string)
      modifies this`xdStr2
      ensures UiXDStr2Bare() == s
      ensures UiXDStr2() == if isDualDevMode then s else ""
    {
      xdStr2 := s;
    }

    /** The stored strings, whatever the mode. */
    function UiMNStr2Bare(): string reads this { mnStr2 }
    function UiMAStr2Bare(): string reads this { maStr2 }
    function UiXAStr2Bare(): string reads this { xaStr2 }
    function UiXDStr2Bare(): string reads this { xdStr2 }

    /** The second device's strings: as stored in dual-device mode, else empty. */
    function UiMNStr2(): (s: string)
      reads this
      ensures s == (if isDualDevMode then UiMNStr2Bare() else "")
    {
      if isDualDevMode then mnStr2 else ""
    }

    function UiMAStr2(): (s: string)
      reads this
      ensures s == (if isDualDevMode then UiMAStr2Bare() else "")
    {
      if isDualDevMode then maStr2 else ""
    }

    function UiXAStr2(): (s: string)
      reads this
      ensures s == (if isDualDevMode then UiXAStr2Bare() else "")
    {
      if isDualDevMode then xaStr2 else ""
    }

    function UiXDStr2(): (s: string)
      reads this
      ensures s == (if isDualDevMode then UiXDStr2Bare() else "")
    {
      if isDualDevMode then xdStr2 else ""
    }

    /** Multiplexing: some multiplexed channel string is in use. */
    predicate IsMuxingMode()
      reads this
    {
      uiMNStr1 != "" || uiMAStr1 != "" || UiMNStr2() != "" || UiMAStr2() != ""
    }

    /**
     * Multiplexing holds iff a first-device multiplexed string is set, or
     * the configuration is dual-device and a stored second-device one is;
     * a stored second-device string alone does not make a single-device
     * configuration multiplexed.
     */
    lemma MuxingMode()
      ensures IsMuxingMode() <==>
        uiMNStr1 != "" || uiMAStr1 != "" || (isDualDevMode && (UiMNStr2Bare() != "" || UiMAStr2Bare() != ""))
      ensures !isDualDevMode ==> (IsMuxingMode() <==> uiMNStr1 != "" || uiMAStr1 != "")
    {
    }

    predicate IsClock1Internal()
      reads this
    {
      clockStr1 == "Internal"
    }
  }
}
