/**
 * The filter side of the plugin's utilities: the settings snapshot read from the
 * parameter store, the coefficient producers, and the cut bank whose slots are
 * switched on by the slope. Coefficient values are symbolic: each one records
 * the design request it came from, so which slot holds which coefficients is
 * exact while the floating-point design itself stays outside the model.
 */
module Filters {

  /** The Slope enum, filled by static_cast from a raw parameter value. A cast
      of a value outside the four enumerators is undefined in C++, so the type
      is widened to int; from a store holding legal values only the four named
      values arrive. */
  type Slope = int

  const Slope_12: Slope := 0
  const Slope_24: Slope := 1
  const Slope_36: Slope := 2
  const Slope_48: Slope := 3

  /** ChainPositions: the three positions of a MonoChain. */
  const LowCut: nat := 0
  const Peak: nat := 1
  const HighCut: nat := 2
  const ChainLength: nat := 3

  /** A CutFilter is a chain of four IIR filters. */
  const CutSlots: nat := 4

  /** The settings snapshot (ChainSettings). */
  datatype ChainSettings = ChainSettings(
    peakFreq: real, peakGainInDecibels: real, peakQuality: real,
    lowCutFreq: real, highCutFreq: real,
    lowCutSlope: Slope, highCutSlope: Slope,
    lowCutBypassed: bool, peakBypassed: bool, highCutBypassed: bool)

  /** The coefficient set a filter slot holds, named by the design it came from. */
  datatype Coefficients =
    | Null
      // a null coefficient pointer
    | PassThrough
      // what a default-constructed IIR filter holds
    | PeakDesign(sampleRate: real, frequency: real, quality: real, gainInDecibels: real)
      // the peaking filter designed from these values (the gain converted from decibels)
    | HighPassSection(frequency: real, sampleRate: real, order: int, index: nat)
      // section `index` of a high-order Butterworth high-pass design
    | LowPassSection(frequency: real, sampleRate: real, order: int, index: nat)
      // section `index` of a high-order Butterworth low-pass design

  // ---------------------------------------------------------------------------
  // getChainSettings
  // ---------------------------------------------------------------------------

  /** The parameter store: raw parameter values by parameter ID. */
  type ParameterStore = map<string, real>

  const LowCutFreqId := "LowCut Freq"
  const HighCutFreqId := "HighCut Freq"
  const PeakFreqId := "Peak Freq"
  const PeakGainId := "Peak Gain"
  const PeakQualityId := "Peak Quality"
  const LowCutSlopeId := "LowCut Slope"
  const HighCutSlopeId := "HighCut Slope"
  const LowCutBypassedId := "LowCut Bypassed"
  const PeakBypassedId := "Peak Bypassed"
  const HighCutBypassedId := "HighCut Bypassed"
  const AnalyzerEnabledId := "Analyzer Enabled"

  /** The IDs getChainSettings reads. */
  const ChainSettingsIds: set<string> :=
    {LowCutFreqId, HighCutFreqId, PeakFreqId, PeakGainId, PeakQualityId,
     LowCutSlopeId, HighCutSlopeId, LowCutBypassedId, PeakBypassedId, HighCutBypassedId}

  /** A float-to-integer conversion: truncation toward zero. */
  function Trunc(x: real): (r: int)
    ensures 0.0 <= x ==> r as real <= x < r as real + 1.0
    ensures x < 0.0 ==> r as real - 1.0 < x <= r as real
  {
    if x >= 0.0 then x.Floor else -((-x).Floor)
  }

  /** getChainSettings: every field is read from the store once; the bypass
      flags are thresholded at 0.5 and the slopes are the raw choice values
      converted to Slope. */
  function GetChainSettings(apvts: ParameterStore): (s: ChainSettings)
    requires ChainSettingsIds <= apvts.Keys
    ensures s.lowCutBypassed <==> apvts[LowCutBypassedId] > 0.5
    ensures s.peakBypassed <==> apvts[PeakBypassedId] > 0.5
    ensures s.highCutBypassed <==> apvts[HighCutBypassedId] > 0.5
    ensures 0.0 <= apvts[LowCutSlopeId] ==>
              0 <= s.lowCutSlope && s.lowCutSlope as real <= apvts[LowCutSlopeId] < s.lowCutSlope as real + 1.0
    ensures 0.0 <= apvts[HighCutSlopeId] ==>
              0 <= s.highCutSlope && s.highCutSlope as real <= apvts[HighCutSlopeId] < s.highCutSlope as real + 1.0
    ensures s.lowCutFreq == apvts[LowCutFreqId] && s.highCutFreq == apvts[HighCutFreqId]
    ensures s.peakFreq == apvts[PeakFreqId] && s.peakGainInDecibels == apvts[PeakGainId]
    ensures s.peakQuality == apvts[PeakQualityId]
  {
    ChainSettings(
      peakFreq := apvts[PeakFreqId],
      peakGainInDecibels := apvts[PeakGainId],
      peakQuality := apvts[PeakQualityId],
      lowCutFreq := apvts[LowCutFreqId],
      highCutFreq := apvts[HighCutFreqId],
      lowCutSlope := Trunc(apvts[LowCutSlopeId]),
      highCutSlope := Trunc(apvts[HighCutSlopeId]),
      lowCutBypassed := apvts[LowCutBypassedId] > 0.5,
      peakBypassed := apvts[PeakBypassedId] > 0.5,
      highCutBypassed := apvts[HighCutBypassedId] > 0.5)
  }

  // ---------------------------------------------------------------------------
  // Coefficient producers
  // ---------------------------------------------------------------------------

  /** makePeakFilter: a peaking design at the host sample rate from the peak
      frequency, quality and gain; no other setting takes part. */
  function MakePeakFilter(s: ChainSettings, sampleRate: real): (r: Coefficients)
    ensures r.PeakDesign? && r.sampleRate == sampleRate
    ensures r.frequency == s.peakFreq && r.quality == s.peakQuality && r.gainInDecibels == s.peakGainInDecibels
  {
    PeakDesign(sampleRate, s.peakFreq, s.peakQuality, s.peakGainInDecibels)
  }

  /** The order handed to the Butterworth designer: (frequency + 1) * 2, converted
      to int. It depends on the cutoff frequency; the slope plays no part in it. */
  function CutOrder(frequency: real): (order: int)
    ensures frequency >= -1.0 ==> order as real <= (frequency + 1.0) * 2.0 < order as real + 1.0
  {
    Trunc((frequency + 1.0) * 2.0)
  }

  /** How many sections a high-order Butterworth design of this order has:
      one second-order section per two orders, plus a first-order one for an
      odd order. */
  function SectionCount(order: int): (n: nat)
    ensures order <= 0 ==> n == 0
    ensures order > 0 ==> order <= 2 * n <= order + 1
  {
    if order <= 0 then 0 else order / 2 + order % 2
  }

  /** makeLowCutFilter: a high-pass Butterworth design at the low-cut frequency,
      one section per entry. */
  function MakeLowCutFilter(s: ChainSettings, sampleRate: real): (r: seq<Coefficients>)
    ensures |r| == SectionCount(CutOrder(s.lowCutFreq))
    ensures forall i :: 0 <= i < |r| ==>
              r[i] == HighPassSection(s.lowCutFreq, sampleRate, CutOrder(s.lowCutFreq), i)
  {
    var order := CutOrder(s.lowCutFreq);
    seq(SectionCount(order), i requires 0 <= i => HighPassSection(s.lowCutFreq, sampleRate, order, i))
  }

  /** makeHighCutFilter: a low-pass Butterworth design at the high-cut frequency,
      one section per entry. */
  function MakeHighCutFilter(s: ChainSettings, sampleRate: real): (r: seq<Coefficients>)
    ensures |r| == SectionCount(CutOrder(s.highCutFreq))
    ensures forall i :: 0 <= i < |r| ==>
              r[i] == LowPassSection(s.highCutFreq, sampleRate, CutOrder(s.highCutFreq), i)
  {
    var order := CutOrder(s.highCutFreq);
    seq(SectionCount(order), i requires 0 <= i => LowPassSection(s.highCutFreq, sampleRate, order, i))
  }

  /** Two settings that agree on the peak frequency, gain and quality give the
      same peak design: the cut and bypass settings play no part in it. */
  lemma PeakDesignReadsOnlyPeakSettings(s: ChainSettings, t: ChainSettings, sampleRate: real)
    requires s.peakFreq == t.peakFreq && s.peakQuality == t.peakQuality
    requires s.peakGainInDecibels == t.peakGainInDecibels
    ensures MakePeakFilter(s, sampleRate) == MakePeakFilter(t, sampleRate)
  {
  }

  /** A design has a section for every one of the four slots exactly when its
      order is at least 7. */
  lemma SectionsCoverSlots(order: int)
    ensures SectionCount(order) >= CutSlots <==> order >= 7
  {
  }

  /** Every cutoff the parameters allow (20 Hz and up) asks for an order of at
      least 42, so neither producer leaves a slot of the bank without
      coefficients, whatever the slope. */
  lemma CutDesignCoversEverySlot(frequency: real)
    requires frequency >= 20.0
    ensures CutOrder(frequency) >= 42
    ensures SectionCount(CutOrder(frequency)) >= CutSlots
  {
    assert (frequency + 1.0) * 2.0 >= 42.0;
    SectionsCoverSlots(CutOrder(frequency));
  }

  // ---------------------------------------------------------------------------
  // The cut bank
  // ---------------------------------------------------------------------------

  /** The value of a cut bank: the coefficients and the bypass flag of each slot. */
  datatype CutState = CutState(coefficients: seq<Coefficients>, bypassed: seq<bool>)

  predicate CutShaped(c: CutState)
  {
    |c.coefficients| == CutSlots && |c.bypassed| == CutSlots
  }

  /** ReferenceCountedArray::operator[]: a null pointer outside the array. */
  function At(cs: seq<Coefficients>, i: int): Coefficients
  {
    if 0 <= i < |cs| then cs[i] else Null
  }

  /** The slots a slope switches on: 0 up to the slope for the four named slopes;
      none for any other value, which matches no case of the switch. */
  predicate Activates(slope: Slope, i: int)
  {
    Slope_12 <= slope <= Slope_48 && 0 <= i <= slope
  }

  /** The cut bank after updateCutFilter, stated slot by slot: an activated slot
      is switched on with the slot's designed coefficients; every other slot is
      bypassed and keeps the coefficients it had. */
  function CutUpdated(c: CutState, cutCoefficients: seq<Coefficients>, slope: Slope): (r: CutState)
    requires CutShaped(c)
    ensures CutShaped(r)
  {
    CutState(
      seq(CutSlots, i requires 0 <= i < CutSlots =>
            if Activates(slope, i) then At(cutCoefficients, i) else c.coefficients[i]),
      seq(CutSlots, i => !Activates(slope, i)))
  }

  /** The number of slots that are switched on. */
  function ActiveCount(bypassed: seq<bool>): nat
  {
    if bypassed == [] then 0
    else ActiveCount(bypassed[..|bypassed| - 1]) + (if bypassed[|bypassed| - 1] then 0 else 1)
  }

  /** A bank's active count, slot by slot. */
  lemma ActiveCountOfBank(b: seq<bool>)
    requires |b| == CutSlots
    ensures ActiveCount(b) == (if b[0] then 0 else 1) + (if b[1] then 0 else 1) +
                              (if b[2] then 0 else 1) + (if b[3] then 0 else 1)
  {
    var b1, b2, b3 := b[..1], b[..2], b[..3];
    assert b3[..2] == b2 && b2[..1] == b1 && b1[..0] == [];
    assert ActiveCount(b1) == (if b[0] then 0 else 1);
    assert ActiveCount(b2) == ActiveCount(b1) + (if b[1] then 0 else 1);
    assert ActiveCount(b3) == ActiveCount(b2) + (if b[2] then 0 else 1);
  }

  /** Slope_12 leaves one slot active and Slope_48 four: a named slope k switches
      on k + 1 slots, and any other value none. */
  lemma ActiveSlotsFollowSlope(c: CutState, cutCoefficients: seq<Coefficients>, slope: Slope)
    requires CutShaped(c)
    ensures ActiveCount(CutUpdated(c, cutCoefficients, slope).bypassed) ==
            if Slope_12 <= slope <= Slope_48 then slope + 1 else 0
  {
    var b := CutUpdated(c, cutCoefficients, slope).bypassed;
    ActiveCountOfBank(b);
    if slope == Slope_12 {
      assert b == [false, true, true, true];
    } else if slope == Slope_24 {
      assert b == [false, false, true, true];
    } else if slope == Slope_36 {
      assert b == [false, false, false, true];
    } else if slope == Slope_48 {
      assert b == [false, false, false, false];
    } else {
      assert b == [true, true, true, true];
    }
  }

  /** Calling updateCutFilter a second time with the same arguments changes nothing. */
  lemma CutUpdateIdempotent(c: CutState, cutCoefficients: seq<Coefficients>, slope: Slope)
    requires CutShaped(c)
    ensures CutUpdated(CutUpdated(c, cutCoefficients, slope), cutCoefficients, slope) ==
            CutUpdated(c, cutCoefficients, slope)
  {
    var once := CutUpdated(c, cutCoefficients, slope);
    var twice := CutUpdated(once, cutCoefficients, slope);
    assert twice.coefficients == once.coefficients;
    assert twice.bypassed == once.bypassed;
  }

  /** updateCutFilter: bypass all four slots, then enter the switch at the case
      for the slope and fall through every case below it, each case giving its
      slot the designed coefficients and switching it on. The bank is handed in
      by value and the updated bank is returned; the caller stores it back into
      its chain. */
  method UpdateCutFilter(cut: CutState, cutCoefficients: seq<Coefficients>, slope: Slope)
    returns (updated: CutState)
    requires CutShaped(cut)
    ensures updated == CutUpdated(cut, cutCoefficients, slope)
    ensures CutShaped(updated)
    ensures forall i :: 0 <= i < CutSlots ==>
              (!updated.bypassed[i] <==> Slope_12 <= slope <= Slope_48 && i <= slope)
    ensures forall i :: 0 <= i < CutSlots && !updated.bypassed[i] ==>
              updated.coefficients[i] == At(cutCoefficients, i)
    ensures forall i :: 0 <= i < CutSlots && updated.bypassed[i] ==>
              updated.coefficients[i] == cut.coefficients[i]
  {
    var coefficients, bypassed := cut.coefficients, cut.bypassed;
    bypassed := bypassed[0 := true];
    bypassed := bypassed[1 := true];
    bypassed := bypassed[2 := true];
    bypassed := bypassed[3 := true];

    // Entering at `case Slope_k` runs that case and every case after it.
    if slope == Slope_48 {
      coefficients := coefficients[3 := At(cutCoefficients, 3)];
      bypassed := bypassed[3 := false];
    }
    if Slope_36 <= slope <= Slope_48 {
      coefficients := coefficients[2 := At(cutCoefficients, 2)];
      bypassed := bypassed[2 := false];
    }
    if Slope_24 <= slope <= Slope_48 {
      coefficients := coefficients[1 := At(cutCoefficients, 1)];
      bypassed := bypassed[1 := false];
    }
    if Slope_12 <= slope <= Slope_48 {
      coefficients := coefficients[0 := At(cutCoefficients, 0)];
      bypassed := bypassed[0 := false];
    }
    updated := CutState(coefficients, bypassed);
  }

  // ---------------------------------------------------------------------------
  // updateCoefficients
  // ---------------------------------------------------------------------------

  /** An IIR::Coefficients object on the heap; a filter's coefficient pointer
      refers to one. */
  class CoefficientsObject {
    var value: Coefficients

    constructor (v: Coefficients)
      ensures value == v
    {
      value := v;
    }
  }

  /** updateCoefficients: the object the first pointer refers to is overwritten
      with the value of the object the second refers to. The pointer itself is
      not reseated, so whoever shares the target sees the new value, and the
      replacement object is left as it was. */
  method UpdateCoefficients(target: CoefficientsObject, replacements: CoefficientsObject)
    modifies target
    ensures target.value == old(replacements.value)
    ensures target != replacements ==> replacements.value == old(replacements.value)
  {
    target.value := replacements.value;
  }

  // ---------------------------------------------------------------------------
  // MonoChain
  // ---------------------------------------------------------------------------

  /** The internal state of a chain's IIR filters (their delay lines), which
      every pass over a block advances. What it holds is library code; it is
      threaded through the passes, never inspected. */
  type FilterMemory = seq<real>

  /** The value of a MonoChain: low-cut bank, peak filter, high-cut bank, and
      the bypass flag of each of the three chain positions. */
  datatype ChainState = ChainState(lowCut: CutState, peak: Coefficients, highCut: CutState, bypassed: seq<bool>)

  predicate ChainShaped(c: ChainState)
  {
    CutShaped(c.lowCut) && CutShaped(c.highCut) && |c.bypassed| == ChainLength
  }

  /** MonoChain = ProcessorChain<CutFilter, Filter, CutFilter>. Its filters are
      members held by value: the two cut banks, the peak filter with the
      coefficient object it points to, and the bypass flag of each position
      (indexed by ChainPositions). */
  class MonoChain {
    var lowCut: CutState
    /** The coefficient object of the peak filter; updateCoefficients writes
        through it. */
    const peak: CoefficientsObject
    var highCut: CutState
    var bypassed: seq<bool>
    /** The filters' internal state; not part of the chain's configuration. */
    var memory: FilterMemory

    function Value(): ChainState
      reads this, peak
    {
      ChainState(lowCut, peak.value, highCut, bypassed)
    }

    ghost predicate Valid()
      reads this, peak
    {
      ChainShaped(Value())
    }

    /** A default-constructed chain: every filter passes audio through and no
        position or slot is bypassed. */
    constructor ()
      ensures Valid() && fresh(peak) && Value() == DefaultChain() && memory == []
    {
      var cut := CutState(seq(CutSlots, _ => PassThrough), seq(CutSlots, _ => false));
      lowCut, highCut := cut, cut;
      peak := new CoefficientsObject(PassThrough);
      bypassed := seq(ChainLength, _ => false);
      memory := [];
    }

    /** prepare: every filter is reset, clearing its internal state; the
        configuration is kept. */
    method Prepare()
      modifies this`memory
      ensures Value() == old(Value()) && memory == []
    {
      memory := [];
    }

    /** setBypassed<position>: only that position's flag changes. */
    method SetBypassed(position: nat, b: bool)
      requires Valid() && position < ChainLength
      modifies this
      ensures Valid()
      ensures Value() == old(Value()).(bypassed := old(bypassed)[position := b])
      ensures memory == old(memory)
    {
      bypassed := bypassed[position := b];
    }
  }

  function DefaultChain(): (c: ChainState)
    ensures ChainShaped(c)
  {
    var cut := CutState(seq(CutSlots, _ => PassThrough), seq(CutSlots, _ => false));
    ChainState(cut, PassThrough, cut, seq(ChainLength, _ => false))
  }
}
