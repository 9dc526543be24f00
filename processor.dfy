/**
 * The audio processor: its parameter layout, its bus-layout validator, the
 * per-block filter update that configures both channel chains from one settings
 * snapshot, and processBlock's order of work (clear surplus outputs, update the
 * filters, run each chain twice, feed both relays).
 */
module Processor {
  import opened Relay
  import opened Filters

  // ---------------------------------------------------------------------------
  // createParameterLayout
  // ---------------------------------------------------------------------------

  /** NormalisableRange(start, end, interval, skew). */
  datatype NormalisableRange = NormalisableRange(start: real, end: real, interval: real, skew: real)

  datatype Parameter =
    | FloatParameter(id: string, name: string, range: NormalisableRange, defaultValue: real)
    | ChoiceParameter(id: string, name: string, choices: seq<string>, defaultIndex: nat)
    | BoolParameter(id: string, name: string, defaultBool: bool)

  function DigitChar(d: nat): char
    requires d < 10
  {
    ('0' as int + d) as char
  }

  function DigitValue(c: char): nat
  {
    if '0' <= c <= '9' then (c as int - '0' as int) as nat else 0
  }

  /** String's operator<< for an int: its decimal digits, most significant first. */
  function DecimalDigits(n: nat): (s: string)
    ensures s != [] && forall k :: 0 <= k < |s| ==> '0' <= s[k] <= '9'
  {
    if n < 10 then [DigitChar(n)] else DecimalDigits(n / 10) + [DigitChar(n % 10)]
  }

  /** Reading a string of decimal digits back as a number. */
  function DecimalValue(s: string): nat
  {
    if s == [] then 0 else 10 * DecimalValue(s[..|s| - 1]) + DigitValue(s[|s| - 1])
  }

  lemma {:induction false} DecimalDigitsRoundTrip(n: nat)
    ensures DecimalValue(DecimalDigits(n)) == n
  {
    var s := DecimalDigits(n);
    if n < 10 {
      assert s[..|s| - 1] == [];
    } else {
      DecimalDigitsRoundTrip(n / 10);
      assert s[..|s| - 1] == DecimalDigits(n / 10);
    }
  }

  /** The label of slope choice i: 12 + 12 i followed by " db/Oct". */
  function SlopeLabel(i: nat): string
  {
    DecimalDigits(12 + i * 12) + " db/Oct"
  }

  lemma TwoDigits(n: nat)
    requires 10 <= n < 100
    ensures DecimalDigits(n) == [DigitChar(n / 10), DigitChar(n % 10)]
  {
  }

  /** The slope choices as the layout lists them. */
  const SlopeChoices: seq<string> := ["12 db/Oct", "24 db/Oct", "36 db/Oct", "48 db/Oct"]

  /** The label built for choice i is the i-th slope choice. */
  lemma SlopeLabelSpelledOut(i: nat)
    requires i < 4
    ensures SlopeLabel(i) == SlopeChoices[i]
  {
    var n := 12 + i * 12;
    TwoDigits(n);
    var spelled := [DigitChar(n / 10), DigitChar(n % 10)] + " db/Oct";
    assert SlopeLabel(i) == spelled;
    if i == 0 {
      assert n / 10 == 1 && n % 10 == 2;
    } else if i == 1 {
      assert n / 10 == 2 && n % 10 == 4;
    } else if i == 2 {
      assert n / 10 == 3 && n % 10 == 6;
    } else {
      assert n / 10 == 4 && n % 10 == 8;
    }
  }

  const FrequencyRange := NormalisableRange(20.0, 20000.0, 1.0, 0.25)

  /** The parameter layout, as written out in createParameterLayout. */
  const Layout: seq<Parameter> := [
    FloatParameter(LowCutFreqId, LowCutFreqId, FrequencyRange, 20.0),
    FloatParameter(HighCutFreqId, HighCutFreqId, FrequencyRange, 20000.0),
    FloatParameter(PeakFreqId, PeakFreqId, FrequencyRange, 750.0),
    FloatParameter(PeakGainId, PeakGainId, NormalisableRange(-24.0, 24.0, 0.5, 1.0), 0.0),
    FloatParameter(PeakQualityId, PeakQualityId, NormalisableRange(0.1, 10.0, 0.05, 1.0), 1.0),
    ChoiceParameter(LowCutSlopeId, LowCutSlopeId, SlopeChoices, 0),
    ChoiceParameter(HighCutSlopeId, HighCutSlopeId, SlopeChoices, 0),
    BoolParameter(LowCutBypassedId, LowCutBypassedId, false),
    BoolParameter(PeakBypassedId, PeakBypassedId, false),
    BoolParameter(HighCutBypassedId, HighCutBypassedId, false),
    BoolParameter(AnalyzerEnabledId, AnalyzerEnabledId, true)
  ]

  /** createParameterLayout: the slope labels are built in a loop over the four
      choices; the parameters are added in the order above. */
  method CreateParameterLayout() returns (layout: seq<Parameter>)
    ensures layout == Layout
  {
    var stringArray: seq<string> := [];
    for i := 0 to 4
      invariant stringArray == seq(i, k requires 0 <= k => SlopeLabel(k))
    {
      var str := DecimalDigits(12 + i * 12);
      str := str + " db/Oct";
      stringArray := stringArray + [str];
    }
    SlopeLabelSpelledOut(0);
    SlopeLabelSpelledOut(1);
    SlopeLabelSpelledOut(2);
    SlopeLabelSpelledOut(3);
    assert stringArray == SlopeChoices;
    layout := [
      FloatParameter(LowCutFreqId, LowCutFreqId, NormalisableRange(20.0, 20000.0, 1.0, 0.25), 20.0),
      FloatParameter(HighCutFreqId, HighCutFreqId, NormalisableRange(20.0, 20000.0, 1.0, 0.25), 20000.0),
      FloatParameter(PeakFreqId, PeakFreqId, NormalisableRange(20.0, 20000.0, 1.0, 0.25), 750.0),
      FloatParameter(PeakGainId, PeakGainId, NormalisableRange(-24.0, 24.0, 0.5, 1.0), 0.0),
      FloatParameter(PeakQualityId, PeakQualityId, NormalisableRange(0.1, 10.0, 0.05, 1.0), 1.0),
      ChoiceParameter(LowCutSlopeId, LowCutSlopeId, stringArray, 0),
      ChoiceParameter(HighCutSlopeId, HighCutSlopeId, stringArray, 0),
      BoolParameter(LowCutBypassedId, LowCutBypassedId, false),
      BoolParameter(PeakBypassedId, PeakBypassedId, false),
      BoolParameter(HighCutBypassedId, HighCutBypassedId, false),
      BoolParameter(AnalyzerEnabledId, AnalyzerEnabledId, true)
    ];
  }

  predicate DistinctIds(layout: seq<Parameter>)
  {
    forall i, j :: 0 <= i < j < |layout| ==> layout[i].id != layout[j].id
  }

  /** The raw value a parameter starts at: a float its default, a choice its
      default index, a bool 1 or 0. */
  function RawDefault(p: Parameter): real
  {
    match p
    case FloatParameter(_, _, _, v) => v
    case ChoiceParameter(_, _, _, k) => k as real
    case BoolParameter(_, _, b) => if b then 1.0 else 0.0
  }

  /** A raw value a parameter can hold: within a float's range, an index of a
      choice, 0 or 1 for a bool. */
  predicate LegalValue(p: Parameter, v: real)
  {
    match p
    case FloatParameter(_, _, r, _) => r.start <= v <= r.end
    case ChoiceParameter(_, _, choices, _) => v == v.Floor as real && 0 <= v.Floor < |choices|
    case BoolParameter(_, _, _) => v == 0.0 || v == 1.0
  }

  /** The parameter store a layout starts with: each parameter's ID mapped to
      its raw default. */
  function DefaultStore(layout: seq<Parameter>): ParameterStore
  {
    if layout == [] then map[]
    else
      var last := layout[|layout| - 1];
      DefaultStore(layout[..|layout| - 1])[last.id := RawDefault(last)]
  }

  /** In a layout that declares each ID once, the store starts every parameter
      at its own default. */
  lemma {:induction false} DefaultStoreLookup(layout: seq<Parameter>, i: nat)
    requires DistinctIds(layout) && i < |layout|
    ensures layout[i].id in DefaultStore(layout)
    ensures DefaultStore(layout)[layout[i].id] == RawDefault(layout[i])
  {
    var init := layout[..|layout| - 1];
    if i < |layout| - 1 {
      assert init[i] == layout[i];
      DefaultStoreLookup(init, i);
    }
  }

  /** A store whose every parameter of the layout holds a legal value. */
  predicate LegalStore(layout: seq<Parameter>, store: ParameterStore)
  {
    forall i :: 0 <= i < |layout| ==> layout[i].id in store && LegalValue(layout[i], store[layout[i].id])
  }

  /** The IDs of the layout, in order. */
  lemma LayoutIds()
    ensures |Layout| == 11
    ensures Layout[0].id == LowCutFreqId && Layout[1].id == HighCutFreqId && Layout[2].id == PeakFreqId
    ensures Layout[3].id == PeakGainId && Layout[4].id == PeakQualityId
    ensures Layout[5].id == LowCutSlopeId && Layout[6].id == HighCutSlopeId
    ensures Layout[7].id == LowCutBypassedId && Layout[8].id == PeakBypassedId
    ensures Layout[9].id == HighCutBypassedId && Layout[10].id == AnalyzerEnabledId
  {
  }

  /** The layout declares each parameter once, and declares exactly the
      parameters getChainSettings reads plus the analyzer switch. */
  lemma LayoutDeclaresEachParameterOnce()
    ensures DistinctIds(Layout)
    ensures (set i | 0 <= i < |Layout| :: Layout[i].id) == ChainSettingsIds + {AnalyzerEnabledId}
  {
    LayoutIds();
  }

  /** Every parameter's default is a legal value for it. */
  lemma DefaultsAreLegal()
    ensures forall i :: 0 <= i < |Layout| ==> LegalValue(Layout[i], RawDefault(Layout[i]))
  {
    forall i | 0 <= i < |Layout|
      ensures LegalValue(Layout[i], RawDefault(Layout[i]))
    {
      if i < 5 {
        assert Layout[i].FloatParameter?;
      } else if i < 7 {
        assert Layout[i].ChoiceParameter? && |Layout[i].choices| == 4 && Layout[i].defaultIndex == 0;
      } else {
        assert Layout[i].BoolParameter?;
      }
    }
  }

  /** The raw values a freshly created store holds, ID by ID. */
  lemma DefaultStoreValues()
    ensures DistinctIds(Layout)
    ensures var store := DefaultStore(Layout);
      ChainSettingsIds + {AnalyzerEnabledId} <= store.Keys &&
      store[LowCutFreqId] == 20.0 && store[HighCutFreqId] == 20000.0 && store[PeakFreqId] == 750.0 &&
      store[PeakGainId] == 0.0 && store[PeakQualityId] == 1.0 &&
      store[LowCutSlopeId] == 0.0 && store[HighCutSlopeId] == 0.0 &&
      store[LowCutBypassedId] == 0.0 && store[PeakBypassedId] == 0.0 &&
      store[HighCutBypassedId] == 0.0 && store[AnalyzerEnabledId] == 1.0
  {
    LayoutDeclaresEachParameterOnce();
    LayoutIds();
    DefaultStoreLookup(Layout, 0);
    DefaultStoreLookup(Layout, 1);
    DefaultStoreLookup(Layout, 2);
    DefaultStoreLookup(Layout, 3);
    DefaultStoreLookup(Layout, 4);
    DefaultStoreLookup(Layout, 5);
    DefaultStoreLookup(Layout, 6);
    DefaultStoreLookup(Layout, 7);
    DefaultStoreLookup(Layout, 8);
    DefaultStoreLookup(Layout, 9);
    DefaultStoreLookup(Layout, 10);
  }

  /** A freshly created store holds legal values, and the settings read from it
      are: peak 750 Hz, 0 dB, quality 1; low cut 20 Hz and high cut 20 kHz, both
      at 12 dB/Oct; nothing bypassed; the analyzer enabled. */
  lemma DefaultSettings()
    ensures DistinctIds(Layout)
    ensures LegalStore(Layout, DefaultStore(Layout))
    ensures ChainSettingsIds <= DefaultStore(Layout).Keys
    ensures GetChainSettings(DefaultStore(Layout)) ==
            ChainSettings(750.0, 0.0, 1.0, 20.0, 20000.0, Slope_12, Slope_12, false, false, false)
    ensures AnalyzerEnabledId in DefaultStore(Layout) && DefaultStore(Layout)[AnalyzerEnabledId] == 1.0
  {
    DefaultStoreValues();
    DefaultsAreLegal();
  }

  /** A freshly created store holds every value getChainSettings reads. */
  lemma DefaultStoreKeys()
    ensures ChainSettingsIds <= DefaultStore(Layout).Keys
  {
    DefaultStoreValues();
  }

  /** The settings read from any legal store: the slopes are named slopes, the
      frequencies lie in 20 Hz .. 20 kHz, gain and quality in their ranges, and
      each bypass flag is set exactly when its switch holds 1. */
  lemma SettingsFromLegalStore(store: ParameterStore)
    requires LegalStore(Layout, store)
    ensures ChainSettingsIds <= store.Keys
    ensures var s := GetChainSettings(store);
      Slope_12 <= s.lowCutSlope <= Slope_48 && Slope_12 <= s.highCutSlope <= Slope_48 &&
      20.0 <= s.lowCutFreq <= 20000.0 && 20.0 <= s.highCutFreq <= 20000.0 &&
      20.0 <= s.peakFreq <= 20000.0 && -24.0 <= s.peakGainInDecibels <= 24.0 &&
      0.1 <= s.peakQuality <= 10.0 &&
      (s.lowCutBypassed <==> store[LowCutBypassedId] == 1.0) &&
      (s.peakBypassed <==> store[PeakBypassedId] == 1.0) &&
      (s.highCutBypassed <==> store[HighCutBypassedId] == 1.0)
  {
    assert LegalValue(Layout[0], store[LowCutFreqId]);
    assert LegalValue(Layout[1], store[HighCutFreqId]);
    assert LegalValue(Layout[2], store[PeakFreqId]);
    assert LegalValue(Layout[3], store[PeakGainId]);
    assert LegalValue(Layout[4], store[PeakQualityId]);
    assert LegalValue(Layout[5], store[LowCutSlopeId]);
    assert LegalValue(Layout[6], store[HighCutSlopeId]);
    assert LegalValue(Layout[7], store[LowCutBypassedId]);
    assert LegalValue(Layout[8], store[PeakBypassedId]);
    assert LegalValue(Layout[9], store[HighCutBypassedId]);
  }

  // ---------------------------------------------------------------------------
  // isBusesLayoutSupported
  // ---------------------------------------------------------------------------

  /** AudioChannelSet: the set of channel types it holds. Two sets are equal
      when they hold the same types. */
  datatype ChannelSet = ChannelSet(types: set<nat>)

  const LeftSpeaker: nat := 1
  const RightSpeaker: nat := 2
  const CentreSpeaker: nat := 3

  const Mono := ChannelSet({CentreSpeaker})
  const Stereo := ChannelSet({LeftSpeaker, RightSpeaker})

  function Size(c: ChannelSet): nat
  {
    |c.types|
  }

  datatype BusesLayout = BusesLayout(mainInput: ChannelSet, mainOutput: ChannelSet)

  /** isBusesLayoutSupported, under the build's MIDI-effect and synth switches. */
  function IsBusesLayoutSupported(layout: BusesLayout, isMidiEffect: bool, isSynth: bool): (ok: bool)
    ensures ok <==> isMidiEffect ||
                    ((layout.mainOutput == Mono || layout.mainOutput == Stereo) &&
                     (isSynth || layout.mainInput == layout.mainOutput))
  {
    if isMidiEffect then true
    else if layout.mainOutput != Mono && layout.mainOutput != Stereo then false
    else if !isSynth && layout.mainOutput != layout.mainInput then false
    else true
  }

  /** For an effect (neither MIDI effect nor synth), a layout is supported exactly
      when the output is mono or stereo and the input is the same set. */
  lemma EffectLayoutSupportedIff(layout: BusesLayout)
    ensures IsBusesLayoutSupported(layout, false, false) <==>
            (layout.mainOutput == Mono || layout.mainOutput == Stereo) &&
            layout.mainInput == layout.mainOutput
  {
  }

  /** A supported effect layout has as many inputs as outputs, one or two of
      them, so processBlock's clearing loop has nothing to clear. */
  lemma SupportedEffectLayoutClearsNothing(layout: BusesLayout, buffer: seq<seq<Sample>>)
    requires IsBusesLayoutSupported(layout, false, false)
    ensures Size(layout.mainInput) == Size(layout.mainOutput)
    ensures 1 <= Size(layout.mainOutput) <= 2
    ensures Cleared(buffer, Size(layout.mainInput), Size(layout.mainOutput)) == buffer
  {
    assert |{CentreSpeaker}| == 1;
    assert |{LeftSpeaker, RightSpeaker}| == 2;
  }

  /** The mono layout passes the check, yet processBlock reads channel 1: a
      block with a single channel has no channel 1. */
  lemma MonoLayoutAcceptedWithOneChannel()
    ensures IsBusesLayoutSupported(BusesLayout(Mono, Mono), false, false)
    ensures Size(Mono) == 1 < 2
  {
    assert |{CentreSpeaker}| == 1;
  }

  /** The check processBlock needs: the stereo layout only. */
  function IsBusesLayoutSupportedStereo(layout: BusesLayout, isMidiEffect: bool, isSynth: bool): bool
  {
    if isMidiEffect then true
    else if layout.mainOutput != Stereo then false
    else if !isSynth && layout.mainOutput != layout.mainInput then false
    else true
  }

  /** Every effect layout the stereo check accepts gives processBlock two input
      and two output channels, and each such layout is one IsBusesLayoutSupported
      accepts as well. */
  lemma StereoCheckGivesTwoChannels(layout: BusesLayout)
    requires IsBusesLayoutSupportedStereo(layout, false, false)
    ensures Size(layout.mainInput) == 2 && Size(layout.mainOutput) == 2
    ensures IsBusesLayoutSupported(layout, false, false)
  {
    assert |{LeftSpeaker, RightSpeaker}| == 2;
  }

  // ---------------------------------------------------------------------------
  // The filter update
  // ---------------------------------------------------------------------------

  /** A chain after updatePeakFilter. */
  function PeakUpdated(c: ChainState, s: ChainSettings, sampleRate: real): (r: ChainState)
    requires ChainShaped(c)
    ensures ChainShaped(r)
  {
    c.(peak := MakePeakFilter(s, sampleRate), bypassed := c.bypassed[Peak := s.peakBypassed])
  }

  /** A chain after updateLowCutFilters. */
  function LowCutUpdated(c: ChainState, s: ChainSettings, sampleRate: real): (r: ChainState)
    requires ChainShaped(c)
    ensures ChainShaped(r)
  {
    c.(lowCut := CutUpdated(c.lowCut, MakeLowCutFilter(s, sampleRate), s.lowCutSlope),
       bypassed := c.bypassed[LowCut := s.lowCutBypassed])
  }

  /** A chain after updateHighCutFilters. */
  function HighCutUpdated(c: ChainState, s: ChainSettings, sampleRate: real): (r: ChainState)
    requires ChainShaped(c)
    ensures ChainShaped(r)
  {
    c.(highCut := CutUpdated(c.highCut, MakeHighCutFilter(s, sampleRate), s.highCutSlope),
       bypassed := c.bypassed[HighCut := s.highCutBypassed])
  }

  /** A chain after updateFilters: peak, then low cut, then high cut. */
  function FiltersUpdated(c: ChainState, s: ChainSettings, sampleRate: real): (r: ChainState)
    requires ChainShaped(c)
    ensures ChainShaped(r)
  {
    HighCutUpdated(LowCutUpdated(PeakUpdated(c, s, sampleRate), s, sampleRate), s, sampleRate)
  }

  /** No helper undoes another's work: after updateFilters every position's
      bypass flag is its setting, the peak holds the peak design and each cut
      bank is its own bank updated from its design and slope. */
  lemma FiltersFollowSettings(c: ChainState, s: ChainSettings, sampleRate: real)
    requires ChainShaped(c)
    ensures var r := FiltersUpdated(c, s, sampleRate);
      r.bypassed == [s.lowCutBypassed, s.peakBypassed, s.highCutBypassed] &&
      r.peak == MakePeakFilter(s, sampleRate) &&
      r.lowCut == CutUpdated(c.lowCut, MakeLowCutFilter(s, sampleRate), s.lowCutSlope) &&
      r.highCut == CutUpdated(c.highCut, MakeHighCutFilter(s, sampleRate), s.highCutSlope)
  {
  }

  /** Running updateFilters again with the same settings changes nothing. */
  lemma FiltersUpdateIdempotent(c: ChainState, s: ChainSettings, sampleRate: real)
    requires ChainShaped(c)
    ensures FiltersUpdated(FiltersUpdated(c, s, sampleRate), s, sampleRate) == FiltersUpdated(c, s, sampleRate)
  {
    CutUpdateIdempotent(c.lowCut, MakeLowCutFilter(s, sampleRate), s.lowCutSlope);
    CutUpdateIdempotent(c.highCut, MakeHighCutFilter(s, sampleRate), s.highCutSlope);
  }

  /** From a legal store, each cut bank has one to four active slots, as many as
      its slope names, and every active slot holds section i of its own design:
      none is left without coefficients. */
  lemma LegalStoreActivatesDesignedSlots(c: ChainState, store: ParameterStore, sampleRate: real, i: nat)
    requires ChainShaped(c) && LegalStore(Layout, store) && i < CutSlots
    requires ChainSettingsIds <= store.Keys
    ensures var s := GetChainSettings(store);
      var r := FiltersUpdated(c, s, sampleRate);
      ActiveCount(r.lowCut.bypassed) == s.lowCutSlope + 1 &&
      ActiveCount(r.highCut.bypassed) == s.highCutSlope + 1 &&
      (!r.lowCut.bypassed[i] <==> i <= s.lowCutSlope) &&
      (!r.highCut.bypassed[i] <==> i <= s.highCutSlope) &&
      (!r.lowCut.bypassed[i] ==>
         r.lowCut.coefficients[i] == HighPassSection(s.lowCutFreq, sampleRate, CutOrder(s.lowCutFreq), i)) &&
      (!r.highCut.bypassed[i] ==>
         r.highCut.coefficients[i] == LowPassSection(s.highCutFreq, sampleRate, CutOrder(s.highCutFreq), i))
  {
    var s := GetChainSettings(store);
    SettingsFromLegalStore(store);
    CutDesignCoversEverySlot(s.lowCutFreq);
    CutDesignCoversEverySlot(s.highCutFreq);
    ActiveSlotsFollowSlope(PeakUpdated(c, s, sampleRate).lowCut, MakeLowCutFilter(s, sampleRate), s.lowCutSlope);
    ActiveSlotsFollowSlope(c.highCut, MakeHighCutFilter(s, sampleRate), s.highCutSlope);
  }

  // ---------------------------------------------------------------------------
  // processBlock's channel clearing
  // ---------------------------------------------------------------------------

  /** The buffer with the channels numIn .. numOut-1 silenced and the others as they were. */
  function Cleared(buffer: seq<seq<Sample>>, numIn: nat, numOut: nat): (r: seq<seq<Sample>>)
    ensures |r| == |buffer|
    ensures forall ch :: 0 <= ch < |buffer| ==> |r[ch]| == |buffer[ch]|
  {
    seq(|buffer|, ch requires 0 <= ch < |buffer| =>
          if numIn <= ch < numOut then Zeros(|buffer[ch]|) else buffer[ch])
  }

  /** With no more outputs than inputs, nothing is cleared. */
  lemma ClearingEmptyRange(buffer: seq<seq<Sample>>, numIn: nat, numOut: nat)
    requires numOut <= numIn
    ensures Cleared(buffer, numIn, numOut) == buffer
  {
  }

  /** The clearing loop at the top of processBlock. */
  method ClearSurplusOutputs(buffer: array<seq<Sample>>, numIn: nat, numOut: nat)
    requires numOut <= buffer.Length
    modifies buffer
    ensures buffer[..] == Cleared(old(buffer[..]), numIn, numOut)
  {
    var i := numIn;
    while i < numOut
      invariant numIn <= i && (i <= numOut || i == numIn)
      invariant buffer[..] == Cleared(old(buffer[..]), numIn, i)
    {
      buffer[i] := Zeros(|buffer[i]|);
      i := i + 1;
    }
    if i == numIn {
      ClearingEmptyRange(old(buffer[..]), numIn, i);
      ClearingEmptyRange(old(buffer[..]), numIn, numOut);
    }
  }

  // ---------------------------------------------------------------------------
  // The processor
  // ---------------------------------------------------------------------------

  /** ProcessorChain::process on a replacing context: one pass of a chain with
      this configuration over one channel, starting from the filters' internal
      state. It gives the new internal state and the processed samples. The
      per-sample filter arithmetic stays abstract. */
  type ChainProcess = (ChainState, FilterMemory, seq<Sample>) -> (FilterMemory, seq<Sample>)

  /** A replacing context processes a block in place: it keeps its sample count. */
  ghost predicate KeepsSampleCount(process: ChainProcess)
  {
    forall c, m, x :: |process(c, m, x).1| == |x|
  }

  /** Two passes of the same chain over one channel, the second starting from
      the internal state the first one left. */
  function TwoPasses(process: ChainProcess, c: ChainState, m: FilterMemory, x: seq<Sample>): (r: (FilterMemory, seq<Sample>))
    ensures KeepsSampleCount(process) ==> |r.1| == |x|
  {
    var first := process(c, m, x);
    process(c, first.0, first.1)
  }

  /** One chain.process(context) over channel ch of the buffer. */
  method ProcessChannel(chain: MonoChain, buffer: array<seq<Sample>>, ch: nat, process: ChainProcess)
    requires ch < buffer.Length
    modifies chain`memory, buffer
    ensures chain.Value() == old(chain.Value())
    ensures (chain.memory, buffer[ch]) == process(chain.Value(), old(chain.memory), old(buffer[ch]))
    ensures buffer[..] == old(buffer[..])[ch := buffer[ch]]
  {
    var result := process(chain.Value(), chain.memory, buffer[ch]);
    chain.memory := result.0;
    buffer[ch] := result.1;
  }

  class AudioProcessor {
    /** The parameter store (apvts): raw values by parameter ID. */
    var apvts: ParameterStore
    /** The host sample rate returned by getSampleRate. */
    var sampleRate: real
    const leftChain: MonoChain
    const rightChain: MonoChain
    const leftChannelFifo: SingleChannelSampleFifo
    const rightChannelFifo: SingleChannelSampleFifo

    /** Both chains are well formed, are two objects, and hold the same value. */
    ghost predicate ChainsValid()
      reads leftChain, rightChain, leftChain.peak, rightChain.peak
    {
      leftChain.Valid() && rightChain.Valid() && leftChain != rightChain &&
      leftChain.peak != rightChain.peak &&
      leftChain.Value() == rightChain.Value()
    }

    /** Both relays are well formed, share nothing, and take the left and the
        right channel. */
    ghost predicate RelaysValid()
      reads leftChannelFifo, leftChannelFifo.audioBufferFifo, leftChannelFifo.bufferToFill,
            rightChannelFifo, rightChannelFifo.audioBufferFifo, rightChannelFifo.bufferToFill
    {
      leftChannelFifo.Valid() && rightChannelFifo.Valid() &&
      leftChannelFifo != rightChannelFifo &&
      leftChannelFifo.audioBufferFifo != rightChannelFifo.audioBufferFifo &&
      leftChannelFifo.audioBufferFifo.buffers != rightChannelFifo.audioBufferFifo.buffers &&
      leftChannelFifo.bufferToFill != rightChannelFifo.bufferToFill &&
      leftChannelFifo.channelToUse == Left && rightChannelFifo.channelToUse == Right
    }

    ghost predicate Valid()
      reads this, leftChain, rightChain, leftChain.peak, rightChain.peak,
            leftChannelFifo, leftChannelFifo.audioBufferFifo, leftChannelFifo.bufferToFill,
            rightChannelFifo, rightChannelFifo.audioBufferFifo, rightChannelFifo.bufferToFill
    {
      ChainsValid() && RelaysValid() && ChainSettingsIds <= apvts.Keys
    }

    /** The parameter store starts at the layout's defaults; both chains are
        new default chains and both relays are new and not prepared. */
    constructor ()
      ensures Valid()
      ensures fresh(leftChain) && fresh(rightChain) && fresh(leftChain.peak) && fresh(rightChain.peak)
      ensures fresh(leftChannelFifo.Repr()) && fresh(rightChannelFifo.Repr())
      ensures apvts == DefaultStore(Layout)
      ensures leftChain.Value() == DefaultChain() && rightChain.Value() == DefaultChain()
      ensures leftChain.memory == [] && rightChain.memory == []
      ensures !leftChannelFifo.prepared && !rightChannelFifo.prepared
      ensures leftChannelFifo.audioBufferFifo.Contents() == [] && rightChannelFifo.audioBufferFifo.Contents() == []
    {
      leftChannelFifo := new SingleChannelSampleFifo(Left);
      rightChannelFifo := new SingleChannelSampleFifo(Right);
      leftChain := new MonoChain();
      rightChain := new MonoChain();
      DefaultStoreKeys();
      apvts := DefaultStore(Layout);
      sampleRate := 0.0;
    }

    /** updatePeakFilter: both chains take the peak's bypass flag and, through
        updateCoefficients, the new peak coefficients. */
    method UpdatePeakFilter(s: ChainSettings)
      requires ChainsValid()
      modifies leftChain, rightChain, leftChain.peak, rightChain.peak
      ensures ChainsValid()
      ensures leftChain.Value() == PeakUpdated(old(leftChain.Value()), s, sampleRate)
      ensures leftChain.memory == old(leftChain.memory) && rightChain.memory == old(rightChain.memory)
    {
      var peakCoefficients := new CoefficientsObject(MakePeakFilter(s, sampleRate));
      leftChain.SetBypassed(Peak, s.peakBypassed);
      rightChain.SetBypassed(Peak, s.peakBypassed);
      UpdateCoefficients(leftChain.peak, peakCoefficients);
      UpdateCoefficients(rightChain.peak, peakCoefficients);
    }

    /** updateLowCutFilters */
    method UpdateLowCutFilters(s: ChainSettings)
      requires ChainsValid()
      modifies leftChain, rightChain
      ensures ChainsValid()
      ensures leftChain.Value() == LowCutUpdated(old(leftChain.Value()), s, sampleRate)
      ensures leftChain.memory == old(leftChain.memory) && rightChain.memory == old(rightChain.memory)
    {
      var lowCutCoefficients := MakeLowCutFilter(s, sampleRate);
      leftChain.SetBypassed(LowCut, s.lowCutBypassed);
      rightChain.SetBypassed(LowCut, s.lowCutBypassed);
      leftChain.lowCut := UpdateCutFilter(leftChain.lowCut, lowCutCoefficients, s.lowCutSlope);
      rightChain.lowCut := UpdateCutFilter(rightChain.lowCut, lowCutCoefficients, s.lowCutSlope);
    }

    /** updateHighCutFilters */
    method UpdateHighCutFilters(s: ChainSettings)
      requires ChainsValid()
      modifies leftChain, rightChain
      ensures ChainsValid()
      ensures leftChain.Value() == HighCutUpdated(old(leftChain.Value()), s, sampleRate)
      ensures leftChain.memory == old(leftChain.memory) && rightChain.memory == old(rightChain.memory)
    {
      var highCutCoefficients := MakeHighCutFilter(s, sampleRate);
      leftChain.SetBypassed(HighCut, s.highCutBypassed);
      rightChain.SetBypassed(HighCut, s.highCutBypassed);
      leftChain.highCut := UpdateCutFilter(leftChain.highCut, highCutCoefficients, s.highCutSlope);
      rightChain.highCut := UpdateCutFilter(rightChain.highCut, highCutCoefficients, s.highCutSlope);
    }

    /** updateFilters: one settings read, then peak, low cut and high cut. Both
        chains end up equal (Valid) and follow the settings; the filters'
        internal state is kept. */
    method UpdateFilters()
      requires ChainsValid() && ChainSettingsIds <= apvts.Keys
      modifies leftChain, rightChain, leftChain.peak, rightChain.peak
      ensures ChainsValid()
      ensures leftChain.Value() == FiltersUpdated(old(leftChain.Value()), GetChainSettings(apvts), sampleRate)
      ensures leftChain.memory == old(leftChain.memory) && rightChain.memory == old(rightChain.memory)
    {
      var chainSettings := GetChainSettings(apvts);
      UpdatePeakFilter(chainSettings);
      UpdateLowCutFilters(chainSettings);
      UpdateHighCutFilters(chainSettings);
    }

    /** The relays' share of prepareToPlay: both are prepared for blocks of
        samplesPerBlock samples. */
    method PrepareRelays(samplesPerBlock: nat)
      requires RelaysValid()
      modifies leftChannelFifo, leftChannelFifo.audioBufferFifo.buffers,
               rightChannelFifo, rightChannelFifo.audioBufferFifo.buffers
      ensures RelaysValid()
      ensures leftChannelFifo.PreparedFor(samplesPerBlock) && rightChannelFifo.PreparedFor(samplesPerBlock)
      ensures old(leftChannelFifo.HasShape(samplesPerBlock)) ==>
                leftChannelFifo.bufferToFill == old(leftChannelFifo.bufferToFill) &&
                leftChannelFifo.bufferToFill[..] == old(leftChannelFifo.bufferToFill[..])
      ensures !old(leftChannelFifo.HasShape(samplesPerBlock)) ==>
                fresh(leftChannelFifo.bufferToFill) && leftChannelFifo.bufferToFill[..] == Zeros(samplesPerBlock)
      ensures old(rightChannelFifo.HasShape(samplesPerBlock)) ==>
                rightChannelFifo.bufferToFill == old(rightChannelFifo.bufferToFill) &&
                rightChannelFifo.bufferToFill[..] == old(rightChannelFifo.bufferToFill[..])
      ensures !old(rightChannelFifo.HasShape(samplesPerBlock)) ==>
                fresh(rightChannelFifo.bufferToFill) && rightChannelFifo.bufferToFill[..] == Zeros(samplesPerBlock)
      ensures leftChannelFifo.audioBufferFifo.Contents() ==
                seq(|old(leftChannelFifo.audioBufferFifo.Contents())|, _ => SilentBuffer(1, samplesPerBlock))
      ensures rightChannelFifo.audioBufferFifo.Contents() ==
                seq(|old(rightChannelFifo.audioBufferFifo.Contents())|, _ => SilentBuffer(1, samplesPerBlock))
    {
      leftChannelFifo.Prepare(samplesPerBlock);
      rightChannelFifo.Prepare(samplesPerBlock);
    }

    /** prepareToPlay: the host has set the processor's sample rate to
        hostSampleRate before the call, so getSampleRate returns it from here
        on. Both chains are prepared (their filters' internal state reset) and
        configured from the current settings at that rate, then both relays
        are prepared for blocks of samplesPerBlock samples. */
    method PrepareToPlay(hostSampleRate: real, samplesPerBlock: nat)
      requires Valid()
      modifies this`sampleRate, leftChain, rightChain, leftChain.peak, rightChain.peak,
               leftChannelFifo, leftChannelFifo.audioBufferFifo.buffers,
               rightChannelFifo, rightChannelFifo.audioBufferFifo.buffers
      ensures Valid() && sampleRate == hostSampleRate
      ensures leftChain.Value() == FiltersUpdated(old(leftChain.Value()), GetChainSettings(apvts), hostSampleRate)
      ensures leftChain.memory == [] && rightChain.memory == []
      ensures leftChannelFifo.PreparedFor(samplesPerBlock) && rightChannelFifo.PreparedFor(samplesPerBlock)
      ensures old(leftChannelFifo.HasShape(samplesPerBlock)) ==>
                leftChannelFifo.bufferToFill == old(leftChannelFifo.bufferToFill) &&
                leftChannelFifo.bufferToFill[..] == old(leftChannelFifo.bufferToFill[..])
      ensures !old(leftChannelFifo.HasShape(samplesPerBlock)) ==>
                fresh(leftChannelFifo.bufferToFill) && leftChannelFifo.bufferToFill[..] == Zeros(samplesPerBlock)
      ensures old(rightChannelFifo.HasShape(samplesPerBlock)) ==>
                rightChannelFifo.bufferToFill == old(rightChannelFifo.bufferToFill) &&
                rightChannelFifo.bufferToFill[..] == old(rightChannelFifo.bufferToFill[..])
      ensures !old(rightChannelFifo.HasShape(samplesPerBlock)) ==>
                fresh(rightChannelFifo.bufferToFill) && rightChannelFifo.bufferToFill[..] == Zeros(samplesPerBlock)
      ensures leftChannelFifo.audioBufferFifo.Contents() ==
                seq(|old(leftChannelFifo.audioBufferFifo.Contents())|, _ => SilentBuffer(1, samplesPerBlock))
      ensures rightChannelFifo.audioBufferFifo.Contents() ==
                seq(|old(rightChannelFifo.audioBufferFifo.Contents())|, _ => SilentBuffer(1, samplesPerBlock))
    {
      sampleRate := hostSampleRate;
      leftChain.Prepare();
      rightChain.Prepare();
      UpdateFilters();
      PrepareRelays(samplesPerBlock);
    }

    /** The chains' share of processBlock: the left chain runs over channel 0
        and the right chain over channel 1, each twice, every pass starting
        from the internal state the previous one left; every other channel is
        left alone. */
    method RunChains(buffer: array<seq<Sample>>, process: ChainProcess)
      requires ChainsValid() && 2 <= buffer.Length && KeepsSampleCount(process)
      modifies buffer, leftChain`memory, rightChain`memory
      ensures forall ch :: 0 <= ch < buffer.Length ==> |buffer[ch]| == |old(buffer[ch])|
      ensures ChainsValid() && leftChain.Value() == old(leftChain.Value())
      ensures var c := leftChain.Value();
              var left := TwoPasses(process, c, old(leftChain.memory), old(buffer[0]));
              var right := TwoPasses(process, c, old(rightChain.memory), old(buffer[1]));
              buffer[..] == old(buffer[..])[0 := left.1][1 := right.1] &&
              leftChain.memory == left.0 && rightChain.memory == right.0
    {
      ProcessChannel(leftChain, buffer, 0, process);
      ProcessChannel(rightChain, buffer, 1, process);
      ProcessChannel(leftChain, buffer, 0, process);
      ProcessChannel(rightChain, buffer, 1, process);
    }

    /** The chains' share of processBlock: silence the surplus outputs, update
        the filters, then run both chains over their channels. */
    method FilterBlock(buffer: array<seq<Sample>>, numIn: nat, numOut: nat, process: ChainProcess)
      requires ChainsValid() && ChainSettingsIds <= apvts.Keys
      requires 2 <= buffer.Length && numOut <= buffer.Length && KeepsSampleCount(process)
      modifies buffer, leftChain, rightChain, leftChain.peak, rightChain.peak
      ensures ChainsValid()
      ensures forall ch :: 0 <= ch < buffer.Length ==> |buffer[ch]| == |old(buffer[ch])|
      ensures leftChain.Value() == FiltersUpdated(old(leftChain.Value()), GetChainSettings(apvts), sampleRate)
      ensures var cleared := Cleared(old(buffer[..]), numIn, numOut);
              var c := leftChain.Value();
              var left := TwoPasses(process, c, old(leftChain.memory), cleared[0]);
              var right := TwoPasses(process, c, old(rightChain.memory), cleared[1]);
              buffer[..] == cleared[0 := left.1][1 := right.1] &&
              leftChain.memory == left.0 && rightChain.memory == right.0
    {
      ClearSurplusOutputs(buffer, numIn, numOut);
      UpdateFilters();
      RunChains(buffer, process);
    }

    /** The relays' share of processBlock: each relay is fed its own channel of
        the processed block, and its ring receives the blocks it offers. */
    method FeedRelays(block: seq<seq<Sample>>)
      requires RelaysValid() && leftChannelFifo.prepared && rightChannelFifo.prepared
      requires 2 <= |block| && 0 < leftChannelFifo.size && 0 < rightChannelFifo.size
      modifies leftChannelFifo, leftChannelFifo.bufferToFill, leftChannelFifo.audioBufferFifo,
               leftChannelFifo.audioBufferFifo.buffers,
               rightChannelFifo, rightChannelFifo.bufferToFill, rightChannelFifo.audioBufferFifo,
               rightChannelFifo.audioBufferFifo.buffers
      ensures RelaysValid() && leftChannelFifo.prepared && rightChannelFifo.prepared
      ensures leftChannelFifo.size == old(leftChannelFifo.size) && rightChannelFifo.size == old(rightChannelFifo.size)
      ensures leftChannelFifo.bufferToFill == old(leftChannelFifo.bufferToFill)
      ensures rightChannelFifo.bufferToFill == old(rightChannelFifo.bufferToFill)
      ensures leftChannelFifo.fed == old(leftChannelFifo.fed) + block[ChannelIndex(Left)]
      ensures rightChannelFifo.fed == old(rightChannelFifo.fed) + block[ChannelIndex(Right)]
      ensures old(leftChannelFifo.offered) <= leftChannelFifo.offered
      ensures old(rightChannelFifo.offered) <= rightChannelFifo.offered
      ensures leftChannelFifo.audioBufferFifo.Contents() ==
                OfferAll(old(leftChannelFifo.audioBufferFifo.Contents()),
                         leftChannelFifo.offered[|old(leftChannelFifo.offered)|..])
      ensures rightChannelFifo.audioBufferFifo.Contents() ==
                OfferAll(old(rightChannelFifo.audioBufferFifo.Contents()),
                         rightChannelFifo.offered[|old(rightChannelFifo.offered)|..])
    {
      leftChannelFifo.Update(block);
      rightChannelFifo.Update(block);
    }

    /** processBlock: silence the surplus outputs, update the filters, run the
        left chain on channel 0 and the right chain on channel 1 twice over,
        then hand the buffer to both relays. */
    method ProcessBlock(buffer: array<seq<Sample>>, numIn: nat, numOut: nat, process: ChainProcess)
      requires Valid() && leftChannelFifo.prepared && rightChannelFifo.prepared
      requires 2 <= buffer.Length && numOut <= buffer.Length
      requires 0 < leftChannelFifo.size && 0 < rightChannelFifo.size
      requires KeepsSampleCount(process)
      modifies buffer, leftChain, rightChain, leftChain.peak, rightChain.peak,
               leftChannelFifo, leftChannelFifo.bufferToFill, leftChannelFifo.audioBufferFifo,
               leftChannelFifo.audioBufferFifo.buffers,
               rightChannelFifo, rightChannelFifo.bufferToFill, rightChannelFifo.audioBufferFifo,
               rightChannelFifo.audioBufferFifo.buffers
      ensures Valid() && apvts == old(apvts) && sampleRate == old(sampleRate)
      ensures forall ch :: 0 <= ch < buffer.Length ==> |buffer[ch]| == |old(buffer[ch])|
      ensures leftChain.Value() == FiltersUpdated(old(leftChain.Value()), GetChainSettings(apvts), sampleRate)
      ensures var cleared := Cleared(old(buffer[..]), numIn, numOut);
              var c := leftChain.Value();
              var left := TwoPasses(process, c, old(leftChain.memory), cleared[0]);
              var right := TwoPasses(process, c, old(rightChain.memory), cleared[1]);
              buffer[..] == cleared[0 := left.1][1 := right.1] &&
              leftChain.memory == left.0 && rightChain.memory == right.0
      ensures leftChannelFifo.prepared && rightChannelFifo.prepared
      ensures leftChannelFifo.size == old(leftChannelFifo.size) && rightChannelFifo.size == old(rightChannelFifo.size)
      ensures leftChannelFifo.bufferToFill == old(leftChannelFifo.bufferToFill)
      ensures rightChannelFifo.bufferToFill == old(rightChannelFifo.bufferToFill)
      ensures leftChannelFifo.fed == old(leftChannelFifo.fed) + buffer[ChannelIndex(Left)]
      ensures rightChannelFifo.fed == old(rightChannelFifo.fed) + buffer[ChannelIndex(Right)]
      ensures old(leftChannelFifo.offered) <= leftChannelFifo.offered
      ensures old(rightChannelFifo.offered) <= rightChannelFifo.offered
      ensures leftChannelFifo.audioBufferFifo.Contents() ==
                OfferAll(old(leftChannelFifo.audioBufferFifo.Contents()),
                         leftChannelFifo.offered[|old(leftChannelFifo.offered)|..])
      ensures rightChannelFifo.audioBufferFifo.Contents() ==
                OfferAll(old(rightChannelFifo.audioBufferFifo.Contents()),
                         rightChannelFifo.offered[|old(rightChannelFifo.offered)|..])
    {
      FilterBlock(buffer, numIn, numOut, process);
      FeedRelays(buffer[..]);
    }
  }

  /** The host's calling sequence on a new processor: prepareToPlay at the
      host's sample rate for blocks of two samples, then one stereo block of four samples. Each relay takes
      the four processed samples of its channel and hands its ring one block:
      the first two of them. */
  method PlayOneBlock(hostSampleRate: real, block: array<seq<Sample>>, process: ChainProcess)
    returns (p: AudioProcessor)
    requires block.Length == 2 && |block[0]| == 4 && |block[1]| == 4
    requires KeepsSampleCount(process)
    modifies block
    ensures p.Valid() && p.sampleRate == hostSampleRate
    ensures p.leftChannelFifo.fed == block[ChannelIndex(Left)] && |p.leftChannelFifo.fed| == 4
    ensures p.rightChannelFifo.fed == block[ChannelIndex(Right)] && |p.rightChannelFifo.fed| == 4
    ensures p.leftChannelFifo.audioBufferFifo.Contents() == [[block[ChannelIndex(Left)][..2]]]
    ensures p.rightChannelFifo.audioBufferFifo.Contents() == [[block[ChannelIndex(Right)][..2]]]
  {
    p := new AudioProcessor();
    p.PrepareToPlay(hostSampleRate, 2);
    p.ProcessBlock(block, 2, 2, process);
    HandedOnOneBlock(p.leftChannelFifo);
    HandedOnOneBlock(p.rightChannelFifo);
  }

  /** A relay prepared for blocks of two that has taken four samples since,
      into a ring that was empty, has queued exactly the first two. */
  lemma HandedOnOneBlock(relay: SingleChannelSampleFifo)
    requires relay.Valid() && relay.prepared && relay.size == 2 && |relay.fed| == 4
    requires relay.audioBufferFifo.Contents() == OfferAll([], relay.offered)
    ensures relay.audioBufferFifo.Contents() == [[relay.fed[..2]]]
  {
    relay.BlocksHandedOn();
    assert |relay.offered| == 1;
    JoinedLength(relay.offered, 2);
    assert relay.offered == [relay.offered[0]];
    assert Joined(relay.offered) == Joined([]) + relay.offered[0][0];
    assert relay.offered[0] == [relay.offered[0][0]];
    assert relay.fed[..2] == relay.offered[0][0];
    PushedItemsQueueInOrder(relay.offered);
  }
}
