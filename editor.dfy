/**
 * The editor: the one-flag debounce between parameter changes and the 60 Hz
 * timer that refreshes the editor's own mono chain, and the response curve that
 * paint draws from that chain. The magnitude of one filter at one frequency,
 * the logarithmic frequency axis and the gain-to-decibel conversion are
 * floating-point library code; they are parameters here.
 */
module Editor {
  import opened Filters
  import opened Processor

  // ---------------------------------------------------------------------------
  // The dirty-flag protocol, on event histories
  // ---------------------------------------------------------------------------

  /** What reaches the editor: a parameter listener callback or a timer tick. */
  datatype Event = ParameterChange(parameterIndex: int, newValue: real) | TimerTick

  /** The flag after one event, and whether that event repaints: a change sets
      the flag whatever its index and value; a tick compare-and-clears it and
      repaints exactly when it found the flag set. */
  function Step(flag: bool, e: Event): (bool, bool)
  {
    match e
    case ParameterChange(_, _) => (true, false)
    case TimerTick => (false, flag)
  }

  /** The flag after a history of events; the editor starts with it clear. */
  function FlagAfter(events: seq<Event>): bool
  {
    if events == [] then false else Step(FlagAfter(events[..|events| - 1]), events[|events| - 1]).0
  }

  /** The number of repaints a history of events causes. */
  function Repaints(events: seq<Event>): nat
  {
    if events == [] then 0
    else
      var init := events[..|events| - 1];
      Repaints(init) + if Step(FlagAfter(init), events[|events| - 1]).1 then 1 else 0
  }

  function Ticks(events: seq<Event>): nat
  {
    if events == [] then 0
    else Ticks(events[..|events| - 1]) + if events[|events| - 1].TimerTick? then 1 else 0
  }

  function Changes(events: seq<Event>): nat
  {
    if events == [] then 0
    else Changes(events[..|events| - 1]) + if events[|events| - 1].ParameterChange? then 1 else 0
  }

  /** The flag is set exactly when the latest event was a parameter change. */
  lemma FlagMeansPendingChange(events: seq<Event>)
    ensures FlagAfter(events) <==> events != [] && events[|events| - 1].ParameterChange?
  {
  }

  /** Every repaint happens on a timer tick. */
  lemma {:induction false} RepaintsAtMostTicks(events: seq<Event>)
    ensures Repaints(events) <= Ticks(events)
  {
    if events != [] {
      RepaintsAtMostTicks(events[..|events| - 1]);
    }
  }

  lemma {:induction false} RepaintsAndPendingAtMostChanges(events: seq<Event>)
    ensures Repaints(events) + (if FlagAfter(events) then 1 else 0) <= Changes(events)
  {
    if events != [] {
      RepaintsAndPendingAtMostChanges(events[..|events| - 1]);
    }
  }

  /** Every repaint answers a parameter change of its own: there are never more
      repaints than changes. */
  lemma RepaintsAtMostChanges(events: seq<Event>)
    ensures Repaints(events) <= Changes(events)
  {
    RepaintsAndPendingAtMostChanges(events);
  }

  predicate OnlyChanges(events: seq<Event>)
  {
    forall k :: 0 <= k < |events| ==> events[k].ParameterChange?
  }

  /** A run of parameter changes repaints nothing, and leaves the flag set if
      the run is not empty. */
  lemma {:induction false} ChangesDoNotRepaint(history: seq<Event>, changes: seq<Event>)
    requires OnlyChanges(changes)
    ensures Repaints(history + changes) == Repaints(history)
    ensures FlagAfter(history + changes) == if changes == [] then FlagAfter(history) else true
    decreases |changes|
  {
    if changes == [] {
      assert history + changes == history;
    } else {
      var init := changes[..|changes| - 1];
      ChangesDoNotRepaint(history, init);
      assert (history + changes)[..|history + changes| - 1] == history + init;
    }
  }

  /** Any number of parameter changes between two timer ticks cause one
      repaint at the second tick, and none at all if there was no change. */
  lemma ChangesBetweenTicksRepaintOnce(history: seq<Event>, changes: seq<Event>)
    requires history == [] || history[|history| - 1] == TimerTick
    requires OnlyChanges(changes)
    ensures Repaints(history + changes + [TimerTick]) == Repaints(history) + if changes == [] then 0 else 1
    ensures !FlagAfter(history + changes + [TimerTick])
  {
    ChangesDoNotRepaint(history, changes);
    assert (history + changes + [TimerTick])[..|history + changes|] == history + changes;
  }

  // ---------------------------------------------------------------------------
  // The response curve
  // ---------------------------------------------------------------------------

  /** getMagnitudeForFrequency: the magnitude of a coefficient set at a
      frequency for a sample rate. */
  type MagnitudeFunction = (Coefficients, real, real) -> real

  /** A filter paint looks at: the bypass flag it consults and the
      coefficients it evaluates. */
  datatype Stage = Stage(bypassed: bool, coefficients: Coefficients)

  /** The nine filters paint looks at, in its order: the peak, judged by the
      chain's Peak flag, then the four low-cut slots and the four high-cut
      slots, each judged by its own slot flag. The chain's LowCut and HighCut
      flags are not consulted. */
  function PaintStages(c: ChainState): (st: seq<Stage>)
    requires ChainShaped(c)
    ensures |st| == 1 + 2 * CutSlots
  {
    [Stage(c.bypassed[Peak], c.peak)] +
    seq(CutSlots, k requires 0 <= k < CutSlots => Stage(c.lowCut.bypassed[k], c.lowCut.coefficients[k])) +
    seq(CutSlots, k requires 0 <= k < CutSlots => Stage(c.highCut.bypassed[k], c.highCut.coefficients[k]))
  }

  /** Stage by stage: the peak first, then low-cut slot k at 1 + k and
      high-cut slot k at 5 + k. */
  lemma PaintStagesAt(c: ChainState)
    requires ChainShaped(c)
    ensures PaintStages(c)[0] == Stage(c.bypassed[Peak], c.peak)
    ensures forall k :: 0 <= k < CutSlots ==>
              PaintStages(c)[1 + k] == Stage(c.lowCut.bypassed[k], c.lowCut.coefficients[k]) &&
              PaintStages(c)[1 + CutSlots + k] == Stage(c.highCut.bypassed[k], c.highCut.coefficients[k])
  {
  }

  /** The factors a column's magnitude is multiplied by: one per stage that is
      not bypassed, in stage order. */
  function Factors(st: seq<Stage>, magnitude: MagnitudeFunction, freq: real, sampleRate: real): seq<real>
  {
    if st == [] then []
    else
      var last := st[|st| - 1];
      Factors(st[..|st| - 1], magnitude, freq, sampleRate) +
      if last.bypassed then [] else [magnitude(last.coefficients, freq, sampleRate)]
  }

  function Product(xs: seq<real>): real
  {
    if xs == [] then 1.0 else Product(xs[..|xs| - 1]) * xs[|xs| - 1]
  }

  function ActiveStages(st: seq<Stage>): nat
  {
    if st == [] then 0 else ActiveStages(st[..|st| - 1]) + if st[|st| - 1].bypassed then 0 else 1
  }

  /** Exactly one factor per stage that is not bypassed, and it is that
      stage's magnitude. */
  lemma {:induction false} OneFactorPerActiveStage(st: seq<Stage>, magnitude: MagnitudeFunction, freq: real, sampleRate: real)
    ensures |Factors(st, magnitude, freq, sampleRate)| == ActiveStages(st)
    ensures forall k :: 0 <= k < |st| && !st[k].bypassed ==>
              magnitude(st[k].coefficients, freq, sampleRate) in Factors(st, magnitude, freq, sampleRate)
  {
    if st != [] {
      var init := st[..|st| - 1];
      OneFactorPerActiveStage(init, magnitude, freq, sampleRate);
      forall k | 0 <= k < |st| - 1 && !st[k].bypassed
        ensures magnitude(st[k].coefficients, freq, sampleRate) in Factors(st, magnitude, freq, sampleRate)
      {
        assert init[k] == st[k];
      }
    }
  }

  /** With every stage bypassed a column's magnitude stays at 1. */
  lemma {:induction false} AllBypassedIsUnity(st: seq<Stage>, magnitude: MagnitudeFunction, freq: real, sampleRate: real)
    requires forall k :: 0 <= k < |st| ==> st[k].bypassed
    ensures Factors(st, magnitude, freq, sampleRate) == []
    ensures Product(Factors(st, magnitude, freq, sampleRate)) == 1.0
  {
    if st != [] {
      AllBypassedIsUnity(st[..|st| - 1], magnitude, freq, sampleRate);
    }
  }

  /** Where column i of w lies along the chart, from 0 at the left edge toward
      1 at the right; mapToLog10 turns it into a frequency between 20 Hz and
      20 kHz. */
  function ColumnPosition(i: nat, w: nat): real
    requires i < w
  {
    i as real / w as real
  }

  /** The magnitude paint computes for one column at frequency freq, before
      conversion to decibels. */
  function ColumnMagnitude(c: ChainState, magnitude: MagnitudeFunction, freq: real, sampleRate: real): real
    requires ChainShaped(c)
  {
    Product(Factors(PaintStages(c), magnitude, freq, sampleRate))
  }

  /** One `if (!isBypassed) mag *= ...` of paint. */
  function Times(mag: real, s: Stage, magnitude: MagnitudeFunction, freq: real, sampleRate: real): real
  {
    if s.bypassed then mag else mag * magnitude(s.coefficients, freq, sampleRate)
  }

  /** The running magnitude after the first k stages. */
  function Running(st: seq<Stage>, k: nat, magnitude: MagnitudeFunction, freq: real, sampleRate: real): real
    requires k <= |st|
  {
    if k == 0 then 1.0 else Times(Running(st, k - 1, magnitude, freq, sampleRate), st[k - 1], magnitude, freq, sampleRate)
  }

  lemma ProductSnoc(xs: seq<real>, x: real)
    ensures Product(xs + [x]) == Product(xs) * x
  {
    assert (xs + [x])[..|xs|] == xs;
  }

  lemma FactorsSnoc(st: seq<Stage>, k: nat, magnitude: MagnitudeFunction, freq: real, sampleRate: real)
    requires k < |st|
    ensures Factors(st[..k + 1], magnitude, freq, sampleRate) ==
            Factors(st[..k], magnitude, freq, sampleRate) +
            if st[k].bypassed then [] else [magnitude(st[k].coefficients, freq, sampleRate)]
  {
    assert st[..k + 1][..k] == st[..k];
  }

  /** One more stage multiplies the product of the factors so far by that
      stage's factor, if it has one. */
  lemma TimesExtendsProduct(fs: seq<real>, s: Stage, magnitude: MagnitudeFunction, freq: real, sampleRate: real)
    ensures Times(Product(fs), s, magnitude, freq, sampleRate) ==
            Product(fs + if s.bypassed then [] else [magnitude(s.coefficients, freq, sampleRate)])
  {
    if s.bypassed {
      assert fs + [] == fs;
    } else {
      ProductSnoc(fs, magnitude(s.coefficients, freq, sampleRate));
    }
  }

  /** The running magnitude after k stages is the product of their factors. */
  lemma {:induction false} RunningIsProduct(st: seq<Stage>, k: nat, magnitude: MagnitudeFunction, freq: real, sampleRate: real)
    requires k <= |st|
    ensures Running(st, k, magnitude, freq, sampleRate) == Product(Factors(st[..k], magnitude, freq, sampleRate))
  {
    if k == 0 {
      assert st[..0] == [];
    } else {
      RunningIsProduct(st, k - 1, magnitude, freq, sampleRate);
      FactorsSnoc(st, k - 1, magnitude, freq, sampleRate);
      TimesExtendsProduct(Factors(st[..k - 1], magnitude, freq, sampleRate), st[k - 1], magnitude, freq, sampleRate);
    }
  }

  /** One `if (!isBypassed) mag *= getMagnitudeForFrequency(...)` of paint. */
  method MultiplyUnlessBypassed(mag: real, bypassed: bool, coefficients: Coefficients,
                                magnitude: MagnitudeFunction, freq: real, sampleRate: real)
    returns (r: real)
    ensures r == Times(mag, Stage(bypassed, coefficients), magnitude, freq, sampleRate)
    ensures bypassed ==> r == mag
  {
    r := mag;
    if !bypassed {
      r := r * magnitude(coefficients, freq, sampleRate);
    }
  }

  /** The body of paint's column loop: start at 1 and multiply in the magnitude
      at freq of every filter that is not bypassed. */
  method MultiplyStages(chain: ChainState, freq: real, magnitude: MagnitudeFunction, sampleRate: real)
    returns (mag: real)
    requires ChainShaped(chain)
    ensures mag == ColumnMagnitude(chain, magnitude, freq, sampleRate)
  {
    ghost var st := PaintStages(chain);
    PaintStagesAt(chain);
    var lowCut, highCut := chain.lowCut, chain.highCut;
    mag := 1.0;

    mag := MultiplyUnlessBypassed(mag, chain.bypassed[Peak], chain.peak, magnitude, freq, sampleRate);
    assert mag == Running(st, 1, magnitude, freq, sampleRate);

    mag := MultiplyUnlessBypassed(mag, lowCut.bypassed[0], lowCut.coefficients[0], magnitude, freq, sampleRate);
    assert mag == Running(st, 2, magnitude, freq, sampleRate);
    mag := MultiplyUnlessBypassed(mag, lowCut.bypassed[1], lowCut.coefficients[1], magnitude, freq, sampleRate);
    assert mag == Running(st, 3, magnitude, freq, sampleRate);
    mag := MultiplyUnlessBypassed(mag, lowCut.bypassed[2], lowCut.coefficients[2], magnitude, freq, sampleRate);
    assert mag == Running(st, 4, magnitude, freq, sampleRate);
    mag := MultiplyUnlessBypassed(mag, lowCut.bypassed[3], lowCut.coefficients[3], magnitude, freq, sampleRate);
    assert mag == Running(st, 5, magnitude, freq, sampleRate);

    mag := MultiplyUnlessBypassed(mag, highCut.bypassed[0], highCut.coefficients[0], magnitude, freq, sampleRate);
    assert mag == Running(st, 6, magnitude, freq, sampleRate);
    mag := MultiplyUnlessBypassed(mag, highCut.bypassed[1], highCut.coefficients[1], magnitude, freq, sampleRate);
    assert mag == Running(st, 7, magnitude, freq, sampleRate);
    mag := MultiplyUnlessBypassed(mag, highCut.bypassed[2], highCut.coefficients[2], magnitude, freq, sampleRate);
    assert mag == Running(st, 8, magnitude, freq, sampleRate);
    mag := MultiplyUnlessBypassed(mag, highCut.bypassed[3], highCut.coefficients[3], magnitude, freq, sampleRate);
    assert mag == Running(st, 9, magnitude, freq, sampleRate);

    RunningIsProduct(st, 9, magnitude, freq, sampleRate);
    assert st[..9] == st;
  }

  /** The magnitudes loop of paint: one entry per column of the response area,
      the column's magnitude at its frequency on the logarithmic axis, in
      decibels. */
  method Magnitudes(chain: ChainState, w: nat, magnitude: MagnitudeFunction, sampleRate: real,
                    mapToLog10: real -> real, gainToDecibels: real -> real)
    returns (mags: seq<real>)
    requires ChainShaped(chain)
    ensures |mags| == w
    ensures forall i :: 0 <= i < w ==>
              mags[i] == gainToDecibels(ColumnMagnitude(chain, magnitude, mapToLog10(ColumnPosition(i, w)), sampleRate))
  {
    var a := new real[w];
    for i := 0 to w
      invariant forall j :: 0 <= j < i ==>
                  a[j] == gainToDecibels(ColumnMagnitude(chain, magnitude, mapToLog10(ColumnPosition(j, w)), sampleRate))
    {
      var freq := mapToLog10(ColumnPosition(i, w));
      var mag := MultiplyStages(chain, freq, magnitude, sampleRate);
      a[i] := gainToDecibels(mag);
    }
    mags := a[..];
  }

  /** A rectangle in integer pixels. */
  datatype Rectangle = Rectangle(x: int, y: int, width: int, height: int)

  function Bottom(r: Rectangle): int
  {
    r.y + r.height
  }

  /** The top quarter of the bounds that paint draws the curve into
      (removeFromTop with the product truncated to whole pixels). */
  function ResponseArea(bounds: Rectangle): (r: Rectangle)
    requires bounds.height >= 0
    ensures r.x == bounds.x && r.y == bounds.y && r.width == bounds.width
    ensures 0 <= r.height <= bounds.height && 4 * r.height <= bounds.height < 4 * r.height + 4
  {
    Rectangle(bounds.x, bounds.y, bounds.width, (bounds.height as real * 0.25).Floor)
  }

  /** jmap(input, -24, 24, outputMin, outputMax): the gain range of the peak
      filter spread linearly over the chart's height. */
  function Map(input: real, outputMin: real, outputMax: real): real
  {
    outputMin + (input - -24.0) * (outputMax - outputMin) / (24.0 - -24.0)
  }

  /** -24 dB lands on the bottom edge, +24 dB on the top edge, and with the
      top above the bottom a louder column is drawn strictly higher. */
  lemma MapSpansChart(outputMin: real, outputMax: real, a: real, b: real)
    ensures Map(-24.0, outputMin, outputMax) == outputMin
    ensures Map(24.0, outputMin, outputMax) == outputMax
    ensures outputMax < outputMin && a < b ==> Map(b, outputMin, outputMax) < Map(a, outputMin, outputMax)
  {
    if outputMax < outputMin && a < b {
      assert Map(b, outputMin, outputMax) - Map(a, outputMin, outputMax) ==
             (b - a) * (outputMax - outputMin) / 48.0;
    }
  }

  /** A vertex of the response path. */
  datatype Point = Point(x: real, y: real)

  /** The path paint strokes: it starts at the left edge of the response area
      with the first column and adds one vertex per further column, one pixel
      to the right each time. mags.front() needs at least one column. */
  method ResponseCurve(mags: seq<real>, responseArea: Rectangle) returns (path: seq<Point>)
    requires |mags| > 0
    ensures |path| == |mags|
    ensures forall i :: 0 <= i < |mags| ==>
              path[i] == Point((responseArea.x + i) as real,
                               Map(mags[i], Bottom(responseArea) as real, responseArea.y as real))
    ensures forall i, j :: 0 <= i < j < |path| ==> path[i].x < path[j].x
  {
    var outputMin := Bottom(responseArea) as real;
    var outputMax := responseArea.y as real;
    path := [Point(responseArea.x as real, Map(mags[0], outputMin, outputMax))];
    for i := 1 to |mags|
      invariant |path| == i
      invariant forall k :: 0 <= k < i ==>
                  path[k] == Point((responseArea.x + k) as real, Map(mags[k], outputMin, outputMax))
    {
      path := path + [Point((responseArea.x + i) as real, Map(mags[i], outputMin, outputMax))];
    }
  }

  // ---------------------------------------------------------------------------
  // The editor
  // ---------------------------------------------------------------------------

  class AudioProcessorEditor {
    const audioProcessor: AudioProcessor
    /** The editor's own chain, used only to draw the response curve. */
    const monoChain: MonoChain
    /** parametersChanged */
    var parametersChanged: bool
    /** The listener callbacks and timer ticks so far. */
    ghost var events: seq<Event>
    /** The repaints requested so far. */
    ghost var repaints: nat

    /** The flag and the repaint count are those the history of events gives,
        and the chain's cut banks and bypass flags are still those of a
        default chain: nothing in the editor ever writes them. */
    ghost predicate Valid()
      reads this, monoChain, monoChain.peak
    {
      monoChain.Valid() &&
      parametersChanged == FlagAfter(events) && repaints == Repaints(events) &&
      monoChain.Value().(peak := PassThrough) == DefaultChain()
    }

    /** The editor starts with a default chain, the flag clear and no repaint;
        listener registration and the timer start are outside the model. */
    constructor (p: AudioProcessor)
      ensures Valid() && audioProcessor == p && fresh(monoChain) && fresh(monoChain.peak)
      ensures monoChain.Value() == DefaultChain() && !parametersChanged
      ensures events == [] && repaints == 0
    {
      audioProcessor := p;
      monoChain := new MonoChain();
      parametersChanged := false;
      events, repaints := [], 0;
    }

    /** parameterValueChanged: sets the flag, whatever the index and value. */
    method ParameterValueChanged(parameterIndex: int, newValue: real)
      requires Valid()
      modifies this`parametersChanged, this`events
      ensures Valid() && parametersChanged && repaints == old(repaints)
      ensures events == old(events) + [ParameterChange(parameterIndex, newValue)]
    {
      parametersChanged := true;
      events := events + [ParameterChange(parameterIndex, newValue)];
    }

    /** timerCallback: when the flag is set it is cleared, the settings are read
        once, the peak coefficients of the editor's chain are replaced and one
        repaint is requested; when it is clear nothing happens. Nothing but the
        peak coefficients of the chain ever changes. */
    method TimerCallback()
      requires Valid() && ChainSettingsIds <= audioProcessor.apvts.Keys
      modifies this`parametersChanged, this`events, this`repaints, monoChain.peak
      ensures Valid() && !parametersChanged && events == old(events) + [TimerTick]
      ensures repaints == old(repaints) + if old(parametersChanged) then 1 else 0
      ensures old(parametersChanged) ==>
                monoChain.Value() == old(monoChain.Value()).(peak :=
                  MakePeakFilter(GetChainSettings(audioProcessor.apvts), audioProcessor.sampleRate))
      ensures !old(parametersChanged) ==> monoChain.Value() == old(monoChain.Value())
    {
      events := events + [TimerTick];
      // compareAndSetBool(false, true)
      var swapped := parametersChanged;
      if swapped {
        parametersChanged := false;
      }
      if swapped {
        var chainSettings := GetChainSettings(audioProcessor.apvts);
        var peakCoefficients := new CoefficientsObject(MakePeakFilter(chainSettings, audioProcessor.sampleRate));
        UpdateCoefficients(monoChain.peak, peakCoefficients);
        repaints := repaints + 1;
      }
    }

    /** paint: the magnitudes of the w columns of the response area, and the
        path through them. mags.front() needs w > 0. */
    method Paint(bounds: Rectangle, magnitude: MagnitudeFunction,
                 mapToLog10: real -> real, gainToDecibels: real -> real)
      returns (mags: seq<real>, responseCurve: seq<Point>)
      requires Valid() && bounds.height >= 0 && bounds.width > 0
      ensures var area := ResponseArea(bounds);
              |mags| == area.width &&
              (forall i :: 0 <= i < area.width ==>
                 mags[i] == gainToDecibels(ColumnMagnitude(monoChain.Value(), magnitude,
                                                           mapToLog10(ColumnPosition(i, area.width)),
                                                           audioProcessor.sampleRate))) &&
              |responseCurve| == area.width &&
              (forall i :: 0 <= i < area.width ==>
                 responseCurve[i] == Point((area.x + i) as real, Map(mags[i], Bottom(area) as real, area.y as real)))
    {
      var responseArea := ResponseArea(bounds);
      var w := responseArea.width;
      mags := Magnitudes(monoChain.Value(), w, magnitude, audioProcessor.sampleRate, mapToLog10, gainToDecibels);
      responseCurve := ResponseCurve(mags, responseArea);
    }
  }

  /** The editor's chain keeps default cut banks and bypass flags, so every
      column multiplies the peak's magnitude by the pass-through magnitude of
      all eight cut slots: neither the cut settings nor the bypass switches
      reach the curve. */
  lemma EditorCurveIgnoresCutSettings(c: ChainState, magnitude: MagnitudeFunction, freq: real, sampleRate: real)
    requires ChainShaped(c) && c.(peak := PassThrough) == DefaultChain()
    ensures Factors(PaintStages(c), magnitude, freq, sampleRate) ==
            [magnitude(c.peak, freq, sampleRate)] + seq(2 * CutSlots, _ => magnitude(PassThrough, freq, sampleRate))
  {
    var st := PaintStages(c);
    PaintStagesAt(c);
    var m := magnitude(PassThrough, freq, sampleRate);
    forall k | 1 <= k < |st| ensures st[k] == Stage(false, PassThrough) {
      if k <= CutSlots {
        assert st[k] == Stage(c.lowCut.bypassed[k - 1], c.lowCut.coefficients[k - 1]);
      } else {
        assert st[k] == Stage(c.highCut.bypassed[k - 1 - CutSlots], c.highCut.coefficients[k - 1 - CutSlots]);
      }
    }
    assert !st[0].bypassed;
    FactorsOfUnbypassed(st, magnitude, freq, sampleRate);
    var fs := Factors(st, magnitude, freq, sampleRate);
    assert fs == [magnitude(c.peak, freq, sampleRate)] + seq(2 * CutSlots, _ => m);
  }

  /** With no stage bypassed there is one factor per stage, in stage order. */
  lemma {:induction false} FactorsOfUnbypassed(st: seq<Stage>, magnitude: MagnitudeFunction, freq: real, sampleRate: real)
    requires forall k :: 0 <= k < |st| ==> !st[k].bypassed
    ensures |Factors(st, magnitude, freq, sampleRate)| == |st|
    ensures forall k :: 0 <= k < |st| ==>
              Factors(st, magnitude, freq, sampleRate)[k] == magnitude(st[k].coefficients, freq, sampleRate)
  {
    if st != [] {
      var init := st[..|st| - 1];
      FactorsOfUnbypassed(init, magnitude, freq, sampleRate);
    }
  }
}
