/** src/components/VoiceVisualizer.tsx: the "AI speaking" flag and the five-bar level meter,
    both read off the latest volume sample alone. */
module VoiceVisualizer {

  const SpeechThreshold: real := 0.01
  const BarCount: nat := 5

  datatype VisualizerState = VisualizerState(volume: real, isAISpeaking: bool)

  const Initial: VisualizerState := VisualizerState(0.0, false)

  /** `handleVolumeChange`: stores the sample and sets the flag from it. The previous state
      is a parameter only to show that nothing is read from it. */
  function HandleVolumeChange(previous: VisualizerState, vol: real): (next: VisualizerState)
    ensures next.volume == vol
    ensures next.isAISpeaking <==> vol > SpeechThreshold
  {
    VisualizerState(vol, vol > SpeechThreshold)
  }

  /** The state after a run of volume samples, starting from the initial state. */
  function Replay(samples: seq<real>): VisualizerState {
    if samples == [] then Initial
    else HandleVolumeChange(Replay(samples[..|samples| - 1]), samples[|samples| - 1])
  }

  /** No hysteresis: after any history, the flag is the threshold test of the latest sample,
      and two histories that end in the same sample give the same state. */
  lemma NoHysteresis(h1: seq<real>, h2: seq<real>, vol: real)
    ensures Replay(h1 + [vol]).isAISpeaking <==> vol > SpeechThreshold
    ensures Replay(h1 + [vol]) == Replay(h2 + [vol])
  {
  }

  /** Bar `i` is drawn tall iff `volume * 5 > i`. */
  predicate BarIsTall(volume: real, i: nat) {
    volume * 5.0 > i as real
  }

  /** The heights of the five bars, left to right (true for tall). */
  function Bars(volume: real): (bars: seq<bool>)
    ensures |bars| == BarCount
    ensures forall i :: 0 <= i < BarCount ==> bars[i] == BarIsTall(volume, i)
  {
    seq(BarCount, i requires 0 <= i < BarCount => BarIsTall(volume, i))
  }

  function CountTall(bars: seq<bool>): (n: nat)
    ensures n <= |bars|
  {
    if bars == [] then 0 else (if bars[0] then 1 else 0) + CountTall(bars[1..])
  }

  /** Tall bars form a prefix: if bar i is tall then so is every bar to its left. */
  lemma TallBarsFormPrefix(volume: real, i: nat, j: nat)
    requires j <= i < BarCount
    requires Bars(volume)[i]
    ensures Bars(volume)[j]
  {
  }

  /** A pointwise larger row of bars has at least as many tall bars. */
  lemma {:induction false} CountTallMonotone(a: seq<bool>, b: seq<bool>)
    requires |a| == |b|
    requires forall i :: 0 <= i < |a| ==> a[i] ==> b[i]
    ensures CountTall(a) <= CountTall(b)
  {
    if a != [] {
      CountTallMonotone(a[1..], b[1..]);
    }
  }

  /** A louder sample never shows fewer tall bars. */
  lemma TallBarsMonotone(v1: real, v2: real)
    requires v1 <= v2
    ensures CountTall(Bars(v1)) <= CountTall(Bars(v2))
  {
    CountTallMonotone(Bars(v1), Bars(v2));
  }

  lemma {:induction false} CountTallAll(bars: seq<bool>, value: bool)
    requires forall i :: 0 <= i < |bars| ==> bars[i] == value
    ensures CountTall(bars) == if value then |bars| else 0
  {
    if bars != [] {
      CountTallAll(bars[1..], value);
    }
  }

  /** A silent sample (or a negative one) shows no tall bar; one above 0.8 shows all five. */
  lemma MeterExtremes(volume: real)
    ensures volume <= 0.0 ==> CountTall(Bars(volume)) == 0
    ensures volume > 0.8 ==> CountTall(Bars(volume)) == BarCount
  {
    if volume <= 0.0 {
      CountTallAll(Bars(volume), false);
    }
    if volume > 0.8 {
      CountTallAll(Bars(volume), true);
    }
  }
}
