/** src/components/AudioProcessor.tsx: the per-frame loudness computation over the analyser's
    byte spectrum. `getByteFrequencyData` (section 1.8 of the W3C Web Audio API) writes one
    byte per frequency bin, and an analyser with `fftSize` 256 has `frequencyBinCount` 128.
    The analyser's readings are parameters; the floating-point volume
    `Math.sqrt(sum / n) / 255` is represented by its exact inputs, the integer sum of squares
    and the bin count. */
module AudioProcessor {

  newtype byte = x: int | 0 <= x < 256

  const FftSize: nat := 256
  const FrequencyBinCount: nat := FftSize / 2
  const MaxSquare: nat := 65025  // 255 * 255

  /** A callback invocation: `onAudioData(floatArray)` or `onVolumeChange(volume)`, the latter
      given as the sum of squares and the bin count it is computed from. */
  datatype Callback =
    | AudioData(frequencies: seq<real>)
    | VolumeChange(sumOfSquares: nat, binCount: nat)

  datatype ContextState = NoContext | Open | Closed

  /** The sum of the squares of `s`, added up in index order. */
  function SquareSum(s: seq<byte>): nat {
    if s == [] then 0
    else SquareSum(s[..|s| - 1]) + (s[|s| - 1] as int) * (s[|s| - 1] as int)
  }

  /** Each square is at most 255², so the sum lies in [0, n·255²]: the mean square is at most
      255² and the volume `sqrt(mean) / 255` at most 1. */
  lemma {:induction false} SquareSumBound(s: seq<byte>)
    ensures SquareSum(s) <= |s| * MaxSquare
  {
    if s != [] {
      SquareSumBound(s[..|s| - 1]);
      SquareAtMost(s[|s| - 1]);
      assert (|s| - 1) * MaxSquare + MaxSquare == |s| * MaxSquare;
    }
  }

  /** The sum is zero exactly when every bin is zero: silence, and only silence, has volume 0. */
  lemma {:induction false} SquareSumZeroIff(s: seq<byte>)
    ensures SquareSum(s) == 0 <==> forall i :: 0 <= i < |s| ==> s[i] == 0
  {
    if s != [] {
      var init := s[..|s| - 1];
      SquareSumZeroIff(init);
      var x := s[|s| - 1] as int;
      assert x * x == 0 <==> x == 0;
      if SquareSum(s) == 0 {
        forall i | 0 <= i < |s| ensures s[i] == 0 {
          if i < |s| - 1 {
            assert s[i] == init[i];
          }
        }
      }
      if forall i :: 0 <= i < |s| ==> s[i] == 0 {
        assert forall i :: 0 <= i < |init| ==> init[i] == s[i];
      }
    }
  }

  lemma SquareAtMost(b: byte)
    ensures (b as int) * (b as int) <= MaxSquare
  {
  }

  /** The loop of `processAudio`: the square of every bin added exactly once, in index order. */
  method SumOfSquares(dataArray: array<byte>) returns (sum: nat)
    ensures sum == SquareSum(dataArray[..])
    ensures sum <= dataArray.Length * MaxSquare
  {
    sum := 0;
    var i := 0;
    while i < dataArray.Length
      invariant 0 <= i <= dataArray.Length
      invariant sum == SquareSum(dataArray[..i])
    {
      assert dataArray[..i + 1][..i] == dataArray[..i];
      sum := sum + (dataArray[i] as int) * (dataArray[i] as int);
      i := i + 1;
    }
    assert dataArray[..] == dataArray[..dataArray.Length];
    SquareSumBound(dataArray[..]);
  }

  class AudioMonitor {
    /** `audioContextRef.current`, and whether `analyserRef.current` is set. */
    var context: ContextState
    var hasAnalyser: bool
    var fftSize: nat
    /** The two per-frame buffers, filled in place on each frame. */
    var dataArray: array<byte>
    var floatArray: array<real>
    /** The callback invocations so far, in the order they were made. */
    var calls: seq<Callback>

    /** Mounted, before the effect has run: no context, no analyser, no calls. */
    constructor ()
      ensures context == NoContext && !hasAnalyser && calls == []
    {
      context := NoContext;
      hasAnalyser := false;
      // No analyser and no buffers exist yet: fftSize (the Web Audio default) and the two
      // empty arrays are placeholders that nothing reads before Attach replaces them.
      fftSize := 2048;
      dataArray := new byte[0];
      floatArray := new real[0];
      calls := [];
    }

    /** The effect. Without a persistent remote track it returns at once: no context, no
        analyser, no callback. Otherwise it opens a context, attaches an analyser with
        `fftSize` 256, allocates both buffers with one entry per bin and runs the first frame. */
    method Attach(hasTrack: bool, bytes: seq<byte>, floats: seq<real>)
      requires |bytes| == FrequencyBinCount && |floats| == FrequencyBinCount
      modifies this
      ensures !hasTrack ==>
        context == old(context) && hasAnalyser == old(hasAnalyser) && calls == old(calls) &&
        fftSize == old(fftSize) && dataArray == old(dataArray) && floatArray == old(floatArray)
      ensures hasTrack ==>
        context == Open && hasAnalyser && fftSize == FftSize &&
        fresh(dataArray) && fresh(floatArray) &&
        dataArray.Length == FrequencyBinCount && floatArray.Length == FrequencyBinCount &&
        dataArray[..] == bytes && floatArray[..] == floats &&
        calls == old(calls) + [AudioData(floats), VolumeChange(SquareSum(bytes), FrequencyBinCount)]
    {
      if !hasTrack {
        return;
      }
      context := Open;
      hasAnalyser := true;
      fftSize := FftSize;
      var bufferLength := fftSize / 2;
      dataArray := new byte[bufferLength];
      floatArray := new real[bufferLength];
      ProcessAudio(bytes, floats);
    }

    /** One frame of `processAudio`: both buffers are overwritten with the analyser's readings,
        the sum of squares is taken over the byte buffer, then `onAudioData` is called before
        `onVolumeChange`. Without an analyser the frame does nothing. A closed context does not
        stop the frame: the analyser is still set and the frame loop is never cancelled. */
    method ProcessAudio(bytes: seq<byte>, floats: seq<real>)
      requires |bytes| == dataArray.Length && |floats| == floatArray.Length
      modifies this`calls, dataArray, floatArray
      ensures !old(hasAnalyser) ==> calls == old(calls) && unchanged(dataArray) && unchanged(floatArray)
      ensures old(hasAnalyser) ==>
        dataArray[..] == bytes && floatArray[..] == floats &&
        calls == old(calls) + [AudioData(floats), VolumeChange(SquareSum(bytes), |bytes|)]
    {
      if !hasAnalyser {
        return;
      }
      forall i | 0 <= i < dataArray.Length {
        dataArray[i] := bytes[i];
      }
      forall i | 0 <= i < floatArray.Length {
        floatArray[i] := floats[i];
      }
      var sum := SumOfSquares(dataArray);
      calls := calls + [AudioData(floatArray[..]), VolumeChange(sum, dataArray.Length)];
    }

    /** The effect's cleanup: closes the context if one was opened; the analyser stays set. */
    method Cleanup()
      modifies this`context
      ensures context == (if old(context) == NoContext then NoContext else Closed)
    {
      if context != NoContext {
        context := Closed;
      }
    }
  }
}
