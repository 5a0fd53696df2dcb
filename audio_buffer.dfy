/**
 * A decoded PCM buffer (the browser's AudioBuffer) as a value: one sample
 * sequence per channel, all of the same length, and a sample rate.
 */
module AudioData {

  datatype AudioBuffer = AudioBuffer(channels: seq<seq<real>>, length: nat, sampleRate: real)

  /** What the decoder guarantees: at least one channel, equal lengths, a positive rate. */
  predicate WellFormed(b: AudioBuffer) {
    && |b.channels| >= 1
    && b.sampleRate > 0.0
    && forall c :: 0 <= c < |b.channels| ==> |b.channels[c]| == b.length
  }

  /** `AudioBuffer.duration`: length divided by the sample rate. */
  function Duration(b: AudioBuffer): (d: real)
    requires b.sampleRate > 0.0
    ensures d >= 0.0
    ensures d * b.sampleRate == b.length as real
  {
    b.length as real / b.sampleRate
  }

  /** One channel read back to front. */
  function ReverseSamples(s: seq<real>): seq<real> {
    seq(|s|, i requires 0 <= i < |s| => s[|s| - 1 - i])
  }

  /** The time-reversed copy of a buffer: same shape, every channel reversed. */
  function Reversed(b: AudioBuffer): AudioBuffer {
    AudioBuffer(seq(|b.channels|, c requires 0 <= c < |b.channels| => ReverseSamples(b.channels[c])),
                b.length, b.sampleRate)
  }

  /** Sample i of the reversed copy is sample length-1-i of the original, in every channel. */
  lemma ReversedAt(b: AudioBuffer, c: nat, i: nat)
    requires WellFormed(b) && c < |b.channels| && i < b.length
    ensures WellFormed(Reversed(b))
    ensures Duration(Reversed(b)) == Duration(b)
    ensures |Reversed(b).channels| == |b.channels|
    ensures Reversed(b).channels[c][i] == b.channels[c][b.length - 1 - i]
  {
  }

  /** Reversing twice gives back the original samples. */
  lemma {:induction false} ReversedTwice(b: AudioBuffer)
    ensures Reversed(Reversed(b)) == b
  {
    var r := Reversed(Reversed(b));
    assert |r.channels| == |b.channels|;
    forall c | 0 <= c < |b.channels|
      ensures r.channels[c] == b.channels[c]
    {
      var s := b.channels[c];
      assert |ReverseSamples(ReverseSamples(s))| == |s|;
      forall i | 0 <= i < |s|
        ensures ReverseSamples(ReverseSamples(s))[i] == s[i]
      {
      }
    }
  }
}
