/**
 * The looper engine: loop geometry, the generated click track, the Track
 * record, and the LoopMachine with its checkpoint-driven punch-in/punch-out
 * and its per-block audio callback.
 *
 * Audio samples are mono int16 values held as `int`s; numpy's int16
 * wrap-around is written out explicitly (Wrap16).
 */
module LoopEngine {

  import opened Wrappers

  // ---------------------------------------------------------------------
  // Constants and loop geometry
  // ---------------------------------------------------------------------

  const Chunk: nat := 1024
  const Rate: nat := 44100
  const Bpm: nat := 120
  const BeatsPerLoop: nat := 4
  /** int((60 / BPM) * BEATS_PER_LOOP * RATE); LoopGeometry derives it. */
  const FramesPerLoop: nat := 88200
  /** int((60 / BPM) * RATE) */
  const SamplesPerBeat: nat := 22050
  /** Default duration of one metronome tone, in milliseconds. */
  const ClickMillis: nat := 50
  /** int((duration_ms / 1000) * sample_rate) */
  const ToneSamples: nat := 2205

  const Int16Min: int := -32768
  const Int16Max: int := 32767

  /** The loop length is an exact whole number of frames and of beats. */
  lemma LoopGeometry()
    ensures FramesPerLoop * Bpm == 60 * BeatsPerLoop * Rate
    ensures SamplesPerBeat * Bpm == 60 * Rate
    ensures ToneSamples * 1000 == ClickMillis * Rate
    ensures FramesPerLoop == BeatsPerLoop * SamplesPerBeat
    ensures ToneSamples < SamplesPerBeat
  {
  }

  // ---------------------------------------------------------------------
  // int16 sample arithmetic
  // ---------------------------------------------------------------------

  predicate IsInt16(x: int) {
    Int16Min <= x <= Int16Max
  }

  /** The int16 value numpy stores for the mathematical integer x. */
  function Wrap16(x: int): (r: int)
    ensures IsInt16(r)
    ensures (x - r) % 65536 == 0
    ensures IsInt16(x) ==> r == x
  {
    (x - Int16Min) % 65536 + Int16Min
  }

  /** np.clip(x, -32768, 32767) */
  function Clip16(x: int): (r: int)
    ensures IsInt16(r)
    ensures IsInt16(x) ==> r == x
  {
    if x < Int16Min then Int16Min else if x > Int16Max then Int16Max else x
  }

  /** Adding into an int16 accumulator one term at a time wraps like adding everything first. */
  lemma WrapAccumulates(a: int, b: int)
    ensures Wrap16(Wrap16(a) + b) == Wrap16(a + b)
  {
    var q := (a - Int16Min) / 65536;
    assert Wrap16(a) == a - 65536 * q;
    assert Wrap16(a) + b - Int16Min == (a + b - Int16Min) - 65536 * q;
  }

  /** The accumulator wraps: two loud samples do not saturate at the int16 bound. */
  lemma MixWrapsInsteadOfSaturating()
    ensures Wrap16(20000 + 20000) == -25536
    ensures Clip16(Wrap16(20000 + 20000)) == -25536
    ensures Clip16(20000 + 20000) == Int16Max
  {
  }

  function Silence(n: nat): (r: seq<int>)
    ensures |r| == n && forall i :: 0 <= i < n ==> r[i] == 0
  {
    seq(n, _ => 0)
  }

  /** One sample of a slice `s[start:start+frames]` that numpy zero-pads past the end. */
  function Sample(s: seq<int>, k: int): int {
    if 0 <= k < |s| then s[k] else 0
  }

  // ---------------------------------------------------------------------
  // Click track generator
  // ---------------------------------------------------------------------

  /** One beat: a tone followed by zero silence up to SamplesPerBeat samples. */
  function Segment(tone: seq<int>): (r: seq<int>)
    requires |tone| <= SamplesPerBeat
  {
    tone + Silence(SamplesPerBeat - |tone|)
  }

  /** n copies of one beat segment, back to back. */
  function Beats(segment: seq<int>, n: nat): seq<int>
    requires |segment| == SamplesPerBeat
  {
    if n == 0 then [] else segment + Beats(segment, n - 1)
  }

  /**
   * The whole click track. The tone samples come from floating-point sine
   * synthesis and are parameters here: `first` for the accented first beat,
   * `regular` for the others.
   */
  function GenerateClicks(first: seq<int>, regular: seq<int>): seq<int>
    requires |first| == ToneSamples && |regular| == ToneSamples
  {
    Segment(first) + Beats(Segment(regular), BeatsPerLoop - 1)
  }

  /** What the click track holds at index k: tone, then silence, beat by beat. */
  function ClickSampleAt(first: seq<int>, regular: seq<int>, k: nat): int
    requires |first| == ToneSamples && |regular| == ToneSamples
  {
    var offset := k % SamplesPerBeat;
    if offset >= ToneSamples then 0
    else if k < SamplesPerBeat then first[offset]
    else regular[offset]
  }

  lemma {:induction false} BeatsLayout(segment: seq<int>, n: nat)
    requires |segment| == SamplesPerBeat
    ensures |Beats(segment, n)| == n * SamplesPerBeat
    ensures forall k :: 0 <= k < |Beats(segment, n)| ==> Beats(segment, n)[k] == segment[k % SamplesPerBeat]
  {
    if n > 0 {
      BeatsLayout(segment, n - 1);
      var rest := Beats(segment, n - 1);
      var b := Beats(segment, n);
      assert b == segment + rest;
      assert n * SamplesPerBeat == SamplesPerBeat + (n - 1) * SamplesPerBeat;
      forall k | 0 <= k < |b|
        ensures b[k] == segment[k % SamplesPerBeat]
      {
        if k >= SamplesPerBeat {
          assert b[k] == rest[k - SamplesPerBeat];
          ModOneBeatEarlier(k);
        }
      }
    }
  }

  lemma ModOneBeatEarlier(k: int)
    requires k >= SamplesPerBeat
    ensures (k - SamplesPerBeat) % SamplesPerBeat == k % SamplesPerBeat
  {
  }

  /**
   * The click track is one loop long: BeatsPerLoop segments of
   * SamplesPerBeat samples, each a ToneSamples-long tone followed by zeros,
   * the first beat with its own tone.
   */
  lemma ClickTrackLayout(first: seq<int>, regular: seq<int>)
    requires |first| == ToneSamples && |regular| == ToneSamples
    ensures |GenerateClicks(first, regular)| == BeatsPerLoop * SamplesPerBeat == FramesPerLoop
    ensures forall k :: 0 <= k < FramesPerLoop ==>
      GenerateClicks(first, regular)[k] == ClickSampleAt(first, regular, k)
    ensures GenerateClicks(first, regular)[..ToneSamples] == first
  {
    var head := Segment(first);
    var seg := Segment(regular);
    BeatsLayout(seg, BeatsPerLoop - 1);
    var r := GenerateClicks(first, regular);
    assert r == head + Beats(seg, BeatsPerLoop - 1);
    forall k | 0 <= k < FramesPerLoop
      ensures r[k] == ClickSampleAt(first, regular, k)
    {
      if k >= SamplesPerBeat {
        assert r[k] == Beats(seg, BeatsPerLoop - 1)[k - SamplesPerBeat];
        ModOneBeatEarlier(k);
      }
    }
    assert r[..ToneSamples] == head[..ToneSamples];
  }

  // ---------------------------------------------------------------------
  // Text: Python's str() of integers and the track label
  // ---------------------------------------------------------------------

  predicate IsDigit(c: char) {
    '0' <= c <= '9'
  }

  predicate AllDigits(s: string) {
    forall i :: 0 <= i < |s| ==> IsDigit(s[i])
  }

  function DigitChar(d: nat): char
    requires d < 10
  {
    "0123456789"[d]
  }

  /** str(n) for a non-negative int. */
  function NatToString(n: nat): (s: string)
    ensures |s| > 0 && AllDigits(s)
  {
    if n < 10 then [DigitChar(n)] else NatToString(n / 10) + [DigitChar(n % 10)]
  }

  /** Reads a run of decimal digits back into the number it spells. */
  function ParseNat(s: string): nat
    requires AllDigits(s)
  {
    if |s| == 0 then 0
    else
      var d := s[|s| - 1];
      assert IsDigit(d);
      10 * ParseNat(s[..|s| - 1]) + (d as int - '0' as int)
  }

  lemma {:induction false} NatToStringRoundTrip(n: nat)
    ensures ParseNat(NatToString(n)) == n
  {
    var s := NatToString(n);
    if n >= 10 {
      NatToStringRoundTrip(n / 10);
      assert s[..|s| - 1] == NatToString(n / 10);
    }
  }

  /** str(p) for any int: a minus sign, then the digits of |p|. */
  function IntToString(p: int): string {
    if p < 0 then "-" + NatToString(-p) else NatToString(p)
  }

  /** `self.name or "Untitled"`: a missing or empty name reads "Untitled". */
  function DisplayName(name: Option<string>): (r: string)
    ensures r != ""
    ensures name.Some? && name.value != "" ==> r == name.value
    ensures name.None? || name.value == "" ==> r == "Untitled"
  {
    if name.None? || name.value == "" then "Untitled" else name.value
  }

  /** The pitch element of a label, with its joining space: " +n", " -n", or nothing for 0. */
  function PitchText(pitch: int): string {
    if pitch > 0 then " +" + IntToString(pitch) else if pitch < 0 then " " + IntToString(pitch) else ""
  }

  /** The label elements after the name, each preceded by the joining space. */
  function FlagsText(muted: bool, pitch: int): string {
    (if muted then " M" else "") + PitchText(pitch)
  }

  /** Track.__str__: "<" + " ".join(elements) + ">". */
  function TrackLabel(name: Option<string>, muted: bool, pitch: int): string {
    "<" + DisplayName(name) + FlagsText(muted, pitch) + ">"
  }

  function ParsePitch(s: string): Option<int> {
    if s == "" then Some(0)
    else if |s| >= 3 && s[0] == ' ' && (s[1] == '+' || s[1] == '-') && AllDigits(s[2..]) then
      var magnitude: int := ParseNat(s[2..]);
      Some(if s[1] == '+' then magnitude else -magnitude)
    else None
  }

  /** Reads the mute flag and the pitch back from the flags part of a label. */
  function ParseFlags(s: string): Option<(bool, int)> {
    var muted := |s| >= 2 && s[0] == ' ' && s[1] == 'M';
    match ParsePitch(if muted then s[2..] else s)
    case Some(p) => Some((muted, p))
    case None => None
  }

  lemma SplitConcat<T>(a: seq<T>, b: seq<T>)
    ensures (a + b)[..|a|] == a && (a + b)[|a|..] == b
  {
  }

  /** A sign and a run of digits read back as the signed number. */
  lemma SignedDigitsRoundTrip(sign: char, magnitude: nat, t: string)
    requires sign == '+' || sign == '-'
    requires t == [' ', sign] + NatToString(magnitude)
    ensures ParsePitch(t) == Some(if sign == '+' then magnitude as int else -(magnitude as int))
  {
    var digits := NatToString(magnitude);
    NatToStringRoundTrip(magnitude);
    SplitConcat([' ', sign], digits);
    assert t[0] == ' ' && t[1] == sign && t[2..] == digits;
  }

  lemma PitchRoundTrip(pitch: int)
    ensures ParsePitch(PitchText(pitch)) == Some(pitch)
  {
    if pitch > 0 {
      PositivePitchRoundTrip(pitch);
    } else if pitch < 0 {
      NegativePitchRoundTrip(pitch);
    } else {
      assert PitchText(pitch) == [];
    }
  }

  lemma PositivePitchRoundTrip(pitch: int)
    requires pitch > 0
    ensures ParsePitch(PitchText(pitch)) == Some(pitch)
  {
    var digits := NatToString(pitch);
    var t := [' ', '+'] + digits;
    assert IntToString(pitch) == digits;
    assert PitchText(pitch) == t;
    SignedDigitsRoundTrip('+', pitch, t);
  }

  lemma NegativePitchRoundTrip(pitch: int)
    requires pitch < 0
    ensures ParsePitch(PitchText(pitch)) == Some(pitch)
  {
    var t := [' ', '-'] + NatToString(-pitch);
    NegativePitchText(pitch);
    NegativePitchParse(pitch, t);
  }

  /** For a negative pitch, str() supplies the minus sign after the joining space. */
  lemma NegativePitchText(pitch: int)
    requires pitch < 0
    ensures PitchText(pitch) == [' ', '-'] + NatToString(-pitch)
  {
    var digits := NatToString(-pitch);
    assert IntToString(pitch) == ['-'] + digits;
    assert PitchText(pitch) == [' '] + (['-'] + digits);
  }

  lemma NegativePitchParse(pitch: int, t: string)
    requires pitch < 0
    requires t == [' ', '-'] + NatToString(-pitch)
    ensures ParsePitch(t) == Some(pitch)
  {
    var magnitude: nat := -pitch;
    SignedDigitsRoundTrip('-', magnitude, t);
  }

  /** The flags part of a label determines the mute flag and the pitch. */
  lemma FlagsRoundTrip(muted: bool, pitch: int)
    ensures ParseFlags(FlagsText(muted, pitch)) == Some((muted, pitch))
  {
    var f := FlagsText(muted, pitch);
    var t := PitchText(pitch);
    PitchRoundTrip(pitch);
    if muted {
      assert f[2..] == t;
    } else {
      assert f == t;
    }
  }

  /** A label is bracketed and lists the name first, then the flags. */
  lemma TrackLabelShape(name: Option<string>, muted: bool, pitch: int)
    ensures var s := TrackLabel(name, muted, pitch);
      && s[0] == '<' && s[|s| - 1] == '>'
      && s[1..1 + |DisplayName(name)|] == DisplayName(name)
      && ParseFlags(s[1 + |DisplayName(name)|..|s| - 1]) == Some((muted, pitch))
  {
    BracketedSplit(DisplayName(name), FlagsText(muted, pitch));
    FlagsRoundTrip(muted, pitch);
  }

  lemma BracketedSplit(d: string, f: string)
    ensures var s := "<" + d + f + ">";
      && s[0] == '<' && s[|s| - 1] == '>'
      && s[1..1 + |d|] == d && s[1 + |d|..|s| - 1] == f
  {
    var s := "<" + d + f + ">";
    assert s[1..|s| - 1] == d + f;
  }

  // ---------------------------------------------------------------------
  // Track
  // ---------------------------------------------------------------------

  class Track {
    /** The capture buffer, one loop long; never resized or replaced. */
    const rawBuffer: array<int>
    /** The playback buffer; aliases rawBuffer until an effect pass replaces it. */
    var buffer: array<int>
    var isMuted: bool
    var pitchShift: int
    var name: Option<string>
    var isRecording: bool

    constructor ()
      ensures fresh(rawBuffer) && rawBuffer.Length == FramesPerLoop
      ensures rawBuffer[..] == Silence(FramesPerLoop)
      ensures buffer == rawBuffer
      ensures !isMuted && pitchShift == 0 && name == None && !isRecording
    {
      rawBuffer := new int[FramesPerLoop](_ => 0);
      buffer := rawBuffer;
      isMuted := false;
      pitchShift := 0;
      name := None;
      isRecording := false;
    }

    /** Neither muted nor recording: the track is mixed into the output. */
    predicate Audible()
      reads this
    {
      !isMuted && !isRecording
    }

    /**
     * The effect pass of apply_pitch_shift_async, run synchronously. With
     * pitch 0 the playback buffer becomes a fresh element-wise copy of the
     * raw buffer. A nonzero pitch calls an external pitch shifter whose
     * int16 result is the parameter `shifted`.
     */
    method ApplyPitchShift(shifted: seq<int>)
      modifies this`buffer
      ensures fresh(buffer)
      ensures pitchShift == 0 ==> buffer[..] == rawBuffer[..] && buffer != rawBuffer
      ensures pitchShift != 0 ==> buffer[..] == shifted
    {
      if pitchShift == 0 {
        buffer := new int[rawBuffer.Length](i requires 0 <= i < rawBuffer.Length reads rawBuffer => rawBuffer[i]);
      } else {
        buffer := new int[|shifted|](i requires 0 <= i < |shifted| => shifted[i]);
      }
    }

    /** Track.__str__ */
    function Describe(): string
      reads this
    {
      TrackLabel(name, isMuted, pitchShift)
    }
  }

  // ---------------------------------------------------------------------
  // Checkpoint window, recording write and position advance
  // ---------------------------------------------------------------------

  datatype CheckpointAction = NoAction | New | Stop

  /** The loop frame that the i-th sample of a block starting at `start` falls on. */
  function LoopIndex(start: int, i: int): int {
    (start + i) % FramesPerLoop
  }

  /**
   * Whether the checkpoint falls in the block that starts at `start` and is
   * `frames` long, tested against the cyclic half-open window
   * [start, end) with end = (start + frames) mod FramesPerLoop.
   */
  function Reached(start: int, frames: int, cp: int): bool {
    var end := (start + frames) % FramesPerLoop;
    if start < end then start <= cp < end else cp >= start || cp < end
  }

  /** For a non-empty block, the window test finds exactly the positions the block covers. */
  lemma ReachedIffCovered(start: int, frames: int, cp: int)
    requires 0 <= start < FramesPerLoop && 0 < frames <= FramesPerLoop && 0 <= cp < FramesPerLoop
    ensures Reached(start, frames, cp) <==> (cp - start) % FramesPerLoop < frames
    ensures Reached(start, frames, cp) <==> exists i :: 0 <= i < frames && LoopIndex(start, i) == cp
  {
    var d := (cp - start) % FramesPerLoop;
    assert LoopIndex(start, d) == cp;
    forall i | 0 <= i < frames && LoopIndex(start, i) == cp
      ensures i == d
    {
      assert i < FramesPerLoop;
    }
  }

  /** A block of zero frames fires any checkpoint: its window test reads as the whole loop. */
  lemma EmptyBlockReachesEverything(start: int, cp: int)
    requires 0 <= start < FramesPerLoop && 0 <= cp < FramesPerLoop
    ensures Reached(start, 0, cp)
  {
  }

  /** A checkpoint on the last frame of the loop is found by a block that wraps past the end. */
  lemma WrappedBlockFindsLastFrame()
    ensures Reached(FramesPerLoop - 5, 8, FramesPerLoop - 1)
    ensures (FramesPerLoop - 5 + 8) % FramesPerLoop == 3
  {
  }

  /**
   * The raw buffer after `block` is written at `pos`: raw[pos:] and
   * raw[:rest] when the block runs past the end, raw[pos:pos+n] otherwise.
   */
  function Recorded(buf: seq<int>, pos: int, block: seq<int>): seq<int>
    requires |buf| == FramesPerLoop && 0 <= pos < FramesPerLoop && |block| <= FramesPerLoop
  {
    var n := |block|;
    if pos + n > FramesPerLoop then
      var untilEnd := FramesPerLoop - pos;
      block[untilEnd..] + buf[n - untilEnd..pos] + block[..untilEnd]
    else
      buf[..pos] + block + buf[pos + n..]
  }

  /**
   * The split write is a circular write: index j receives block[i] exactly
   * when j == (pos + i) mod FramesPerLoop for some i < |block|, and every
   * other index keeps its sample.
   */
  lemma RecordedIsCircularWrite(buf: seq<int>, pos: int, block: seq<int>)
    requires |buf| == FramesPerLoop && 0 <= pos < FramesPerLoop && |block| <= FramesPerLoop
    ensures |Recorded(buf, pos, block)| == FramesPerLoop
    ensures forall j :: 0 <= j < FramesPerLoop ==>
      Recorded(buf, pos, block)[j] ==
        if (j - pos) % FramesPerLoop < |block| then block[(j - pos) % FramesPerLoop] else buf[j]
    ensures forall i :: 0 <= i < |block| ==> Recorded(buf, pos, block)[(pos + i) % FramesPerLoop] == block[i]
  {
    var r := Recorded(buf, pos, block);
    var n := |block|;
    forall j | 0 <= j < FramesPerLoop
      ensures r[j] == if (j - pos) % FramesPerLoop < n then block[(j - pos) % FramesPerLoop] else buf[j]
    {
      if pos + n > FramesPerLoop {
        var untilEnd := FramesPerLoop - pos;
        if j < n - untilEnd {
          assert (j - pos) % FramesPerLoop == j + untilEnd;
        } else if j < pos {
          assert (j - pos) % FramesPerLoop == j - pos + FramesPerLoop;
        } else {
          assert (j - pos) % FramesPerLoop == j - pos;
        }
      } else if j < pos {
        assert (j - pos) % FramesPerLoop == j - pos + FramesPerLoop;
      } else {
        assert (j - pos) % FramesPerLoop == j - pos;
      }
    }
    forall i | 0 <= i < n
      ensures r[(pos + i) % FramesPerLoop] == block[i]
    {
      var j := (pos + i) % FramesPerLoop;
      assert (j - pos) % FramesPerLoop == i;
    }
  }

  /** Writing int16 samples into an int16 buffer leaves it int16, as the int16 dtype of raw_buffer keeps it. */
  lemma RecordedKeepsInt16(buf: seq<int>, pos: int, block: seq<int>)
    requires |buf| == FramesPerLoop && 0 <= pos < FramesPerLoop && |block| <= FramesPerLoop
    requires forall j :: 0 <= j < |buf| ==> IsInt16(buf[j])
    requires forall i :: 0 <= i < |block| ==> IsInt16(block[i])
    ensures forall j :: 0 <= j < FramesPerLoop ==> IsInt16(Recorded(buf, pos, block)[j])
  {
    RecordedIsCircularWrite(buf, pos, block);
  }

  /** The position after a block: position + frames, or 0 once that reaches the loop length. */
  function NextPosition(pos: int, frames: nat): (r: int)
    requires 0 <= pos
    ensures 0 <= r < FramesPerLoop
  {
    if pos + frames >= FramesPerLoop then 0 else pos + frames
  }

  /**
   * The reset agrees with wrapping modulo the loop length exactly when the
   * block does not run past the end of the loop.
   */
  lemma ResetAgreesWithWrapIff(pos: int, frames: nat)
    requires 0 <= pos < FramesPerLoop && frames <= FramesPerLoop
    ensures NextPosition(pos, frames) == (pos + frames) % FramesPerLoop <==> pos + frames <= FramesPerLoop
  {
    if pos + frames > FramesPerLoop {
      assert (pos + frames) % FramesPerLoop == pos + frames - FramesPerLoop;
    }
  }

  /** The position after k blocks of `frames` frames each, starting from pos. */
  function PositionAfter(pos: nat, frames: nat, k: nat): nat {
    if k == 0 then pos else NextPosition(PositionAfter(pos, frames, k - 1), frames)
  }

  lemma {:induction false} ChunkPositions(k: nat)
    requires k <= 86
    ensures PositionAfter(0, Chunk, k) == k * Chunk
  {
    if k > 0 {
      ChunkPositions(k - 1);
    }
  }

  /**
   * With CHUNK-sized blocks the position returns to 0 after 87 blocks, that
   * is after 89088 frames, not after FramesPerLoop = 88200 frames.
   */
  lemma ChunkCycleLength()
    ensures forall k :: 0 < k <= 86 ==> PositionAfter(0, Chunk, k) != 0
    ensures PositionAfter(0, Chunk, 87) == 0
    ensures 87 * Chunk == 89088 && 89088 != FramesPerLoop
  {
    forall k | 0 < k <= 86
      ensures PositionAfter(0, Chunk, k) != 0
    {
      ChunkPositions(k);
    }
    ChunkPositions(86);
  }

  // ---------------------------------------------------------------------
  // Mixing
  // ---------------------------------------------------------------------

  /** What track t adds to output sample i when the tracks are read from `start`. */
  function Contribution(t: Track, start: int, i: int): int
    reads t, t.buffer
  {
    if t.Audible() then Sample(t.buffer[..], start + i) else 0
  }

  /** The sum of the contributions of the first n tracks of ts to output sample i. */
  function TracksSum(ts: seq<Track>, n: nat, start: int, i: int): int
    requires n <= |ts|
    reads ts, set t | t in ts :: t.buffer
  {
    if n == 0 then 0 else TracksSum(ts, n - 1, start, i) + Contribution(ts[n - 1], start, i)
  }

  /** `acc += segment[start:start + len(acc)]` on an int16 accumulator, the slice zero-padded. */
  function AddSegment(acc: seq<int>, segment: seq<int>, start: int): (r: seq<int>)
    ensures |r| == |acc|
    ensures forall i :: 0 <= i < |r| ==> IsInt16(r[i])
  {
    seq(|acc|, i requires 0 <= i < |acc| => Wrap16(acc[i] + Sample(segment, start + i)))
  }

  /** Muted and recording tracks add nothing to the mix. */
  lemma {:induction false} SilentTracksAddNothing(ts: seq<Track>, n: nat, start: int, i: int)
    requires n <= |ts|
    requires forall k :: 0 <= k < n ==> !ts[k].Audible()
    ensures TracksSum(ts, n, start, i) == 0
  {
    if n > 0 {
      SilentTracksAddNothing(ts, n - 1, start, i);
    }
  }

  /** Appending a track keeps the sums over the tracks already there. */
  lemma {:induction false} AppendKeepsPrefixSums(ts: seq<Track>, t: Track, n: nat, start: int, i: int)
    requires n <= |ts|
    ensures TracksSum(ts + [t], n, start, i) == TracksSum(ts, n, start, i)
  {
    if n > 0 {
      AppendKeepsPrefixSums(ts, t, n - 1, start, i);
      assert (ts + [t])[n - 1] == ts[n - 1];
    }
  }

  /** Appending a track changes the mix by exactly its own contribution. */
  lemma AppendedTrackSum(ts: seq<Track>, t: Track, start: int, i: int)
    ensures TracksSum(ts + [t], |ts| + 1, start, i) == TracksSum(ts, |ts|, start, i) + Contribution(t, start, i)
  {
    AppendKeepsPrefixSums(ts, t, |ts|, start, i);
  }

  /** Adding an audible track's segment to the accumulator extends the sum by that track. */
  lemma MixTrackStep(ts: seq<Track>, k: nat, start: int, base: seq<int>, acc: seq<int>)
    requires k < |ts| && ts[k].Audible() && |acc| == |base|
    requires forall i :: 0 <= i < |acc| ==> acc[i] == Wrap16(base[i] + TracksSum(ts, k, start, i))
    ensures forall i :: 0 <= i < |acc| ==>
      AddSegment(acc, ts[k].buffer[..], start)[i] == Wrap16(base[i] + TracksSum(ts, k + 1, start, i))
  {
    forall i | 0 <= i < |acc|
      ensures AddSegment(acc, ts[k].buffer[..], start)[i] == Wrap16(base[i] + TracksSum(ts, k + 1, start, i))
    {
      WrapAccumulates(base[i] + TracksSum(ts, k, start, i), Sample(ts[k].buffer[..], start + i));
    }
  }

  // ---------------------------------------------------------------------
  // The loop machine
  // ---------------------------------------------------------------------

  class LoopMachine {
    /** The track being recorded, if any. */
    var currentTrack: Track?
    var tracks: seq<Track>
    var position: int
    var checkpointPosition: int
    var checkpointAction: CheckpointAction
    const clickTrack: seq<int>
    var clickIsMuted: bool
    var isPlaying: bool
    var latencyCompensationSamples: nat

    ghost predicate Valid()
      reads this, tracks
    {
      && 0 <= position < FramesPerLoop
      && 0 <= checkpointPosition < FramesPerLoop
      && |clickTrack| == FramesPerLoop
      && (forall k :: 0 <= k < |tracks| ==> tracks[k].rawBuffer.Length == FramesPerLoop)
      && (forall k, l :: 0 <= k < l < |tracks| ==> tracks[k].rawBuffer != tracks[l].rawBuffer)
      && (forall k :: 0 <= k < |tracks| && tracks[k].isRecording ==> tracks[k] == currentTrack)
      && (currentTrack != null ==>
            |tracks| > 0 && currentTrack == tracks[|tracks| - 1] && currentTrack.isRecording)
    }

    /**
     * A fresh engine. Measuring the input latency is a device query, so the
     * compensation is a parameter; the click tones are parameters too.
     */
    constructor (latency: nat, firstTone: seq<int>, regularTone: seq<int>)
      requires |firstTone| == ToneSamples && |regularTone| == ToneSamples
      ensures Valid()
      ensures currentTrack == null && tracks == []
      ensures position == 0 && checkpointPosition == 0 && checkpointAction == NoAction
      ensures clickTrack == GenerateClicks(firstTone, regularTone)
      ensures clickIsMuted && isPlaying && latencyCompensationSamples == latency
    {
      currentTrack := null;
      tracks := [];
      position := 0;
      checkpointPosition := 0;
      checkpointAction := NoAction;
      clickTrack := GenerateClicks(firstTone, regularTone);
      clickIsMuted := true;
      isPlaying := true;
      latencyCompensationSamples := latency;
      ClickTrackLayout(firstTone, regularTone);
    }

    /** At most one track records, and it is the last one. */
    lemma OnlyLastTrackRecords()
      requires Valid()
      ensures forall k :: 0 <= k < |tracks| - 1 ==> !tracks[k].isRecording
    {
      forall k | 0 <= k < |tracks| - 1
        ensures !tracks[k].isRecording
      {
        assert tracks[k].rawBuffer != tracks[|tracks| - 1].rawBuffer;
      }
    }

    method SetCheckpointNow()
      requires Valid()
      modifies this`checkpointPosition
      ensures Valid()
      ensures checkpointPosition == (position + latencyCompensationSamples) % FramesPerLoop
    {
      checkpointPosition := (position + latencyCompensationSamples) % FramesPerLoop;
    }

    /** Arms a punch-in at the latency-compensated current position and unmutes the click. */
    method StartRecording()
      requires Valid()
      modifies this`checkpointPosition, this`checkpointAction, this`clickIsMuted
      ensures Valid()
      ensures checkpointPosition == (position + latencyCompensationSamples) % FramesPerLoop
      ensures checkpointAction == New && !clickIsMuted
    {
      SetCheckpointNow();
      checkpointAction := New;
      clickIsMuted := false;
    }

    /** Arms a punch-out at the latency-compensated current position. */
    method StopRecording()
      requires Valid()
      modifies this`checkpointPosition, this`checkpointAction
      ensures Valid()
      ensures checkpointPosition == (position + latencyCompensationSamples) % FramesPerLoop
      ensures checkpointAction == Stop
    {
      SetCheckpointNow();
      checkpointAction := Stop;
    }

    /** The first step of the callback: fire the armed action if the block reaches the checkpoint. */
    method ResolveCheckpoint(frames: nat) returns (reached: bool)
      requires Valid()
      modifies this`currentTrack, this`tracks, this`checkpointAction, currentTrack
      ensures Valid()
      ensures reached == Reached(position, frames, checkpointPosition)
      ensures checkpointAction == if reached then NoAction else old(checkpointAction)
      // closing the track being recorded
      ensures old(currentTrack) != null ==>
        && old(currentTrack).isRecording == !(reached && old(checkpointAction) != NoAction)
        && old(currentTrack).buffer == old(currentTrack.buffer)
        && old(currentTrack).isMuted == old(currentTrack.isMuted)
        && old(currentTrack).pitchShift == old(currentTrack.pitchShift)
        && old(currentTrack).name == old(currentTrack.name)
      // opening a new one
      ensures reached && old(checkpointAction) == New ==>
        && currentTrack != null && fresh(currentTrack) && fresh(currentTrack.rawBuffer)
        && tracks == old(tracks) + [currentTrack]
        && currentTrack.isRecording && currentTrack.buffer == currentTrack.rawBuffer
        && currentTrack.rawBuffer[..] == Silence(FramesPerLoop)
        && !currentTrack.isMuted && currentTrack.pitchShift == 0 && currentTrack.name == None
      ensures reached && old(checkpointAction) == Stop ==> currentTrack == null && tracks == old(tracks)
      ensures !reached || old(checkpointAction) == NoAction ==>
        currentTrack == old(currentTrack) && tracks == old(tracks)
    {
      var start := position;
      var end := (position + frames) % FramesPerLoop;
      if start < end {
        reached := start <= checkpointPosition < end;
      } else {
        reached := checkpointPosition >= start || checkpointPosition < end;
      }
      if reached {
        if checkpointAction == Stop || checkpointAction == New {
          if currentTrack != null {
            currentTrack.isRecording := false;
            currentTrack := null;
          }
        }
        if checkpointAction == New {
          var newTrack := new Track();
          newTrack.isRecording := true;
          currentTrack := newTrack;
          tracks := tracks + [newTrack];
        }
        checkpointAction := NoAction;
      }
    }

    /** The second step: write the input block into the recording track's raw buffer. */
    method Record(indata: seq<int>)
      requires Valid() && |indata| <= FramesPerLoop
      modifies if currentTrack == null then {} else {currentTrack.rawBuffer}
      ensures currentTrack != null ==>
        currentTrack.rawBuffer[..] == Recorded(old(currentTrack.rawBuffer[..]), position, indata)
    {
      if currentTrack != null {
        var raw := currentTrack.rawBuffer;
        ghost var before := raw[..];
        ghost var expected := Recorded(before, position, indata);
        var frames := |indata|;
        var startIdx := position;
        var endIdx := position + frames;
        if endIdx > FramesPerLoop {
          var samplesUntilEnd := FramesPerLoop - startIdx;
          forall j | startIdx <= j < FramesPerLoop {
            raw[j] := indata[j - startIdx];
          }
          var remainingSamples := frames - samplesUntilEnd;
          forall j | 0 <= j < remainingSamples {
            raw[j] := indata[samplesUntilEnd + j];
          }
          assert expected == indata[samplesUntilEnd..] + before[remainingSamples..startIdx] + indata[..samplesUntilEnd];
          forall j | 0 <= j < FramesPerLoop
            ensures raw[j] == expected[j]
          {
            if j < remainingSamples {
              assert expected[j] == indata[samplesUntilEnd + j];
            } else if j < startIdx {
              assert expected[j] == before[j];
            } else {
              assert expected[j] == indata[j - startIdx];
            }
          }
        } else {
          forall j | startIdx <= j < endIdx {
            raw[j] := indata[j - startIdx];
          }
          assert expected == before[..startIdx] + indata + before[endIdx..];
          forall j | 0 <= j < FramesPerLoop
            ensures raw[j] == expected[j]
          {
            if startIdx <= j < endIdx {
              assert expected[j] == indata[j - startIdx];
            } else {
              assert expected[j] == before[j];
            }
          }
        }
        assert raw[..] == expected;
      }
    }

    /** The click's contribution to output sample i of a block starting at pos. */
    function ClickPart(pos: int, i: int): int
      requires |clickTrack| > 0
      reads this`clickIsMuted
    {
      if clickIsMuted then 0 else Sample(clickTrack, pos % |clickTrack| + i)
    }

    /** Where the tracks are read for a block starting at pos. */
    function PlaybackStart(pos: int): int
      reads this`latencyCompensationSamples
    {
      (pos + latencyCompensationSamples) % FramesPerLoop
    }

    /**
     * Output sample i of a block starting at pos: the int16 sum of the click
     * and of every audible track, each read from a zero-padded slice.
     */
    function MixedSample(pos: int, i: int): int
      requires |clickTrack| > 0
      reads this`clickIsMuted, this`latencyCompensationSamples, this`tracks, tracks,
        set t | t in tracks :: t.buffer
    {
      Wrap16(ClickPart(pos, i) + TracksSum(tracks, |tracks|, PlaybackStart(pos), i))
    }

    /** The third step: mix the click and the audible tracks into an int16 accumulator and clip it. */
    method MixBlock(start: int, frames: nat) returns (out: seq<int>)
      requires |clickTrack| > 0
      ensures |out| == frames
      ensures forall i :: 0 <= i < frames ==> out[i] == MixedSample(start, i) && IsInt16(out[i])
    {
      var globalAudioOut := Silence(frames);
      if !clickIsMuted {
        var clickPosition := start % |clickTrack|;
        globalAudioOut := AddSegment(globalAudioOut, clickTrack, clickPosition);
      }
      var playbackStart := PlaybackStart(start);
      ghost var clicks := globalAudioOut;
      globalAudioOut := AddTracks(globalAudioOut, playbackStart);
      forall i | 0 <= i < frames
        ensures globalAudioOut[i] == MixedSample(start, i)
      {
        WrapAccumulates(ClickPart(start, i), TracksSum(tracks, |tracks|, playbackStart, i));
      }
      out := seq(frames, i requires 0 <= i < frames => Clip16(globalAudioOut[i]));
    }

    /** The loop over the tracks: every audible track's segment from playbackStart is added on. */
    method AddTracks(acc: seq<int>, playbackStart: int) returns (r: seq<int>)
      requires forall i :: 0 <= i < |acc| ==> IsInt16(acc[i])
      ensures |r| == |acc|
      ensures forall i :: 0 <= i < |acc| ==> r[i] == Wrap16(acc[i] + TracksSum(tracks, |tracks|, playbackStart, i))
    {
      r := acc;
      forall i | 0 <= i < |acc|
        ensures r[i] == Wrap16(acc[i] + TracksSum(tracks, 0, playbackStart, i))
      {
      }
      var k := 0;
      while k < |tracks|
        invariant 0 <= k <= |tracks|
        invariant |r| == |acc|
        invariant forall i :: 0 <= i < |acc| ==> r[i] == Wrap16(acc[i] + TracksSum(tracks, k, playbackStart, i))
      {
        var track := tracks[k];
        if !track.isMuted && !track.isRecording {
          var loopSegment := track.buffer[..];
          MixTrackStep(tracks, k, playbackStart, acc, r);
          r := AddSegment(r, loopSegment, playbackStart);
        }
        k := k + 1;
      }
    }

    /** The first two steps of a playing block: resolve the checkpoint, then record. */
    method Capture(indata: seq<int>) returns (reached: bool)
      requires Valid() && |indata| <= FramesPerLoop
      modifies this`currentTrack, this`tracks, this`checkpointAction, currentTrack
      modifies if currentTrack == null then {} else {currentTrack.rawBuffer}
      ensures Valid()
      ensures reached == Reached(position, |indata|, checkpointPosition)
      ensures checkpointAction == (if reached then NoAction else old(checkpointAction))
      ensures old(currentTrack) != null ==>
        && old(currentTrack).isRecording == !(reached && old(checkpointAction) != NoAction)
        && old(currentTrack).buffer == old(currentTrack.buffer)
        && old(currentTrack).isMuted == old(currentTrack.isMuted)
        && old(currentTrack).pitchShift == old(currentTrack.pitchShift)
        && old(currentTrack).name == old(currentTrack.name)
      ensures reached && old(checkpointAction) == New ==>
        && currentTrack != null && fresh(currentTrack) && fresh(currentTrack.rawBuffer)
        && tracks == old(tracks) + [currentTrack]
        && currentTrack.isRecording && currentTrack.buffer == currentTrack.rawBuffer
        && !currentTrack.isMuted && currentTrack.pitchShift == 0 && currentTrack.name == None
        && currentTrack.rawBuffer[..] == Recorded(Silence(FramesPerLoop), position, indata)
      ensures reached && old(checkpointAction) == Stop ==> currentTrack == null && tracks == old(tracks)
      ensures !reached || old(checkpointAction) == NoAction ==>
        && currentTrack == old(currentTrack) && tracks == old(tracks)
        && (currentTrack != null ==>
              currentTrack.rawBuffer[..] == Recorded(old(currentTrack.rawBuffer[..]), position, indata))
      ensures old(currentTrack) != null && reached && old(checkpointAction) != NoAction ==>
        old(currentTrack).rawBuffer[..] == old(currentTrack.rawBuffer[..])
      ensures forall k :: 0 <= k < |old(tracks)| && old(tracks)[k] != old(currentTrack) ==>
        old(tracks)[k].rawBuffer[..] == old(tracks[k].rawBuffer[..])
    {
      reached := ResolveCheckpoint(|indata|);
      Record(indata);
    }

    /**
     * The steps of audio_callback after the pause check: resolve the
     * checkpoint, record, mix and clip, advance the position.
     */
    method PlayBlock(indata: seq<int>, frames: nat) returns (outdata: seq<int>)
      requires Valid() && |indata| == frames && frames <= FramesPerLoop
      modifies this`currentTrack, this`tracks, this`checkpointAction, this`position, currentTrack
      modifies if currentTrack == null then {} else {currentTrack.rawBuffer}
      ensures Valid()
      ensures |outdata| == frames
      ensures
        var reached := Reached(old(position), frames, old(checkpointPosition));
        && position == NextPosition(old(position), frames)
        && checkpointAction == (if reached then NoAction else old(checkpointAction))
        && (old(currentTrack) != null ==>
              && old(currentTrack).isRecording == !(reached && old(checkpointAction) != NoAction)
              && old(currentTrack).buffer == old(currentTrack.buffer)
              && old(currentTrack).isMuted == old(currentTrack.isMuted)
              && old(currentTrack).pitchShift == old(currentTrack.pitchShift)
              && old(currentTrack).name == old(currentTrack.name))
        && (reached && old(checkpointAction) == New ==>
              && currentTrack != null && fresh(currentTrack) && fresh(currentTrack.rawBuffer)
              && tracks == old(tracks) + [currentTrack]
              && currentTrack.isRecording && currentTrack.buffer == currentTrack.rawBuffer
              && !currentTrack.isMuted && currentTrack.pitchShift == 0 && currentTrack.name == None
              && currentTrack.rawBuffer[..] == Recorded(Silence(FramesPerLoop), old(position), indata))
        && (reached && old(checkpointAction) == Stop ==> currentTrack == null && tracks == old(tracks))
        && (!reached || old(checkpointAction) == NoAction ==>
              && currentTrack == old(currentTrack) && tracks == old(tracks)
              && (currentTrack != null ==>
                    currentTrack.rawBuffer[..] == Recorded(old(currentTrack.rawBuffer[..]), old(position), indata)))
        && (forall i :: 0 <= i < frames ==> outdata[i] == MixedSample(old(position), i))
      ensures (old(currentTrack) != null && Reached(old(position), frames, old(checkpointPosition))
               && old(checkpointAction) != NoAction) ==>
        old(currentTrack).rawBuffer[..] == old(currentTrack.rawBuffer[..])
      ensures forall k :: 0 <= k < |old(tracks)| && old(tracks)[k] != old(currentTrack) ==>
        old(tracks)[k].rawBuffer[..] == old(tracks[k].rawBuffer[..])
      ensures forall i :: 0 <= i < |outdata| ==> IsInt16(outdata[i])
    {
      var reached := Capture(indata);
      // The mix reads the block's start, so advancing first changes nothing.
      var start := position;
      position := position + frames;
      if position >= FramesPerLoop {
        position := 0;
      }
      outdata := MixBlock(start, frames);
    }

    /**
     * audio_callback: one block of `frames` input samples in, one block of
     * output samples out (the device's output buffer is the result).
     */
    method AudioCallback(indata: seq<int>, frames: nat) returns (outdata: seq<int>)
      requires Valid() && |indata| == frames && frames <= FramesPerLoop
      modifies this, currentTrack, if currentTrack == null then {} else {currentTrack.rawBuffer}
      ensures Valid()
      ensures |outdata| == frames
      // paused: silence, and nothing changes
      ensures !old(isPlaying) ==>
        && outdata == Silence(frames)
        && unchanged(this)
        && (old(currentTrack) != null ==> unchanged(old(currentTrack), old(currentTrack).rawBuffer))
      // playing
      ensures old(isPlaying) ==>
        var reached := Reached(old(position), frames, old(checkpointPosition));
        && position == NextPosition(old(position), frames)
        && checkpointPosition == old(checkpointPosition)
        && checkpointAction == (if reached then NoAction else old(checkpointAction))
        && clickIsMuted == old(clickIsMuted) && isPlaying == old(isPlaying)
        && latencyCompensationSamples == old(latencyCompensationSamples)
        && (old(currentTrack) != null ==>
              && old(currentTrack).isRecording == !(reached && old(checkpointAction) != NoAction)
              && old(currentTrack).buffer == old(currentTrack.buffer)
              && old(currentTrack).isMuted == old(currentTrack.isMuted)
              && old(currentTrack).pitchShift == old(currentTrack.pitchShift)
              && old(currentTrack).name == old(currentTrack.name))
        && (reached && old(checkpointAction) == New ==>
              && currentTrack != null && fresh(currentTrack) && fresh(currentTrack.rawBuffer)
              && tracks == old(tracks) + [currentTrack]
              && currentTrack.isRecording && currentTrack.buffer == currentTrack.rawBuffer
              && !currentTrack.isMuted && currentTrack.pitchShift == 0 && currentTrack.name == None
              && currentTrack.rawBuffer[..] == Recorded(Silence(FramesPerLoop), old(position), indata))
        && (reached && old(checkpointAction) == Stop ==> currentTrack == null && tracks == old(tracks))
        && (!reached || old(checkpointAction) == NoAction ==>
              && currentTrack == old(currentTrack) && tracks == old(tracks)
              && (currentTrack != null ==>
                    currentTrack.rawBuffer[..] == Recorded(old(currentTrack.rawBuffer[..]), old(position), indata)))
        && (forall i :: 0 <= i < frames ==> outdata[i] == MixedSample(old(position), i))
      // every other track keeps its samples
      // the take closed by this block keeps its samples
      ensures (old(isPlaying) && old(currentTrack) != null && Reached(old(position), frames, old(checkpointPosition))
               && old(checkpointAction) != NoAction) ==>
        old(currentTrack).rawBuffer[..] == old(currentTrack.rawBuffer[..])
      ensures forall k :: 0 <= k < |old(tracks)| && old(tracks)[k] != old(currentTrack) ==>
        old(tracks)[k].rawBuffer[..] == old(tracks[k].rawBuffer[..])
      ensures forall i :: 0 <= i < |outdata| ==> IsInt16(outdata[i])
    {
      outdata := Silence(frames);
      if !isPlaying {
        return;
      }
      outdata := PlayBlock(indata, frames);
    }

    /** LoopMachine.__str__ */
    function Summary(): string
      reads this`tracks, tracks
    {
      "Tracks (" + NatToString(|tracks|) + "):" + Listing(Labels(tracks), 0)
    }

    /** The summary has one line per track after its header, as long as no track name spans lines. */
    lemma SummaryLines()
      requires forall k :: 0 <= k < |tracks| ==> CountNewlines(tracks[k].Describe()) == 0
      ensures CountNewlines(Summary()) == |tracks|
    {
      var labels := Labels(tracks);
      assert forall k :: 0 <= k < |labels| ==> CountNewlines(labels[k]) == 0;
      SummaryLineCount(|tracks|, labels);
    }

    /** Line k + 1 of the summary is "  k: " followed by the label of track k. */
    lemma SummaryLine(k: nat)
      requires k < |tracks|
      ensures Summary() ==
        "Tracks (" + NatToString(|tracks|) + "):" + Listing(Labels(tracks)[..k], 0)
          + ListingEntry(k, tracks[k].Describe()) + Listing(Labels(tracks)[k + 1..], k + 1)
    {
      SummaryEntry(|tracks|, Labels(tracks), k);
    }
  }

  /** "Tracks (n):" followed by the listing: line k names track k and shows its label. */
  lemma SummaryEntry(count: nat, labels: seq<string>, k: nat)
    requires k < |labels|
    ensures "Tracks (" + NatToString(count) + "):" + Listing(labels, 0) ==
      "Tracks (" + NatToString(count) + "):" + Listing(labels[..k], 0) + ListingEntry(k, labels[k]) + Listing(labels[k + 1..], k + 1)
  {
    var head := "Tracks (" + NatToString(count) + "):";
    ListingLine(labels, k);
    AppendAssociates(head, Listing(labels[..k], 0) + ListingEntry(k, labels[k]), Listing(labels[k + 1..], k + 1));
    AppendAssociates(head, Listing(labels[..k], 0), ListingEntry(k, labels[k]));
  }

  /** "Tracks (n):" followed by the listing has one newline per label. */
  lemma SummaryLineCount(count: nat, labels: seq<string>)
    requires forall k :: 0 <= k < |labels| ==> CountNewlines(labels[k]) == 0
    ensures CountNewlines("Tracks (" + NatToString(count) + "):" + Listing(labels, 0)) == |labels|
  {
    var head := "Tracks (" + NatToString(count) + "):";
    NoNewlineChars(head);
    ListingLineCount(labels, 0);
    CountNewlinesAppend(head, Listing(labels, 0));
  }

  /** The labels of the tracks, in order. */
  function Labels(ts: seq<Track>): (r: seq<string>)
    reads ts
    ensures |r| == |ts| && forall k :: 0 <= k < |ts| ==> r[k] == ts[k].Describe()
  {
    seq(|ts|, k requires 0 <= k < |ts| reads ts => ts[k].Describe())
  }

  /** One line "\n  i: label" per track, numbered from `first`. */
  function Listing(labels: seq<string>, first: nat): string {
    if |labels| == 0 then "" else ListingEntry(first, labels[0]) + Listing(labels[1..], first + 1)
  }

  /** The line of the listing for the track numbered n. */
  function ListingEntry(n: nat, entryLabel: string): string {
    "\n  " + NatToString(n) + ": " + entryLabel
  }

  /**
   * The listing is built line by line: listing a + b lists a, then lists b
   * numbered on from where a stopped.
   */
  lemma {:induction false} ListingAppend(a: seq<string>, b: seq<string>, first: nat)
    ensures Listing(a + b, first) == Listing(a, first) + Listing(b, first + |a|)
  {
    if |a| == 0 {
      assert a + b == b;
    } else {
      ListingAppend(a[1..], b, first + 1);
      ListingStep(a, b, first);
      AppendAssociates(ListingEntry(first, a[0]), Listing(a[1..], first + 1), Listing(b, first + |a|));
    }
  }

  /** The first line of listing a + b is the first line of a. */
  lemma ListingStep(a: seq<string>, b: seq<string>, first: nat)
    requires |a| > 0
    ensures Listing(a + b, first) == ListingEntry(first, a[0]) + Listing(a[1..] + b, first + 1)
  {
    assert (a + b)[0] == a[0];
    assert (a + b)[1..] == a[1..] + b;
  }

  lemma AppendAssociates<T>(x: seq<T>, y: seq<T>, z: seq<T>)
    ensures x + (y + z) == (x + y) + z
  {
  }

  /** Line k of the listing reads "\n  k: " followed by the k-th label. */
  lemma ListingLine(labels: seq<string>, k: nat)
    requires k < |labels|
    ensures Listing(labels, 0) ==
      Listing(labels[..k], 0) + ListingEntry(k, labels[k]) + Listing(labels[k + 1..], k + 1)
  {
    ListingSplit(labels, k);
    ListingTail(labels, k);
    AppendAssociates(Listing(labels[..k], 0), ListingEntry(k, labels[k]), Listing(labels[k + 1..], k + 1));
  }

  lemma ListingSplit(labels: seq<string>, k: nat)
    requires k <= |labels|
    ensures Listing(labels, 0) == Listing(labels[..k], 0) + Listing(labels[k..], k)
  {
    var front, back := labels[..k], labels[k..];
    ListingAppend(front, back, 0);
    TakeDropJoin(labels, k);
  }

  lemma TakeDropJoin<T>(s: seq<T>, k: nat)
    requires k <= |s|
    ensures s[..k] + s[k..] == s
  {
  }

  lemma ListingTail(labels: seq<string>, k: nat)
    requires k < |labels|
    ensures Listing(labels[k..], k) == ListingEntry(k, labels[k]) + Listing(labels[k + 1..], k + 1)
  {
    assert labels[k..][0] == labels[k];
    assert labels[k..][1..] == labels[k + 1..];
  }

  function CountNewlines(s: string): nat {
    if |s| == 0 then 0 else CountNewlines(s[..|s| - 1]) + (if s[|s| - 1] == '\n' then 1 else 0)
  }

  lemma {:induction false} CountNewlinesAppend(a: string, b: string)
    ensures CountNewlines(a + b) == CountNewlines(a) + CountNewlines(b)
  {
    if |b| > 0 {
      CountNewlinesAppend(a, b[..|b| - 1]);
      assert (a + b)[..|a + b| - 1] == a + b[..|b| - 1];
    } else {
      assert a + b == a;
    }
  }

  lemma {:induction false} NoNewlineChars(s: string)
    requires forall i :: 0 <= i < |s| ==> s[i] != '\n'
    ensures CountNewlines(s) == 0
  {
    if |s| > 0 {
      NoNewlineChars(s[..|s| - 1]);
    }
  }

  /** The listing has one line per track when no label spans lines. */
  lemma {:induction false} ListingLineCount(labels: seq<string>, first: nat)
    requires forall k :: 0 <= k < |labels| ==> CountNewlines(labels[k]) == 0
    ensures CountNewlines(Listing(labels, first)) == |labels|
  {
    if |labels| > 0 {
      ListingLineCount(labels[1..], first + 1);
      EntryLineCount(first, labels[0]);
      CountNewlinesAppend(ListingEntry(first, labels[0]), Listing(labels[1..], first + 1));
    }
  }

  /** A listing line holds exactly one newline, its leading one, when its label has none. */
  lemma EntryLineCount(n: nat, entryLabel: string)
    requires CountNewlines(entryLabel) == 0
    ensures CountNewlines(ListingEntry(n, entryLabel)) == 1
  {
    var num := NatToString(n);
    NoNewlineChars(num);
    CountNewlinesAppend("\n  ", num);
    CountNewlinesAppend("\n  " + num, ": ");
    CountNewlinesAppend("\n  " + num + ": ", entryLabel);
    assert CountNewlines("\n  ") == 1;
    assert CountNewlines(": ") == 0;
  }
}
