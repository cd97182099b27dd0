/** The additive mixer (parse.py:222-229 and 242-251): a clip is added into
    a two-channel sample buffer starting at a sample offset, and the buffer
    is first grown with silence when the clip reaches past its end. */
module Mixing {
  import opened Text

  /** One sample instant of the two channels (a column of the source's
      `(2, n)` arrays). */
  datatype Frame = Frame(left: real, right: real)

  const Silence: Frame := Frame(0.0, 0.0)

  function Add(a: Frame, b: Frame): (r: Frame)
    ensures r.left == a.left + b.left && r.right == a.right + b.right
  {
    Frame(a.left + b.left, a.right + b.right)
  }

  /** A decoded sound file: its frames in order. */
  type Clip = seq<Frame>

  /** The clip of every slot; a slot no `#WAVxx` line names holds the empty clip. */
  type MediaTable = t: seq<Clip> | |t| == 1296 witness NoMedia()

  function NoMedia(): (t: seq<Clip>)
    ensures |t| == 1296 && forall i :: 0 <= i < |t| ==> t[i] == []
  {
    seq(1296, i => [])
  }

  /** `int(t * fs)` for a time that is never negative: the index of the
      sample whose span contains `t` (truncation and floor agree here). */
  function Offset(t: real, fs: nat): (off: nat)
    requires t >= 0.0
    ensures off as real <= t * fs as real < off as real + 1.0
  {
    (t * fs as real).Floor
  }

  /** Sample `i` of a buffer, silence past its end (where growth pads with zeros). */
  function SampleAt(buf: seq<Frame>, i: nat): Frame {
    if i < |buf| then buf[i] else Silence
  }

  /** The buffer after `clip` is added at `off`: long enough for both, each
      sample inside the clip's window its old value plus the clip's, every
      other sample its old value (silence where the buffer grew). */
  function Overlay(buf: seq<Frame>, clip: Clip, off: nat): (r: seq<Frame>)
    ensures |r| == Max(|buf|, off + |clip|)
    ensures forall i :: 0 <= i < |r| && off <= i < off + |clip| ==> r[i] == Add(SampleAt(buf, i), clip[i - off])
    ensures forall i :: 0 <= i < |r| && !(off <= i < off + |clip|) ==> r[i] == SampleAt(buf, i)
  {
    seq(Max(|buf|, off + |clip|), i requires 0 <= i =>
      if off <= i < off + |clip| then Add(SampleAt(buf, i), clip[i - off]) else SampleAt(buf, i))
  }

  /** The earlier samples survive an overlay untouched up to the clip's start. */
  lemma OverlayKeepsPrefix(buf: seq<Frame>, clip: Clip, off: nat)
    ensures var r := Overlay(buf, clip, off);
      Min(off, |buf|) <= |r| && r[..Min(off, |buf|)] == buf[..Min(off, |buf|)]
  {
  }

  /** An empty clip adds nothing: the buffer is only padded with silence up
      to the offset. */
  lemma OverlayEmptyClip(buf: seq<Frame>, off: nat)
    ensures Overlay(buf, [], off) == Padded(buf, off)
  {
  }

  /** The order in which two clips are mixed does not matter. */
  lemma {:induction false} OverlayCommutes(buf: seq<Frame>, c1: Clip, o1: nat, c2: Clip, o2: nat)
    ensures Overlay(Overlay(buf, c1, o1), c2, o2) == Overlay(Overlay(buf, c2, o2), c1, o1)
  {
    var a := Overlay(Overlay(buf, c1, o1), c2, o2);
    var b := Overlay(Overlay(buf, c2, o2), c1, o1);
    var a1 := Overlay(buf, c1, o1);
    var b1 := Overlay(buf, c2, o2);
    assert |a| == |b|;
    forall i | 0 <= i < |a| ensures a[i] == b[i] {
      var x1 := if o1 <= i < o1 + |c1| then c1[i - o1] else Silence;
      var x2 := if o2 <= i < o2 + |c2| then c2[i - o2] else Silence;
      assert SampleAt(a1, i) == Add(SampleAt(buf, i), x1);
      assert SampleAt(b1, i) == Add(SampleAt(buf, i), x2);
      assert a[i] == Add(SampleAt(a1, i), x2);
      assert b[i] == Add(SampleAt(b1, i), x1);
    }
  }

  /** A growable two-channel buffer (`bgm_audio`, `out_audio`). */
  class AudioBuffer {
    var frames: array<Frame>

    function Samples(): seq<Frame>
      reads this, frames
    {
      frames[..]
    }

    /** A buffer holding a copy of `init` (`np.zeros((2, 1))`, `.copy()`). */
    constructor(init: seq<Frame>)
      ensures Samples() == init && fresh(frames)
    {
      frames := new Frame[|init|](i requires 0 <= i < |init| => init[i]);
    }

    /** `buf[:, off:off + len(clip)] += clip`, after concatenating zeros when the
        buffer is shorter than `off + len(clip)`. */
    method Mix(clip: Clip, off: nat)
      modifies this, frames
      ensures Samples() == Overlay(old(Samples()), clip, off)
      ensures frames == old(frames) || fresh(frames)
    {
      if frames.Length < off + |clip| {
        Grow(off + |clip|);
      }
      AddAt(clip, off);
      OverlayPadded(old(Samples()), clip, off);
    }

    /** `np.concatenate((buf, np.zeros((2, n - len(buf)))), axis=1)` */
    method Grow(n: nat)
      requires frames.Length < n
      modifies this
      ensures Samples() == Padded(old(Samples()), n) && fresh(frames)
    {
      var grown := new Frame[n](i => Silence);
      forall i | 0 <= i < frames.Length {
        grown[i] := frames[i];
      }
      frames := grown;
    }

    /** The in-place addition, once the buffer is long enough. */
    method AddAt(clip: Clip, off: nat)
      requires off + |clip| <= frames.Length
      modifies frames
      ensures Samples() == Overlay(old(Samples()), clip, off)
    {
      for j := 0 to |clip|
        invariant forall i :: 0 <= i < frames.Length && off <= i < off + j ==> frames[i] == Add(old(frames[i]), clip[i - off])
        invariant forall i :: 0 <= i < frames.Length && !(off <= i < off + j) ==> frames[i] == old(frames[i])
      {
        frames[off + j] := Add(frames[off + j], clip[j]);
      }
    }
  }

  /** `buf` padded with silence to length `n`. */
  function Padded(buf: seq<Frame>, n: nat): (r: seq<Frame>)
    ensures |r| == Max(|buf|, n)
    ensures forall i :: 0 <= i < |r| ==> r[i] == SampleAt(buf, i)
  {
    buf + seq(Max(|buf|, n) - |buf|, i => Silence)
  }

  /** Padding first does not change what an overlay produces. */
  lemma OverlayPadded(buf: seq<Frame>, clip: Clip, off: nat)
    ensures Overlay(Padded(buf, off + |clip|), clip, off) == Overlay(buf, clip, off)
  {
    var p := Padded(buf, off + |clip|);
    assert forall i :: 0 <= i < |p| ==> SampleAt(p, i) == SampleAt(buf, i);
  }
}
