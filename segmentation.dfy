/**
 * Cutting a waveform into frames (the arithmetic of `chunk_file_to_frames`):
 * `len(wf) // frame_len` consecutive, non-overlapping frames of exactly
 * `frame_len` samples, frame `i` being `wf[i*frame_len : i*frame_len+frame_len]`;
 * the samples after the last whole frame are dropped.
 */
module Segmentation {
  import opened Container

  /** `n_frames = len(wf) // frame_len`. */
  function FrameCount(len: nat, frameLen: nat): nat
    requires frameLen > 0
  {
    len / frameLen
  }

  /** The frame count is the largest number of whole frames that fit, and what is left is `len % frameLen`. */
  lemma FrameCountIsLargestFit(len: nat, frameLen: nat)
    requires frameLen > 0
    ensures FrameCount(len, frameLen) * frameLen <= len < (FrameCount(len, frameLen) + 1) * frameLen
    ensures len - FrameCount(len, frameLen) * frameLen == len % frameLen < frameLen
  {
    var n := FrameCount(len, frameLen);
    assert len == n * frameLen + len % frameLen;
    assert (n + 1) * frameLen == n * frameLen + frameLen;
  }

  lemma FrameInBounds(len: nat, frameLen: nat, i: nat)
    requires frameLen > 0 && i < FrameCount(len, frameLen)
    ensures i * frameLen + frameLen <= len
  {
    var n := FrameCount(len, frameLen);
    assert len == n * frameLen + len % frameLen;
    MulMonotone(i + 1, n, frameLen);
  }

  lemma MulMonotone(a: nat, b: nat, c: nat)
    requires a <= b
    ensures a * c <= b * c
  {
  }

  lemma AllFramesInBounds(len: nat, frameLen: nat)
    requires frameLen > 0
    ensures forall i: nat :: i < FrameCount(len, frameLen) ==> i * frameLen + frameLen <= len
  {
    forall i: nat | i < FrameCount(len, frameLen)
      ensures i * frameLen + frameLen <= len
    {
      FrameInBounds(len, frameLen, i);
    }
  }

  /** `wf[start:start+frame_len]` with `start = i * frame_len`: `frameLen` samples, in source order. */
  function Frame(wf: seq<Sample>, frameLen: nat, i: nat): (seg: seq<Sample>)
    requires frameLen > 0 && i * frameLen + frameLen <= |wf|
    ensures |seg| == frameLen
    ensures forall k :: 0 <= k < frameLen ==> seg[k] == wf[i * frameLen + k]
  {
    var lo := i * frameLen;
    wf[lo .. lo + frameLen]
  }

  /** All frames of `wf`, in source order. */
  function Frames(wf: seq<Sample>, frameLen: nat): (fs: seq<seq<Sample>>)
    requires frameLen > 0
    ensures |fs| == FrameCount(|wf|, frameLen)
    ensures forall i :: 0 <= i < |fs| ==> i * frameLen + frameLen <= |wf| && fs[i] == Frame(wf, frameLen, i)
  {
    AllFramesInBounds(|wf|, frameLen);
    seq(FrameCount(|wf|, frameLen),
        i requires 0 <= i < FrameCount(|wf|, frameLen) && i * frameLen + frameLen <= |wf| => Frame(wf, frameLen, i))
  }

  /** Frame `i` is the slice the loop of `chunk_file_to_frames` takes. */
  lemma FrameSlice(wf: seq<Sample>, frameLen: nat, i: nat)
    requires frameLen > 0 && i < FrameCount(|wf|, frameLen)
    ensures 0 <= i * frameLen && i * frameLen + frameLen <= |wf|
    ensures Frames(wf, frameLen)[i] == wf[i * frameLen .. i * frameLen + frameLen]
  {
    FrameInBounds(|wf|, frameLen, i);
  }

  /** The frames laid end to end. */
  function Concat(ss: seq<seq<Sample>>): seq<Sample> {
    if ss == [] then [] else Concat(ss[..|ss| - 1]) + ss[|ss| - 1]
  }

  lemma {:induction false} FramesPrefix(wf: seq<Sample>, frameLen: nat, k: nat)
    requires frameLen > 0 && k <= FrameCount(|wf|, frameLen)
    ensures k * frameLen <= |wf|
    ensures Concat(Frames(wf, frameLen)[..k]) == wf[..k * frameLen]
  {
    var fs := Frames(wf, frameLen);
    if k > 0 {
      FramesPrefix(wf, frameLen, k - 1);
      var lo := (k - 1) * frameLen;
      assert k * frameLen == lo + frameLen;
      assert fs[..k][..k - 1] == fs[..k - 1];
      assert fs[k - 1] == wf[lo .. lo + frameLen];
      assert wf[..lo] + wf[lo .. lo + frameLen] == wf[..lo + frameLen];
    }
  }

  /**
   * The frames, laid end to end, are exactly the waveform's first
   * `frameLen * (len / frameLen)` samples; the remaining `len % frameLen`
   * samples are in no frame.
   */
  lemma FramesCoverPrefix(wf: seq<Sample>, frameLen: nat)
    requires frameLen > 0
    ensures var used := FrameCount(|wf|, frameLen) * frameLen;
            used <= |wf| &&
            Concat(Frames(wf, frameLen)) == wf[..used] &&
            wf == Concat(Frames(wf, frameLen)) + wf[used..] &&
            |wf[used..]| == |wf| % frameLen < frameLen
  {
    var n := FrameCount(|wf|, frameLen);
    FramesPrefix(wf, frameLen, n);
    assert Frames(wf, frameLen)[..n] == Frames(wf, frameLen);
    FrameCountIsLargestFit(|wf|, frameLen);
  }

  /** 10000 samples at frame length 4096: two frames covering the first 8192 samples, 1808 dropped. */
  lemma TenThousandSamples(wf: seq<Sample>)
    requires |wf| == 10000
    ensures |Frames(wf, 4096)| == 2
    ensures Concat(Frames(wf, 4096)) == wf[..8192] && |wf[8192..]| == 1808
  {
    FramesCoverPrefix(wf, 4096);
  }
}
