/** cmdwasm/audiotrack/main.go: the helpers of the audio-track demo.

    Decoded chunks hold interleaved stereo samples; the demo splits them into
    a left and a right channel for the PCM player. Samples are float32
    values, carried as their binary32 bit patterns. */
module AudioTrack {
  import opened Common
  import opened PcmPlayer

  /** The even-indexed samples: the left channel. */
  function Left(samples: seq<Sample>): (l: seq<Sample>)
    ensures |l| == |samples| / 2
  {
    seq(|samples| / 2, i requires 0 <= i < |samples| / 2 => samples[2 * i])
  }

  /** The odd-indexed samples: the right channel. */
  function Right(samples: seq<Sample>): (r: seq<Sample>)
    ensures |r| == |samples| / 2
  {
    seq(|samples| / 2, i requires 0 <= i < |samples| / 2 => samples[2 * i + 1])
  }

  /** Puts two channels of equal length back into one interleaved stream. */
  function Interleave(left: seq<Sample>, right: seq<Sample>): (s: seq<Sample>)
    requires |left| == |right|
    ensures |s| == 2 * |left|
  {
    if left == [] then [] else [left[0], right[0]] + Interleave(left[1..], right[1..])
  }

  /** The de-interleaving loop of the chunk callback: `left` and `right`
      are made with len(Samples)/2 zero samples and filled pairwise. */
  method Deinterleave(samples: seq<Sample>) returns (left: array<Sample>, right: array<Sample>)
    ensures fresh(left) && fresh(right)
    ensures left[..] == Left(samples) && right[..] == Right(samples)
  {
    var half := |samples| / 2;
    left := new Sample[half](_ => 0);
    right := new Sample[half](_ => 0);
    var i, j := 0, 0;
    while i < half
      invariant 0 <= i <= half && j == 2 * i
      invariant forall k :: 0 <= k < i ==> left[k] == samples[2 * k] && right[k] == samples[2 * k + 1]
    {
      left[i] := samples[j];
      right[i] := samples[j + 1];
      i, j := i + 1, j + 2;
    }
  }

  /** Splitting loses nothing but a trailing odd sample: interleaving the
      two channels again gives back every sample up to the last full pair. */
  lemma {:induction false} SplitThenInterleave(samples: seq<Sample>)
    ensures Interleave(Left(samples), Right(samples)) == samples[..2 * (|samples| / 2)]
    decreases |samples|
  {
    if |samples| >= 2 {
      var rest := samples[2..];
      assert Left(samples)[1..] == Left(rest);
      assert Right(samples)[1..] == Right(rest);
      SplitThenInterleave(rest);
      assert samples[..2 * (|samples| / 2)] == [samples[0], samples[1]] + rest[..2 * (|rest| / 2)];
    }
  }

  /** Interleaving two channels and splitting the result gives back the
      channels. */
  lemma {:induction false} InterleaveThenSplit(left: seq<Sample>, right: seq<Sample>)
    requires |left| == |right|
    ensures Left(Interleave(left, right)) == left && Right(Interleave(left, right)) == right
    decreases |left|
  {
    if left != [] {
      var s := Interleave(left, right);
      var rest := Interleave(left[1..], right[1..]);
      InterleaveThenSplit(left[1..], right[1..]);
      assert s == [left[0], right[0]] + rest;
      assert s[2..] == rest;
      assert Left(s) == [left[0]] + Left(rest);
      assert Right(s) == [right[0]] + Right(rest);
    }
  }

  /** The two channels handed to `playNext` are of equal length, so a
      chunk of at least one pair always plays, its left samples on channel
      0 and its right ones on channel 1; a chunk of fewer than two samples
      makes `createBuffer` throw. */
  lemma ChunkPlays(samples: seq<Sample>, startTime: real, now: real)
    ensures var r := PlayNext(startTime, Left(samples), Right(samples), now);
      (|samples| < 2 ==> r == Threw(NotSupported))
      && (|samples| >= 2 ==> r.Played? && r.block.channels == [Left(samples), Right(samples)])
  {
    var l, rt := Left(samples), Right(samples);
    if |samples| >= 2 {
      PlayNextChannels(startTime, l, rt, now);
      var r := PlayNext(startTime, l, rt, now);
      assert r.block.channels[1] == rt;
    }
  }

  /** `mustWrite(w, p)` after `w.Write(p)` returned (n, err), with pLen the
      length of p. */
  function MustWrite(n: nat, err: Option<GoError>, pLen: nat): Outcome<()>
  {
    if err.Some? then Panic("write error")
    else if n < pLen then Panic("short write, panicking with the nil error")
    else if n == 0 then Panic("0 write")
    else Ok(())
  }

  /** A write error or a short write panics; the zero-write check, coming
      after the short-write check, is reached only for an empty p. */
  lemma MustWriteChecks(n: nat, err: Option<GoError>, pLen: nat)
    ensures MustWrite(n, err, pLen).Ok? <==> err.None? && n >= pLen && n > 0
    ensures MustWrite(n, err, pLen) == Panic("0 write") <==> err.None? && n == 0 && pLen == 0
  {
  }

  /** `b[:len(b)-1]` in `forEachChunk`: drops the final byte of a decoded
      block; an empty block is out of range and panics. */
  function StripLast(b: seq<byte>): Outcome<seq<byte>>
  {
    if b == [] then Panic("slice bounds out of range [:-1]") else Ok(b[..|b| - 1])
  }

  lemma StripLastDropsOne(b: seq<byte>)
    ensures StripLast(b).Panic? <==> b == []
    ensures b != [] ==> StripLast(b).value + [b[|b| - 1]] == b
  {
  }
}
