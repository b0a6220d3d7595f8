/** template/index.js: `PCMPlayer`, which schedules stereo blocks of PCM
    samples back to back on a Web Audio context.

    The player keeps one cursor, `startTime`, in seconds of the context's
    clock. Each block starts at the cursor, or at the clock if the clock has
    overtaken it, and moves the cursor to the block's end. The clock reading
    `ctx.currentTime` is a parameter. Samples are the binary32 bit patterns
    held by a Float32Array; the player never computes with them. */
module PcmPlayer {
  import opened Common

  /** A binary32 sample, as its bit pattern (0 is +0.0). */
  type Sample = bv32

  const NumChannels: nat := 2
  const SampleRate: nat := 44100

  /** What `bufferSource.start(when)` hands to the context: the start time
      and the channel data of the AudioBuffer. */
  datatype Block = Block(start: real, channels: seq<seq<Sample>>)

  /** The two ways a call can throw before it changes anything. */
  datatype PlayError =
    | NotSupported  // createBuffer with a length of 0
    | RangeError    // set() of a source longer than the channel

  /** The result of one `playNext`: an exception, or the block scheduled and
      the new cursor. */
  datatype PlayStep = Threw(error: PlayError) | Played(block: Block, cursor: real)

  /** `getChannelData(c).set(samples)` on a fresh channel of `length` zero
      samples: the samples, then the zeros they do not cover. */
  function SetChannel(length: nat, samples: seq<Sample>): (data: seq<Sample>)
    requires |samples| <= length
    ensures |data| == length && data[..|samples|] == samples
    ensures forall i :: |samples| <= i < length ==> data[i] == 0
  {
    samples + seq(length - |samples|, _ => 0)
  }

  function Max(a: real, b: real): real
  {
    if a < b then b else a
  }

  /** `playNext(samplesLeft, samplesRight)` with the cursor at startTime and
      the context's clock at now. */
  function PlayNext(startTime: real, left: seq<Sample>, right: seq<Sample>, now: real): PlayStep
  {
    if |left| == 0 then Threw(NotSupported)
    else if |right| > |left| then Threw(RangeError)
    else
      var channels := [SetChannel(|left|, left), SetChannel(|left|, right)];
      var start := if startTime < now then now else startTime;
      Played(Block(start, channels), start + Duration(|left|))
  }

  /** `audioBuffer.duration`: the length in samples over the sample rate. */
  function Duration(length: nat): (d: real)
    ensures d >= 0.0
  {
    length as real / SampleRate as real
  }

  /** A block is played exactly when it is non-empty and the right channel
      fits in the buffer sized by the left one. */
  lemma PlayNextThrows(startTime: real, left: seq<Sample>, right: seq<Sample>, now: real)
    ensures var r := PlayNext(startTime, left, right, now);
      (r.Threw? <==> (|left| == 0 || |right| > |left|))
      && (r.Threw? && |left| == 0 ==> r.error == NotSupported)
      && (r.Threw? && |left| > 0 ==> r.error == RangeError)
  {
  }

  /** The block starts at max(startTime, now), and the cursor moves to its
      end. */
  lemma PlayNextSchedules(startTime: real, left: seq<Sample>, right: seq<Sample>, now: real)
    requires 0 < |left| && |right| <= |left|
    ensures var r := PlayNext(startTime, left, right, now);
      r.Played? && r.block.start == Max(startTime, now)
      && r.cursor == r.block.start + |left| as real / 44100.0
  {
  }

  /** The buffer has two channels as long as the left block: channel 0 holds
      the left samples, channel 1 the right ones padded with zeros. */
  lemma PlayNextChannels(startTime: real, left: seq<Sample>, right: seq<Sample>, now: real)
    requires 0 < |left| && |right| <= |left|
    ensures var r := PlayNext(startTime, left, right, now);
      r.Played? && |r.block.channels| == NumChannels
      && r.block.channels[0] == left
      && |r.block.channels[1]| == |left| && r.block.channels[1][..|right|] == right
      && forall i :: |right| <= i < |left| ==> r.block.channels[1][i] == 0
  {
    var r := PlayNext(startTime, left, right, now);
    assert r.block.channels[0] == SetChannel(|left|, left);
  }

  /** The cursor never falls behind the clock reading of the call and never
      moves backwards; it moves strictly forward past the clock. */
  lemma CursorAhead(startTime: real, left: seq<Sample>, right: seq<Sample>, now: real)
    ensures var r := PlayNext(startTime, left, right, now);
      r.Played? ==> r.cursor > now && r.cursor > startTime && r.block.start >= now
  {
  }

  /** While the clock has not overtaken the cursor, a block starts exactly
      where the previous one ended. */
  lemma BlocksAbut(startTime: real, left: seq<Sample>, right: seq<Sample>, now: real)
    requires now <= startTime
    ensures var r := PlayNext(startTime, left, right, now);
      r.Played? ==> r.block.start == startTime
  {
  }

  /** A call of `playNext`: the two channels and the clock reading. */
  datatype Call = Call(left: seq<Sample>, right: seq<Sample>, now: real)

  /** The cursor after a run of calls; a call that throws leaves it alone. */
  function Run(startTime: real, calls: seq<Call>): real
    decreases |calls|
  {
    if calls == [] then startTime
    else
      var c := calls[0];
      match PlayNext(startTime, c.left, c.right, c.now)
      case Threw(_) => Run(startTime, calls[1..])
      case Played(_, cursor) => Run(cursor, calls[1..])
  }

  /** The total length of the blocks that are played. */
  function PlayedLength(calls: seq<Call>): nat
    decreases |calls|
  {
    if calls == [] then 0
    else
      var c := calls[0];
      (if |c.left| == 0 || |c.right| > |c.left| then 0 else |c.left|) + PlayedLength(calls[1..])
  }

  /** The cursor ends at least the played duration past where it started. */
  lemma {:induction false} RunCoversPlayed(startTime: real, calls: seq<Call>)
    ensures Run(startTime, calls) >= startTime + Duration(PlayedLength(calls))
    decreases |calls|
  {
    if calls != [] {
      var c := calls[0];
      var rest := calls[1..];
      RunCoversPlayed(startTime, rest);
      match PlayNext(startTime, c.left, c.right, c.now)
      case Threw(_) =>
      case Played(_, cursor) =>
        RunCoversPlayed(cursor, rest);
        assert Duration(PlayedLength(calls)) == Duration(|c.left|) + Duration(PlayedLength(rest));
    }
  }

  /** When no clock reading overtakes the starting cursor, the blocks are laid
      end to end: the cursor ends exactly the played duration later. */
  lemma {:induction false} RunGapless(startTime: real, calls: seq<Call>)
    requires forall i :: 0 <= i < |calls| ==> calls[i].now <= startTime
    ensures Run(startTime, calls) == startTime + Duration(PlayedLength(calls))
    decreases |calls|
  {
    if calls != [] {
      var c := calls[0];
      var rest := calls[1..];
      assert forall i :: 0 <= i < |rest| ==> rest[i] == calls[i + 1];
      match PlayNext(startTime, c.left, c.right, c.now)
      case Threw(_) =>
        RunGapless(startTime, rest);
      case Played(_, cursor) =>
        assert forall i :: 0 <= i < |rest| ==> rest[i].now <= cursor;
        RunGapless(cursor, rest);
        assert Duration(PlayedLength(calls)) == Duration(|c.left|) + Duration(PlayedLength(rest));
    }
  }

  /** Two one-second blocks played at time 0 start at 0 and at 1. */
  lemma TwoSecondsExample(left: seq<Sample>)
    requires |left| == 44100
    ensures var first := PlayNext(0.0, left, left, 0.0);
      first.Played? && first.block.start == 0.0 && first.cursor == 1.0
      && var second := PlayNext(first.cursor, left, left, 0.0);
      second.Played? && second.block.start == 1.0 && second.cursor == 2.0
  {
  }

  /** The player object: its cursor and the blocks it has scheduled on the
      context. */
  class Player {
    var startTime: real
    var scheduled: seq<Block>

    /** `new PCMPlayer(ctx)`: cursor at 0, two channels at 44100 Hz. */
    constructor ()
      ensures startTime == 0.0 && scheduled == []
    {
      startTime := 0.0;
      scheduled := [];
    }

    /** `playNext`: on an exception nothing changes; otherwise the block is
        scheduled and the cursor moves to its end. */
    method PlayNextBlock(left: seq<Sample>, right: seq<Sample>, now: real) returns (err: Option<PlayError>)
      modifies this
      ensures var r := PlayNext(old(startTime), left, right, now);
        match r
        case Threw(e) => err == Some(e) && startTime == old(startTime) && scheduled == old(scheduled)
        case Played(block, cursor) =>
          err == None && startTime == cursor && scheduled == old(scheduled) + [block]
    {
      if |left| == 0 {
        return Some(NotSupported);
      }
      if |right| > |left| {
        return Some(RangeError);
      }
      var channel0 := SetChannel(|left|, left);
      var channel1 := SetChannel(|left|, right);
      if startTime < now {
        startTime := now;
      }
      scheduled := scheduled + [Block(startTime, [channel0, channel1])];
      startTime := startTime + Duration(|left|);
      err := None;
    }
  }
}
