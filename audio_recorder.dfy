/** The end-pointing capture of `record_with_immediate_stop`: the per-block
    callback that calibrates a noise threshold, keeps only loud blocks and
    decides when a pause has lasted long enough to stop; and the conversion
    of the kept blocks into 16-bit samples when they are saved. The RMS
    energy of a block and the clock reading are inputs. */
module AudioRecorder {
  import opened Wrappers

  const SampleRate: nat := 16000
  const SilenceThreshold: real := 0.005
  const MaxSilenceDuration: real := 1.0
  const CalibrationTime: real := 0.5
  const ChunkSize: nat := 512

  /** One block of float samples as the input stream delivers it. */
  type Frame = seq<real>

  function Sum(xs: seq<real>): real
  {
    if xs == [] then 0.0 else Sum(xs[..|xs| - 1]) + xs[|xs| - 1]
  }

  /** `np.mean` of a non-empty list. */
  function Mean(xs: seq<real>): real
    requires xs != []
  {
    Sum(xs) / |xs| as real
  }

  /** `max(SILENCE_THRESHOLD, background_noise_level)`. */
  function Threshold(level: real): (t: real)
    ensures t >= SilenceThreshold && t >= level
    ensures t == SilenceThreshold || t == level
  {
    if level > SilenceThreshold then level else SilenceThreshold
  }

  /** A louder calibration never lowers the threshold. */
  lemma ThresholdMonotone(a: real, b: real)
    requires a <= b
    ensures Threshold(a) <= Threshold(b)
  {
  }

  /** The callback's closure state between two blocks. */
  datatype Capture = Capture(
    startTime: real,
    noiseSamples: seq<real>,
    calibrationDone: bool,
    backgroundNoiseLevel: real,
    recordingStarted: bool,
    silenceStart: Option<real>,
    recording: seq<Frame>)

  /** The state when the stream opens at `startTime`. */
  function Initial(startTime: real): Capture
  {
    Capture(startTime, [], false, 0.0, false, None, [])
  }

  /** One call of `callback` on a block of energy `energy` arriving at time
      `now`: the new state, and whether the callback stops the stream. */
  function Next(c: Capture, energy: real, now: real, frame: Frame): (r: (Capture, bool))
    // While calibrating, a block only adds its energy to the noise samples;
    // calibration ends on the first block later than CALIBRATION_TIME, and
    // the level is then set, once, to twice the mean including that block.
    ensures !c.calibrationDone ==>
              && !r.1
              && r.0.noiseSamples == c.noiseSamples + [energy]
              && r.0.recording == c.recording
              && r.0.recordingStarted == c.recordingStarted
              && r.0.silenceStart == c.silenceStart
              && (r.0.calibrationDone <==> now - c.startTime > CalibrationTime)
              && r.0.backgroundNoiseLevel ==
                   if r.0.calibrationDone then Mean(r.0.noiseSamples) * 2.0 else c.backgroundNoiseLevel
    // After calibration the noise samples and the level never change.
    ensures c.calibrationDone ==>
              && r.0.calibrationDone
              && r.0.noiseSamples == c.noiseSamples
              && r.0.backgroundNoiseLevel == c.backgroundNoiseLevel
    // A loud block is kept, starts the recording and ends any pause.
    ensures c.calibrationDone && energy > Threshold(c.backgroundNoiseLevel) ==>
              && !r.1
              && r.0.recording == c.recording + [frame]
              && r.0.recordingStarted
              && r.0.silenceStart.None?
    // A quiet block is never kept and never starts the recording.
    ensures (!c.calibrationDone || energy <= Threshold(c.backgroundNoiseLevel)) ==>
              r.0.recording == c.recording && r.0.recordingStarted == c.recordingStarted
    // Before the recording has started a quiet block changes nothing.
    ensures c.calibrationDone && !c.recordingStarted && energy <= Threshold(c.backgroundNoiseLevel) ==>
              r == (c, false)
    // The first quiet block of a pause only marks its start.
    ensures (c.calibrationDone && c.recordingStarted && energy <= Threshold(c.backgroundNoiseLevel)
             && c.silenceStart.None?) ==> r == (c.(silenceStart := Some(now)), false)
    // The stream stops only on a quiet block more than MAX_SILENCE_DURATION
    // after the pause began; the state is then left as it was.
    ensures r.1 <==>
              && c.calibrationDone && c.recordingStarted
              && energy <= Threshold(c.backgroundNoiseLevel)
              && c.silenceStart.Some? && now - c.silenceStart.value > MaxSilenceDuration
    ensures r.1 ==> r.0 == c
    // A quiet block during an open pause leaves the state as it was: the
    // pause keeps the time of the block that opened it.
    ensures (c.calibrationDone && c.recordingStarted && energy <= Threshold(c.backgroundNoiseLevel)
             && c.silenceStart.Some?) ==> r.0 == c
    // The recording never stops once started, and the stream's start time
    // is never moved.
    ensures c.recordingStarted ==> r.0.recordingStarted
    ensures r.0.startTime == c.startTime
  {
    if !c.calibrationDone then
      var noise := c.noiseSamples + [energy];
      if now - c.startTime > CalibrationTime then
        (c.(noiseSamples := noise, backgroundNoiseLevel := Mean(noise) * 2.0, calibrationDone := true), false)
      else
        (c.(noiseSamples := noise), false)
    else if energy > Threshold(c.backgroundNoiseLevel) then
      (c.(recordingStarted := true, silenceStart := None, recording := c.recording + [frame]), false)
    else if c.recordingStarted then
      if c.silenceStart.None? then (c.(silenceStart := Some(now)), false)
      else if now - c.silenceStart.value > MaxSilenceDuration then (c, true)
      else (c, false)
    else
      (c, false)
  }

  /** The closure of `record_with_immediate_stop`, whose fields `callback`
      updates in place on every block. */
  class CaptureEngine {
    var startTime: real
    var noiseSamples: seq<real>
    var calibrationDone: bool
    var backgroundNoiseLevel: real
    var recordingStarted: bool
    var silenceStart: Option<real>
    var recording: seq<Frame>

    function Snapshot(): Capture
      reads this
    {
      Capture(startTime, noiseSamples, calibrationDone, backgroundNoiseLevel,
              recordingStarted, silenceStart, recording)
    }

    constructor (startTime: real)
      ensures Snapshot() == Initial(startTime)
    {
      this.startTime := startTime;
      noiseSamples := [];
      calibrationDone := false;
      backgroundNoiseLevel := 0.0;
      recordingStarted := false;
      silenceStart := None;
      recording := [];
    }

    /** `callback` on one block; `stop` is the raised `CallbackStop`. */
    method Step(energy: real, now: real, frame: Frame) returns (stop: bool)
      modifies this
      ensures (Snapshot(), stop) == Next(old(Snapshot()), energy, now, frame)
      ensures recording == old(recording) || recording == old(recording) + [frame]
    {
      stop := false;
      if !calibrationDone {
        noiseSamples := noiseSamples + [energy];
        if now - startTime > CalibrationTime {
          backgroundNoiseLevel := Mean(noiseSamples) * 2.0;
          calibrationDone := true;
        }
        return;
      }
      var currentThreshold := Threshold(backgroundNoiseLevel);
      if energy > currentThreshold {
        if !recordingStarted {
          recordingStarted := true;
        }
        silenceStart := None;
        recording := recording + [frame];
      } else if recordingStarted {
        if silenceStart.None? {
          silenceStart := Some(now);
        } else if now - silenceStart.value > MaxSilenceDuration {
          stop := true;
        }
      }
    }
  }

  // ---------------------------------------------------------------------------
  // A stream of blocks

  /** A block as the callback receives it: its energy, its arrival time and
      its samples. */
  datatype Block = Block(energy: real, now: real, frame: Frame)

  /** The state after the stream has delivered `blocks`, and whether it has
      been stopped; no block reaches the callback after the stop. */
  function Run(c: Capture, blocks: seq<Block>): (Capture, bool)
  {
    if blocks == [] then (c, false)
    else
      var (d, stopped) := Run(c, blocks[..|blocks| - 1]);
      var b := blocks[|blocks| - 1];
      if stopped then (d, true) else Next(d, b.energy, b.now, b.frame)
  }

  /** The recording only grows, the flags never revert, and the calibrated
      level, once set, is kept for the rest of the stream. */
  lemma {:induction false} RunMonotone(c: Capture, blocks: seq<Block>)
    ensures var d := Run(c, blocks).0;
            && c.recording <= d.recording
            && (c.recordingStarted ==> d.recordingStarted)
            && (c.calibrationDone ==> d.calibrationDone && d.backgroundNoiseLevel == c.backgroundNoiseLevel
                                      && d.noiseSamples == c.noiseSamples)
  {
    if blocks != [] {
      RunMonotone(c, blocks[..|blocks| - 1]);
    }
  }

  /** Every kept frame is the frame of a block louder than SILENCE_THRESHOLD. */
  lemma {:induction false} RunKeepsOnlyLoudFrames(c: Capture, blocks: seq<Block>)
    ensures var d := Run(c, blocks).0;
            forall i :: |c.recording| <= i < |d.recording| ==>
              exists j :: 0 <= j < |blocks| && blocks[j].frame == d.recording[i]
                          && blocks[j].energy > SilenceThreshold
  {
    if blocks != [] {
      var prefix := blocks[..|blocks| - 1];
      RunKeepsOnlyLoudFrames(c, prefix);
      RunMonotone(c, prefix);
      var d0 := Run(c, prefix).0;
      var d := Run(c, blocks).0;
      forall i | |c.recording| <= i < |d.recording|
        ensures exists j :: 0 <= j < |blocks| && blocks[j].frame == d.recording[i]
                            && blocks[j].energy > SilenceThreshold
      {
        if i < |d0.recording| {
          assert d.recording[i] == d0.recording[i];
          var j :| 0 <= j < |prefix| && prefix[j].frame == d0.recording[i] && prefix[j].energy > SilenceThreshold;
          assert blocks[j] == prefix[j];
        } else {
          assert blocks[|blocks| - 1].frame == d.recording[i];
        }
      }
    }
  }

  /** A stream that never rises above SILENCE_THRESHOLD records nothing and is
      never stopped by the callback. */
  lemma {:induction false} QuietStreamRecordsNothing(startTime: real, blocks: seq<Block>)
    requires forall j :: 0 <= j < |blocks| ==> blocks[j].energy <= SilenceThreshold
    ensures var (d, stopped) := Run(Initial(startTime), blocks);
            d.recording == [] && !d.recordingStarted && !stopped
  {
    if blocks != [] {
      QuietStreamRecordsNothing(startTime, blocks[..|blocks| - 1]);
    }
  }

  /** Once calibrated, a stream that stays at or below the calibrated
      threshold before any speech changes nothing and never stops. */
  lemma {:induction false} QuietBeforeSpeech(c: Capture, blocks: seq<Block>)
    requires c.calibrationDone && !c.recordingStarted
    requires forall j :: 0 <= j < |blocks| ==> blocks[j].energy <= Threshold(c.backgroundNoiseLevel)
    ensures Run(c, blocks) == (c, false)
  {
    if blocks != [] {
      QuietBeforeSpeech(c, blocks[..|blocks| - 1]);
    }
  }

  /** A stream delivered in two parts: the second part continues from the
      state the first left, unless the first already stopped the stream. */
  lemma {:induction false} RunAppend(c: Capture, a: seq<Block>, b: seq<Block>)
    ensures Run(c, a + b) == if Run(c, a).1 then (Run(c, a).0, true) else Run(Run(c, a).0, b)
    decreases |b|
  {
    if b == [] {
      assert a + b == a;
    } else {
      var b' := b[..|b| - 1];
      RunAppend(c, a, b');
      assert (a + b)[..|a + b| - 1] == a + b' && (a + b)[|a + b| - 1] == b[|b| - 1];
    }
  }

  /** During an open pause, quiet blocks leave the state as it was, and the
      stream has stopped exactly when one of them came more than
      MAX_SILENCE_DURATION after the pause began. */
  lemma {:induction false} PauseHeld(c: Capture, blocks: seq<Block>)
    requires c.calibrationDone && c.recordingStarted && c.silenceStart.Some?
    requires forall j :: 0 <= j < |blocks| ==> blocks[j].energy <= Threshold(c.backgroundNoiseLevel)
    ensures Run(c, blocks) ==
              (c, exists j :: 0 <= j < |blocks| && blocks[j].now - c.silenceStart.value > MaxSilenceDuration)
  {
    if blocks != [] {
      var prefix := blocks[..|blocks| - 1];
      PauseHeld(c, prefix);
      if exists j :: 0 <= j < |prefix| && prefix[j].now - c.silenceStart.value > MaxSilenceDuration {
        var j :| 0 <= j < |prefix| && prefix[j].now - c.silenceStart.value > MaxSilenceDuration;
        assert blocks[j] == prefix[j];
      }
      if exists j :: 0 <= j < |blocks| && blocks[j].now - c.silenceStart.value > MaxSilenceDuration {
        var j :| 0 <= j < |blocks| && blocks[j].now - c.silenceStart.value > MaxSilenceDuration;
        if j < |prefix| { assert prefix[j] == blocks[j]; }
      }
    }
  }

  /** The converse of `StopNeedsLongPause`: once recording has started, a
      quiet block opens a pause, and if only quiet blocks follow and one of
      them comes more than MAX_SILENCE_DURATION after it, the stream stops
      with nothing more recorded. */
  lemma LongPauseStops(c: Capture, blocks: seq<Block>)
    requires c.calibrationDone && c.recordingStarted && c.silenceStart.None?
    requires forall j :: 0 <= j < |blocks| ==> blocks[j].energy <= Threshold(c.backgroundNoiseLevel)
    requires exists j :: 0 <= j < |blocks| && blocks[j].now - blocks[0].now > MaxSilenceDuration
    ensures Run(c, blocks).1 && Run(c, blocks).0.recording == c.recording
  {
    var first := blocks[..1];
    var rest := blocks[1..];
    assert blocks == first + rest;
    assert first[..0] == [];
    var c' := c.(silenceStart := Some(blocks[0].now));
    assert Run(c, first) == (c', false);
    RunAppend(c, first, rest);
    PauseHeld(c', rest);
    var j :| 0 <= j < |blocks| && blocks[j].now - blocks[0].now > MaxSilenceDuration;
    assert rest[j - 1] == blocks[j];
  }

  /** A stream that has stopped has a started recording and an open pause. */
  lemma {:induction false} StopAfterPause(c: Capture, blocks: seq<Block>)
    requires Run(c, blocks).1
    ensures Run(c, blocks).0.recordingStarted && Run(c, blocks).0.silenceStart.Some?
  {
    var prefix := blocks[..|blocks| - 1];
    if Run(c, prefix).1 {
      StopAfterPause(c, prefix);
    }
  }

  /** An open pause was opened by a block of the stream, at that block's
      time, and every block since has been quiet. */
  lemma {:induction false} PauseOpenedBy(c: Capture, blocks: seq<Block>)
    requires c.silenceStart.None?
    requires !Run(c, blocks).1 && Run(c, blocks).0.silenceStart.Some?
    ensures Run(c, blocks).0.calibrationDone
    ensures var d := Run(c, blocks).0;
            exists j :: 0 <= j < |blocks| && blocks[j].now == d.silenceStart.value
                        && forall k :: j < k < |blocks| ==> blocks[k].energy <= Threshold(d.backgroundNoiseLevel)
  {
    var prefix := blocks[..|blocks| - 1];
    var (d0, stopped0) := Run(c, prefix);
    var d := Run(c, blocks).0;
    var last := |blocks| - 1;
    if d0.silenceStart.None? {
      assert blocks[last].now == d.silenceStart.value;
    } else {
      PauseOpenedBy(c, prefix);
      var j :| 0 <= j < |prefix| && prefix[j].now == d0.silenceStart.value
                && forall k :: j < k < |prefix| ==> prefix[k].energy <= Threshold(d0.backgroundNoiseLevel);
      assert blocks[j] == prefix[j];
      forall k | j < k < |blocks| ensures blocks[k].energy <= Threshold(d.backgroundNoiseLevel) {
        if k < last { assert blocks[k] == prefix[k]; }
      }
    }
  }

  /** The stream stops on a block more than MAX_SILENCE_DURATION after the
      block that opened the pause, with only quiet blocks in between. */
  lemma StopNeedsLongPause(c: Capture, blocks: seq<Block>)
    requires c.silenceStart.None?
    requires blocks != [] && Run(c, blocks).1 && !Run(c, blocks[..|blocks| - 1]).1
    ensures var d := Run(c, blocks).0;
            exists j :: 0 <= j < |blocks| - 1
                        && blocks[|blocks| - 1].now - blocks[j].now > MaxSilenceDuration
                        && forall k :: j < k < |blocks| ==> blocks[k].energy <= Threshold(d.backgroundNoiseLevel)
  {
    var prefix := blocks[..|blocks| - 1];
    var b := blocks[|blocks| - 1];
    var d0 := Run(c, prefix).0;
    var d := Run(c, blocks).0;
    assert d == d0 && d0.silenceStart.Some? && b.now - d0.silenceStart.value > MaxSilenceDuration
           && b.energy <= Threshold(d.backgroundNoiseLevel) by {
      assert Run(c, blocks) == Next(d0, b.energy, b.now, b.frame);
    }
    PauseOpenedBy(c, prefix);
    var j :| 0 <= j < |prefix| && prefix[j].now == d.silenceStart.value
              && forall k :: j < k < |prefix| ==> prefix[k].energy <= Threshold(d.backgroundNoiseLevel);
    assert blocks[j] == prefix[j];
    forall k | j < k < |blocks| ensures blocks[k].energy <= Threshold(d.backgroundNoiseLevel) {
      if k < |prefix| { assert blocks[k] == prefix[k]; } else { assert blocks[k] == b; }
    }
  }

  // ---------------------------------------------------------------------------
  // Saving

  /** `astype(np.int16)` on a value already in range: truncation toward zero. */
  function TruncToward0(x: real): (n: int)
    ensures x >= 0.0 ==> 0 <= n && n as real <= x < n as real + 1.0
    ensures x < 0.0 ==> n <= 0 && n as real - 1.0 < x <= n as real
  {
    if x >= 0.0 then x.Floor else -((-x).Floor)
  }

  /** One saved sample: `np.clip(x * 32767, -32767, 32767).astype(np.int16)`. */
  function ToInt16(x: real): (s: int)
    ensures -32767 <= s <= 32767
    ensures x >= 1.0 ==> s == 32767
    ensures x <= -1.0 ==> s == -32767
    ensures -1.0 <= x <= 1.0 ==> -1.0 < s as real - x * 32767.0 < 1.0
    // The cast truncates: the sample never moves away from zero.
    ensures -1.0 <= x <= 1.0 ==> (x >= 0.0 ==> s as real <= x * 32767.0) && (x <= 0.0 ==> x * 32767.0 <= s as real)
    ensures (x >= 0.0 ==> s >= 0) && (x <= 0.0 ==> s <= 0)
  {
    var y := x * 32767.0;
    var clipped := if y < -32767.0 then -32767.0 else if y > 32767.0 then 32767.0 else y;
    TruncToward0(clipped)
  }

  /** `np.concatenate(recording)`. */
  function Concat(recording: seq<Frame>): seq<real>
  {
    if recording == [] then [] else Concat(recording[..|recording| - 1]) + recording[|recording| - 1]
  }

  function TotalSamples(recording: seq<Frame>): nat
  {
    if recording == [] then 0 else TotalSamples(recording[..|recording| - 1]) + |recording[|recording| - 1]|
  }

  /** The concatenation holds exactly the samples of all blocks, in order. */
  lemma {:induction false} ConcatLength(recording: seq<Frame>)
    ensures |Concat(recording)| == TotalSamples(recording)
  {
    if recording != [] {
      ConcatLength(recording[..|recording| - 1]);
    }
  }

  /** Each block's samples sit in the concatenation right after the blocks
      before it. */
  lemma {:induction false} ConcatBlock(recording: seq<Frame>, k: nat)
    requires k < |recording|
    ensures var at := TotalSamples(recording[..k]);
            at + |recording[k]| <= |Concat(recording)|
            && Concat(recording)[at..at + |recording[k]|] == recording[k]
  {
    var last := |recording| - 1;
    var prefix := recording[..last];
    ConcatLength(recording);
    ConcatLength(prefix);
    if k == last {
      assert recording[..k] == prefix;
    } else {
      ConcatBlock(prefix, k);
      assert prefix[..k] == recording[..k];
      assert prefix[k] == recording[k];
      var at := TotalSamples(recording[..k]);
      assert Concat(recording)[at..at + |recording[k]|] == Concat(prefix)[at..at + |recording[k]|];
    }
  }

  /** Blocks of CHUNK_SIZE samples give CHUNK_SIZE samples per block. */
  lemma {:induction false} FullChunks(recording: seq<Frame>)
    requires forall i :: 0 <= i < |recording| ==> |recording[i]| == ChunkSize
    ensures TotalSamples(recording) == |recording| * ChunkSize
  {
    if recording != [] {
      FullChunks(recording[..|recording| - 1]);
    }
  }

  /** The body of `save_and_exit_thread`: no artifact for an empty recording,
      otherwise the 16-bit samples of the concatenated blocks. */
  function SaveArtifact(recording: seq<Frame>): (r: Option<seq<int>>)
    ensures r.None? <==> recording == []
    ensures r.Some? ==> |r.value| == |Concat(recording)| == TotalSamples(recording)
    ensures r.Some? ==> forall i :: 0 <= i < |r.value| ==>
              r.value[i] == ToInt16(Concat(recording)[i]) && r.value[i] != -32768
  {
    if recording == [] then None
    else
      var audio := Concat(recording);
      ConcatLength(recording);
      Some(seq(|audio|, i requires 0 <= i < |audio| => ToInt16(audio[i])))
  }
}
