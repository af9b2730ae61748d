/** The transport and parameter state of one instrument, as a value, and
    the pure effect of each Instrument operation on it (main.go:24-186).
    The class in module Instruments is proved to follow these functions. */
module Tracks {
  import opened Floats

  const DefaultVolume: real := 0.0
  const MaxVolume: real := 2.0
  const MinVolume: real := -2.0
  const BaseBpm: real := 120.0
  const MinSpeedRatio: real := 0.5
  const MaxSpeedRatio: real := 2.0

  datatype State = Stopped | Playing | Paused

  /** Every error the control core returns, with what its message names. */
  datatype Error =
    | AlreadyPlaying(name: string)
    | NotPlaying(name: string, current: State)
    | SeekFailed(name: string)
    | SpeedOutOfRange(ratio: Float)
    | VolumeOutOfRange(volume: Float)
    | OpenFailed(path: string)
    | DecodeFailed(path: string)
    | AlreadyExists(name: string)
    | NotFound(name: string)

  /** A Go `error` result: nil or an error. */
  datatype Outcome = Pass | Fail(error: Error)

  /** A Go `(value, error)` result. */
  datatype Result<T> = Ok(value: T) | Err(error: Error)

  /** The fields of one Instrument that its operations read or write:
      `gatePaused` is ctrl.Paused, `silent` is volume.Silent, `volume` is
      volume.Volume, `resamplerRatio` the ratio held by the resampler and
      `position` the frame position of the decoded stream. */
  datatype Track = Track(
    name: string,
    state: State,
    gatePaused: bool,
    silent: bool,
    volume: real,
    speedRatio: real,
    resamplerRatio: real,
    position: nat)

  /** The result of one operation: the error it returns and the track after it. */
  datatype Step = Step(outcome: Outcome, track: Track)

  /** The invariant linking the transport state to the gate and the mute
      flag, and the parameters to their ranges. */
  predicate Coherent(t: Track) {
    && (t.state == Stopped ==> t.silent)
    && (t.state == Playing ==> !t.gatePaused && !t.silent)
    && (t.state == Paused ==> t.gatePaused && !t.silent)
    && MinVolume <= t.volume <= MaxVolume
    && MinSpeedRatio <= t.speedRatio <= MaxSpeedRatio
    && t.resamplerRatio == t.speedRatio
  }

  /** `a` and `b` agree on everything but the transport state and its two flags. */
  predicate SameSettings(a: Track, b: Track) {
    && a.name == b.name
    && a.volume == b.volume
    && a.speedRatio == b.speedRatio
    && a.resamplerRatio == b.resamplerRatio
  }

  /** The track NewInstrument builds (main.go:78-96). */
  function Initial(name: string): (t: Track)
    ensures Coherent(t) && t.name == name
  {
    Track(name, Stopped, true, true, DefaultVolume, 1.0, 1.0, 0)
  }

  /** Instrument.Play (main.go:114-125). */
  function PlayStep(t: Track): (r: Step)
    ensures r.outcome.Fail? <==> t.state == Playing
    ensures r.outcome.Fail? ==> r.outcome.error == AlreadyPlaying(t.name) && r.track == t
    ensures r.outcome.Pass? ==>
      r.track.state == Playing && !r.track.gatePaused && !r.track.silent
    ensures SameSettings(t, r.track) && r.track.position == t.position
    ensures Coherent(t) ==> Coherent(r.track)
  {
    if t.state == Playing then Step(Fail(AlreadyPlaying(t.name)), t)
    else Step(Pass, t.(silent := false, gatePaused := false, state := Playing))
  }

  /** Instrument.Replay, given whether Seek(0) on the stream succeeds (main.go:127-138). */
  function ReplayStep(t: Track, seekOk: bool): (r: Step)
    ensures r.outcome.Fail? <==> !seekOk
    ensures !seekOk ==> r.outcome.error == SeekFailed(t.name) && r.track == t
    ensures seekOk ==>
      r.track.state == Playing && !r.track.gatePaused && !r.track.silent && r.track.position == 0
    ensures SameSettings(t, r.track)
    ensures Coherent(t) ==> Coherent(r.track)
  {
    if !seekOk then Step(Fail(SeekFailed(t.name)), t)
    else Step(Pass, t.(position := 0, silent := false, gatePaused := false, state := Playing))
  }

  /** Instrument.Pause (main.go:140-150). */
  function PauseStep(t: Track): (r: Step)
    ensures r.outcome.Fail? <==> t.state != Playing
    ensures r.outcome.Fail? ==> r.outcome.error == NotPlaying(t.name, t.state) && r.track == t
    ensures r.outcome.Pass? ==> r.track.state == Paused && r.track.gatePaused
    ensures r.track.silent == t.silent
    ensures SameSettings(t, r.track) && r.track.position == t.position
    ensures Coherent(t) ==> Coherent(r.track)
  {
    if t.state != Playing then Step(Fail(NotPlaying(t.name, t.state)), t)
    else Step(Pass, t.(gatePaused := true, state := Paused))
  }

  /** Instrument.Stop (main.go:152-163): it mutes the track but leaves the
      gate as it was, so a playing track keeps running silently. */
  function StopStep(t: Track): (r: Step)
    ensures r.outcome == Pass
    ensures t.state == Stopped ==> r.track == t
    ensures t.state != Stopped ==> r.track.silent
    ensures r.track.state == Stopped
    ensures r.track.gatePaused == t.gatePaused
    ensures SameSettings(t, r.track) && r.track.position == t.position
    ensures Coherent(t) ==> Coherent(r.track)
  {
    if t.state == Stopped then Step(Pass, t)
    else Step(Pass, t.(silent := true, state := Stopped))
  }

  /** Instrument.SetVolume with the intended range check (main.go:165-174). */
  function SetVolumeStep(t: Track, v: Float): (r: Step)
    ensures r.outcome.Pass? <==> v.Finite? && MinVolume <= v.value <= MaxVolume
    ensures r.outcome.Fail? ==> r.outcome.error == VolumeOutOfRange(v) && r.track == t
    ensures r.outcome.Pass? ==> r.track == t.(volume := v.value)
    ensures Coherent(t) ==> Coherent(r.track)
  {
    if !Within(v, MinVolume, MaxVolume) then Step(Fail(VolumeOutOfRange(v)), t)
    else Step(Pass, t.(volume := v.value))
  }

  /** Instrument.SetSpeed with the intended range check (main.go:99-112):
      the ratio is stored and handed to the resampler. */
  function SetSpeedStep(t: Track, ratio: Float): (r: Step)
    ensures r.outcome.Pass? <==> ratio.Finite? && MinSpeedRatio <= ratio.value <= MaxSpeedRatio
    ensures r.outcome.Fail? ==> r.outcome.error == SpeedOutOfRange(ratio) && r.track == t
    ensures r.outcome.Pass? ==>
      r.track == t.(speedRatio := ratio.value, resamplerRatio := ratio.value)
    ensures Coherent(t) ==> Coherent(r.track)
  {
    if !Within(ratio, MinSpeedRatio, MaxSpeedRatio) then Step(Fail(SpeedOutOfRange(ratio)), t)
    else Step(Pass, t.(speedRatio := ratio.value, resamplerRatio := ratio.value))
  }

  /** The range test SetVolume writes, `vol < MinVolume || vol > MaxVolume`. */
  predicate VolumeRejectedAsWritten(v: Float) {
    RejectedAsWritten(v, MinVolume, MaxVolume)
  }

  /** The range test SetSpeed writes, `ratio < MinSpeedRatio || ratio > MaxSpeedRatio`. */
  predicate SpeedRejectedAsWritten(ratio: Float) {
    RejectedAsWritten(ratio, MinSpeedRatio, MaxSpeedRatio)
  }

  /** As written, SetVolume accepts NaN, which would break Coherent. */
  lemma VolumeCheckAdmitsNaN()
    ensures !VolumeRejectedAsWritten(NaN)
    ensures SetVolumeStep(Initial("kick"), NaN).outcome == Fail(VolumeOutOfRange(NaN))
  {
    NaNPassesWrittenCheck(MinVolume, MaxVolume);
  }

  /** As written, SetSpeed accepts NaN, which would break Coherent. */
  lemma SpeedCheckAdmitsNaN()
    ensures !SpeedRejectedAsWritten(NaN)
    ensures SetSpeedStep(Initial("kick"), NaN).outcome == Fail(SpeedOutOfRange(NaN))
  {
    NaNPassesWrittenCheck(MinSpeedRatio, MaxSpeedRatio);
  }

  /** Every call to one of the six operations, with its input. */
  datatype Op =
    | Play
    | Pause
    | Stop
    | Replay(seekOk: bool)
    | SetVolume(volume: Float)
    | SetSpeed(ratio: Float)

  function Apply(t: Track, op: Op): (r: Step)
    ensures r.track.name == t.name
    ensures Coherent(t) ==> Coherent(r.track)
    ensures r.outcome.Fail? ==> r.track == t
  {
    match op
    case Play => PlayStep(t)
    case Pause => PauseStep(t)
    case Stop => StopStep(t)
    case Replay(ok) => ReplayStep(t, ok)
    case SetVolume(v) => SetVolumeStep(t, v)
    case SetSpeed(ratio) => SetSpeedStep(t, ratio)
  }

  /** The track after a sequence of operations, failures included. */
  function Run(t: Track, ops: seq<Op>): Track
    decreases |ops|
  {
    if ops == [] then t else Run(Apply(t, ops[0]).track, ops[1..])
  }

  /** The invariant holds after any sequence of operations on a new instrument. */
  lemma {:induction false} RunKeepsCoherent(t: Track, ops: seq<Op>)
    requires Coherent(t)
    ensures Coherent(Run(t, ops)) && Run(t, ops).name == t.name
    decreases |ops|
  {
    if ops != [] {
      RunKeepsCoherent(Apply(t, ops[0]).track, ops[1..]);
    }
  }

  /** No operation other than Replay seeks the stream: after any run
      without one, the position is where it was. */
  lemma {:induction false} RunWithoutReplayKeepsPosition(t: Track, ops: seq<Op>)
    requires forall i :: 0 <= i < |ops| ==> !ops[i].Replay?
    ensures Run(t, ops).position == t.position
    decreases |ops|
  {
    if ops != [] {
      RunWithoutReplayKeepsPosition(Apply(t, ops[0]).track, ops[1..]);
    }
  }

  /** Stop is idempotent: once stopped, stopping again succeeds and changes nothing. */
  lemma StopIdempotent(t: Track)
    ensures StopStep(StopStep(t).track) == Step(Pass, StopStep(t).track)
  {
  }

  /** Pause then Play resumes a playing track exactly where it was. */
  lemma PauseThenPlayResumes(t: Track)
    requires Coherent(t) && t.state == Playing
    ensures PauseStep(t).outcome == Pass
    ensures PlayStep(PauseStep(t).track) == Step(Pass, t)
  {
  }

  /** Stop then Play restores a playing track: Stop left the gate open, so
      the track ran on silently and Play only unmutes it. */
  lemma StopThenPlayResumes(t: Track)
    requires Coherent(t) && t.state == Playing
    ensures PlayStep(StopStep(t).track) == Step(Pass, t)
  {
  }

  /** The two guards of the transport: Play fails exactly on a playing
      track, Pause exactly on one that is not playing. */
  lemma PlayAndPauseGuardsAreComplementary(t: Track)
    ensures PlayStep(t).outcome.Fail? <==> !PauseStep(t).outcome.Fail?
  {
  }
}
