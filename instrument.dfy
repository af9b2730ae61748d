/** The Instrument object of main.go:48-186. The beep objects it owns become
    plain fields: ctrl.Paused, volume.Silent, volume.Volume, the resampler's
    ratio and the position of the decoded stream. Each method is proved to
    have the effect of the matching step function of module Tracks. */
module Instruments {
  import opened Floats
  import opened Tracks

  /** What os.Open and wav.Decode would report for one file. */
  datatype WavFile = WavFile(path: string, opens: bool, decodes: bool)

  class Instrument {
    const name: string
    var state: State
    var gatePaused: bool
    var silent: bool
    var volume: real
    var speedRatio: real
    var resamplerRatio: real
    var position: nat

    /** The instrument's fields as a value. */
    function Snapshot(): Track
      reads this
    {
      Track(name, state, gatePaused, silent, volume, speedRatio, resamplerRatio, position)
    }

    ghost predicate Valid()
      reads this
    {
      Coherent(Snapshot())
    }

    /** The Instrument NewInstrument returns once the file is decoded (main.go:78-96). */
    constructor (name: string)
      ensures this.name == name && state == Stopped
      ensures gatePaused && silent
      ensures volume == DefaultVolume && speedRatio == 1.0 && resamplerRatio == 1.0
      ensures position == 0
      ensures Snapshot() == Initial(name) && Valid()
    {
      this.name := name;
      state := Stopped;
      gatePaused := true;
      silent := true;
      volume := DefaultVolume;
      speedRatio := 1.0;
      resamplerRatio := 1.0;
      position := 0;
    }

    method SetSpeed(ratio: Float) returns (out: Outcome)
      requires Valid()
      modifies this
      ensures Valid()
      ensures Step(out, Snapshot()) == SetSpeedStep(old(Snapshot()), ratio)
    {
      if !Within(ratio, MinSpeedRatio, MaxSpeedRatio) {
        return Fail(SpeedOutOfRange(ratio));
      }
      speedRatio := ratio.value;
      resamplerRatio := ratio.value;
      out := Pass;
    }

    method Play() returns (out: Outcome)
      requires Valid()
      modifies this
      ensures Valid()
      ensures Step(out, Snapshot()) == PlayStep(old(Snapshot()))
    {
      if state == Playing {
        return Fail(AlreadyPlaying(name));
      }
      silent := false;
      gatePaused := false;
      state := Playing;
      out := Pass;
    }

    method Replay(seekOk: bool) returns (out: Outcome)
      requires Valid()
      modifies this
      ensures Valid()
      ensures Step(out, Snapshot()) == ReplayStep(old(Snapshot()), seekOk)
    {
      if !seekOk {
        return Fail(SeekFailed(name));
      }
      position := 0;
      silent := false;
      gatePaused := false;
      state := Playing;
      out := Pass;
    }

    method Pause() returns (out: Outcome)
      requires Valid()
      modifies this
      ensures Valid()
      ensures Step(out, Snapshot()) == PauseStep(old(Snapshot()))
    {
      if state != Playing {
        return Fail(NotPlaying(name, state));
      }
      gatePaused := true;
      state := Paused;
      out := Pass;
    }

    method Stop() returns (out: Outcome)
      requires Valid()
      modifies this
      ensures Valid()
      ensures Step(out, Snapshot()) == StopStep(old(Snapshot()))
    {
      if state == Stopped {
        return Pass;
      }
      silent := true;
      state := Stopped;
      out := Pass;
    }

    method SetVolume(vol: Float) returns (out: Outcome)
      requires Valid()
      modifies this
      ensures Valid()
      ensures Step(out, Snapshot()) == SetVolumeStep(old(Snapshot()), vol)
    {
      if !Within(vol, MinVolume, MaxVolume) {
        return Fail(VolumeOutOfRange(vol));
      }
      volume := vol.value;
      out := Pass;
    }

    method GetState() returns (s: State)
      ensures s == Snapshot().state
    {
      s := state;
    }

    /** Runs one operation, as the closures of handleCommand do (main.go:332-341). */
    method Perform(op: Op) returns (out: Outcome)
      requires Valid()
      modifies this
      ensures Valid()
      ensures Step(out, Snapshot()) == Apply(old(Snapshot()), op)
    {
      match op
      case Play => out := Play();
      case Pause => out := Pause();
      case Stop => out := Stop();
      case Replay(ok) => out := Replay(ok);
      case SetVolume(v) => out := SetVolume(v);
      case SetSpeed(ratio) => out := SetSpeed(ratio);
    }
  }

  /** NewInstrument (main.go:68-97): opening or decoding the file can fail,
      and then no instrument is made. */
  method NewInstrument(name: string, file: WavFile) returns (r: Result<Instrument>)
    ensures !file.opens ==> r == Err(OpenFailed(file.path))
    ensures file.opens && !file.decodes ==> r == Err(DecodeFailed(file.path))
    ensures r.Ok? <==> file.opens && file.decodes
    ensures r.Ok? ==> fresh(r.value) && r.value.Snapshot() == Initial(name) && r.value.Valid()
  {
    if !file.opens {
      return Err(OpenFailed(file.path));
    }
    if !file.decodes {
      return Err(DecodeFailed(file.path));
    }
    var inst := new Instrument(name);
    r := Ok(inst);
  }
}
