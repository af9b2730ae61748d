/** What handleCommand does (main.go:318-404), as a function of the command
    and of every registered instrument's fields, keyed by name. The
    imperative handleCommand in module Control is proved to have exactly
    this effect. */
module Dispatch {
  import opened Floats
  import opened Tracks
  import opened Names
  import C = Commands

  /** One line of the status listing (main.go:406-420), without its formatting. */
  datatype Row = Row(name: string, state: State, volume: real, bpm: real)

  /** What handleCommand reports. */
  datatype Reply =
    | Silent                          // the line was blank
    | Done(outcome: Outcome)          // one instrument was addressed
    | Batch(failed: set<string>)      // every instrument was addressed; these failures were logged and skipped
    | UsageHint(command: string)      // "volume" or "bpm" with fewer than two arguments
    | InvalidValue(command: string, text: string)
    | Listing(rows: seq<Row>)
    | HelpText
    | QuitHint                        // only the hint: the self-signal is not modelled
    | UnknownCommand(word: string)

  /** The reply and every instrument's fields after one command. */
  datatype Effect = Effect(reply: Reply, tracks: map<string, Track>)

  /** The closure handleCommand picks for a transport verb (main.go:332-341). */
  function OpFor(v: C.Verb, seekOk: bool): (op: Op)
    ensures op.Replay? <==> v == C.Replay
  {
    match v
    case Play => Op.Play
    case Pause => Op.Pause
    case Stop => Op.Stop
    case Replay => Op.Replay(seekOk)
  }

  function RowOf(t: Track): Row {
    Row(t.name, t.state, t.volume, BaseBpm * t.speedRatio)
  }

  /** The rows of the instruments named by `ks`, in that order. */
  function RowsOf(tracks: map<string, Track>, ks: seq<string>): (rows: seq<Row>)
    requires forall i :: 0 <= i < |ks| ==> ks[i] in tracks
    ensures |rows| == |ks|
    decreases |ks|
  {
    if ks == [] then [] else [RowOf(tracks[ks[0]])] + RowsOf(tracks, ks[1..])
  }

  lemma {:induction false} RowsOfAt(tracks: map<string, Track>, ks: seq<string>, i: int)
    requires forall j :: 0 <= j < |ks| ==> ks[j] in tracks
    requires 0 <= i < |ks|
    ensures RowsOf(tracks, ks)[i] == RowOf(tracks[ks[i]])
    decreases |ks|
  {
    if i > 0 {
      RowsOfAt(tracks, ks[1..], i - 1);
    }
  }

  /** RowsOf is the only sequence with those rows. */
  lemma RowsMatch(rows: seq<Row>, tracks: map<string, Track>, ks: seq<string>)
    requires forall j :: 0 <= j < |ks| ==> ks[j] in tracks
    requires |rows| == |ks|
    requires forall j :: 0 <= j < |ks| ==> rows[j] == RowOf(tracks[ks[j]])
    ensures rows == RowsOf(tracks, ks)
  {
    forall j | 0 <= j < |ks| ensures rows[j] == RowsOf(tracks, ks)[j] {
      RowsOfAt(tracks, ks, j);
    }
  }

  /** The listing: one row per instrument, in ascending name order. */
  ghost function Status(tracks: map<string, Track>): (rows: seq<Row>)
    ensures |rows| == |tracks|
  {
    RowsOf(tracks, SortedNames(tracks.Keys))
  }

  /** Whether command `c` can change the instrument registered as `n`. */
  predicate Addresses(c: C.Command, n: string) {
    match c
    case Transport(_, target) => target == "" || target == n
    case Volume(target, _) => target == n
    case Bpm(target, _) => target == n
    case _ => false
  }

  /** One transport operation on every instrument; failures are collected
      and the remaining instruments are still served (main.go:349-355). */
  function BroadcastTracks(tracks: map<string, Track>, v: C.Verb, seekOk: string -> bool): (m: map<string, Track>)
    ensures m.Keys == tracks.Keys
  {
    map n | n in tracks :: Apply(tracks[n], OpFor(v, seekOk(n))).track
  }

  function BroadcastFailures(tracks: map<string, Track>, v: C.Verb, seekOk: string -> bool): (failed: set<string>)
    ensures failed <= tracks.Keys
  {
    set n | n in tracks && Apply(tracks[n], OpFor(v, seekOk(n))).outcome.Fail?
  }

  /** `op` on the instrument registered as `target`, or NotFound. */
  function Targeted(tracks: map<string, Track>, target: string, op: Op): (e: Effect)
    ensures e.reply.Done?
    ensures target !in tracks ==> e == Effect(Done(Fail(NotFound(target))), tracks)
    ensures e.reply.outcome.Fail? ==> e.tracks == tracks
  {
    if target in tracks then
      var s := Apply(tracks[target], op);
      if s.outcome.Fail? then
        assert tracks[target := s.track] == tracks;
        Effect(Done(s.outcome), tracks[target := s.track])
      else Effect(Done(s.outcome), tracks[target := s.track])
    else Effect(Done(Fail(NotFound(target))), tracks)
  }

  /** handleCommand. `parse` stands for strconv.ParseFloat and `seekOk(n)`
      for whether Seek(0) on instrument n's stream succeeds. */
  ghost function Handle(c: C.Command, tracks: map<string, Track>, parse: string -> Parsed, seekOk: string -> bool): (e: Effect)
    ensures e.tracks.Keys == tracks.Keys
  {
    match c
    case Blank => Effect(Silent, tracks)
    case Transport(verb, target) =>
      if target != "" then Targeted(tracks, target, OpFor(verb, seekOk(target)))
      else
        Effect(Batch(BroadcastFailures(tracks, verb, seekOk)), BroadcastTracks(tracks, verb, seekOk))
    case Volume(target, text) =>
      if parse(text).Malformed? then Effect(InvalidValue("volume", text), tracks)
      else Targeted(tracks, target, Op.SetVolume(parse(text).number))
    case Bpm(target, text) =>
      if parse(text).Malformed? || AtMost(parse(text).number, 0.0) then
        Effect(InvalidValue("bpm", text), tracks)
      else Targeted(tracks, target, Op.SetSpeed(Quotient(parse(text).number, BaseBpm)))
    case VolumeUsage => Effect(UsageHint("volume"), tracks)
    case BpmUsage => Effect(UsageHint("bpm"), tracks)
    case List => Effect(Listing(Status(tracks)), tracks)
    case Help => Effect(HelpText, tracks)
    case Quit => Effect(QuitHint, tracks)
    case Unknown(word) => Effect(UnknownCommand(word), tracks)
  }

  /** A command changes only the instruments it addresses, never renames
      one, and keeps every instrument's invariant. */
  lemma HandleFrame(c: C.Command, tracks: map<string, Track>, parse: string -> Parsed, seekOk: string -> bool)
    ensures var e := Handle(c, tracks, parse, seekOk);
      && (forall n :: n in tracks && !Addresses(c, n) ==> e.tracks[n] == tracks[n])
      && (forall n :: n in tracks ==> e.tracks[n].name == tracks[n].name)
      && (forall n :: n in tracks && Coherent(tracks[n]) ==> Coherent(e.tracks[n]))
  {
  }

  /** Only a successful targeted operation or a broadcast changes anything:
      every error, usage hint, invalid value and display command leaves all
      instruments as they were. */
  lemma OnlySuccessChangesTracks(c: C.Command, tracks: map<string, Track>, parse: string -> Parsed, seekOk: string -> bool)
    ensures var e := Handle(c, tracks, parse, seekOk);
      !(e.reply == Done(Pass) || e.reply.Batch?) ==> e.tracks == tracks
  {
    var e := Handle(c, tracks, parse, seekOk);
    if !(e.reply == Done(Pass) || e.reply.Batch?) {
      forall n | n in tracks ensures e.tracks[n] == tracks[n] {
      }
    }
  }

  /** A command naming an unregistered instrument reports NotFound, unless its
      value is rejected first (volume and bpm parse the value before the lookup). */
  lemma UnknownTargetIsNotFound(c: C.Command, tracks: map<string, Track>, parse: string -> Parsed, seekOk: string -> bool)
    requires c.Transport? || c.Volume? || c.Bpm?
    requires c.target != "" && c.target !in tracks
    ensures var e := Handle(c, tracks, parse, seekOk);
      e.tracks == tracks && (e.reply == Done(Fail(NotFound(c.target))) || e.reply.InvalidValue?)
  {
  }

  /** Broadcast play: every instrument ends up playing and audible; exactly
      the ones already playing report an error, which is skipped. */
  lemma BroadcastPlay(tracks: map<string, Track>, parse: string -> Parsed, seekOk: string -> bool)
    ensures var e := Handle(C.Transport(C.Play, ""), tracks, parse, seekOk);
      && (forall n :: n in tracks && Coherent(tracks[n]) ==>
            e.tracks[n].state == Playing && !e.tracks[n].gatePaused && !e.tracks[n].silent)
      && (forall n :: n in e.reply.failed <==> n in tracks && tracks[n].state == Playing)
  {
  }

  /** Broadcast pause: the playing instruments pause, the others report an
      error and are left alone. */
  lemma BroadcastPause(tracks: map<string, Track>, parse: string -> Parsed, seekOk: string -> bool)
    ensures var e := Handle(C.Transport(C.Pause, ""), tracks, parse, seekOk);
      && (forall n :: n in tracks && tracks[n].state == Playing ==> e.tracks[n].state == Paused)
      && (forall n :: n in tracks && tracks[n].state != Playing ==> e.tracks[n] == tracks[n])
      && (forall n :: n in e.reply.failed <==> n in tracks && tracks[n].state != Playing)
  {
  }

  /** Broadcast stop: every instrument is stopped and none reports an error. */
  lemma BroadcastStop(tracks: map<string, Track>, parse: string -> Parsed, seekOk: string -> bool)
    ensures var e := Handle(C.Transport(C.Stop, ""), tracks, parse, seekOk);
      && (forall n :: n in tracks ==> e.tracks[n].state == Stopped)
      && (forall n :: n in tracks && Coherent(tracks[n]) ==> e.tracks[n].silent)
      && e.reply == Batch({})
  {
    var e := Handle(C.Transport(C.Stop, ""), tracks, parse, seekOk);
    assert forall n :: n !in e.reply.failed;
  }

  /** Broadcast replay: every instrument whose stream rewinds plays from
      frame 0; exactly those whose seek fails report an error. */
  lemma BroadcastReplay(tracks: map<string, Track>, parse: string -> Parsed, seekOk: string -> bool)
    ensures var e := Handle(C.Transport(C.Replay, ""), tracks, parse, seekOk);
      && (forall n :: n in tracks && seekOk(n) ==>
            e.tracks[n].state == Playing && e.tracks[n].position == 0 && !e.tracks[n].silent)
      && (forall n :: n in tracks && !seekOk(n) ==> e.tracks[n] == tracks[n])
      && (forall n :: n in e.reply.failed <==> n in tracks && !seekOk(n))
  {
  }

  /** "bpm <name> <b>" on a registered instrument, b a finite number: it is
      refused as invalid when b <= 0, accepted exactly when 60 <= b <= 240,
      and then sets the speed ratio to b / 120. */
  lemma BpmAcceptance(tracks: map<string, Track>, target: string, text: string, b: real, parse: string -> Parsed, seekOk: string -> bool)
    requires target in tracks && parse(text) == Number(Finite(b))
    ensures var e := Handle(C.Bpm(target, text), tracks, parse, seekOk);
      && (b <= 0.0 <==> e.reply == InvalidValue("bpm", text))
      && (e.reply == Done(Pass) <==> 60.0 <= b <= 240.0)
      && (60.0 <= b <= 240.0 ==> e.tracks[target].speedRatio == b / BaseBpm)
      && (0.0 < b && !(60.0 <= b <= 240.0) ==>
            e.reply == Done(Fail(SpeedOutOfRange(Finite(b / BaseBpm)))) && e.tracks == tracks)
  {
    var e := Handle(C.Bpm(target, text), tracks, parse, seekOk);
    if 0.0 < b && !(60.0 <= b <= 240.0) {
      assert e.tracks == tracks[target := tracks[target]];
    }
  }

  /** The two tempo examples: 240 bpm doubles the speed, 30 bpm is refused. */
  lemma BpmExamples(tracks: map<string, Track>, parse: string -> Parsed, seekOk: string -> bool)
    requires "kick" in tracks
    requires parse("240") == Number(Finite(240.0)) && parse("30") == Number(Finite(30.0))
    ensures Handle(C.Bpm("kick", "240"), tracks, parse, seekOk).tracks["kick"].speedRatio == 2.0
    ensures Handle(C.Bpm("kick", "30"), tracks, parse, seekOk).reply == Done(Fail(SpeedOutOfRange(Finite(0.25))))
  {
    BpmAcceptance(tracks, "kick", "240", 240.0, parse, seekOk);
    BpmAcceptance(tracks, "kick", "30", 30.0, parse, seekOk);
  }

  /** NaN passes the `targetBPM <= 0` test of main.go:380 and the ratio
      NaN / 120 is NaN; with the intended range check SetSpeed refuses it. */
  lemma BpmNaNRefused(tracks: map<string, Track>, target: string, text: string, parse: string -> Parsed, seekOk: string -> bool)
    requires target in tracks && parse(text) == Number(NaN)
    ensures !AtMost(NaN, 0.0) && Quotient(NaN, BaseBpm) == NaN
    ensures var e := Handle(C.Bpm(target, text), tracks, parse, seekOk);
      e.reply == Done(Fail(SpeedOutOfRange(NaN))) && e.tracks == tracks
  {
    var e := Handle(C.Bpm(target, text), tracks, parse, seekOk);
    assert e.tracks == tracks[target := tracks[target]];
  }

  /** "volume <name> <v>" on a registered instrument: accepted exactly when
      v is a number in [-2, 2], and then only the volume changes. */
  lemma VolumeAcceptance(tracks: map<string, Track>, target: string, text: string, v: Float, parse: string -> Parsed, seekOk: string -> bool)
    requires target in tracks && parse(text) == Number(v)
    ensures var e := Handle(C.Volume(target, text), tracks, parse, seekOk);
      && (e.reply == Done(Pass) <==> v.Finite? && MinVolume <= v.value <= MaxVolume)
      && (e.reply == Done(Pass) ==> e.tracks == tracks[target := tracks[target].(volume := v.value)])
      && (e.reply != Done(Pass) ==> e.reply == Done(Fail(VolumeOutOfRange(v))) && e.tracks == tracks)
  {
    var e := Handle(C.Volume(target, text), tracks, parse, seekOk);
    if e.reply != Done(Pass) {
      assert e.tracks == tracks[target := tracks[target]];
    }
  }

  /** With every instrument registered under its own name, the status rows
      are one per instrument, in strictly ascending name order. */
  lemma StatusShowsEachOnce(tracks: map<string, Track>)
    requires forall n :: n in tracks ==> tracks[n].name == n
    ensures var rows := Status(tracks);
      && (forall i :: 0 <= i < |rows| ==> rows[i].name in tracks && rows[i] == RowOf(tracks[rows[i].name]))
      && (forall i, j :: 0 <= i < j < |rows| ==> Precedes(rows[i].name, rows[j].name))
      && (forall n :: n in tracks ==> RowOf(tracks[n]) in rows)
  {
    var ks := SortedNames(tracks.Keys);
    var rows := RowsOf(tracks, ks);
    forall i | 0 <= i < |rows| ensures rows[i] == RowOf(tracks[ks[i]]) && rows[i].name == ks[i] {
      RowsOfAt(tracks, ks, i);
    }
    forall n | n in tracks ensures RowOf(tracks[n]) in rows {
      var i :| 0 <= i < |ks| && ks[i] == n;
      assert rows[i] == RowOf(tracks[n]);
    }
  }

  /** The listing follows any strictly ascending enumeration of the names. */
  lemma ListingFollowsNames(tracks: map<string, Track>, ks: seq<string>, parse: string -> Parsed, seekOk: string -> bool)
    requires StrictlySorted(ks)
    requires forall x :: x in ks <==> x in tracks
    ensures Handle(C.List, tracks, parse, seekOk) == Effect(Listing(RowsOf(tracks, ks)), tracks)
  {
    SortedNamesUnique(tracks.Keys, ks);
  }

  /** "list" changes nothing and shows one row per instrument, ascending by name. */
  lemma ListingShowsEachOnce(tracks: map<string, Track>, parse: string -> Parsed, seekOk: string -> bool)
    requires forall n :: n in tracks ==> tracks[n].name == n
    ensures var e := Handle(C.List, tracks, parse, seekOk);
      && e.tracks == tracks && e.reply.Listing?
      && |e.reply.rows| == |tracks|
      && (forall i :: 0 <= i < |e.reply.rows| ==>
            e.reply.rows[i].name in tracks && e.reply.rows[i] == RowOf(tracks[e.reply.rows[i].name]))
      && (forall i, j :: 0 <= i < j < |e.reply.rows| ==> Precedes(e.reply.rows[i].name, e.reply.rows[j].name))
  {
    StatusShowsEachOnce(tracks);
  }
}
