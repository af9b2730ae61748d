/** handleCommand (main.go:318-404) and listInstruments (main.go:406-420)
    over a live DJMixer, proved to have the effect module Dispatch describes. */
module Control {
  import opened Floats
  import opened Tracks
  import opened Instruments
  import opened Mixers
  import opened Names
  import opened Dispatch
  import C = Commands

  /** One operation on one registered instrument; the others keep their fields. */
  method Act(dj: DJMixer, inst: Instrument, op: Op) returns (out: Outcome)
    requires dj.Valid() && inst.name in dj.instruments && dj.instruments[inst.name] == inst
    modifies inst
    ensures dj.Valid()
    ensures Effect(Done(out), dj.Snapshots()) == Targeted(old(dj.Snapshots()), inst.name, op)
  {
    ghost var before := dj.Snapshots();
    out := inst.Perform(op);
    assert forall n :: n in dj.instruments && n != inst.name ==> dj.instruments[n] != inst;
    assert dj.Snapshots() == before[inst.name := inst.Snapshot()];
  }

  /** The loop of main.go:350-354: the operation runs on every instrument in
      map order; an error is logged and the loop goes on. */
  method Broadcast(dj: DJMixer, verb: C.Verb, seekOk: string -> bool) returns (failed: set<string>)
    requires dj.Valid()
    modifies dj.Objects()
    ensures dj.Valid()
    ensures forall n :: n in dj.instruments ==>
      dj.instruments[n].Snapshot() == Apply(old(dj.instruments[n].Snapshot()), OpFor(verb, seekOk(n))).track
    ensures forall n :: n in failed <==>
      n in dj.instruments && Apply(old(dj.instruments[n].Snapshot()), OpFor(verb, seekOk(n))).outcome.Fail?
  {
    failed := {};
    var rest := dj.instruments.Keys;
    while rest != {}
      invariant rest <= dj.instruments.Keys
      invariant dj.Valid()
      invariant forall n :: n in dj.instruments && n !in rest ==>
        dj.instruments[n].Snapshot() == Apply(old(dj.instruments[n].Snapshot()), OpFor(verb, seekOk(n))).track
      invariant forall n :: n in rest ==> dj.instruments[n].Snapshot() == old(dj.instruments[n].Snapshot())
      invariant forall n :: n in failed <==>
        n in dj.instruments && n !in rest && Apply(old(dj.instruments[n].Snapshot()), OpFor(verb, seekOk(n))).outcome.Fail?
      decreases rest
    {
      var k :| k in rest;
      var inst := dj.instruments[k];
      var e := inst.Perform(OpFor(verb, seekOk(k)));
      if e.Fail? {
        failed := failed + {k};
      }
      rest := rest - {k};
    }
  }

  /** listInstruments without the printing: each instrument's name, state,
      volume and tempo (BaseBPM times its speed ratio), ascending by name. */
  method ListInstruments(dj: DJMixer) returns (rows: seq<Row>)
    requires dj.Valid()
    ensures rows == Status(dj.Snapshots())
  {
    var insts := dj.GetAllInstrumentsSorted();
    rows := Describe(insts);
    ListedRows(dj, insts, rows);
  }

  /** Rows made from the sorted instruments are the status listing. */
  lemma ListedRows(dj: DJMixer, insts: seq<Instrument>, rows: seq<Row>)
    requires |insts| == |dj.instruments| == |rows|
    requires forall j :: 0 <= j < |insts| ==> insts[j].name == SortedNames(dj.instruments.Keys)[j]
    requires forall j :: 0 <= j < |insts| ==> insts[j].name in dj.instruments && dj.instruments[insts[j].name] == insts[j]
    requires forall j :: 0 <= j < |rows| ==> rows[j] == RowOf(insts[j].Snapshot())
    ensures rows == Status(dj.Snapshots())
  {
    var tracks := dj.Snapshots();
    var ks := SortedNames(tracks.Keys);
    forall j | 0 <= j < |rows| ensures rows[j] == RowOf(tracks[ks[j]]) {
      assert insts[j] == dj.instruments[ks[j]];
    }
    RowsMatch(rows, tracks, ks);
  }

  /** The loop of listInstruments: one row per instrument, in the given order. */
  method Describe(insts: seq<Instrument>) returns (rows: seq<Row>)
    ensures |rows| == |insts|
    ensures forall j :: 0 <= j < |insts| ==> rows[j] == RowOf(insts[j].Snapshot())
  {
    rows := [];
    var i := 0;
    while i < |insts|
      invariant 0 <= i <= |insts| && |rows| == i
      invariant forall j :: 0 <= j < i ==> rows[j] == RowOf(insts[j].Snapshot())
    {
      var inst := insts[i];
      var state := inst.GetState();
      rows := rows + [Row(inst.name, state, inst.volume, BaseBpm * inst.speedRatio)];
      i := i + 1;
    }
  }

  /** A transport command (main.go:327-356). */
  method Transport(dj: DJMixer, verb: C.Verb, target: string, seekOk: string -> bool) returns (reply: Reply)
    requires dj.Valid()
    modifies dj.Objects()
    ensures dj.Valid()
    ensures target != "" ==>
      Effect(reply, dj.Snapshots()) == Targeted(old(dj.Snapshots()), target, OpFor(verb, seekOk(target)))
    ensures target == "" ==>
      reply == Batch(BroadcastFailures(old(dj.Snapshots()), verb, seekOk))
      && dj.Snapshots() == BroadcastTracks(old(dj.Snapshots()), verb, seekOk)
  {
    if target != "" {
      if target in dj.instruments {
        var out := Act(dj, dj.instruments[target], OpFor(verb, seekOk(target)));
        reply := Done(out);
      } else {
        reply := Done(Fail(NotFound(target)));
      }
    } else {
      ghost var before := dj.Snapshots();
      var failed := Broadcast(dj, verb, seekOk);
      reply := Batch(failed);
      assert failed == BroadcastFailures(before, verb, seekOk);
      assert dj.Snapshots() == BroadcastTracks(before, verb, seekOk);
    }
  }

  /** "volume <name> <value>" (main.go:357-372): the value is parsed before
      the instrument is looked up. */
  method VolumeCommand(dj: DJMixer, target: string, text: string, parse: string -> Parsed) returns (reply: Reply)
    requires dj.Valid()
    modifies dj.Objects()
    ensures dj.Valid()
    ensures parse(text).Malformed? ==>
      reply == InvalidValue("volume", text) && dj.Snapshots() == old(dj.Snapshots())
    ensures parse(text).Number? ==>
      Effect(reply, dj.Snapshots()) == Targeted(old(dj.Snapshots()), target, Op.SetVolume(parse(text).number))
  {
    var value := parse(text);
    if value.Malformed? {
      return InvalidValue("volume", text);
    }
    var inst, ok := dj.GetInstrument(target);
    if ok {
      var out := Act(dj, inst, Op.SetVolume(value.number));
      reply := Done(out);
    } else {
      reply := Done(Fail(NotFound(target)));
    }
  }

  /** "bpm <name> <value>" (main.go:373-389): a value that does not parse or
      is not above zero is refused before the lookup; otherwise the speed
      ratio value / BaseBPM is requested. */
  method BpmCommand(dj: DJMixer, target: string, text: string, parse: string -> Parsed) returns (reply: Reply)
    requires dj.Valid()
    modifies dj.Objects()
    ensures dj.Valid()
    ensures parse(text).Malformed? || AtMost(parse(text).number, 0.0) ==>
      reply == InvalidValue("bpm", text) && dj.Snapshots() == old(dj.Snapshots())
    ensures !(parse(text).Malformed? || AtMost(parse(text).number, 0.0)) ==>
      Effect(reply, dj.Snapshots()) ==
        Targeted(old(dj.Snapshots()), target, Op.SetSpeed(Quotient(parse(text).number, BaseBpm)))
  {
    var value := parse(text);
    if value.Malformed? || AtMost(value.number, 0.0) {
      return InvalidValue("bpm", text);
    }
    var inst, ok := dj.GetInstrument(target);
    if ok {
      var ratio := Quotient(value.number, BaseBpm);
      var out := Act(dj, inst, Op.SetSpeed(ratio));
      reply := Done(out);
    } else {
      reply := Done(Fail(NotFound(target)));
    }
  }

  /** handleCommand on a command already read from its line. */
  method Execute(dj: DJMixer, c: C.Command, parse: string -> Parsed, seekOk: string -> bool) returns (reply: Reply)
    requires dj.Valid()
    modifies dj.Objects()
    ensures dj.Valid()
    ensures Effect(reply, dj.Snapshots()) == Handle(c, old(dj.Snapshots()), parse, seekOk)
  {
    match c
    case Blank => reply := Silent;
    case Transport(verb, target) => reply := Transport(dj, verb, target, seekOk);
    case Volume(target, text) => reply := VolumeCommand(dj, target, text, parse);
    case Bpm(target, text) => reply := BpmCommand(dj, target, text, parse);
    case VolumeUsage => reply := UsageHint("volume");
    case BpmUsage => reply := UsageHint("bpm");
    case List =>
      var rows := ListInstruments(dj);
      reply := Listing(rows);
    case Help => reply := HelpText;
    case Quit => reply := QuitHint;
    case Unknown(word) => reply := UnknownCommand(word);
  }

  /** handleCommand (main.go:318-404): one input line. */
  method HandleCommand(dj: DJMixer, input: string, parse: string -> Parsed, seekOk: string -> bool) returns (reply: Reply)
    requires dj.Valid()
    modifies dj.Objects()
    ensures dj.Valid()
    ensures Effect(reply, dj.Snapshots()) == Handle(C.ParseLine(input), old(dj.Snapshots()), parse, seekOk)
  {
    var c := C.ParseLine(input);
    reply := Execute(dj, c, parse, seekOk);
  }
}
