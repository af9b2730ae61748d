/** A session at the console: two instruments are loaded, all are started,
    one is paused and the listing is asked for. */
module Scenario {
  import opened Floats
  import opened Tracks
  import opened Instruments
  import opened Mixers
  import opened Names
  import opened Dispatch
  import opened Control
  import C = Commands

  function Started(name: string): Track {
    Initial(name).(state := Playing, gatePaused := false, silent := false)
  }

  /** The three lines typed at the console. */
  const PlayAll: string := "play"
  const PauseKickText: string := "pause kick"
  const ListText: string := "list"

  /** The three lines of the session read as the commands they name. */
  lemma PlayLine()
    ensures C.ParseLine(PlayAll) == C.Transport(C.Play, "")
  {
    C.ParseLineOfWords(C.Transport(C.Play, ""));
  }

  lemma PauseKickLine()
    ensures C.ParseLine(PauseKickText) == C.Transport(C.Pause, "kick")
  {
    var w := "kick";
    assert C.IsToken(w) by {
      assert forall i :: 0 <= i < |w| ==> w[i] in {'k', 'i', 'c'};
    }
    assert C.Join(C.Words(C.Transport(C.Pause, w))) == "pause kick";
    C.ParseLineOfWords(C.Transport(C.Pause, w));
  }

  lemma ListLine()
    ensures C.ParseLine(ListText) == C.List
  {
    C.ParseLineOfWords(C.List);
  }

  /** The two instruments as loaded. */
  function Loaded(): map<string, Track> {
    map["kick" := Initial("kick"), "bass" := Initial("bass")]
  }

  function BothStarted(): map<string, Track> {
    map["kick" := Started("kick"), "bass" := Started("bass")]
  }

  /** The listing the session ends with. */
  function Shown(): seq<Row> {
    [Row("bass", Playing, 0.0, 120.0), Row("kick", Paused, 0.0, 120.0)]
  }

  /** Broadcast play from two new instruments starts both. */
  lemma PlayBoth(parse: string -> Parsed, seekOk: string -> bool)
    ensures Handle(C.Transport(C.Play, ""), Loaded(), parse, seekOk).tracks == BothStarted()
  {
    var tracks := Loaded();
    var e := Handle(C.Transport(C.Play, ""), tracks, parse, seekOk);
    assert e.tracks.Keys == {"kick", "bass"};
    assert e.tracks["kick"] == Started("kick");
    assert e.tracks["bass"] == Started("bass");
  }

  /** Pausing "kick" leaves "bass" playing. */
  lemma PauseKick(parse: string -> Parsed, seekOk: string -> bool)
    ensures Handle(C.Transport(C.Pause, "kick"), BothStarted(), parse, seekOk).tracks == AfterPause()
  {
  }

  function AfterPause(): map<string, Track> {
    map["kick" := Started("kick").(state := Paused, gatePaused := true), "bass" := Started("bass")]
  }

  lemma AfterPauseRows()
    ensures RowsOf(AfterPause(), ["bass", "kick"]) == Shown()
  {
    var ks := ["bass", "kick"];
    assert ks[1..] == ["kick"];
    assert RowsOf(AfterPause(), ["kick"]) == [Row("kick", Paused, 0.0, 120.0)];
  }

  /** The listing after the pause: "bass" playing, then "kick" paused. */
  lemma ListBoth(parse: string -> Parsed, seekOk: string -> bool)
    ensures Handle(C.List, AfterPause(), parse, seekOk).reply == Listing(Shown())
  {
    assert Precedes("bass", "kick");
    ListingFollowsNames(AfterPause(), ["bass", "kick"], parse, seekOk);
    AfterPauseRows();
  }

  /** Loading "kick" and "bass" and then a second "kick": the duplicate is
      refused and only two instruments are wired into the mix. */
  method LoadTwo(kick: WavFile, bass: WavFile) returns (dj: DJMixer, again: Outcome)
    requires kick.opens && kick.decodes && bass.opens && bass.decodes
    ensures fresh(dj) && fresh(dj.Objects()) && dj.Valid()
    ensures again == Fail(AlreadyExists("kick"))
    ensures |dj.mixed| == 2
    ensures dj.Snapshots() == Loaded()
  {
    dj := new DJMixer();
    var added := dj.AddInstrument("kick", kick);
    var k := dj.instruments["kick"];
    assert k.Snapshot() == Initial("kick");
    added := dj.AddInstrument("bass", bass);
    var b := dj.instruments["bass"];
    assert b.Snapshot() == Initial("bass");
    assert dj.instruments == map["kick" := k, "bass" := b];
    again := dj.AddInstrument("kick", bass);
    assert k.Snapshot() == Initial("kick") && b.Snapshot() == Initial("bass");
    assert dj.Snapshots() == map["kick" := k.Snapshot(), "bass" := b.Snapshot()];
  }

  /** "play" at the console, right after loading. */
  method TypePlay(dj: DJMixer, parse: string -> Parsed, seekOk: string -> bool)
    requires dj.Valid() && dj.Snapshots() == Loaded()
    modifies dj.Objects()
    ensures dj.Valid() && dj.Snapshots() == BothStarted()
  {
    PlayLine();
    PlayBoth(parse, seekOk);
    var _ := HandleCommand(dj, PlayAll, parse, seekOk);
  }

  /** "pause kick" at the console, with both instruments playing. */
  method TypePauseKick(dj: DJMixer, parse: string -> Parsed, seekOk: string -> bool)
    requires dj.Valid() && dj.Snapshots() == BothStarted()
    modifies dj.Objects()
    ensures dj.Valid() && dj.Snapshots() == AfterPause()
  {
    PauseKickLine();
    PauseKick(parse, seekOk);
    var _ := HandleCommand(dj, PauseKickText, parse, seekOk);
  }

  /** "play" starts both instruments, "pause kick" pauses only "kick", and
      "list" shows exactly that, "bass" first. */
  method KickAndBass(kick: WavFile, bass: WavFile, parse: string -> Parsed, seekOk: string -> bool)
    returns (listing: Reply)
    requires kick.opens && kick.decodes && bass.opens && bass.decodes
    ensures listing == Listing(Shown())
  {
    var dj, _ := LoadTwo(kick, bass);
    TypePlay(dj, parse, seekOk);
    TypePauseKick(dj, parse, seekOk);
    ListLine();
    ListBoth(parse, seekOk);
    listing := HandleCommand(dj, ListText, parse, seekOk);
  }
}
