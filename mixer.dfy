/** The DJMixer of main.go:60-64 and 190-244: a map from names to
    instruments, and the beep mixer the instruments are wired into. The
    mixer's streamer list is kept as the sequence of instruments added to it. */
module Mixers {
  import opened Tracks
  import opened Instruments
  import opened Names

  class DJMixer {
    var instruments: map<string, Instrument>
    var mixed: seq<Instrument>

    ghost function Objects(): set<Instrument>
      reads this
    {
      set n | n in instruments :: instruments[n]
    }

    /** Each instrument is registered under its own name, keeps the track
        invariant, and is wired into the mix. */
    ghost predicate Valid()
      reads this, Objects()
    {
      forall n :: n in instruments ==>
        instruments[n].name == n && instruments[n].Valid() && instruments[n] in mixed
    }

    /** Every registered instrument's fields, by name. */
    ghost function Snapshots(): (m: map<string, Track>)
      reads this, Objects()
      ensures m.Keys == instruments.Keys
    {
      map n | n in instruments :: instruments[n].Snapshot()
    }

    /** NewDJMixer (main.go:190-194). */
    constructor ()
      ensures Valid() && instruments == map[] && mixed == []
    {
      instruments := map[];
      mixed := [];
    }

    /** AddInstrument (main.go:196-210): a taken name or a file that will not
        open or decode leaves the mixer as it was; otherwise one new
        instrument is registered and wired into the mix. */
    method AddInstrument(name: string, file: WavFile) returns (out: Outcome)
      requires Valid()
      modifies this
      ensures Valid()
      ensures out.Pass? <==> name !in old(instruments) && file.opens && file.decodes
      ensures name in old(instruments) ==> out == Fail(AlreadyExists(name))
      ensures name !in old(instruments) && !file.opens ==> out == Fail(OpenFailed(file.path))
      ensures name !in old(instruments) && file.opens && !file.decodes ==>
        out == Fail(DecodeFailed(file.path))
      ensures out.Fail? ==> instruments == old(instruments) && mixed == old(mixed)
      ensures out.Pass? ==>
        && name in instruments
        && fresh(instruments[name])
        && instruments[name].Snapshot() == Initial(name)
        && instruments == old(instruments)[name := instruments[name]]
        && mixed == old(mixed) + [instruments[name]]
    {
      if name in instruments {
        return Fail(AlreadyExists(name));
      }
      var r := NewInstrument(name, file);
      if r.Err? {
        return Fail(r.error);
      }
      instruments := instruments[name := r.value];
      mixed := mixed + [r.value];
      out := Pass;
    }

    /** GetInstrument (main.go:212-217). */
    method GetInstrument(name: string) returns (inst: Instrument?, ok: bool)
      ensures ok <==> name in instruments
      ensures ok ==> inst == instruments[name]
      ensures !ok ==> inst == null
    {
      if name in instruments {
        inst, ok := instruments[name], true;
      } else {
        inst, ok := null, false;
      }
    }

    /** GetAllInstrumentsSorted (main.go:219-233): gathers the names in map
        order, sorts them and looks each one up. */
    method GetAllInstrumentsSorted() returns (r: seq<Instrument>)
      requires Valid()
      ensures |r| == |instruments|
      ensures forall i :: 0 <= i < |r| ==> r[i].name in instruments && instruments[r[i].name] == r[i]
      ensures forall n :: n in instruments ==> instruments[n] in r
      ensures forall i, j :: 0 <= i < j < |r| ==> Precedes(r[i].name, r[j].name)
      ensures |r| == |SortedNames(instruments.Keys)|
      ensures forall i :: 0 <= i < |r| ==> r[i].name == SortedNames(instruments.Keys)[i]
    {
      var keys := GatherNames();
      SortGathered(keys, instruments.Keys);
      keys := Sort(keys);
      assert forall j :: 0 <= j < |keys| ==> keys[j] in instruments by {
        forall j | 0 <= j < |keys| ensures keys[j] in instruments {
          assert keys[j] in SortedNames(instruments.Keys);
        }
      }
      r := LookUpAll(keys);
      forall n | n in instruments ensures instruments[n] in r {
        var j :| 0 <= j < |keys| && keys[j] == n;
        assert r[j] == instruments[n];
      }
    }

    /** The first loop of GetAllInstrumentsSorted (main.go:223-226): the
        registered names, in map order, each once. */
    method GatherNames() returns (keys: seq<string>)
      ensures |keys| == |instruments| && Distinct(keys)
      ensures forall k :: k in keys <==> k in instruments
    {
      keys := [];
      var rest := instruments.Keys;
      while rest != {}
        invariant rest <= instruments.Keys
        invariant forall k :: k in keys <==> k in instruments && k !in rest
        invariant Distinct(keys)
        invariant |keys| + |rest| == |instruments|
        decreases rest
      {
        var k :| k in rest;
        keys := keys + [k];
        rest := rest - {k};
      }
    }

    /** The second loop of GetAllInstrumentsSorted (main.go:228-231): the
        instrument registered under each name, in the order of the names. */
    method LookUpAll(keys: seq<string>) returns (r: seq<Instrument>)
      requires forall j :: 0 <= j < |keys| ==> keys[j] in instruments
      ensures |r| == |keys|
      ensures forall j :: 0 <= j < |keys| ==> r[j] == instruments[keys[j]]
    {
      r := [];
      var i := 0;
      while i < |keys|
        invariant 0 <= i <= |keys|
        invariant |r| == i
        invariant forall j :: 0 <= j < i ==> r[j] == instruments[keys[j]]
      {
        r := r + [instruments[keys[i]]];
        i := i + 1;
      }
    }

    /** Close (main.go:235-244): stops every instrument and empties the map.
        The instruments stay in the beep mixer, stopped and muted. */
    method Close()
      requires Valid()
      modifies this, Objects()
      ensures Valid() && instruments == map[] && mixed == old(mixed)
      ensures forall n :: n in old(instruments) ==>
        old(instruments)[n].Snapshot() == StopStep(old(instruments[n].Snapshot())).track
    {
      var rest := instruments.Keys;
      while rest != {}
        invariant rest <= instruments.Keys
        invariant instruments == old(instruments) && mixed == old(mixed)
        invariant Valid()
        invariant forall n :: n in instruments && n !in rest ==>
          instruments[n].Snapshot() == StopStep(old(instruments[n].Snapshot())).track
        invariant forall n :: n in rest ==> instruments[n].Snapshot() == old(instruments[n].Snapshot())
        decreases rest
      {
        var k :| k in rest;
        var inst := instruments[k];
        var _ := inst.Stop();
        rest := rest - {k};
      }
      instruments := map[];
    }
  }
}
