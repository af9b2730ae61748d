# go-dj control core in Dafny

go-dj is a terminal DJ mixer written in Go. It loads WAV files as looping
instruments, wires each one into one audio mixer and controls them from a
command line: play, pause, stop, replay, volume, tempo (bpm) and a status
listing. This project models the control core of `main.go` as sequential
Dafny and proves what that core promises.

- **Tracks** (`tracks.dfy`) holds the constants, the transport states, the
  errors and one instrument's fields as a value (`Track`). It gives a pure
  step function for each Instrument operation, and the invariant `Coherent`
  that links the transport state to the gate flag (`ctrl.Paused`), the mute
  flag (`volume.Silent`) and the parameter ranges.
- **Instruments** (`instrument.dfy`) has the `Instrument` class. Its fields
  are updated in place, and each method is proved to have the effect of its
  step function. `NewInstrument` takes the open/decode outcome of the file
  as a parameter.
- **Floats** (`floats.dfy`) models the float64 values that
  `strconv.ParseFloat` can return: finite values, both infinities and NaN.
  Go's comparisons treat them specially, and NaN slips through both range
  checks (see Findings).
- **Names** (`names.dfy`) defines the byte-wise string order that
  `sort.Strings` uses. It includes a sort, a proof that any two sorted
  arrangements of the same names are equal, and `SortedNames`, the unique
  ascending listing of a set of names.
- **Mixers** (`mixer.dfy`) has the `DJMixer` class: a map from names to
  instruments, and the beep mixer's streamer list as the sequence `mixed`.
- **Commands** (`commands.dfy`) covers how an input line becomes a command:
  white space as `unicode.IsSpace` defines it, ASCII lower-casing,
  `strings.Fields`, and the switch over the first field with its aliases.
  It proves that printing a command and reading it back gives it again.
- **Dispatch** (`dispatch.dfy`) is `Handle`, handleCommand as a function of
  the command and every instrument's fields, with its properties.
- **Control** (`control.dfy`) is the imperative handleCommand over a live
  `DJMixer`, proved to have exactly the effect `Handle` describes.
- **Scenario** (`scenario.dfy`) works through one console session.

Inputs the model cannot compute are parameters:
- `strconv.ParseFloat` is `parse: string -> Parsed`;
- whether `Seek(0)` succeeds on an instrument's stream is `seekOk`;
- whether a WAV file opens and decodes is a `WavFile` value.

The model follows the code:
- `DJMixer.Close` stops and forgets every instrument but leaves its streamer
  in the beep mixer, so `mixed` is unchanged;
- a broadcast transport command logs each instrument's error and goes on,
  so the reply only collects the names that failed;
- `Stop` only mutes and leaves the gate as it was: a playing track runs on
  silently, a paused one stays frozen, and a later `Play` resumes it.

## Model

| member | source | states |
|---|---|---|
| Tracks.Initial | main.go:78-96 | a new track is Stopped, gated, muted, at volume 0, speed ratio 1.0, and satisfies the invariant |
| Tracks.PlayStep | main.go:114-125 | fails with AlreadyPlaying exactly on a playing track and then changes nothing; otherwise the track is Playing, unmuted and ungated; volume, speed and position unchanged; keeps the invariant |
| Tracks.ReplayStep | main.go:127-138 | fails with SeekFailed exactly when the seek fails and then changes nothing; otherwise Playing, unmuted, ungated at position 0, from any state; keeps the invariant |
| Tracks.PauseStep | main.go:140-150 | fails with NotPlaying (naming the current state) exactly when not playing and then changes nothing; otherwise Paused and gated, mute flag, volume and speed untouched; keeps the invariant |
| Tracks.StopStep | main.go:152-163 | never fails; a stopped track is unchanged; otherwise muted and Stopped with the gate left as it was; keeps the invariant |
| Tracks.SetVolumeStep | main.go:165-174 | accepts exactly the numbers in [-2, 2], bounds included; a refused value mutates nothing; an accepted one changes only the volume |
| Tracks.SetSpeedStep | main.go:99-112 | accepts exactly the numbers in [0.5, 2], bounds included; a refused ratio mutates nothing; an accepted one sets the stored ratio and the resampler's ratio and nothing else |
| Tracks.VolumeCheckAdmitsNaN | main.go:168 | the range test as written does not refuse NaN, while the intended check does |
| Tracks.SpeedCheckAdmitsNaN | main.go:100 | the range test as written does not refuse NaN, while the intended check does |
| Tracks.Apply | main.go:99-174 | every operation keeps the name and the invariant, and a failed operation leaves the track unchanged |
| Tracks.RunKeepsCoherent | main.go:87-174 | the invariant holds after any sequence of operations, failed ones included |
| Tracks.RunWithoutReplayKeepsPosition | main.go:114-174 | no operation other than Replay seeks the stream |
| Tracks.StopIdempotent | main.go:152-163 | stopping twice succeeds both times and the second stop changes nothing |
| Tracks.PauseThenPlayResumes | main.go:114-150 | pause then play restores a playing track exactly |
| Tracks.StopThenPlayResumes | main.go:114-163 | stop then play restores the control fields of a playing track exactly, because Stop leaves its gate open |
| Tracks.PlayAndPauseGuardsAreComplementary | main.go:117-143 | Play fails exactly when Pause succeeds |
| Instruments.Instrument.constructor | main.go:87-96 | the fields of a new instrument: Stopped, gated, muted, volume 0, ratio 1.0, position 0 |
| Instruments.Instrument.SetSpeed | main.go:99-112 | has exactly the effect of SetSpeedStep and keeps the invariant |
| Instruments.Instrument.Play | main.go:114-125 | has exactly the effect of PlayStep and keeps the invariant |
| Instruments.Instrument.Replay | main.go:127-138 | has exactly the effect of ReplayStep and keeps the invariant |
| Instruments.Instrument.Pause | main.go:140-150 | has exactly the effect of PauseStep and keeps the invariant |
| Instruments.Instrument.Stop | main.go:152-163 | has exactly the effect of StopStep and keeps the invariant |
| Instruments.Instrument.SetVolume | main.go:165-174 | has exactly the effect of SetVolumeStep and keeps the invariant |
| Instruments.Instrument.GetState | main.go:176-180 | returns the current transport state |
| Instruments.Instrument.Perform | main.go:332-341 | the closure picked for a command has the effect of that operation's step function |
| Instruments.NewInstrument | main.go:68-97 | a file that does not open gives OpenFailed, one that does not decode gives DecodeFailed, otherwise a fresh instrument in the initial state |
| Floats.Quotient | main.go:385 | dividing the parsed tempo by 120 keeps NaN as NaN and finite as finite (q * 120 is the tempo), and does not change the answer of the `<= 0` test |
| Floats.NaNPassesWrittenCheck | main.go:168 | the comparison pair `x < lo`, `x > hi` refuses neither for NaN, though NaN lies in no range |
| Floats.WrittenCheckAgreesOffNaN | main.go:100 | on every value except NaN the written range test and the intended one agree |
| Names.BelowTotal | main.go:227 | any two names are ordered one way or the other |
| Names.BelowAntisymmetric | main.go:227 | names ordered both ways are equal |
| Names.BelowTransitive | main.go:227 | the name order is transitive |
| Names.Sort | main.go:227 | sorting permutes the names |
| Names.SortSorted | main.go:227 | sorting orders the names |
| Names.SortedUnique | main.go:227 | two sorted permutations of the same names are the same sequence, so any correct sort agrees with this one |
| Names.SortedNames | main.go:223-227 | the names of a set, each once, strictly ascending |
| Names.SortGathered | main.go:223-227 | sorting names gathered in any order, each once, gives SortedNames |
| Mixers.DJMixer.constructor | main.go:190-194 | a new mixer has no instruments and an empty mix |
| Mixers.DJMixer.AddInstrument | main.go:196-210 | succeeds exactly for a new name whose file opens and decodes; a taken name gives AlreadyExists; a failure leaves the map and the mix unchanged; success adds exactly that key, mapped to a fresh instrument in the initial state, and appends it to the mix |
| Mixers.DJMixer.GetInstrument | main.go:212-217 | finds an instrument exactly when the name is registered, and then returns the registered one |
| Mixers.DJMixer.GetAllInstrumentsSorted | main.go:219-233 | returns each registered instrument exactly once, as many as the map holds, in strictly ascending name order |
| Mixers.DJMixer.GatherNames | main.go:223-226 | collects every registered name exactly once |
| Mixers.DJMixer.LookUpAll | main.go:228-231 | maps each name to the instrument registered under it, in order |
| Mixers.DJMixer.Close | main.go:235-244 | every instrument is stopped as Stop would do, the map becomes empty so every later lookup fails, and the mix is unchanged |
| Commands.ToLower | main.go:323 | lower-cases each character and keeps the length |
| Commands.Fields | main.go:323 | splits a line into non-empty fields without white space |
| Commands.FieldsSplitAtSpace | main.go:323 | a white-space character separates fields: the fields of `a`, a space and `b` are the fields of `a` followed by those of `b` |
| Commands.FieldsEmptyIffAllSpace | main.go:319-323 | a line has no fields exactly when it is all white space, so `parts[0]` exists once the empty-line test has passed |
| Commands.Parse | main.go:324-400 | the first field selects a command; exactly the words outside the keyword list give the unknown-command reply, naming that word |
| Commands.ParseLine | main.go:319-322 | a line gives the blank command exactly when it is all white space |
| Commands.AliasesAgree | main.go:327-394 | start, vol, ls, h, exit and q select the same commands as play, volume, list, help and quit |
| Commands.ExtraFieldsIgnored | main.go:327-394 | fields after the first three are ignored |
| Commands.ParseLineOfWords | main.go:319-400 | printing any command a line can denote as its canonical words and reading that line back gives the command again |
| Dispatch.OpFor | main.go:332-341 | the closure for replay is the only one that seeks |
| Dispatch.Targeted | main.go:343-348 | an unknown target gives NotFound and changes nothing; a failed operation changes nothing |
| Dispatch.Handle | main.go:318-404 | handleCommand's effect keeps the set of registered names |
| Dispatch.HandleFrame | main.go:318-404 | a command changes only the instruments it addresses, renames none, and keeps every instrument's invariant |
| Dispatch.OnlySuccessChangesTracks | main.go:318-404 | every error, usage hint, invalid value and display command leaves all instruments as they were |
| Dispatch.UnknownTargetIsNotFound | main.go:343-388 | a command naming an unregistered instrument gives NotFound or, for volume and bpm, an invalid-value reply, and changes nothing |
| Dispatch.BroadcastPlay | main.go:349-355 | "play" with no name leaves every instrument playing and audible; exactly the ones already playing report the skipped error |
| Dispatch.BroadcastPause | main.go:349-355 | "pause" with no name pauses the playing instruments and leaves the rest alone; exactly those report the skipped error |
| Dispatch.BroadcastStop | main.go:349-355 | "stop" with no name stops every instrument and none reports an error |
| Dispatch.BroadcastReplay | main.go:349-355 | "replay" with no name restarts every instrument whose stream rewinds; exactly those whose seek fails report the skipped error and stay as they were |
| Dispatch.BpmAcceptance | main.go:373-389 | on a registered instrument a finite bpm is refused as invalid exactly when it is not above 0, accepted exactly in [60, 240], and then sets the speed ratio to bpm / 120 |
| Dispatch.BpmExamples | main.go:373-389 | 240 bpm sets the ratio 2.0; 30 bpm is refused with ratio 0.25 out of range |
| Dispatch.BpmNaNRefused | main.go:380-386 | NaN passes the `<= 0` test and the ratio is NaN; the intended range check refuses it and nothing changes |
| Dispatch.VolumeAcceptance | main.go:357-372 | on a registered instrument a volume is accepted exactly when it is a number in [-2, 2], then only that volume changes; otherwise VolumeOutOfRange and nothing changes |
| Dispatch.StatusShowsEachOnce | main.go:406-420 | the listing has one row per instrument, with its name, state, volume and 120 times its ratio, in strictly ascending name order |
| Dispatch.ListingFollowsNames | main.go:406-420 | "list" lists the instruments in the one strictly ascending order of their names |
| Dispatch.ListingShowsEachOnce | main.go:390-391 | "list" changes nothing and shows every instrument once, ascending by name |
| Control.Act | main.go:343-348 | running one closure on one registered instrument has the effect Targeted describes, and the others keep their fields |
| Control.Broadcast | main.go:349-355 | after the loop every instrument has had the operation applied once, and the failed set is exactly the instruments whose operation failed |
| Control.ListInstruments | main.go:406-420 | the rows shown are exactly the status listing of the mixer's instruments |
| Control.Describe | main.go:408-418 | one row per instrument, in the given order |
| Control.ListedRows | main.go:406-420 | rows built from the sorted instruments are the status listing |
| Control.Transport | main.go:327-356 | a named target has the Targeted effect; no name has the broadcast effect |
| Control.VolumeCommand | main.go:357-372 | a value that does not parse is refused before the lookup, and nothing changes; otherwise SetVolume on the target |
| Control.BpmCommand | main.go:373-389 | a value that does not parse or is not above 0 is refused before the lookup, and nothing changes; otherwise SetSpeed with bpm / 120 on the target |
| Control.Execute | main.go:324-403 | the reply and the new fields of every instrument are exactly Handle's |
| Control.HandleCommand | main.go:318-404 | one input line has exactly the effect Handle gives its command, and the mixer's invariant is kept |
| Scenario.PauseKickLine | main.go:319-341 | the line "pause kick" selects pause on "kick" |
| Scenario.LoadTwo | main.go:196-210 | after loading "kick" and "bass", a second "kick" is refused and the mix holds two streamers |
| Scenario.KickAndBass | main.go:318-420 | "play", then "pause kick", then "list" shows "bass" playing and then "kick" paused, both at volume 0 and 120 bpm |

## Left out

- WAV files: `os.Open`, `wav.Decode`, `getSampleRateFromFile`,
  `Instrument.Close` and `file.Close` are file I/O and a foreign decoder.
  Only whether a file opens and decodes enters, as a `WavFile` value.
- Audio: `speaker.Init`, `Play`, `Lock` and `Unlock`, and the insides of
  `beep.Mixer`, `beep.Ctrl`, `beep.Resampler` and `effects.Volume`
  (base-2 gain, resampling, summing samples). These are the audio device and
  signal processing in a library. The gate, mute, volume and ratio are kept
  as plain fields. The stream position is a counter that only Replay resets;
  it does not advance with playback, because the render path is not
  modelled, so the "exactly" of Tracks.StopThenPlayResumes concerns the
  control fields and not how far the audio has run. Whether the seek
  succeeds is the input `seekOk`.
- Concurrency: the `sync.RWMutex` locks and the split between the command
  goroutine and the speaker's render thread. Every operation is sequential.
- Process plumbing: `main`, signal handling and directory globbing. The quit
  command's signal to its own process is left out too; the model keeps only
  its hint reply.
- Console: the stdin scanner loop, `log` messages, `printHelp`, the
  display names that `InstrumentState.String` gives, and the text
  formatting of `listInstruments`. Replies and rows are values.
- `strconv.ParseFloat` is an abstract parameter. Finite float64 values are
  exact reals, so the rounding in `bpm / 120` is not modelled.
- Commands.ToLower: lower-cases only the letters A-Z, whereas
  `strings.ToLower` also maps other Unicode upper-case letters.
- Floats.Quotient: divides exactly; float64 rounding is not modelled.
- Dispatch.Handle: Quit yields only its hint; the interrupt it sends to its
  own process is not modelled.
- Mixers.DJMixer.GetAllInstrumentsSorted: `sort.Strings` sorts the slice
  in place; the model sorts the gathered names as a value, and
  Names.SortedUnique shows every correct sort gives the same order.
- Mixers.DJMixer.Close: the mix `mixed` keeps the stopped instruments, as
  the code does (main.go:235-244 never removes a streamer from the mixer).

## Findings

| source | as written | input that shows it | evidently intended | confidence | as-written member | corrected member |
|---|---|---|---|---|---|---|
| main.go:168 | SetVolume refuses a value only when `vol < MinVolume` or `vol > MaxVolume` holds; both comparisons are false for NaN | `volume kick nan`: ParseFloat accepts "nan", and the volume becomes NaN | accept only numbers in [-2, 2] | not executed | Tracks.VolumeCheckAdmitsNaN | Tracks.SetVolumeStep |
| main.go:100 | SetSpeed refuses a ratio only when `ratio < MinSpeedRatio` or `ratio > MaxSpeedRatio` holds; both comparisons are false for NaN | `bpm kick nan`: NaN passes the `targetBPM <= 0` test at main.go:380, NaN / 120 is NaN, and the stored ratio and the resampler's ratio become NaN | accept only ratios in [0.5, 2] | not executed | Tracks.SpeedCheckAdmitsNaN | Tracks.SetSpeedStep |
