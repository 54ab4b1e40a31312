/** settings (src/settings.hpp, src/settings.cpp): the tone generator's
    command-line settings. Option parsing itself is abstracted into the set
    of options given and their values; what is modelled is the defaults,
    the storing of given values, the post-parse checks in their order, and
    the accessors. */
module Settings {
  import opened CValues
  import Notes

  const DEFAULT_NOTE_DURATION: int := 200
  const DEFAULT_CHANNELS: int := 2
  const DEFAULT_SAMPLE_RATE: int := 44100
  const DEFAULT_NOTE_DISTANCE: int := 8
  const DEFAULT_PAUSE_TIME: int := 5

  const VERBOSITY_QUIET: int := 0
  const VERBOSITY_NORMAL: int := 1
  const VERBOSITY_VERBOSE: int := 2
  /** The duration that means "play forever". */
  const FOREVER: int := -1

  /** The exit_code enum: no_exit, EXIT_SUCCESS, EXIT_FAILURE. */
  const NO_EXIT: int := -1
  const EXIT_OK: int := 0
  const EXIT_FAIL: int := 1

  const MSG_TIME := "--time must be greater than 1."
  const MSG_PAUSE := "--pause must be at least 0"
  const MSG_PITCH_CONFLICT := "--concert-pitch and --concert-pitch-note conflict"
  const MSG_NUMBER := "value is less than 1 for --number"
  const MSG_NUMBER_END := "--number and --end conflict"

  /** The options given on the command line, each with its value where it
      takes one (None: not given). --concert-pitch takes a floating-point
      value, so only its presence is kept. */
  datatype Options = Options(
    help: bool, verbose: bool, loop: bool,
    time: Option<int>, pause: Option<int>, dump: Option<string>,
    start: Option<string>, distance: Option<int>, end: Option<string>, number: Option<int>,
    concertPitch: bool, concertPitchNote: Option<string>,
    volume: Option<int>, rate: Option<int>, channels: Option<int>)

  /** Option values come from argv, so they hold no NUL. */
  predicate FromArgv(o: Options)
  {
    o.concertPitchNote.Some? ==> IsCString(o.concertPitchNote.value)
  }

  /** How notes are chosen; only the start mode is set by the code. */
  datatype NoteMode = NoteModeUnset | NoteModeStart

  /** What parse_args ends with: normally, or with the runtime_error it
      throws. */
  datatype ParseOutcome = Parsed | Invalid(message: string)

  function Given<T>(o: Option<T>, current: T): T
  {
    if o.Some? then o.value else current
  }

  /** The checks parse_args runs after storing the values, in order; the
      first that fails decides the error. --help skips all of them, and
      the volume range is never an error. */
  function FirstError(o: Options, duration: int, pause: int, numIncrements: int): (r: Option<string>)
    ensures o.help ==> r == None
    ensures r == None <==> (o.help ||
      (PastPitch(o, duration, pause) && !(o.start.Some? && o.number.Some? && (numIncrements <= 0 || o.end.Some?))))
    ensures r.Some? ==> (r.value in {MSG_TIME, MSG_PAUSE, MSG_PITCH_CONFLICT, MSG_NUMBER, MSG_NUMBER_END} ||
      (o.concertPitchNote.Some? && Notes.NoteOffset(o.concertPitchNote.value) == Notes.Failure(r.value)))
  {
    if o.help then None
    else if duration < 0 then Some(MSG_TIME)
    else if pause < 0 then Some(MSG_PAUSE)
    else if o.concertPitch && o.concertPitchNote.Some? then Some(MSG_PITCH_CONFLICT)
    else if o.concertPitchNote.Some? && Notes.NoteOffset(o.concertPitchNote.value).Failure? then
      Some(Notes.NoteOffset(o.concertPitchNote.value).message)
    else if o.start.Some? && o.number.Some? && numIncrements <= 0 then Some(MSG_NUMBER)
    else if o.start.Some? && o.number.Some? && o.end.Some? then Some(MSG_NUMBER_END)
    else None
  }

  /** The outcome that the first failing check decides. */
  function OutcomeOf(e: Option<string>): (r: ParseOutcome)
    ensures r == Parsed <==> e.None?
    ensures e.Some? ==> r == Invalid(e.value)
  {
    if e.None? then Parsed else Invalid(e.value)
  }

  /** parse_args got past the --time and --pause checks. */
  predicate PastPause(o: Options, duration: int, pause: int)
  {
    !o.help && duration >= 0 && pause >= 0
  }

  /** parse_args got past the concert pitch handling. */
  predicate PastPitch(o: Options, duration: int, pause: int)
  {
    PastPause(o, duration, pause) && !(o.concertPitch && o.concertPitchNote.Some?) &&
    (o.concertPitchNote.Some? ==> Notes.NoteOffset(o.concertPitchNote.value).Offset?)
  }

  class Settings {
    var exitStatus: int
    var loopFlag: bool
    var duration: int
    var channels: int
    var sampleRate: int
    var noteDistance: int
    var verbosityLevel: int
    var pauseTime: int
    var dumpFile: string
    var startNote: string
    var endNote: string
    var numIncrements: int
    var volume: int
    var noteMode: NoteMode
    /** The concert pitch as half steps from 440 Hz, when given as a note. */
    var concertPitchOffset: Option<int>

    /** The exit status is one of the exit_code values and the verbosity
        one of the three levels. */
    ghost predicate Valid()
      reads this
    {
      exitStatus in {NO_EXIT, EXIT_OK, EXIT_FAIL} &&
      verbosityLevel in {VERBOSITY_QUIET, VERBOSITY_NORMAL, VERBOSITY_VERBOSE}
    }

    /** set_defaults, on an object whose other members are empty or zero. */
    constructor ()
      ensures Valid()
      ensures exitStatus == NO_EXIT && duration == DEFAULT_NOTE_DURATION
      ensures channels == DEFAULT_CHANNELS && sampleRate == DEFAULT_SAMPLE_RATE
      ensures noteDistance == DEFAULT_NOTE_DISTANCE && pauseTime == DEFAULT_PAUSE_TIME
      ensures verbosityLevel == VERBOSITY_NORMAL && !loopFlag && dumpFile == []
      ensures numIncrements == 0 && volume == 0 && noteMode == NoteModeUnset && concertPitchOffset == None
    {
      exitStatus := NO_EXIT;
      duration := DEFAULT_NOTE_DURATION;
      channels := DEFAULT_CHANNELS;
      sampleRate := DEFAULT_SAMPLE_RATE;
      noteDistance := DEFAULT_NOTE_DISTANCE;
      pauseTime := DEFAULT_PAUSE_TIME;
      verbosityLevel := VERBOSITY_NORMAL;
      loopFlag := false;
      dumpFile, startNote, endNote := [], [], [];
      numIncrements, volume := 0, 0;
      noteMode := NoteModeUnset;
      concertPitchOffset := None;
    }

    /** exit(): whether the program should stop, i.e. the status is set. */
    function Exit(): (r: bool)
      reads this
      requires Valid()
      ensures r <==> exitStatus == EXIT_OK || exitStatus == EXIT_FAIL
    {
      exitStatus != NO_EXIT
    }

    /** exit_status(): -1, EXIT_SUCCESS or EXIT_FAILURE. */
    function ExitStatus(): (r: int)
      reads this
      requires Valid()
      ensures r in {-1, 0, 1}
      ensures r == -1 <==> !Exit()
    {
      exitStatus
    }

    /** dump_to_file(): a dump file name was given and is not empty. */
    function DumpToFile(): (r: bool)
      reads this
      ensures r <==> |dumpFile| > 0
    {
      |dumpFile| != 0
    }

    function Loop(): (r: bool)
      reads this
      ensures r <==> loopFlag
    {
      loopFlag
    }

    function DurationMs(): (r: int)
      reads this
      ensures r == duration
    {
      duration
    }

    function VerbosityLevel(): (r: int)
      reads this
      requires Valid()
      ensures r in {VERBOSITY_QUIET, VERBOSITY_NORMAL, VERBOSITY_VERBOSE}
      ensures r == verbosityLevel
    {
      verbosityLevel
    }

    function SampleRate(): (r: int)
      reads this
      ensures r == sampleRate
    {
      sampleRate
    }

    function Channels(): (r: int)
      reads this
      ensures r == channels
    {
      channels
    }

    /** notify(): every option given with a value stores it in its member. */
    method Store(o: Options)
      modifies this`duration, this`pauseTime, this`dumpFile, this`startNote, this`noteDistance
      modifies this`endNote, this`numIncrements, this`volume, this`sampleRate, this`channels
      ensures duration == Given(o.time, old(duration)) && pauseTime == Given(o.pause, old(pauseTime))
      ensures dumpFile == Given(o.dump, old(dumpFile)) && startNote == Given(o.start, old(startNote))
      ensures noteDistance == Given(o.distance, old(noteDistance)) && endNote == Given(o.end, old(endNote))
      ensures numIncrements == Given(o.number, old(numIncrements)) && volume == Given(o.volume, old(volume))
      ensures sampleRate == Given(o.rate, old(sampleRate)) && channels == Given(o.channels, old(channels))
    {
      duration, pauseTime, dumpFile :=
        Given(o.time, duration), Given(o.pause, pauseTime), Given(o.dump, dumpFile);
      startNote, noteDistance, endNote, numIncrements :=
        Given(o.start, startNote), Given(o.distance, noteDistance), Given(o.end, endNote), Given(o.number, numIncrements);
      volume, sampleRate, channels := Given(o.volume, volume), Given(o.rate, sampleRate), Given(o.channels, channels);
    }

  /** The checks after the pitch handling: --loop, then the --start
        group. */
    method StartChecks(o: Options) returns (r: ParseOutcome)
      modifies this`loopFlag, this`noteMode, this`numIncrements
      ensures loopFlag == (old(loopFlag) || o.loop)
      ensures o.start.None? ==> r == Parsed && noteMode == old(noteMode) && numIncrements == old(numIncrements)
      ensures o.start.Some? ==> noteMode == NoteModeStart
      ensures o.start.Some? && o.number.Some? && old(numIncrements) <= 0 ==>
        r == Invalid(MSG_NUMBER) && numIncrements == old(numIncrements)
      ensures o.start.Some? && !(o.number.Some? && old(numIncrements) <= 0) ==>
        numIncrements == old(numIncrements) - 1 &&
        r == if o.number.Some? && o.end.Some? then Invalid(MSG_NUMBER_END) else Parsed
    {
      if o.loop {
        loopFlag := true;
      }
      r := Parsed;
      if o.start.Some? {
        noteMode := NoteModeStart;
        if o.number.Some? && numIncrements <= 0 {
          return Invalid(MSG_NUMBER);
        }
        numIncrements := numIncrements - 1;
        if o.number.Some? && o.end.Some? {
          r := Invalid(MSG_NUMBER_END);
        }
      }
    }

    /** parse_args after the values are stored: --help sets the exit status
        and returns; then --time, --pause, and the rest. */
    method Validate(o: Options) returns (r: ParseOutcome)
      requires Valid() && FromArgv(o)
      modifies this`exitStatus, this`verbosityLevel, this`loopFlag, this`concertPitchOffset
      modifies this`noteMode, this`numIncrements
      ensures Valid()
      ensures r == OutcomeOf(FirstError(o, old(duration), old(pauseTime), old(numIncrements)))
      ensures exitStatus == if o.help then EXIT_OK else old(exitStatus)
      ensures verbosityLevel == if PastPause(o, old(duration), old(pauseTime)) && o.verbose
                                then VERBOSITY_VERBOSE else old(verbosityLevel)
      ensures loopFlag == (old(loopFlag) || (PastPitch(o, old(duration), old(pauseTime)) && o.loop))
      ensures concertPitchOffset ==
        if PastPitch(o, old(duration), old(pauseTime)) && o.concertPitchNote.Some? then
          Some(Notes.NoteOffset(o.concertPitchNote.value).value)
        else old(concertPitchOffset)
      ensures noteMode == if PastPitch(o, old(duration), old(pauseTime)) && o.start.Some? then NoteModeStart
                          else old(noteMode)
    {
      if o.help {
        exitStatus := EXIT_OK;
        return Parsed;
      }
      if duration < 0 {
        return Invalid(MSG_TIME);
      }
      if pauseTime < 0 {
        return Invalid(MSG_PAUSE);
      }
      r := AfterPause(o);
    }

    /** parse_args past the --time and --pause checks: --verbose, the
        concert pitch options, then --loop and the --start group. */
    method AfterPause(o: Options) returns (r: ParseOutcome)
      requires Valid() && FromArgv(o) && PastPause(o, duration, pauseTime)
      modifies this`verbosityLevel, this`loopFlag, this`concertPitchOffset, this`noteMode, this`numIncrements
      ensures Valid()
      ensures r == OutcomeOf(FirstError(o, duration, pauseTime, old(numIncrements)))
      ensures verbosityLevel == if o.verbose then VERBOSITY_VERBOSE else old(verbosityLevel)
      ensures loopFlag == (old(loopFlag) || (PastPitch(o, duration, pauseTime) && o.loop))
      ensures concertPitchOffset ==
        if PastPitch(o, duration, pauseTime) && o.concertPitchNote.Some? then
          Some(Notes.NoteOffset(o.concertPitchNote.value).value)
        else old(concertPitchOffset)
      ensures noteMode == if PastPitch(o, duration, pauseTime) && o.start.Some? then NoteModeStart
                          else old(noteMode)
    {
      if o.verbose {
        verbosityLevel := VERBOSITY_VERBOSE;
      }
      var err := ConcertPitch(o);
      if err.Some? {
        return Invalid(err.value);
      }
      r := StartChecks(o);
    }

    /** The concert pitch options: both given conflict; a note is parsed
        and, when valid, kept as the offset. */
    method ConcertPitch(o: Options) returns (err: Option<string>)
      requires FromArgv(o)
      modifies this`concertPitchOffset
      ensures err == if o.concertPitch && o.concertPitchNote.Some? then Some(MSG_PITCH_CONFLICT)
                     else if o.concertPitchNote.Some? && Notes.NoteOffset(o.concertPitchNote.value).Failure? then
                       Some(Notes.NoteOffset(o.concertPitchNote.value).message)
                     else None
      ensures concertPitchOffset == if err.None? && o.concertPitchNote.Some? then
                                      Some(Notes.NoteOffset(o.concertPitchNote.value).value)
                                    else old(concertPitchOffset)
    {
      err := None;
      if o.concertPitch && o.concertPitchNote.Some? {
        err := Some(MSG_PITCH_CONFLICT);
      } else if o.concertPitchNote.Some? {
        var p := Notes.ParseNote(o.concertPitchNote.value);
        if p.Failure? {
          err := Some(p.message);
        } else {
          concertPitchOffset := Some(p.value);
        }
      }
    }
  }

  /** The settings constructor: set_defaults, then parse_args, which stores
      the given values and validates them. */
  method NewSettings(o: Options) returns (s: Settings, r: ParseOutcome)
    requires FromArgv(o)
    ensures fresh(s) && s.Valid()
    ensures r == OutcomeOf(FirstError(o, Given(o.time, DEFAULT_NOTE_DURATION), Given(o.pause, DEFAULT_PAUSE_TIME),
                                      Given(o.number, 0)))
    ensures s.Exit() <==> o.help
    ensures s.Loop() <==> o.loop && PastPitch(o, s.duration, s.pauseTime)
    ensures s.DumpToFile() <==> o.dump.Some? && o.dump.value != []
    ensures s.DurationMs() == Given(o.time, DEFAULT_NOTE_DURATION)
    ensures s.VerbosityLevel() == if o.verbose && PastPause(o, s.duration, s.pauseTime) then VERBOSITY_VERBOSE
                                  else VERBOSITY_NORMAL
    ensures s.SampleRate() == Given(o.rate, DEFAULT_SAMPLE_RATE) && s.Channels() == Given(o.channels, DEFAULT_CHANNELS)
  {
    s := new Settings();
    s.Store(o);
    r := s.Validate(o);
  }

  /** With --help nothing is checked: parse_args never raises, whatever the
      other values are. */
  lemma HelpNeverRaises(o: Options, duration: int, pause: int, numIncrements: int)
    requires o.help
    ensures FirstError(o, duration, pause, numIncrements) == None
  {
  }

  /** A negative --time raises; zero only warns. */
  lemma TimeChecks(o: Options, pause: int, numIncrements: int)
    requires !o.help
    ensures FirstError(o, -1, pause, numIncrements) == Some(MSG_TIME)
    ensures FirstError(o, 0, pause, numIncrements) == FirstError(o, DEFAULT_NOTE_DURATION, pause, numIncrements)
  {
  }

  /** The volume is checked against 0..100 but never raises. */
  lemma VolumeNeverRaises(o: Options, v: int, duration: int, pause: int, numIncrements: int)
    ensures FirstError(o.(volume := Some(v)), duration, pause, numIncrements) ==
            FirstError(o, duration, pause, numIncrements)
  {
  }

  /** The checks run in order: with several failing, the earliest decides,
      and a later check cannot change an earlier verdict. */
  lemma CheckOrder(o: Options, duration: int, pause: int, numIncrements: int)
    requires !o.help
    ensures duration < 0 ==> FirstError(o, duration, pause, numIncrements) == Some(MSG_TIME)
    ensures duration >= 0 && pause < 0 ==> FirstError(o, duration, pause, numIncrements) == Some(MSG_PAUSE)
    ensures PastPause(o, duration, pause) && o.concertPitch && o.concertPitchNote.Some? ==>
      FirstError(o, duration, pause, numIncrements) == Some(MSG_PITCH_CONFLICT)
    ensures PastPitch(o, duration, pause) && o.start.Some? && o.number.Some? && o.end.Some? ==>
      FirstError(o, duration, pause, numIncrements) ==
        Some(if numIncrements <= 0 then MSG_NUMBER else MSG_NUMBER_END)
    ensures o.start.None? && PastPitch(o, duration, pause) ==> FirstError(o, duration, pause, numIncrements) == None
  {
  }

  /** A concert pitch note is parsed like any other note: a note the parser
      rejects raises the parser's own error, and one it accepts leaves the
      remaining checks as they would be without it. */
  lemma ConcertPitchNoteErrors(o: Options, duration: int, pause: int, numIncrements: int, note: string)
    requires PastPause(o, duration, pause) && !o.concertPitch && o.concertPitchNote == Some(note)
    ensures Notes.NoteOffset(note).Failure? ==>
      FirstError(o, duration, pause, numIncrements) == Some(Notes.NoteOffset(note).message)
    ensures Notes.NoteOffset(note).Offset? ==>
      FirstError(o, duration, pause, numIncrements) ==
      FirstError(o.(concertPitchNote := None), duration, pause, numIncrements)
  {
  }
}
