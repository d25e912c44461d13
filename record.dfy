/**
  The severity router of record_time/record.go.

  `RecordTime(address)` derives three file paths from the day's tag, gives
  each a rotating writer with the same rotation policy, pairs each writer
  with one of three severity-band predicates to form a filtered core, adds a
  console core that takes every level from Info up, joins the four cores in
  a Tee and publishes the resulting logger in the process-wide
  `config.Logger`. Encoders, the rotation itself and the console stream are
  the libraries' business and are reduced to the data that names them.
 */
module Record {
  import opened Wrappers
  import opened Levels
  import LogTime

  // ---------------------------------------------------------------------
  // Severity bands and their predicates
  // ---------------------------------------------------------------------

  /** The three file bands: info, warn and error. */
  datatype Band = Low | Medium | High

  /** lowPriority: Info up to, not including, Warn. */
  predicate LowPriority(lvl: Level)
  {
    lvl >= InfoLevel && lvl < WarnLevel
  }

  /** mediumPriority: Warn up to, not including, Error. */
  predicate MediumPriority(lvl: Level)
  {
    lvl >= WarnLevel && lvl < ErrorLevel
  }

  /** highPriority: Error and everything above it. */
  predicate HighPriority(lvl: Level)
  {
    lvl >= ErrorLevel
  }

  /** The predicate each band's file core is built with. */
  predicate BandEnabled(b: Band, lvl: Level)
  {
    match b
    case Low => LowPriority(lvl)
    case Medium => MediumPriority(lvl)
    case High => HighPriority(lvl)
  }

  /**
    The band a level falls in, if any. Its contract is the partition: the
    three predicates never hold together, one of them holds for every level
    from Info up, and none holds below Info.
   */
  function BandOf(lvl: Level): (r: Option<Band>)
    ensures r.Some? <==> lvl >= InfoLevel
    ensures r == Some(Low) <==> InfoLevel <= lvl < WarnLevel
    ensures r == Some(Medium) <==> WarnLevel <= lvl < ErrorLevel
    ensures r == Some(High) <==> lvl >= ErrorLevel
    ensures forall b :: BandEnabled(b, lvl) <==> r == Some(b)
  {
    if HighPriority(lvl) then Some(High)
    else if MediumPriority(lvl) then Some(Medium)
    else if LowPriority(lvl) then Some(Low)
    else None
  }

  // ---------------------------------------------------------------------
  // File paths
  // ---------------------------------------------------------------------

  function BandName(b: Band): string
  {
    match b
    case Low => "info"
    case Medium => "warn"
    case High => "error"
  }

  /**
    `fmt.Sprintf("%v/%v-<band>/%v-<band>.log", address, tag, tag)`: a
    directory `<tag>-<band>` under the address holding `<tag>-<band>.log`.
   */
  function FilePath(address: string, tag: string, b: Band): string
  {
    var dir := address + "/" + tag + "-" + BandName(b);
    var file := tag + "-" + BandName(b) + ".log";
    dir + ("/" + file)
  }

  /**
    Where each part sits in a path: the address, a slash, the tag, a dash,
    the band name (the directory), then a slash and the file name: the tag,
    a dash, the band name and ".log".
   */
  lemma FilePathLayout(address: string, tag: string, b: Band)
    ensures var path := FilePath(address, tag, b);
      var k := |address| + 2 + |tag| + |BandName(b)|;
      && |path| == |address| + 2 * |tag| + 2 * |BandName(b)| + 8
      && path[..|address|] == address && path[|address|] == '/'
      && path[|address| + 1..|address| + 1 + |tag|] == tag
      && path[|address| + 1 + |tag|] == '-'
      && path[|address| + 2 + |tag|..k] == BandName(b)
      && path[k] == '/'
      && path[k + 1..k + 1 + |tag|] == tag
      && path[k + 1 + |tag|] == '-'
      && path[k + 2 + |tag|..|path| - 4] == BandName(b)
      && path[|path| - 4..] == ".log"
  {
    var name := BandName(b);
    var dir := address + "/" + tag + "-" + name;
    var file := tag + "-" + name + ".log";
    Joined(address + "/" + tag + "-", name);
    Joined(address + "/" + tag, "-");
    Joined(address + "/", tag);
    Joined(address, "/");
    Joined(tag + "-" + name, ".log");
    Joined(tag + "-", name);
    Joined(tag, "-");
    Joined(dir, "/" + file);
    Joined("/", file);
  }

  /** The two halves of a concatenation can be sliced back out of it. */
  lemma Joined(x: string, y: string)
    ensures (x + y)[..|x|] == x && (x + y)[|x|..] == y
  {
  }

  /** The letter just before ".log" is the last letter of the band name. */
  lemma FilePathEnd(address: string, tag: string, b: Band)
    ensures var path := FilePath(address, tag, b);
      |path| >= 5 && path[|path| - 5] == BandName(b)[|BandName(b)| - 1]
  {
    FilePathLayout(address, tag, b);
    var path, name := FilePath(address, tag, b), BandName(b);
    assert path[|path| - 4 - |name|..|path| - 4] == name;
  }

  /** The band names end in different letters. */
  lemma LastLetterDistinct(b1: Band, b2: Band)
    requires BandName(b1)[|BandName(b1)| - 1] == BandName(b2)[|BandName(b2)| - 1]
    ensures b1 == b2
  {
  }

  /** The tag follows the address and its slash, and fixes the path's length. */
  lemma FilePathTag(address: string, tag: string, b: Band)
    ensures var path := FilePath(address, tag, b);
      && |path| == |address| + 2 * |tag| + 2 * |BandName(b)| + 8
      && path[|address| + 1..|address| + 1 + |tag|] == tag
  {
    FilePathLayout(address, tag, b);
  }

  /**
    The path determines both the tag and the band: different tags or
    different bands never share a file.
   */
  lemma {:induction false} FilePathInjective(address: string, t1: string, t2: string, b1: Band, b2: Band)
    requires FilePath(address, t1, b1) == FilePath(address, t2, b2)
    ensures t1 == t2 && b1 == b2
  {
    FilePathEnd(address, t1, b1);
    FilePathEnd(address, t2, b2);
    LastLetterDistinct(b1, b2);
    FilePathTag(address, t1, b1);
    FilePathTag(address, t2, b2);
  }

  /** The info, warn and error paths of one initialisation are distinct. */
  lemma FilePathsDistinct(address: string, tag: string)
    ensures FilePath(address, tag, Low) != FilePath(address, tag, Medium)
    ensures FilePath(address, tag, Medium) != FilePath(address, tag, High)
    ensures FilePath(address, tag, Low) != FilePath(address, tag, High)
  {
    if FilePath(address, tag, Low) == FilePath(address, tag, Medium) {
      FilePathInjective(address, tag, tag, Low, Medium);
    }
    if FilePath(address, tag, Medium) == FilePath(address, tag, High) {
      FilePathInjective(address, tag, tag, Medium, High);
    }
    if FilePath(address, tag, Low) == FilePath(address, tag, High) {
      FilePathInjective(address, tag, tag, Low, High);
    }
  }

  // ---------------------------------------------------------------------
  // Writers, cores and the Tee
  // ---------------------------------------------------------------------

  /** The lumberjack.Logger settings: MaxSize, MaxBackups, MaxAge, Compress. */
  datatype RotationPolicy = RotationPolicy(maxSize: int, maxBackups: int, maxAge: int, compress: bool)

  /** The policy every file of the router is given. */
  const DefaultPolicy := RotationPolicy(100, 5, 30, true)

  /** A rotating file writer: where it writes and how it rotates. */
  datatype Writer = Writer(filename: string, policy: RotationPolicy)

  /** getLogWriter. */
  function GetLogWriter(filename: string, maxSize: int, maxBackups: int, maxAge: int, compress: bool): Writer
  {
    Writer(filename, RotationPolicy(maxSize, maxBackups, maxAge, compress))
  }

  /** Where a core writes: a rotating file or the locked standard output. */
  datatype Sink = RotatingFile(writer: Writer) | Stdout

  /**
    A core's level filter: one of the three band predicates
    (zap.LevelEnablerFunc) or a fixed minimum level (a zapcore.Level used as
    its own enabler).
   */
  datatype Enabler = PriorityFunc(band: Band) | MinLevel(min: Level)

  predicate Enabled(e: Enabler, lvl: Level)
  {
    match e
    case PriorityFunc(b) => BandEnabled(b, lvl)
    case MinLevel(m) => lvl >= m
  }

  /** zapcore.NewCore, without its encoder. */
  datatype Core = Core(sink: Sink, enabler: Enabler)

  /**
    What the Tee does with one record: every core is offered it, in order,
    and the sinks of the cores that accept its level receive it.
   */
  function Fanout(cores: seq<Core>, lvl: Level): seq<Sink>
  {
    if cores == [] then []
    else
      var rest := Fanout(cores[1..], lvl);
      if Enabled(cores[0].enabler, lvl) then [cores[0].sink] + rest else rest
  }

  /**
    The Tee hands a record to the sink of every core that accepts its level,
    and every sink it hands the record to belongs to such a core.
   */
  lemma {:induction false} FanoutDelivers(cores: seq<Core>, lvl: Level)
    ensures |Fanout(cores, lvl)| <= |cores|
    ensures forall c :: c in cores && Enabled(c.enabler, lvl) ==> c.sink in Fanout(cores, lvl)
    ensures forall s :: s in Fanout(cores, lvl) ==> exists c :: c in cores && c.sink == s && Enabled(c.enabler, lvl)
  {
    if cores != [] {
      FanoutDelivers(cores[1..], lvl);
      assert forall c :: c in cores ==> c == cores[0] || c in cores[1..];
    }
  }

  /** Offering a record to one more core appends that core's sink if it accepts. */
  lemma {:induction false} FanoutSnoc(cores: seq<Core>, c: Core, lvl: Level)
    ensures Fanout(cores + [c], lvl) == Fanout(cores, lvl) + (if Enabled(c.enabler, lvl) then [c.sink] else [])
  {
    if cores != [] {
      assert (cores + [c])[1..] == cores[1..] + [c];
      FanoutSnoc(cores[1..], c, lvl);
    }
  }

  /** The Tee hands a record over once per core that accepts its level. */
  lemma {:induction false} FanoutCount(cores: seq<Core>, lvl: Level)
    ensures |Fanout(cores, lvl)| == |set i | 0 <= i < |cores| && Enabled(cores[i].enabler, lvl)|
  {
    if cores != [] {
      var n := |cores| - 1;
      var front, c := cores[..n], cores[n];
      assert cores == front + [c];
      FanoutSnoc(front, c, lvl);
      FanoutCount(front, lvl);
      var all := set i | 0 <= i < |cores| && Enabled(cores[i].enabler, lvl);
      var all' := set i | 0 <= i < |front| && Enabled(front[i].enabler, lvl);
      var last: set<int> := if Enabled(c.enabler, lvl) then {n} else {};
      forall i ensures i in all <==> i in all' + last {
        if 0 <= i < n {
          assert cores[i] == front[i];
        }
      }
      assert all == all' + last;
      assert all' !! last;
    }
  }

  /**
    Each sink receives a record as many times as there are cores writing to
    it that accept the record's level.
   */
  lemma {:induction false} FanoutMultiplicity(cores: seq<Core>, lvl: Level, s: Sink)
    ensures multiset(Fanout(cores, lvl))[s] ==
      |set i | 0 <= i < |cores| && cores[i].sink == s && Enabled(cores[i].enabler, lvl)|
  {
    if cores != [] {
      var n := |cores| - 1;
      var front, c := cores[..n], cores[n];
      assert cores == front + [c];
      FanoutSnoc(front, c, lvl);
      FanoutMultiplicity(front, lvl, s);
      var mine := set i | 0 <= i < |cores| && cores[i].sink == s && Enabled(cores[i].enabler, lvl);
      var mine' := set i | 0 <= i < |front| && front[i].sink == s && Enabled(front[i].enabler, lvl);
      var last: set<int> := if c.sink == s && Enabled(c.enabler, lvl) then {n} else {};
      forall i ensures i in mine <==> i in mine' + last {
        if 0 <= i < n {
          assert cores[i] == front[i];
        }
      }
      assert mine == mine' + last;
      assert mine' !! last;
    }
  }

  /** The built logger: the Tee of the cores, and whether call sites are recorded. */
  datatype Logger = Logger(core: seq<Core>, addCaller: bool)

  /** The rotating file writer of one band: its path and the fixed policy. */
  function FileSink(address: string, tag: string, b: Band): Sink
  {
    RotatingFile(GetLogWriter(FilePath(address, tag, b), 100, 5, 30, true))
  }

  /**
    The cores in the order RecordTime passes them to NewTee: each band's
    sink filtered by that band's predicate, then the console at Info.
   */
  function TeeOf(info: Sink, warn: Sink, error: Sink, console: Sink): seq<Core>
  {
    [Core(info, PriorityFunc(Low)), Core(warn, PriorityFunc(Medium)), Core(error, PriorityFunc(High)),
     Core(console, MinLevel(InfoLevel))]
  }

  /** The cores RecordTime builds for a base address and a date tag. */
  function RouterCores(address: string, tag: string): seq<Core>
  {
    TeeOf(FileSink(address, tag, Low), FileSink(address, tag, Medium), FileSink(address, tag, High), Stdout)
  }

  /** The logger RecordTime publishes for a base address and a date tag. */
  function NewLogger(address: string, tag: string): Logger
  {
    Logger(RouterCores(address, tag), true)
  }

  /** The three files share one rotation policy; only the console is not a file. */
  lemma SharedRotationPolicy(address: string, tag: string)
    ensures forall c :: c in NewLogger(address, tag).core ==>
      c.sink == Stdout || c.sink.writer.policy == DefaultPolicy
  {
  }

  // ---------------------------------------------------------------------
  // Where each level must be delivered
  // ---------------------------------------------------------------------

  datatype Destination = InfoFile | WarnFile | ErrorFile | Console

  /** Where a record of each level must end up. */
  function Destinations(lvl: Level): set<Destination>
  {
    if lvl < InfoLevel then {}
    else if lvl < WarnLevel then {InfoFile, Console}
    else if lvl < ErrorLevel then {WarnFile, Console}
    else {ErrorFile, Console}
  }

  /** A level from Info up reaches the console and exactly one file; one below reaches nothing. */
  lemma DestinationsShape(lvl: Level)
    ensures lvl < InfoLevel ==> Destinations(lvl) == {}
    ensures lvl >= InfoLevel ==> Console in Destinations(lvl) && |Destinations(lvl) - {Console}| == 1
  {
  }

  /** The one of four sinks that stands for a destination. */
  function Select(d: Destination, info: Sink, warn: Sink, error: Sink, console: Sink): Sink
  {
    match d
    case InfoFile => info
    case WarnFile => warn
    case ErrorFile => error
    case Console => console
  }

  /** The sink that stands for each destination in a router. */
  function SinkFor(address: string, tag: string, d: Destination): Sink
  {
    Select(d, FileSink(address, tag, Low), FileSink(address, tag, Medium), FileSink(address, tag, High), Stdout)
  }

  /** The three file sinks of one router are different sinks. */
  lemma FileSinksDistinct(address: string, tag: string)
    ensures FileSink(address, tag, Low) != FileSink(address, tag, Medium)
    ensures FileSink(address, tag, Medium) != FileSink(address, tag, High)
    ensures FileSink(address, tag, Low) != FileSink(address, tag, High)
  {
    FilePathsDistinct(address, tag);
  }

  /**
    The Tee of three band cores and an Info-threshold core, whatever their
    sinks: a level below Info reaches nothing, any other level the sink of
    its band and then the console core's sink.
   */
  lemma {:induction false} FanoutOfRouter(s1: Sink, s2: Sink, s3: Sink, s4: Sink, lvl: Level)
    ensures Fanout(TeeOf(s1, s2, s3, s4), lvl) ==
      if lvl < InfoLevel then []
      else if lvl < WarnLevel then [s1, s4]
      else if lvl < ErrorLevel then [s2, s4]
      else [s3, s4]
  {
    var cores := TeeOf(s1, s2, s3, s4);
    assert Fanout(cores[3..], lvl) == if lvl >= InfoLevel then [s4] else [] by {
      assert cores[3..][1..] == [];
    }
    assert Fanout(cores[2..], lvl) == (if HighPriority(lvl) then [s3] else []) + Fanout(cores[3..], lvl) by {
      assert cores[2..][1..] == cores[3..];
    }
    assert Fanout(cores[1..], lvl) == (if MediumPriority(lvl) then [s2] else []) + Fanout(cores[2..], lvl) by {
      assert cores[1..][1..] == cores[2..];
    }
  }

  /**
    With four different sinks, the Tee of three band cores and an
    Info-threshold core delivers a record to the sink of each destination
    of its level, to no other, and to each once.
   */
  lemma FanoutMeetsDestinations(info: Sink, warn: Sink, error: Sink, console: Sink, lvl: Level)
    requires info != warn && info != error && info != console
    requires warn != error && warn != console && error != console
    ensures var sinks := Fanout(TeeOf(info, warn, error, console), lvl);
      && |sinks| == |Destinations(lvl)|
      && forall d :: Select(d, info, warn, error, console) in sinks <==> d in Destinations(lvl)
  {
    FanoutOfRouter(info, warn, error, console, lvl);
    if lvl < InfoLevel {
    } else if lvl < WarnLevel {
      assert Destinations(lvl) == {InfoFile, Console};
    } else if lvl < ErrorLevel {
      assert Destinations(lvl) == {WarnFile, Console};
    } else {
      assert Destinations(lvl) == {ErrorFile, Console};
    }
  }

  /**
    The Tee of the built cores delivers a record to the sink of each of its
    level's destinations, to no other sink, and to each of them once.
   */
  lemma TeeRouting(address: string, tag: string, lvl: Level)
    ensures var sinks := Fanout(RouterCores(address, tag), lvl);
      && |sinks| == |Destinations(lvl)|
      && forall d :: SinkFor(address, tag, d) in sinks <==> d in Destinations(lvl)
  {
    var info, warn, error := FileSink(address, tag, Low), FileSink(address, tag, Medium), FileSink(address, tag, High);
    FileSinksDistinct(address, tag);
    FanoutMeetsDestinations(info, warn, error, Stdout, lvl);
  }

  // ---------------------------------------------------------------------
  // Re-initialisation
  // ---------------------------------------------------------------------

  /**
    Two initialisations use the same file exactly when they happen on the
    same calendar day and it is the same band: within a day the paths are
    reused, after a change of day every path is new.
   */
  lemma {:induction false} PathsAcrossDays(address: string, now1: LogTime.DateTime, now2: LogTime.DateTime, b1: Band, b2: Band)
    requires LogTime.ValidDateTime(now1) && LogTime.ValidDateTime(now2)
    ensures FilePath(address, LogTime.TagAt(now1), b1) == FilePath(address, LogTime.TagAt(now2), b2)
      <==> now1.date == now2.date && b1 == b2
  {
    LogTime.TagIdentifiesDay(now1, now2);
    if FilePath(address, LogTime.TagAt(now1), b1) == FilePath(address, LogTime.TagAt(now2), b2) {
      FilePathInjective(address, LogTime.TagAt(now1), LogTime.TagAt(now2), b1, b2);
    }
  }

  /**
    Re-initialising on the same day builds an equal logger: the same four
    cores, file paths, rotation policy and caller flag.
   */
  lemma SameDaySameLogger(address: string, now1: LogTime.DateTime, now2: LogTime.DateTime)
    requires LogTime.ValidDateTime(now1) && LogTime.ValidDateTime(now2)
    requires now1.date == now2.date
    ensures NewLogger(address, LogTime.TagAt(now1)) == NewLogger(address, LogTime.TagAt(now2))
  {
    LogTime.TagIdentifiesDay(now1, now2);
  }

  // ---------------------------------------------------------------------
  // Publication
  // ---------------------------------------------------------------------

  /** The process-wide `config.Logger`. */
  class Config {
    var published: Option<Logger>

    constructor ()
      ensures published == None
    {
      published := None;
    }

    /**
      RecordTime, with the clock reading passed in already rendered in the
      DateTime layout. Whatever was published before is replaced.
     */
    method RecordTime(address: string, now: string)
      requires |now| >= 10
      modifies this
      ensures published == Some(NewLogger(address, LogTime.LogTime(now)))
      ensures forall lvl: Level :: |Fanout(published.value.core, lvl)| == |Destinations(lvl)|
      ensures forall lvl: Level, d ::
        (SinkFor(address, LogTime.LogTime(now), d) in Fanout(published.value.core, lvl) <==> d in Destinations(lvl))
    {
      var tag := LogTime.LogTime(now);
      var filenameInfo := FilePath(address, tag, Low);
      var filenameWarn := FilePath(address, tag, Medium);
      var filenameError := FilePath(address, tag, High);
      var infoWriter := GetLogWriter(filenameInfo, 100, 5, 30, true);
      var warnWriter := GetLogWriter(filenameWarn, 100, 5, 30, true);
      var errorWriter := GetLogWriter(filenameError, 100, 5, 30, true);

      var infoCore := Core(RotatingFile(infoWriter), PriorityFunc(Low));
      var warnCore := Core(RotatingFile(warnWriter), PriorityFunc(Medium));
      var errorCore := Core(RotatingFile(errorWriter), PriorityFunc(High));
      var consoleCore := Core(Stdout, MinLevel(InfoLevel));

      var core := [infoCore, warnCore, errorCore, consoleCore];
      published := Some(Logger(core, true));

      forall lvl: Level
        ensures |Fanout(core, lvl)| == |Destinations(lvl)|
        ensures forall d :: SinkFor(address, tag, d) in Fanout(core, lvl) <==> d in Destinations(lvl)
      {
        TeeRouting(address, tag, lvl);
      }
    }
  }
}
