# zap_logger severity router, modelled in Dafny

The repository sets up one process-wide zap logger. `RecordTime(address)`
(record_time/record.go) asks `pkg.LogTime` (pkg/logtime.go) for the day's tag,
the first ten characters of the current time rendered as
`2006-01-02 15:04:05`. It then derives three paths of the form
`<address>/<tag>-<band>/<tag>-<band>.log` for the bands info, warn and error.
It gives each path a lumberjack writer with the rotation policy 100 / 5 / 30 /
compress. It pairs each writer with one of three level predicates:
`lowPriority` is `[Info, Warn)`, `mediumPriority` is `[Warn, Error)` and
`highPriority` is `[Error, ∞)`. It adds a console core with the threshold
Info, joins the four cores with `zapcore.NewTee`, and stores the resulting
logger in `config.Logger`.

The model has four modules:

- `Levels` holds zap's level scale: an `int8` newtype and the named levels
  Debug = -1 through Fatal = 5.
- `LogTime` models `pkg.LogTime` as a function of the rendered clock string.
  It also models Go's layout rendering for the `DateTime` and `DateOnly`
  layouts, and the `full-date` grammar of section 5.6 of RFC 3339 with a
  parser for it. These let the model prove that the tag is the calendar date
  of the instant.
- `Record` holds the band predicates, the path derivation, the writers and
  cores, the Tee fan-out, and a reference table of where each level must go.
  Its class `Config` holds the `published` logger, which `RecordTime`
  overwrites.
- `Wrappers` holds `Option`.

## Model

| member | source | states |
|---|---|---|
| `LogTime.LogTime` | pkg/logtime.go:8-12 | the tag has exactly 10 characters and is a prefix of the rendered timestamp |
| `LogTime.FormatV` | pkg/logtime.go:10 | `%v` on a string is modelled as the identity (a definition, no contract) |
| `LogTime.SameDaySameTag` | pkg/logtime.go:11 | two renderings that agree on their first ten characters give the same tag, whatever follows |
| `LogTime.Pad2` | pkg/logtime.go:9 | a two-digit field of the layout is exactly two decimal digits |
| `LogTime.Pad4` | pkg/logtime.go:9 | the year field is exactly four decimal digits for years 0-9999 |
| `LogTime.ValueOfPad2` | pkg/logtime.go:9 | a two-digit field reads back as the number it renders |
| `LogTime.ValueOfPad4` | pkg/logtime.go:9 | a four-digit year reads back as the year it renders |
| `LogTime.Pad2OfValue` | pkg/logtime.go:9 | any two digits are the rendering of the number they denote |
| `LogTime.Pad4OfValue` | pkg/logtime.go:9 | any four digits are the rendering of the number they denote |
| `LogTime.AppendChunk` | pkg/logtime.go:9 | each layout element renders to its fixed width |
| `LogTime.Format` | pkg/logtime.go:9 | a rendering is as long as the sum of its layout elements' widths |
| `LogTime.FormatAppend` | pkg/logtime.go:9 | rendering a concatenated layout gives the concatenation of the renderings |
| `LogTime.ParseFullDate` | pkg/logtime.go:11 | a string parses as a date exactly when it is an RFC 3339 full-date, and the parsed date renders back to that string |
| `LogTime.FullDateRoundTrip` | pkg/logtime.go:11 | every valid date renders as a full-date that parses back to the same date |
| `LogTime.FullDateTextInjective` | pkg/logtime.go:11 | different dates have different full-date texts |
| `LogTime.DateOnlyIsFullDate` | pkg/logtime.go:9-11 | the DateOnly layout writes exactly the full-date of the date |
| `LogTime.DateTagIsFullDate` | pkg/logtime.go:9-11 | the first ten characters of a DateTime rendering are the DateOnly rendering of the same instant, i.e. its full-date, and they parse back to its calendar date |
| `LogTime.TagAt` | pkg/logtime.go:9-11 | the tag of a clock reading is its ten-character RFC 3339 full-date |
| `LogTime.TagIdentifiesDay` | pkg/logtime.go:9-11 | two instants get the same tag if and only if they fall on the same calendar day |
| `Record.BandOf` | record_time/record.go:42-50 | high holds iff lvl >= Error, medium iff Warn <= lvl < Error, low iff Info <= lvl < Warn; exactly one predicate holds for every level >= Info and none below Info |
| `Record.HighPriority` | record_time/record.go:42-44 | `highPriority`: the level is Error or above (a definition; its partition is stated by `Record.BandOf`) |
| `Record.MediumPriority` | record_time/record.go:45-47 | `mediumPriority`: the level is at least Warn and below Error (a definition; see `Record.BandOf`) |
| `Record.LowPriority` | record_time/record.go:48-50 | `lowPriority`: the level is at least Info and below Warn (a definition; see `Record.BandOf`) |
| `Record.FilePath` | record_time/record.go:16-18 | `<address>/<tag>-<band>/<tag>-<band>.log` (a definition; its layout is stated by `Record.FilePathLayout`) |
| `Record.FilePathLayout` | record_time/record.go:16-18 | a path is, character for character, the address, `/`, the tag, `-`, the band name, `/`, the tag, `-`, the band name and `.log`, with the length that implies |
| `Record.FilePathInjective` | record_time/record.go:16-18 | equal paths mean equal tags and equal bands, for tags of any length: the letter before `.log` fixes the band, and then the length fixes the tag |
| `Record.FilePathsDistinct` | record_time/record.go:16-18 | the info, warn and error paths of one call are pairwise distinct |
| `Record.GetLogWriter` | record_time/record.go:73-82 | a writer for the file name with the given size, backup, age and compression settings (a definition; the rotation itself is left out) |
| `Record.SharedRotationPolicy` | record_time/record.go:20-22 | every file core of the built logger has the policy maxSize 100, maxBackups 5, maxAge 30, compress true |
| `Record.Fanout` | record_time/record.go:65 | the Tee offers a record to each core in order and collects the sinks of those that accept it (a definition; its properties are the three lemmas below) |
| `Record.FanoutDelivers` | record_time/record.go:65 | the Tee delivers a record to the sink of every core that accepts its level, and every sink it delivers to belongs to an accepting core |
| `Record.FanoutCount` | record_time/record.go:65 | the Tee delivers a record exactly as many times as there are cores that accept its level |
| `Record.FanoutMultiplicity` | record_time/record.go:65 | each sink receives a record exactly as many times as there are accepting cores writing to it |
| `Record.FileSinksDistinct` | record_time/record.go:16-22 | the info, warn and error writers of one call are three different sinks |
| `Record.TeeOf` | record_time/record.go:53-65 | the four cores in `NewTee` order: info, warn and error sinks with their band predicates, then the console at Info (a definition) |
| `Record.FileSink` | record_time/record.go:20-22 | the rotating writer of one band: its derived path with the policy 100 / 5 / 30 / true (a definition; see `Record.SharedRotationPolicy` and `Record.FileSinksDistinct`) |
| `Record.RouterCores` | record_time/record.go:16-22 | the cores built from the three file writers of an address and tag and the console (a definition; its routing is `Record.TeeRouting`) |
| `Record.NewLogger` | record_time/record.go:68 | the logger over those cores with call sites recorded (a definition; see `Record.SameDaySameLogger`) |
| `Record.DestinationsShape` | record_time/record.go:42-62 | a level >= Info goes to the console and to exactly one file; a level below Info goes nowhere |
| `Record.FanoutOfRouter` | record_time/record.go:53-65 | three band cores plus an Info-threshold core deliver nothing below Info, and otherwise deliver to the band's sink and then the console |
| `Record.FanoutMeetsDestinations` | record_time/record.go:53-65 | with four distinct sinks, that Tee reaches exactly the sinks of the level's destinations, each once |
| `Record.TeeRouting` | record_time/record.go:53-65 | the built router delivers each level to exactly the info/warn/error file and console that the routing table names, and to no other sink; e.g. Error reaches the error file and the console only |
| `Record.PathsAcrossDays` | record_time/record.go:14-18 | two initialisations share a file path if and only if they happen on the same calendar day and it is the same band |
| `Record.SameDaySameLogger` | record_time/record.go:14-22 | re-initialising on the same calendar day builds an equal logger: the same four cores, file paths, rotation policy and caller flag |
| `Record.Config.constructor` | record_time/record.go:68 | `config.Logger` holds no logger until `RecordTime` assigns one |
| `Record.Config.RecordTime` | record_time/record.go:13-69 | `published` becomes the new logger built from the tag of `now`, whatever it held before; that logger routes every level to exactly its destinations |

## Left out

- `time.Now()` (pkg/logtime.go:9) is not modelled. `LogTime.LogTime` and `Record.Config.RecordTime` take the rendered timestamp as a parameter. `LogTime.TagAt` takes a `DateTime` value instead.
- `LogTime.LogTime` slices ten characters, where Go's `sprintf[:10]` (pkg/logtime.go:11) slices ten bytes and panics below ten bytes. The two agree on every `DateTime` rendering, which is ASCII, but not on a rendering with non-ASCII characters.
- `LogTime.LogTime` requires at least ten characters. Go panics on a shorter string, and the model does not cover that panic. A `DateTime` rendering of a year from 0 to 9999 always has 19 characters.
- Years outside 0-9999 are not modelled. Go writes them with a sign or more than four digits. Only the layout elements that `DateTime` and `DateOnly` use are modelled. Time zones and leap seconds are not modelled either.
- Encoders and `EncoderConfig` (record_time/record.go:25-39, 59) only format lines. A core is reduced to its sink and its level filter.
- The lumberjack rotation (record_time/record.go:73-82) is not modelled. Size-based rolling, backup retention, compression and age pruning happen inside that library. Only the four policy values are kept.
- `zapcore.AddSync`, `zapcore.Lock(os.Stdout)` and `defer config.Logger.Sync()` (record_time/record.go:53-60, 69) are write serialisation and I/O. The console is the sink value `Stdout`.
- `zap.AddCaller()` (record_time/record.go:68) is kept only as a boolean on the logger. Capturing the call site is runtime introspection.
- What the logger does after routing a record is not modelled. Panic and Fatal levels panic or exit, and write errors from the sinks are combined. Neither is routing.
- `Record.SameDaySameLogger` proves equality of values only. Writers and loggers are values compared by content, while Go makes a fresh `*zap.Logger` and fresh `*lumberjack.Logger` instances on every call (record_time/record.go:68, 74). Two calls on the same day therefore leave two writers open on each file, which the model cannot tell apart.
- Concurrency is not modelled. The published logger is a plain field, and concurrent calls to `RecordTime` are outside the model.
- The rotation policy is four literals repeated for each writer, not a configurable value, and the model keeps it so. A second `RecordTime` replaces the published logger without closing the old one, and the model does the same.
