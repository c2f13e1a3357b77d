/**
 * The routing `setup_logging` installs: with `--quiet`, logging is disabled up
 * to CRITICAL and no handler is added; otherwise a stdout handler (threshold
 * DEBUG, with a filter passing only DEBUG and INFO) and a stderr handler
 * (threshold WARNING) hang off the root logger, whose own threshold is DEBUG
 * with `--verbose` and INFO without it.
 */
module LogRouting {
  import opened Wrappers

  datatype Level = Debug | Info | Warning | Error | Critical

  /** The `logging` module's numeric levels. */
  function LevelNo(l: Level): int {
    match l
    case Debug => 10
    case Info => 20
    case Warning => 30
    case Error => 40
    case Critical => 50
  }

  datatype Stream = Stdout | Stderr

  /**
   * `logging.disable(CRITICAL)`: every level up to CRITICAL is dropped, and
   * every level modelled here is at most CRITICAL.
   */
  predicate Disabled(l: Level, quiet: bool): (r: bool)
    ensures r <==> quiet
  {
    quiet && LevelNo(l) <= LevelNo(Critical)
  }

  /** The root logger's threshold. */
  function RootThreshold(verbose: bool): (r: int)
    ensures LevelNo(Debug) <= r <= LevelNo(Info)
    ensures r <= LevelNo(Debug) <==> verbose
    ensures !verbose ==> r == LevelNo(Info)
  {
    if verbose then LevelNo(Debug) else LevelNo(Info)
  }

  /** `InfoFilter.filter`: a record passes when its level is DEBUG or INFO. */
  predicate InfoFilter(l: Level): (r: bool)
    ensures r <==> l == Debug || l == Info
  {
    LevelNo(l) == LevelNo(Debug) || LevelNo(l) == LevelNo(Info)
  }

  /** The streams a message of level `l` is written to. */
  function Deliveries(l: Level, quiet: bool, verbose: bool): (r: set<Stream>)
    ensures quiet ==> r == {}
    ensures !(Stdout in r && Stderr in r)
    ensures Stdout in r ==> LevelNo(l) <= LevelNo(Info)
    ensures Stderr in r ==> LevelNo(l) >= LevelNo(Warning)
  {
    if Disabled(l, quiet) || LevelNo(l) < RootThreshold(verbose) then {}
    else
      (if LevelNo(l) >= LevelNo(Debug) && InfoFilter(l) then {Stdout} else {})
      + (if LevelNo(l) >= LevelNo(Warning) then {Stderr} else {})
  }

  /** Where `setup_logging`'s documentation says a message goes. */
  datatype Destination = Nowhere | ToStdout | ToStderr

  function DocumentedRoute(l: Level, quiet: bool, verbose: bool): Destination {
    if quiet then Nowhere
    else
      match l
      case Critical | Error | Warning => ToStderr
      case Info => ToStdout
      case Debug => if verbose then ToStdout else Nowhere
  }

  function StreamsOf(d: Destination): set<Stream> {
    match d
    case Nowhere => {}
    case ToStdout => {Stdout}
    case ToStderr => {Stderr}
  }

  /**
   * The handlers, filter and thresholds deliver every message exactly where the
   * documentation says: nothing when quiet, DEBUG and INFO to stdout only,
   * WARNING and above to stderr only, DEBUG only when verbose.
   */
  lemma RoutingMatchesDocumentation(l: Level, quiet: bool, verbose: bool)
    ensures Deliveries(l, quiet, verbose) == StreamsOf(DocumentedRoute(l, quiet, verbose))
  {
  }

  /** DEBUG messages are printed exactly when `--verbose` is given and `--quiet` is not. */
  lemma DebugNeedsVerbose(quiet: bool, verbose: bool)
    ensures Deliveries(Debug, quiet, verbose) != {} <==> !quiet && verbose
  {
  }

  /** The `asctime` field, which prints the record's time. */
  const AscTime: string := "%(asctime)"
  const VerboseFormat: string := AscTime + "-15s %(levelname)-8s %(funcName)-13s %(message)s"
  const PlainFormat: string := "%(message)s"

  /** The handlers' format; with `--quiet` no handler, hence no format, is installed. */
  function HandlerFormat(quiet: bool, verbose: bool): (r: Option<string>)
    ensures r.None? <==> quiet
  {
    if quiet then None else if verbose then Some(VerboseFormat) else Some(PlainFormat)
  }

  predicate OccursAt(pattern: string, s: string, i: int) {
    0 <= i && i + |pattern| <= |s| && s[i..i + |pattern|] == pattern
  }

  /** A format prints a timestamp when it contains the `asctime` field. */
  predicate Timestamped(fmt: string) {
    exists i :: 0 <= i <= |fmt| && OccursAt(AscTime, fmt, i)
  }

  /** The timestamped format is used if and only if `--verbose` is given. */
  lemma TimestampedIffVerbose(verbose: bool)
    ensures Timestamped(HandlerFormat(false, verbose).value) <==> verbose
  {
    if verbose {
      assert VerboseFormat[..|AscTime|] == AscTime;
      assert OccursAt(AscTime, VerboseFormat, 0);
    } else {
      forall i | 0 <= i <= |PlainFormat| ensures !OccursAt(AscTime, PlainFormat, i) {
        if i + |AscTime| <= |PlainFormat| {
          assert PlainFormat[i..i + |AscTime|][2] != AscTime[2];
        }
      }
    }
  }
}
