/** The setup entry point (`Clojog`): `setupLogging` turns an options record
    into backend state, step by step, and may stop with one of the three
    exceptions part-way through. The steps, in order:

      1. install ANSI console support, at most once per process and only
         when colours are wanted;
      2. reset the logger context, which drops every sink and level the
         root logger had;
      3. resolve the output target from the lower-cased output string, or
         throw;
      4. attach one new sink named "console", whose formatter has colours
         disabled exactly when the options do not ask for colour;
      5. set the root level to the backend's parse of the upper-cased level
         string, or throw;
      6. on the first call that gets here, mark the library initialised and
         log "Logging initialized." once.

    The backend (Logback) is reduced to the state these steps write. Its
    level parser is a parameter, because what it does with an unknown name
    is the backend's business. */
module Clojog {
  import opened Wrappers
  import opened Strings
  import opened ClojogExceptions
  import opened ClojogOptions
  import opened ClojogFormatter

  /** The backend's levels. */
  datatype Level = All | Trace | Debug | Info | Warn | Error | Off

  /** The backend's `Level.valueOf`, partial: None where it throws. */
  type LevelParser = string -> Option<Level>

  datatype Target = SystemOut | SystemErr

  /** A console appender: its name, its stream, and the formatter it encodes
      with. */
  datatype Sink = Sink(name: string, target: Target, encoder: Formatter)

  /** The process-wide state `setupLogging` reads and writes.
      `ansiInstalled` and `isInitialized` are the library's two static
      flags; `ansiInstalls` counts calls into the ANSI library's install,
      `resets` counts context resets, `rootSinks` and `rootLevel` are the
      root logger's appenders and level (None: none set since the last
      reset), and `announcements` the messages setup itself logged. */
  datatype Backend = Backend(
    ansiInstalled: bool,
    ansiInstalls: nat,
    isInitialized: bool,
    resets: nat,
    rootSinks: seq<Sink>,
    rootLevel: Option<Level>,
    announcements: seq<string>)

  const SinkName: string := "console"
  const InitMessage: string := "Logging initialized."
  const FilesystemFeature: string := "filesystem log output"

  /** The state of a process that has not called setup yet; the root logger
      may carry whatever sinks the backend configured on its own. */
  function Initial(sinks: seq<Sink>): (b: Backend)
    ensures !b.ansiInstalled && !b.isInitialized && b.rootSinks == sinks
  {
    Backend(false, 0, false, 0, sinks, None, [])
  }

  /** The two one-shot effects, tied to their flags: the ANSI install
      happened once exactly when its flag is up, and the initialisation
      message was logged once exactly when the library is initialised. */
  predicate OneShot(b: Backend) {
    && b.ansiInstalls == (if b.ansiInstalled then 1 else 0)
    && b.announcements == (if b.isInitialized then [InitMessage] else [])
  }

  // ----- output target ------------------------------------------------------

  /** The switch over `getOutput().toLowerCase()`. */
  function ParseOutput(output: string): (r: Result<Target, ClojogError>)
    ensures r == Success(SystemOut) <==> ToLower(output) == "stdout"
    ensures r == Success(SystemErr) <==> ToLower(output) == "stderr"
    ensures r == Failure(NotImplemented(FilesystemFeature)) <==> ToLower(output) == "filesystem"
    ensures r == Failure(UnsupportedLogOutput(output))
            <==> ToLower(output) !in {"stdout", "stderr", "filesystem"}
  {
    var lower := ToLower(output);
    if lower == "stdout" then Success(SystemOut)
    else if lower == "stderr" then Success(SystemErr)
    else if lower == "filesystem" then Failure(NotImplementedException(FilesystemFeature))
    else Failure(UnsupportedLogOutputException(output))
  }

  /** The output string is read without regard to case: strings equal
      ignoring case select the same target or fail the same way, and an
      unsupported one is reported as the caller wrote it. */
  lemma ParseOutputIgnoresCase(a: string, b: string)
    requires EqualsIgnoreCase(a, b)
    ensures ParseOutput(a).Success? ==> ParseOutput(b) == ParseOutput(a)
    ensures ParseOutput(a).Failure? ==> ParseOutput(b).Failure?
    ensures ParseOutput(a).Failure? ==> KindOf(ParseOutput(a).error) == KindOf(ParseOutput(b).error)
  {
    ToLowerSameIff(a, b);
  }

  // ----- the steps ----------------------------------------------------------

  function InstallAnsi(b: Backend, colored: bool): Backend {
    if colored && !b.ansiInstalled then b.(ansiInstalled := true, ansiInstalls := b.ansiInstalls + 1) else b
  }

  function ResetContext(b: Backend): Backend {
    b.(resets := b.resets + 1, rootSinks := [], rootLevel := None)
  }

  /** `new ClojogFormatter(!colored, reportCaller)` on a console appender. */
  function ConsoleSink(target: Target, o: Options): Sink {
    Sink(SinkName, target, Formatter(!o.colored, o.reportCaller))
  }

  /** `detachAndStopAllAppenders` followed by `addAppender`. */
  function AttachOnly(b: Backend, sink: Sink): Backend {
    b.(rootSinks := [sink])
  }

  function Announce(b: Backend): Backend {
    if b.isInitialized then b else b.(isInitialized := true, announcements := b.announcements + [InitMessage])
  }

  /** Whether setup with these options runs to the end. It depends on the
      options and the backend's parser only, never on earlier calls. */
  predicate Accepts(o: Options, parse: LevelParser) {
    ParseOutput(o.output).Success? && parse(ToUpper(o.level)).Some?
  }

  /** `setupLogging(options)`: the outcome (normal return or the exception
      thrown) and the state afterwards, which keeps every step taken before
      an exception. */
  function SetupLogging(b: Backend, o: Options, parse: LevelParser): (r: (Result<(), ClojogError>, Backend))
    // the ANSI step and the reset run before anything can fail; the install
    // itself happens only when colour is asked for and it has not run yet
    ensures r.1.ansiInstalled == (b.ansiInstalled || o.colored)
    ensures r.1.ansiInstalls == b.ansiInstalls + (if o.colored && !b.ansiInstalled then 1 else 0)
    ensures r.1.resets == b.resets + 1
    // a bad output string: reset done, no sink, no level, flag untouched
    ensures ParseOutput(o.output).Failure? ==>
              && r.0 == Failure(ParseOutput(o.output).error)
              && r.1.rootSinks == [] && r.1.rootLevel == None
              && r.1.isInitialized == b.isInitialized && r.1.announcements == b.announcements
    // a good output string: exactly one sink, the new console one, colour flag inverted
    ensures ParseOutput(o.output).Success? ==>
              && |r.1.rootSinks| == 1
              && r.1.rootSinks[0].name == SinkName
              && r.1.rootSinks[0].target == ParseOutput(o.output).value
              && r.1.rootSinks[0].encoder.disableColors == !o.colored
              && r.1.rootSinks[0].encoder.reportCaller == o.reportCaller
    // a level the backend rejects: the sink is already replaced, no level, flag untouched
    ensures ParseOutput(o.output).Success? && parse(ToUpper(o.level)).None? ==>
              && r.0 == Failure(InvalidLogLevel(o.level, Some(IllegalArgument(ToUpper(o.level)))))
              && r.1.rootLevel == None
              && r.1.isInitialized == b.isInitialized && r.1.announcements == b.announcements
    // success and its effects
    ensures r.0.Success? <==> Accepts(o, parse)
    ensures r.0.Success? ==> r.1.rootLevel == parse(ToUpper(o.level))
    ensures r.1.isInitialized == (b.isInitialized || r.0.Success?)
    ensures r.1.announcements
            == b.announcements + (if !b.isInitialized && r.1.isInitialized then [InitMessage] else [])
    ensures OneShot(b) ==> OneShot(r.1)
  {
    var b1 := InstallAnsi(b, o.colored);
    var b2 := ResetContext(b1);
    match ParseOutput(o.output)
    case Failure(e) => (Failure(e), b2)
    case Success(target) =>
      var b3 := AttachOnly(b2, ConsoleSink(target, o));
      var upper := ToUpper(o.level);
      match parse(upper)
      case None => (Failure(InvalidLogLevelExceptionWithCause(o.level, IllegalArgument(upper))), b3)
      case Some(level) => (Success(()), Announce(b3.(rootLevel := Some(level))))
  }

  /** `setupLogging()`: setup with the default options. */
  function SetupLoggingDefault(b: Backend, parse: LevelParser): (r: (Result<(), ClojogError>, Backend))
    ensures r == SetupLogging(b, Default(), parse)
    ensures parse("INFO") == Some(Info) ==>
              && r.0.Success? && r.1.rootLevel == Some(Info) && IsInitialized(r.1)
              && r.1.rootSinks == [Sink(SinkName, SystemOut, Formatter(false, false))]
  {
    assert ToUpper("INFO") == "INFO";
    assert ToLower("stdout") == "stdout";
    SetupLogging(b, Default(), parse)
  }

  /** `isInitialized()`: whether some setup call has succeeded; `RunFlags`
      states when that is. */
  function IsInitialized(b: Backend): (r: bool)
    ensures r <==> b.isInitialized
  {
    b.isInitialized
  }

  // ----- properties across calls ---------------------------------------------

  /** Running setup twice with the same options leaves the same sinks, level,
      flags and log as running it once; only the context was reset once
      more. The second call also returns the same outcome. */
  lemma SetupTwiceIsSetupOnce(b: Backend, o: Options, parse: LevelParser)
    ensures var (r1, b1) := SetupLogging(b, o, parse);
            var (r2, b2) := SetupLogging(b1, o, parse);
            r2 == r1 && b2 == b1.(resets := b1.resets + 1)
  {
  }

  /** Options whose level and output strings differ only in letter case
      configure the backend identically: "debug" and "DEBUG" give the same
      level, "STDOUT" and "stdout" the same stream. */
  lemma SetupIgnoresCase(b: Backend, o: Options, o': Options, parse: LevelParser)
    requires o.colored == o'.colored && o.reportCaller == o'.reportCaller
    requires EqualsIgnoreCase(o.level, o'.level) && EqualsIgnoreCase(o.output, o'.output)
    ensures SetupLogging(b, o, parse).1 == SetupLogging(b, o', parse).1
    ensures SetupLogging(b, o, parse).0.Success? == SetupLogging(b, o', parse).0.Success?
  {
    ToLowerSameIff(o.output, o'.output);
    ToUpperSameIff(o.level, o'.level);
  }

  /** A sequence of setup calls, each one's exception caught by the caller. */
  function Run(b: Backend, calls: seq<Options>, parse: LevelParser): Backend
    decreases |calls|
  {
    if |calls| == 0 then b
    else Run(SetupLogging(b, calls[0], parse).1, calls[1..], parse)
  }

  /** Across any sequence of calls the ANSI install happens at most once and
      the initialisation message is logged at most once, each exactly when
      its flag is up. */
  lemma {:induction false} RunKeepsOneShot(b: Backend, calls: seq<Options>, parse: LevelParser)
    requires OneShot(b)
    ensures OneShot(Run(b, calls, parse))
    ensures Run(b, calls, parse).ansiInstalls <= 1 && |Run(b, calls, parse).announcements| <= 1
    decreases |calls|
  {
    if |calls| > 0 {
      RunKeepsOneShot(SetupLogging(b, calls[0], parse).1, calls[1..], parse);
    }
  }

  /** The flags are never lowered, and each is raised by the calls that can
      raise it: ANSI support ends up installed exactly when it was before or
      some call asked for colour (even a call that then failed), and the
      library ends up initialised exactly when it was before or some call
      ran to the end. */
  lemma {:induction false} RunFlags(b: Backend, calls: seq<Options>, parse: LevelParser)
    ensures Run(b, calls, parse).ansiInstalled
            <==> b.ansiInstalled || exists i :: 0 <= i < |calls| && calls[i].colored
    ensures Run(b, calls, parse).isInitialized
            <==> b.isInitialized || exists i :: 0 <= i < |calls| && Accepts(calls[i], parse)
    decreases |calls|
  {
    if |calls| > 0 {
      var b1 := SetupLogging(b, calls[0], parse).1;
      RunFlags(b1, calls[1..], parse);
      assert forall i :: 0 < i < |calls| ==> calls[i] == calls[1..][i - 1];
      assert forall i :: 0 <= i < |calls| - 1 ==> calls[1..][i] == calls[i + 1];
    }
  }

  /** From a fresh process, the install ran once exactly when some call
      asked for colour, and "Logging initialized." was logged once exactly
      when some call ran to the end. */
  lemma FromFreshProcess(sinks: seq<Sink>, calls: seq<Options>, parse: LevelParser)
    ensures var b := Run(Initial(sinks), calls, parse);
            && (b.ansiInstalls == 1 <==> exists i :: 0 <= i < |calls| && calls[i].colored)
            && (b.ansiInstalls == 0 <==> !exists i :: 0 <= i < |calls| && calls[i].colored)
            && (b.announcements == [InitMessage] <==> exists i :: 0 <= i < |calls| && Accepts(calls[i], parse))
            && (b.announcements == [] <==> !exists i :: 0 <= i < |calls| && Accepts(calls[i], parse))
  {
    RunKeepsOneShot(Initial(sinks), calls, parse);
    RunFlags(Initial(sinks), calls, parse);
  }

  // ----- build information ----------------------------------------------------

  /** The four constants the static initialiser reads from the bundled
      property files. */
  datatype BuildInfo = BuildInfo(version: string, buildDate: string, gitCommit: string, gitBranch: string)

  const Unknown: string := "unknown"
  const NotAvailable: string := "N/A"

  /** `Properties.getProperty(key, default)`. */
  function GetProperty(props: map<string, string>, key: string, default: string): string {
    if key in props then props[key] else default
  }

  /** The static initialiser, given the contents of `version.properties`
      and `git.properties` (an empty map for a missing file): each constant
      falls back to "unknown", the build date first to the Maven timestamp. */
  function LoadBuildInfo(versionProps: map<string, string>, gitProps: map<string, string>): (r: BuildInfo)
    ensures "project.version" !in versionProps ==> r.version == Unknown
    ensures "git.commit.id.abbrev" !in gitProps ==> r.gitCommit == Unknown
    ensures "git.branch" !in gitProps ==> r.gitBranch == Unknown
    ensures "git.build.time" !in gitProps && "maven.build.timestamp" !in versionProps ==> r.buildDate == Unknown
    ensures "git.build.time" in gitProps ==> r.buildDate == gitProps["git.build.time"]
    ensures "git.build.time" !in gitProps && "maven.build.timestamp" in versionProps ==>
              r.buildDate == versionProps["maven.build.timestamp"]
    ensures "project.version" in versionProps ==> r.version == versionProps["project.version"]
    ensures "git.commit.id.abbrev" in gitProps ==> r.gitCommit == gitProps["git.commit.id.abbrev"]
    ensures "git.branch" in gitProps ==> r.gitBranch == gitProps["git.branch"]
  {
    BuildInfo(
      version := GetProperty(versionProps, "project.version", Unknown),
      buildDate := GetProperty(gitProps, "git.build.time", GetProperty(versionProps, "maven.build.timestamp", Unknown)),
      gitCommit := GetProperty(gitProps, "git.commit.id.abbrev", Unknown),
      gitBranch := GetProperty(gitProps, "git.branch", Unknown))
  }

  /** `getVersion()`: the version constant, as loaded. */
  function GetVersion(info: BuildInfo): (r: string)
    ensures r == info.version
  {
    info.version
  }

  /** `getBuildInfo()`: "N/A" exactly when the commit is unknown, otherwise
      `branch@commit, date`; never empty. */
  function GetBuildInfo(info: BuildInfo): (r: string)
    ensures r == NotAvailable <==> info.gitCommit == Unknown
    ensures info.gitCommit != Unknown ==> r == info.gitBranch + "@" + info.gitCommit + ", " + info.buildDate
    ensures |r| > 0
  {
    if info.gitCommit == Unknown then NotAvailable
    else
      var s := info.gitBranch + "@" + info.gitCommit + ", " + info.buildDate;
      assert s[|info.gitBranch|] == '@';
      s
  }

  /** What the two getters report for given property files: the version
      falls back to "unknown"; the build string is "N/A" exactly when the
      commit key is missing or itself reads "unknown", and otherwise names
      the branch, the commit and the build date, each with its fallback. */
  lemma BuildStrings(versionProps: map<string, string>, gitProps: map<string, string>)
    ensures var info := LoadBuildInfo(versionProps, gitProps);
            && GetVersion(info) == (if "project.version" in versionProps then versionProps["project.version"] else Unknown)
            && (GetBuildInfo(info) == NotAvailable
                <==> "git.commit.id.abbrev" !in gitProps || gitProps["git.commit.id.abbrev"] == Unknown)
    ensures var info := LoadBuildInfo(versionProps, gitProps);
            "git.commit.id.abbrev" in gitProps && gitProps["git.commit.id.abbrev"] != Unknown ==>
              GetBuildInfo(info)
              == GetProperty(gitProps, "git.branch", Unknown) + "@" + gitProps["git.commit.id.abbrev"] + ", "
                 + GetProperty(gitProps, "git.build.time", GetProperty(versionProps, "maven.build.timestamp", Unknown))
  {
  }
}
