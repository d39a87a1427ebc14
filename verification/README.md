# clojog in Dafny

A model of clojog, a small Java library that configures Logback for
coloured, single-line console logging. It has two moving parts.

- **The line formatter** (`ClojogFormatter`). It turns one logging event
  into one line. The line holds the timestamp, a space and the level name.
  Then come an optional `[class.method:line]` caller annotation, an optional
  ` ▶ ` with the message, and an optional ` || key={value}, …` list of the
  diagnostic context. The platform line separator ends the line. When
  colours are on, the timestamp, level, caller text and message separator
  are painted. Here a line is a sequence of `Plain` and `Styled` segments.
  `Render` flattens it to text, with the ANSI wrapping passed in as a
  parameter.
- **The setup state machine** (`Clojog.setupLogging`). It runs these steps
  in order:
  1. install ANSI support, once and only when colour is wanted;
  2. reset the logger context;
  3. resolve the output stream from the case-insensitive output string;
  4. attach exactly one `console` sink, whose formatter has colours
     *disabled* when the options are *not* coloured;
  5. set the root level from the upper-cased level string;
  6. on the first call that gets this far, set the initialised flag and
     log "Logging initialized.".

  Steps 3 and 5 can throw. Every step before the throw keeps its effect.
  The model is the pure function `SetupLogging(backend, options, parser)`.
  It returns the outcome and the new backend state.

The options record (`ClojogOptions`), the three exception messages
(`ClojogExceptions`) and the build-information getters are modelled too.

Files: `wrappers.dfy` (Option/Result), `strings.dfy` (case mapping,
containment, joining, decimal integers), `utf8.dfy` (the byte encoding the
encoder writes), `exceptions.dfy`, `options.dfy`, `formatter.dfy`,
`clojog.dfy`.

Behaviour of the code worth knowing:

- An unsupported or unimplemented output string is rejected only after the
  ANSI step and the context reset have run (Clojog.java:110-136).
- The parts of a line are joined by exactly `" "`, `" ["`, `"]"`, `" ▶ "`,
  `" || "` and `", "`; no part carries a trailing space.
- Levels reach the library as strings. Whether an unknown level name is an
  error is up to the backend's parser, which is a parameter here.
- The context pairs appear in the order the map iterates them.

## Model

| member | source | states |
|---|---|---|
| Strings.ToLowerSameIff | src/main/java/io/github/clojang/clojog/Clojog.java:125 | lower-casing maps two strings to the same result exactly when they are equal ignoring case, so the output switch is case-insensitive |
| Strings.ToUpperSameIff | src/main/java/io/github/clojang/clojog/Clojog.java:154 | upper-casing maps two strings to the same result exactly when they are equal ignoring case, so "debug" and "DEBUG" reach the level parser as the same string |
| Strings.JoinContains | src/main/java/io/github/clojang/clojog/ClojogFormatter.java:116-123 | every item of a joined list appears verbatim in the joined string |
| Strings.IntToStringRoundTrip | src/main/java/io/github/clojang/clojog/ClojogFormatter.java:89-90 | the `%d` rendering of the caller line number reads back as the same integer, negative numbers included |
| ClojogExceptions.GetMessage | src/main/java/io/github/clojang/clojog/exceptions/ClojogExceptions.java:12-36 | every message contains the offending value verbatim, and it parses back into the exception kind and that value |
| ClojogExceptions.InvalidLogLevelException | src/main/java/io/github/clojang/clojog/exceptions/ClojogExceptions.java:12-14 | the message is "Could not set configured log level: " followed by the given text, with no cause |
| ClojogExceptions.InvalidLogLevelExceptionWithCause | src/main/java/io/github/clojang/clojog/exceptions/ClojogExceptions.java:16-18 | the cause-carrying form has the same message as the one-argument form and keeps the cause |
| ClojogExceptions.UnsupportedLogOutputException | src/main/java/io/github/clojang/clojog/exceptions/ClojogExceptions.java:25-27 | the message is "Unsupported log output: " followed by the output string |
| ClojogExceptions.NotImplementedException | src/main/java/io/github/clojang/clojog/exceptions/ClojogExceptions.java:34-36 | the message is "Not yet implemented: " followed by the feature |
| ClojogExceptions.MessageDeterminesError | src/main/java/io/github/clojang/clojog/exceptions/ClojogExceptions.java:12-36 | two exceptions with the same message have the same kind and the same offending value |
| ClojogOptions.Default | src/main/java/io/github/clojang/clojog/ClojogOptions.java:10-20 | the no-argument options equal the four-argument ones built from colored=true, "INFO", "stdout", reportCaller=false |
| ClojogOptions.New | src/main/java/io/github/clojang/clojog/ClojogOptions.java:30-35 | each constructor argument is stored unchanged and read back by its getter |
| ClojogOptions.SetColored | src/main/java/io/github/clojang/clojog/ClojogOptions.java:48-51 | sets the colour flag and leaves the other three fields unchanged |
| ClojogOptions.SetLevel | src/main/java/io/github/clojang/clojog/ClojogOptions.java:64-67 | sets the level and leaves the other three fields unchanged |
| ClojogOptions.SetOutput | src/main/java/io/github/clojang/clojog/ClojogOptions.java:80-83 | sets the output and leaves the other three fields unchanged |
| ClojogOptions.SetReportCaller | src/main/java/io/github/clojang/clojog/ClojogOptions.java:96-99 | sets the caller flag and leaves the other three fields unchanged |
| ClojogOptions.FluentChainIsConstructor | src/main/java/io/github/clojang/clojog/ClojogOptions.java:48-99 | from any start, chaining all four setters gives the four-argument constructor's options; the last value set wins; setters of different fields commute |
| ClojogOptions.ToString | src/main/java/io/github/clojang/clojog/ClojogOptions.java:102-109 | the rendering starts with "ClojogOptions{" and ends with "}" |
| ClojogOptions.ToStringExact | src/main/java/io/github/clojang/clojog/ClojogOptions.java:102-109 | the rendering is exactly "ClojogOptions{colored=" + colored + ", level='" + level + "', output='" + output + "', reportCaller=" + reportCaller + "}" |
| ClojogOptions.ToStringMentionsEveryField | src/main/java/io/github/clojang/clojog/ClojogOptions.java:102-109 | the rendering contains `colored=…`, `level='…'`, `output='…'` and `reportCaller=…`, each with the field's value |
| ClojogFormatter.LevelColor | src/main/java/io/github/clojang/clojog/ClojogFormatter.java:141-161 | the switch agrees with the severity table TRACE→MAGENTA, DEBUG→CYAN, INFO→GREEN, WARN→YELLOW, ERROR→RED, and gives WHITE for every other name |
| ClojogFormatter.ColorLevel | src/main/java/io/github/clojang/clojog/ClojogFormatter.java:136-164 | the level name stays unchanged; it is plain exactly when colours are disabled; otherwise it is bold in the colour of its upper-cased name; it never fails |
| ClojogFormatter.ColorLevelIgnoresCase | src/main/java/io/github/clojang/clojog/ClojogFormatter.java:142 | level names equal ignoring case get the same colour |
| ClojogFormatter.AppendContext | src/main/java/io/github/clojang/clojog/ClojogFormatter.java:113-124 | the loop with its `first` flag builds the `key={value}` items joined by ", " in iteration order, and every item appears in the result |
| ClojogFormatter.DoLayout | src/main/java/io/github/clojang/clojog/ClojogFormatter.java:60-128 | the line starts with the timestamp (GREEN when coloured), one plain space and the level; it ends with the line separator; no segment is styled when colours are off; only the level is bold; with colours on the caller text IS painted YELLOW and the ▶ separator IS painted CYAN, at their fixed positions, and the message text after it is always plain; the line has exactly 4 segments plus 3 for the caller, 2 for the message and 1 for the context; only the timestamp, level, caller text and message separator are ever styled |
| ClojogFormatter.LayoutDecodes | src/main/java/io/github/clojang/clojog/ClojogFormatter.java:64-126 | every line reads back, in the fixed order, into the timestamp, the level, a caller part (present exactly when reporting is on and there is at least one frame, naming the first frame), a message part (present exactly when the message is non-null and non-empty, verbatim), a context part (present exactly when the map is non-null and non-empty) and the separator |
| ClojogFormatter.PlainRendersAsText | src/main/java/io/github/clojang/clojog/ClojogFormatter.java:68-108 | a line with no styled segment renders to the plain concatenation of its texts, whatever the ANSI wrapping |
| ClojogFormatter.UncoloredLine | src/main/java/io/github/clojang/clojog/ClojogFormatter.java:60-127 | with colours disabled the rendered line is exactly the timestamp, a space, the level, then the caller annotation, the ▶ separator with the message, and the context list where present, then the separator, for every ANSI wrapping |
| ClojogFormatter.TestMessageLine | src/test/java/io/github/clojang/clojog/ClojogTest.java:185-205 | the uncoloured INFO "Test message" event of the formatter test renders as `timestamp INFO ▶ Test message` plus the separator; the line contains "INFO", "Test message" and "▶", and no escape character when the timestamp and separator have none |
| ClojogFormatter.HeaderBytes | src/main/java/io/github/clojang/clojog/ClojogFormatter.java:51-53 | the header is empty |
| ClojogFormatter.FooterBytes | src/main/java/io/github/clojang/clojog/ClojogFormatter.java:56-58 | the footer is empty |
| ClojogFormatter.Encode | src/main/java/io/github/clojang/clojog/ClojogFormatter.java:46-48 | the bytes of an event decode as UTF-8 back to exactly its rendered line, and are at least as many as its characters |
| ClojogFormatter.StreamDecodes | src/main/java/io/github/clojang/clojog/ClojogFormatter.java:46-58 | the empty header, the bytes of each event in turn and the empty footer decode together to the event lines one after the other |
| Utf8.EncodeChar | src/main/java/io/github/clojang/clojog/ClojogFormatter.java:47 | a character takes one to four bytes, one exactly when it is ASCII, and then that byte is its code; only the first byte is not a continuation byte |
| Utf8.DecodeEncode | src/main/java/io/github/clojang/clojog/ClojogFormatter.java:47 | decoding the UTF-8 bytes of any string gives the string back |
| Clojog.Initial | src/main/java/io/github/clojang/clojog/Clojog.java:93-94 | a fresh process has neither flag set |
| Clojog.ParseOutput | src/main/java/io/github/clojang/clojog/Clojog.java:125-136 | after lower-casing, "stdout" selects standard output and "stderr" standard error; "filesystem" fails as not implemented ("filesystem log output"); any other value fails as unsupported and carries the original string; each case holds in both directions |
| Clojog.ParseOutputIgnoresCase | src/main/java/io/github/clojang/clojog/Clojog.java:125 | output strings equal ignoring case give the same target, or fail with the same kind of error |
| Clojog.SetupLogging | src/main/java/io/github/clojang/clojog/Clojog.java:108-166 | the ANSI step and the context reset run before anything can fail, and the install itself happens only when colour is asked for and has not run yet; a bad output leaves no sink, no level and the flag unchanged; a good output leaves exactly one "console" sink with disableColors = not colored and the caller flag copied; a rejected level fails with InvalidLogLevel(original) after the sink was replaced; success happens exactly when both parse, and sets the level; the flag rises on the first success, which logs the message exactly once; the one-shot invariant is kept |
| Clojog.SetupLoggingDefault | src/main/java/io/github/clojang/clojog/Clojog.java:173-175 | setup without options is setup with the defaults; when the backend parses "INFO", it succeeds with level INFO, one stdout sink with colours on and no caller, and the library initialised |
| Clojog.SetupTwiceIsSetupOnce | src/main/java/io/github/clojang/clojog/Clojog.java:110-165 | a second call with the same options returns the same outcome and changes nothing observable; only the context is reset once more |
| Clojog.SetupIgnoresCase | src/main/java/io/github/clojang/clojog/Clojog.java:125-154 | options whose level and output differ only in letter case leave identical backend state and succeed or fail together |
| Clojog.RunKeepsOneShot | src/main/java/io/github/clojang/clojog/Clojog.java:110-165 | over any sequence of calls, the ANSI install happens at most once and "Logging initialized." is logged at most once, each exactly when its flag is set |
| Clojog.RunFlags | src/main/java/io/github/clojang/clojog/Clojog.java:110-165 | over any sequence of calls, ANSI ends installed exactly when it already was or some call asked for colour (even a failing one); the library ends initialised exactly when it already was or some call succeeded |
| Clojog.FromFreshProcess | src/main/java/io/github/clojang/clojog/Clojog.java:93-165 | from a fresh process, the install ran once exactly when some call was coloured, and the message was logged once exactly when some call succeeded, and never otherwise |
| Clojog.LoadBuildInfo | src/main/java/io/github/clojang/clojog/Clojog.java:84-90 | each constant is its property's value when the key is present and "unknown" otherwise; the build date is the git build time, else the Maven timestamp, else "unknown" |
| Clojog.GetVersion | src/main/java/io/github/clojang/clojog/Clojog.java:180-182 | returns the loaded version constant |
| Clojog.IsInitialized | src/main/java/io/github/clojang/clojog/Clojog.java:197-199 | reports the initialised flag, which RunFlags ties to whether some call has succeeded |
| Clojog.GetBuildInfo | src/main/java/io/github/clojang/clojog/Clojog.java:187-192 | returns "N/A" exactly when the commit is "unknown", otherwise `branch@commit, date`; never empty |
| Clojog.BuildStrings | src/main/java/io/github/clojang/clojog/Clojog.java:180-192 | from the property files: the version is the project version or "unknown"; the build string is "N/A" exactly when the commit key is missing or reads "unknown", and otherwise is branch@commit, date with each part's fallback |

## Left out

- Timestamp computation is left out. It uses java.time, the system zone and
  the offset at formatting time, so the formatted timestamp is an opaque
  string parameter of `DoLayout`.
- ANSI escape generation is left out because it lives in the Jansi library.
  It is the `Style` parameter of `Render`. `AnsiConsole.systemInstall` is
  modelled as a flag and a counter only.
- `System.lineSeparator()` is the `newline` parameter.
- Utf8.Encode: Dafny characters are Unicode scalar values, so a Java string
  holding an unpaired surrogate, which `getBytes` turns into `?`, has no
  counterpart here.
- Several Logback internals are left out:
  - What `LoggerContext.reset` does beyond dropping the root logger's sinks
    and level. After a reset the root level is `None`, standing for the
    backend's own default.
  - Appender start and stop, and how caller data and the diagnostic context
    map are filled in.
  - Level filtering of events. Whether the "Logging initialized." event
    passes the configured level is not modelled; the model records the
    logging call.
- `Level.valueOf` is the `LevelParser` parameter. The model never assumes
  that an unknown name is rejected.
- Reading `version.properties` and `git.properties` is left out because it
  is resource I/O. Their contents are map parameters of `LoadBuildInfo`.
- The demo application is left out. It only prints and calls the public API.
- Concurrency is left out. The static flags and concurrent formatter calls
  are modelled sequentially.
- Null strings in the options are left out. In Java they would throw a
  `NullPointerException` during setup. Null context values would print as
  "null"; here they are plain strings.
- Strings.ToLower: only ASCII letters are mapped. Java's Unicode and
  locale-sensitive lower-casing is not modelled. For example, under a
  Turkish default locale "FILESYSTEM" would not match.
- Strings.ToUpper: only ASCII letters are mapped, for the same reason.
- Strings.IntToString: uses ASCII digits. `String.format` may use the
  default locale's digits.
- ClojogOptions.SetColored: the Java setter mutates and returns the same
  instance. The model uses values, so aliasing between two references to
  one options object is not modelled.
- ClojogOptions.SetLevel: returns an updated value, not the same instance.
- ClojogOptions.SetOutput: returns an updated value, not the same instance.
- ClojogOptions.SetReportCaller: returns an updated value, not the same instance.
