/** The options record handed to `setupLogging`. The Java class is mutable
    with fluent setters that return `this`; here it is a value, and each
    setter returns the updated value, which is what a caller chaining the
    setters observes. */
module ClojogOptions {
  import opened Strings

  datatype Options = Options(colored: bool, level: string, output: string, reportCaller: bool)

  /** `new ClojogOptions()`: the field initialisers. */
  function Default(): (r: Options)
    ensures r == New(true, "INFO", "stdout", false)
  {
    Options(colored := true, level := "INFO", output := "stdout", reportCaller := false)
  }

  /** `new ClojogOptions(colored, level, output, reportCaller)`: every
      argument lands unchanged in its own field, read back by the getters
      `isColored`, `getLevel`, `getOutput` and `isReportCaller`. */
  function New(colored: bool, level: string, output: string, reportCaller: bool): (r: Options)
    ensures r.colored == colored && r.level == level
    ensures r.output == output && r.reportCaller == reportCaller
  {
    Options(colored, level, output, reportCaller)
  }

  /** `setColored`: changes the colour flag and nothing else. */
  function SetColored(o: Options, colored: bool): (r: Options)
    ensures r.colored == colored
    ensures r.level == o.level && r.output == o.output && r.reportCaller == o.reportCaller
  {
    o.(colored := colored)
  }

  /** `setLevel`: changes the level string and nothing else. */
  function SetLevel(o: Options, level: string): (r: Options)
    ensures r.level == level
    ensures r.colored == o.colored && r.output == o.output && r.reportCaller == o.reportCaller
  {
    o.(level := level)
  }

  /** `setOutput`: changes the output string and nothing else. */
  function SetOutput(o: Options, output: string): (r: Options)
    ensures r.output == output
    ensures r.colored == o.colored && r.level == o.level && r.reportCaller == o.reportCaller
  {
    o.(output := output)
  }

  /** `setReportCaller`: changes the caller flag and nothing else. */
  function SetReportCaller(o: Options, reportCaller: bool): (r: Options)
    ensures r.reportCaller == reportCaller
    ensures r.colored == o.colored && r.level == o.level && r.output == o.output
  {
    o.(reportCaller := reportCaller)
  }

  /** Setting all four fields through the fluent setters, in any start
      state, gives the same options as the four-argument constructor; for
      every setter a later call overrides an earlier one, and setters of
      different fields commute. */
  lemma FluentChainIsConstructor(o: Options, colored: bool, level: string, output: string, reportCaller: bool,
                                 earlierColored: bool, earlierLevel: string, earlierOutput: string,
                                 earlierReportCaller: bool)
    ensures SetReportCaller(SetOutput(SetLevel(SetColored(o, colored), level), output), reportCaller)
            == New(colored, level, output, reportCaller)
    // the last value set wins
    ensures SetColored(SetColored(o, earlierColored), colored) == SetColored(o, colored)
    ensures SetLevel(SetLevel(o, earlierLevel), level) == SetLevel(o, level)
    ensures SetOutput(SetOutput(o, earlierOutput), output) == SetOutput(o, output)
    ensures SetReportCaller(SetReportCaller(o, earlierReportCaller), reportCaller) == SetReportCaller(o, reportCaller)
    // setters of different fields commute
    ensures SetLevel(SetColored(o, colored), level) == SetColored(SetLevel(o, level), colored)
    ensures SetOutput(SetColored(o, colored), output) == SetColored(SetOutput(o, output), colored)
    ensures SetReportCaller(SetColored(o, colored), reportCaller) == SetColored(SetReportCaller(o, reportCaller), colored)
    ensures SetOutput(SetLevel(o, level), output) == SetLevel(SetOutput(o, output), level)
    ensures SetReportCaller(SetLevel(o, level), reportCaller) == SetLevel(SetReportCaller(o, reportCaller), level)
    ensures SetReportCaller(SetOutput(o, output), reportCaller) == SetOutput(SetReportCaller(o, reportCaller), output)
  {
  }

  /** Java's rendering of a boolean in string concatenation. */
  function BoolToString(b: bool): string {
    if b then "true" else "false"
  }

  const ToStringHead: string := "ClojogOptions{"

  function ColoredField(o: Options): string { "colored=" + BoolToString(o.colored) }
  function LevelField(o: Options): string { "level='" + o.level + "'" }
  function OutputField(o: Options): string { "output='" + o.output + "'" }
  function ReportCallerField(o: Options): string { "reportCaller=" + BoolToString(o.reportCaller) }

  function Fields(o: Options): seq<string> {
    [ColoredField(o), LevelField(o), OutputField(o), ReportCallerField(o)]
  }

  /** `toString()`: the class name and a brace, the four fields in
      declaration order separated by ", ", then a closing brace. */
  function ToString(o: Options): (r: string)
    ensures ToStringHead <= r && r[|r| - 1] == '}'
  {
    ToStringHead + Join(Fields(o), ", ") + "}"
  }

  /** Only regroups a concatenation of twelve pieces; it keeps the literal
      merging in ToStringExact small. */
  lemma Regroup(h: string, a: string, b1: string, s: string, la: string, l: string, q: string,
                ua: string, u: string, pa: string, b2: string, z: string)
    ensures h + ((a + b1) + s + (la + l + q) + s + (ua + u + q) + s + (pa + b2)) + z
         == (h + a) + b1 + (s + la) + l + q + (s + ua) + u + q + (s + pa) + b2 + z
  {
  }

  /** The rendering is, character for character, the concatenation the
      class writes out: literals and field values in declaration order. */
  lemma ToStringExact(o: Options)
    ensures ToString(o) == "ClojogOptions{" + "colored=" + BoolToString(o.colored)
                           + ", level='" + o.level + "'"
                           + ", output='" + o.output + "'"
                           + ", reportCaller=" + BoolToString(o.reportCaller)
                           + "}"
  {
    Join4(ColoredField(o), LevelField(o), OutputField(o), ReportCallerField(o), ", ");
    Regroup(ToStringHead, "colored=", BoolToString(o.colored), ", ", "level='", o.level, "'",
            "output='", o.output, "reportCaller=", BoolToString(o.reportCaller), "}");
    assert ", " + "level='" == ", level='";
    assert ", " + "output='" == ", output='";
    assert ", " + "reportCaller=" == ", reportCaller=";
  }

  /** The rendering names every field with its value, as
      `colored=…`, `level='…'`, `output='…'` and `reportCaller=…`. */
  lemma ToStringMentionsEveryField(o: Options)
    ensures Contains(ToString(o), ColoredField(o))
    ensures Contains(ToString(o), LevelField(o))
    ensures Contains(ToString(o), OutputField(o))
    ensures Contains(ToString(o), ReportCallerField(o))
  {
    forall k | 0 <= k < 4
      ensures Contains(ToString(o), Fields(o)[k])
    {
      var joined := Join(Fields(o), ", ");
      JoinContains(Fields(o), ", ", k);
      ContainsExtend(joined, Fields(o)[k], "}");
      ContainsPrepend(ToStringHead, joined + "}", Fields(o)[k]);
      assert ToStringHead + (joined + "}") == ToString(o);
    }
    assert Fields(o)[0] == ColoredField(o) && Fields(o)[1] == LevelField(o);
    assert Fields(o)[2] == OutputField(o) && Fields(o)[3] == ReportCallerField(o);
  }
}
