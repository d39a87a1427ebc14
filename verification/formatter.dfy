/** The line formatter (`ClojogFormatter`): one logging event becomes one
    line made of, in order, the timestamp, a space, the level name, an
    optional `[class.method:line]` caller annotation, an optional ` ▶ `
    and message, an optional ` || key={value}, …` context list, and the
    line separator.

    The line is modelled as a sequence of segments, each either plain text
    or text the terminal should paint in a colour (and maybe bold). How a
    painted segment becomes escape codes belongs to the ANSI library and is
    a `Style` parameter of `Render`; the formatted timestamp and the
    platform line separator are string parameters. */
module ClojogFormatter {
  import opened Wrappers
  import opened Strings
  import Utf8

  datatype Color = Black | Red | Green | Yellow | Blue | Magenta | Cyan | White

  datatype Segment = Plain(text: string) | Styled(color: Color, bold: bool, text: string)

  /** The ANSI library's wrapping of a painted piece of text. */
  type Style = (Color, bool, string) -> string

  /** A stack frame as `StackTraceElement` reports it. */
  datatype Frame = Frame(className: string, methodName: string, lineNumber: int)

  /** What the layout reads from a logging event. References the backend
      may leave null (caller data, message, context map) are Options; the
      context map is given in its iteration order. */
  datatype Event = Event(
    level: string,
    callerData: Option<seq<Frame>>,
    message: Option<string>,
    mdc: Option<seq<(string, string)>>)

  /** The two constructor flags. */
  datatype Formatter = Formatter(disableColors: bool, reportCaller: bool)

  const Space: string := " "
  const CallerOpen: string := " ["
  const CallerClose: string := "]"
  const MessageSeparator: string := " \U{25B6} "
  const ContextSeparator: string := " || "
  const PairSeparator: string := ", "

  // ----- colours ------------------------------------------------------------

  /** The colour of each level name the layout knows. */
  const SeverityColors: map<string, Color> :=
    map["TRACE" := Magenta, "DEBUG" := Cyan, "INFO" := Green, "WARN" := Yellow, "ERROR" := Red]

  /** The switch over an upper-cased level name; anything else is white. */
  function LevelColor(name: string): (r: Color)
    ensures name in SeverityColors ==> r == SeverityColors[name]
    ensures name !in SeverityColors ==> r == White
  {
    if name == "TRACE" then Magenta
    else if name == "DEBUG" then Cyan
    else if name == "INFO" then Green
    else if name == "WARN" then Yellow
    else if name == "ERROR" then Red
    else White
  }

  /** `colorLevel`: the level name unchanged, painted bold in the colour of
      its severity when colours are on, as plain text when they are off.
      It is total: an unknown name is painted white. */
  function ColorLevel(f: Formatter, level: string): (r: Segment)
    ensures r.text == level
    ensures f.disableColors <==> r.Plain?
    ensures r.Styled? ==> r.bold && r.color == (if ToUpper(level) in SeverityColors then SeverityColors[ToUpper(level)] else White)
  {
    if f.disableColors then Plain(level) else Styled(LevelColor(ToUpper(level)), true, level)
  }

  /** The switch upper-cases first, so the colour does not depend on the
      case the level name is written in. */
  lemma ColorLevelIgnoresCase(f: Formatter, a: string, b: string)
    requires EqualsIgnoreCase(a, b)
    ensures ColorLevel(f, a).Styled? == ColorLevel(f, b).Styled?
    ensures ColorLevel(f, a).Styled? ==> ColorLevel(f, a).color == ColorLevel(f, b).color
  {
    ToUpperSameIff(a, b);
  }

  /** A piece painted in `color` when colours are on, plain otherwise. */
  function Paint(f: Formatter, color: Color, text: string): (r: Segment)
    ensures r.text == text
    ensures f.disableColors ==> r == Plain(text)
    ensures !f.disableColors ==> r == Styled(color, false, text)
  {
    if f.disableColors then Plain(text) else Styled(color, false, text)
  }

  // ----- the optional parts -------------------------------------------------

  predicate ShowsCaller(f: Formatter, e: Event) {
    f.reportCaller && e.callerData.Some? && |e.callerData.value| > 0
  }

  predicate ShowsMessage(e: Event) {
    e.message.Some? && |e.message.value| > 0
  }

  predicate ShowsContext(e: Event) {
    e.mdc.Some? && |e.mdc.value| > 0
  }

  /** `String.format("%s.%s:%d", class, method, line)`. */
  function CallerInfo(fr: Frame): string {
    fr.className + "." + fr.methodName + ":" + IntToString(fr.lineNumber)
  }

  function PairText(kv: (string, string)): string {
    kv.0 + "={" + kv.1 + "}"
  }

  function PairTexts(pairs: seq<(string, string)>): (r: seq<string>)
    ensures |r| == |pairs|
    ensures forall i :: 0 <= i < |pairs| ==> r[i] == PairText(pairs[i])
  {
    seq(|pairs|, i requires 0 <= i < |pairs| => PairText(pairs[i]))
  }

  /** The context list: every `key={value}` in iteration order, separated
      by ", ". */
  function ContextText(pairs: seq<(string, string)>): string {
    Join(PairTexts(pairs), PairSeparator)
  }

  /** The loop of `doLayout` over the context map, with its `first` flag:
      it builds exactly `ContextText`. */
  method AppendContext(pairs: seq<(string, string)>) returns (sb: string)
    ensures sb == ContextText(pairs)
    ensures forall i :: 0 <= i < |pairs| ==> Contains(sb, PairText(pairs[i]))
  {
    sb := "";
    var first := true;
    var i := 0;
    while i < |pairs|
      invariant 0 <= i <= |pairs|
      invariant first <==> i == 0
      invariant sb == Join(PairTexts(pairs[..i]), PairSeparator)
    {
      if !first {
        sb := sb + PairSeparator;
      }
      sb := sb + PairText(pairs[i]);
      first := false;
      assert PairTexts(pairs[..i + 1])[..i] == PairTexts(pairs[..i]);
      i := i + 1;
    }
    assert pairs[..i] == pairs;
    forall k | 0 <= k < |pairs|
      ensures Contains(sb, PairText(pairs[k]))
    {
      JoinContains(PairTexts(pairs), PairSeparator, k);
    }
  }

  function CallerPart(f: Formatter, e: Event): seq<Segment> {
    if ShowsCaller(f, e)
    then [Plain(CallerOpen), Paint(f, Yellow, CallerInfo(e.callerData.value[0])), Plain(CallerClose)]
    else []
  }

  function MessagePart(f: Formatter, e: Event): seq<Segment> {
    if ShowsMessage(e) then [Paint(f, Cyan, MessageSeparator), Plain(e.message.value)] else []
  }

  function ContextPart(e: Event): seq<Segment> {
    if ShowsContext(e) then [Plain(ContextSeparator + ContextText(e.mdc.value))] else []
  }

  // ----- the layout ---------------------------------------------------------

  /** `doLayout`, with `timestamp` the already formatted event time and
      `newline` the platform line separator. */
  function DoLayout(f: Formatter, e: Event, timestamp: string, newline: string): (r: seq<Segment>)
    ensures 4 <= |r| <= 10
    ensures r[0] == Paint(f, Green, timestamp) && r[1] == Plain(Space) && r[2] == ColorLevel(f, e.level)
    ensures r[|r| - 1] == Plain(newline)
    ensures |r| == 4 + (if ShowsCaller(f, e) then 3 else 0) + (if ShowsMessage(e) then 2 else 0)
                     + (if ShowsContext(e) then 1 else 0)
    ensures ShowsCaller(f, e) ==> r[4] == Paint(f, Yellow, CallerInfo(e.callerData.value[0]))
    ensures ShowsMessage(e) && ShowsCaller(f, e) ==> r[6] == Paint(f, Cyan, MessageSeparator)
    ensures ShowsMessage(e) && !ShowsCaller(f, e) ==> r[3] == Paint(f, Cyan, MessageSeparator)
    ensures ShowsMessage(e) && ShowsCaller(f, e) ==> r[7] == Plain(e.message.value)
    ensures ShowsMessage(e) && !ShowsCaller(f, e) ==> r[4] == Plain(e.message.value)
    ensures f.disableColors ==> forall i :: 0 <= i < |r| ==> r[i].Plain?
    ensures forall i :: 0 <= i < |r| && r[i].Styled? && r[i].bold ==> i == 2
    ensures forall i :: 0 <= i < |r| && r[i].Styled? ==>
              || (i == 0 && r[i] == Styled(Green, false, timestamp))
              || i == 2
              || (ShowsCaller(f, e) && r[i] == Styled(Yellow, false, CallerInfo(e.callerData.value[0])))
              || (ShowsMessage(e) && r[i] == Styled(Cyan, false, MessageSeparator))
  {
    var r := Assemble(f, e, timestamp, newline);
    AssembledPositions(f, e, timestamp, newline);
    AssembledStyles(f, e, timestamp, newline);
    AssembledMessage(f, e, timestamp, newline);
    r
  }

  /** The pieces of a line in their order. */
  function Assemble(f: Formatter, e: Event, timestamp: string, newline: string): seq<Segment> {
    [Paint(f, Green, timestamp), Plain(Space), ColorLevel(f, e.level)]
    + CallerPart(f, e) + MessagePart(f, e) + ContextPart(e)
    + [Plain(newline)]
  }

  lemma AssembledPositions(f: Formatter, e: Event, timestamp: string, newline: string)
    ensures var r := Assemble(f, e, timestamp, newline);
            && |r| == 4 + (if ShowsCaller(f, e) then 3 else 0) + (if ShowsMessage(e) then 2 else 0)
                        + (if ShowsContext(e) then 1 else 0)
            && r[0] == Paint(f, Green, timestamp) && r[1] == Plain(Space) && r[2] == ColorLevel(f, e.level)
            && r[|r| - 1] == Plain(newline)
            && (ShowsCaller(f, e) ==> r[4] == Paint(f, Yellow, CallerInfo(e.callerData.value[0])))
            && (ShowsMessage(e) && ShowsCaller(f, e) ==> r[6] == Paint(f, Cyan, MessageSeparator))
            && (ShowsMessage(e) && !ShowsCaller(f, e) ==> r[3] == Paint(f, Cyan, MessageSeparator))
  {
  }

  lemma AssembledMessage(f: Formatter, e: Event, timestamp: string, newline: string)
    ensures var r := Assemble(f, e, timestamp, newline);
            && (ShowsMessage(e) && ShowsCaller(f, e) ==> |r| > 7 && r[7] == Plain(e.message.value))
            && (ShowsMessage(e) && !ShowsCaller(f, e) ==> |r| > 4 && r[4] == Plain(e.message.value))
  {
  }

  lemma AssembledStyles(f: Formatter, e: Event, timestamp: string, newline: string)
    ensures var r := Assemble(f, e, timestamp, newline);
            && (f.disableColors ==> forall i :: 0 <= i < |r| ==> r[i].Plain?)
            && (forall i :: 0 <= i < |r| && r[i].Styled? && r[i].bold ==> i == 2)
            && (forall i :: 0 <= i < |r| && r[i].Styled? ==>
                  || (i == 0 && r[i] == Styled(Green, false, timestamp))
                  || i == 2
                  || (ShowsCaller(f, e) && r[i] == Styled(Yellow, false, CallerInfo(e.callerData.value[0])))
                  || (ShowsMessage(e) && r[i] == Styled(Cyan, false, MessageSeparator)))
  {
  }

  // ----- reading a line back ------------------------------------------------

  /** The parts a line is made of; absent optional parts are None. */
  datatype Parts = Parts(
    timestamp: string,
    level: string,
    caller: Option<string>,
    message: Option<string>,
    context: Option<string>,
    newline: string)

  function DecodeCaller(segs: seq<Segment>): (Option<string>, seq<Segment>) {
    if |segs| >= 3 && segs[0] == Plain(CallerOpen) && segs[2] == Plain(CallerClose)
    then (Some(segs[1].text), segs[3..])
    else (None, segs)
  }

  function DecodeMessage(segs: seq<Segment>): (Option<string>, seq<Segment>) {
    if |segs| >= 2 && segs[0].text == MessageSeparator
    then (Some(segs[1].text), segs[2..])
    else (None, segs)
  }

  function DecodeContext(segs: seq<Segment>): (Option<string>, seq<Segment>) {
    if |segs| == 1 && segs[0].Plain? && ContextSeparator <= segs[0].text
    then (Some(segs[0].text[|ContextSeparator|..]), [])
    else (None, segs)
  }

  /** Reads a segment sequence as a line, left to right: timestamp, space,
      level, then the optional caller, message and context parts in that
      order, then the line separator. None when the segments are not laid
      out that way. */
  function Decode(segs: seq<Segment>): Option<Parts> {
    if |segs| < 4 || segs[1] != Plain(Space) || !segs[|segs| - 1].Plain? then None
    else
      var (caller, rest1) := DecodeCaller(segs[3..|segs| - 1]);
      var (message, rest2) := DecodeMessage(rest1);
      var (context, rest3) := DecodeContext(rest2);
      if rest3 == [] then
        Some(Parts(segs[0].text, segs[2].text, caller, message, context, segs[|segs| - 1].text))
      else None
  }

  lemma DecodeContextPart(e: Event)
    ensures DecodeContext(ContextPart(e)) == (if ShowsContext(e) then Some(ContextText(e.mdc.value)) else None, [])
  {
    if ShowsContext(e) {
      var t := ContextSeparator + ContextText(e.mdc.value);
      assert ContextSeparator <= t && t[|ContextSeparator|..] == ContextText(e.mdc.value);
    }
  }

  lemma DecodeMessagePart(f: Formatter, e: Event)
    ensures DecodeMessage(MessagePart(f, e) + ContextPart(e))
            == (if ShowsMessage(e) then Some(e.message.value) else None, ContextPart(e))
  {
    var tail := MessagePart(f, e) + ContextPart(e);
    if ShowsMessage(e) {
      assert tail[2..] == ContextPart(e);
    } else {
      assert tail == ContextPart(e);
    }
  }

  lemma DecodeCallerPart(f: Formatter, e: Event)
    ensures DecodeCaller(CallerPart(f, e) + MessagePart(f, e) + ContextPart(e))
            == (if ShowsCaller(f, e) then Some(CallerInfo(e.callerData.value[0])) else None,
                MessagePart(f, e) + ContextPart(e))
  {
    var tail := CallerPart(f, e) + MessagePart(f, e) + ContextPart(e);
    if ShowsCaller(f, e) {
      assert tail[3..] == MessagePart(f, e) + ContextPart(e);
    } else {
      assert tail == MessagePart(f, e) + ContextPart(e);
      if ShowsMessage(e) {
        assert tail[0].text == MessageSeparator;
      } else if ShowsContext(e) {
        assert tail[0].text[1] == '|';
      }
    }
  }

  /** Every line the layout produces reads back into its parts: the
      timestamp and level come first, the caller annotation is there
      exactly when caller reporting is on and the event has at least one
      frame (and then names the first frame), the message is there exactly
      when it is non-null and non-empty (and then verbatim), the context
      list exactly when the map is non-null and non-empty, and the line
      ends with the separator. */
  lemma {:induction false} LayoutDecodes(f: Formatter, e: Event, timestamp: string, newline: string)
    ensures var p := Decode(DoLayout(f, e, timestamp, newline));
      && p.Some?
      && p.value.timestamp == timestamp && p.value.level == e.level && p.value.newline == newline
      && (p.value.caller.Some? <==> ShowsCaller(f, e))
      && (ShowsCaller(f, e) ==> p.value.caller.value == CallerInfo(e.callerData.value[0]))
      && (p.value.message.Some? <==> ShowsMessage(e))
      && (ShowsMessage(e) ==> p.value.message == e.message)
      && (p.value.context.Some? <==> ShowsContext(e))
      && (ShowsContext(e) ==> p.value.context.value == ContextText(e.mdc.value))
  {
    var r := DoLayout(f, e, timestamp, newline);
    var middle := CallerPart(f, e) + MessagePart(f, e) + ContextPart(e);
    assert r[3..|r| - 1] == middle;
    DecodeCallerPart(f, e);
    DecodeMessagePart(f, e);
    DecodeContextPart(e);
  }

  // ----- rendering ----------------------------------------------------------

  function RenderSegment(s: Segment, style: Style): string {
    match s
    case Plain(t) => t
    case Styled(c, b, t) => style(c, b, t)
  }

  /** The text of a line, painted segments wrapped by `style`. */
  function Render(segs: seq<Segment>, style: Style): string
    decreases |segs|
  {
    if |segs| == 0 then "" else RenderSegment(segs[0], style) + Render(segs[1..], style)
  }

  /** The bare text of the segments, with no styling at all. */
  function Text(segs: seq<Segment>): string
    decreases |segs|
  {
    if |segs| == 0 then "" else segs[0].text + Text(segs[1..])
  }

  lemma {:induction false} RenderAppend(a: seq<Segment>, b: seq<Segment>, style: Style)
    ensures Render(a + b, style) == Render(a, style) + Render(b, style)
    decreases |a|
  {
    if |a| == 0 {
      assert a + b == b;
    } else {
      assert (a + b)[1..] == a[1..] + b;
      RenderAppend(a[1..], b, style);
    }
  }

  /** A line with no painted segment renders to its bare text, whatever the
      ANSI wrapping is. */
  lemma {:induction false} PlainRendersAsText(segs: seq<Segment>, style: Style)
    requires forall i :: 0 <= i < |segs| ==> segs[i].Plain?
    ensures Render(segs, style) == Text(segs)
    decreases |segs|
  {
    if |segs| > 0 {
      PlainRendersAsText(segs[1..], style);
    }
  }

  /** With colours disabled the rendered line carries no ANSI wrapping: it
      is the documented plain layout, the same for every `style`. */
  lemma {:induction false} UncoloredLine(f: Formatter, e: Event, timestamp: string, newline: string, style: Style)
    requires f.disableColors
    ensures Render(DoLayout(f, e, timestamp, newline), style)
            == timestamp + Space + e.level
               + (if ShowsCaller(f, e) then CallerOpen + CallerInfo(e.callerData.value[0]) + CallerClose else "")
               + (if ShowsMessage(e) then MessageSeparator + e.message.value else "")
               + (if ShowsContext(e) then ContextSeparator + ContextText(e.mdc.value) else "")
               + newline
  {
    var head := [Paint(f, Green, timestamp), Plain(Space), ColorLevel(f, e.level)];
    var c, m, x, n := CallerPart(f, e), MessagePart(f, e), ContextPart(e), [Plain(newline)];
    assert DoLayout(f, e, timestamp, newline) == head + c + m + x + n;
    RenderAppend(head + c + m + x, n, style);
    RenderAppend(head + c + m, x, style);
    RenderAppend(head + c, m, style);
    RenderAppend(head, c, style);
    RenderSmall(head, style);
    RenderSmall(c, style);
    RenderSmall(m, style);
    RenderSmall(x, style);
    RenderSmall(n, style);
  }

  /** Unfolds `Render` on a sequence of at most three segments. */
  lemma RenderSmall(segs: seq<Segment>, style: Style)
    requires |segs| <= 3
    ensures |segs| == 0 ==> Render(segs, style) == ""
    ensures |segs| == 1 ==> Render(segs, style) == RenderSegment(segs[0], style)
    ensures |segs| == 2 ==> Render(segs, style) == RenderSegment(segs[0], style) + RenderSegment(segs[1], style)
    ensures |segs| == 3 ==> Render(segs, style)
                            == RenderSegment(segs[0], style) + RenderSegment(segs[1], style) + RenderSegment(segs[2], style)
  {
    if |segs| > 0 {
      assert Render(segs, style) == RenderSegment(segs[0], style) + Render(segs[1..], style);
      if |segs| > 1 {
        assert Render(segs[1..], style) == RenderSegment(segs[1], style) + Render(segs[2..], style);
        if |segs| > 2 {
          assert Render(segs[2..], style) == RenderSegment(segs[2], style) + Render(segs[3..], style);
        }
      }
    }
  }

  /** The character every ANSI escape sequence starts with. */
  const Escape: char := '\U{1B}'

  predicate NoEscape(s: string) {
    forall i :: 0 <= i < |s| ==> s[i] != Escape
  }

  lemma NoEscapeConcat(a: string, b: string)
    requires NoEscape(a) && NoEscape(b)
    ensures NoEscape(a + b)
  {
  }

  /** An uncoloured line with a level and a message but no caller or
      context contains the level, the message and the ▶ mark, and brings
      in no escape character of its own. */
  lemma MessageLineFacts(timestamp: string, level: string, message: string, newline: string)
    ensures var line := timestamp + Space + level + MessageSeparator + message + newline;
            && Contains(line, level) && Contains(line, message) && Contains(line, "\U{25B6}")
            && (NoEscape(timestamp) && NoEscape(level) && NoEscape(message) && NoEscape(newline) ==> NoEscape(line))
  {
    var line := timestamp + Space + level + MessageSeparator + message + newline;
    ContainsInfix(timestamp + Space, level, MessageSeparator + message + newline);
    assert line == (timestamp + Space) + level + (MessageSeparator + message + newline);
    ContainsInfix(timestamp + Space + level + MessageSeparator, message, newline);
    assert MessageSeparator == " " + "\U{25B6}" + " ";
    ContainsInfix(timestamp + Space + level + " ", "\U{25B6}", " " + message + newline);
    assert line == (timestamp + Space + level + " ") + "\U{25B6}" + (" " + message + newline);
    if NoEscape(timestamp) && NoEscape(level) && NoEscape(message) && NoEscape(newline) {
      assert NoEscape(Space) && NoEscape(MessageSeparator);
      NoEscapeConcat(timestamp, Space);
      NoEscapeConcat(timestamp + Space, level);
      NoEscapeConcat(timestamp + Space + level, MessageSeparator);
      NoEscapeConcat(timestamp + Space + level + MessageSeparator, message);
      NoEscapeConcat(timestamp + Space + level + MessageSeparator + message, newline);
    }
  }

  /** Only drops two empty pieces from a concatenation. */
  lemma DropEmpty(a: string, b: string, c: string)
    ensures a + "" + b + "" + c == a + b + c
  {
  }

  lemma TestMessagePieces(callerData: Option<seq<Frame>>, timestamp: string, newline: string, style: Style)
    ensures Render(DoLayout(Formatter(true, false), Event("INFO", callerData, Some("Test message"), Some([])),
                            timestamp, newline), style)
            == timestamp + Space + "INFO" + MessageSeparator + "Test message" + newline
  {
    var f, e := Formatter(true, false), Event("INFO", callerData, Some("Test message"), Some([]));
    UncoloredLine(f, e, timestamp, newline, style);
    assert !ShowsCaller(f, e) && ShowsMessage(e) && !ShowsContext(e);
    DropEmpty(timestamp + Space + "INFO", MessageSeparator + "Test message", newline);
  }

  /** Only merges the literals of the test line, kept apart from the
      rendering proof so that each stays small. */
  lemma TestMessageLiterals(timestamp: string, newline: string)
    ensures timestamp + Space + "INFO" + MessageSeparator + "Test message" + newline
            == timestamp + " INFO \U{25B6} Test message" + newline
    ensures NoEscape("INFO") && NoEscape("Test message")
  {
  }

  /** The uncoloured INFO line of the formatter test in
      `ClojogTest.testFormatterWithoutColors`: it is the timestamp, the
      level and the ▶ message and nothing else, so it contains "INFO",
      "Test message" and "▶", and no escape character unless the timestamp
      or the line separator brought one. */
  lemma TestMessageLine(callerData: Option<seq<Frame>>, timestamp: string, newline: string, style: Style)
    requires NoEscape(timestamp) && NoEscape(newline)
    ensures var line := Render(DoLayout(Formatter(true, false), Event("INFO", callerData, Some("Test message"), Some([])),
                                        timestamp, newline), style);
            && line == timestamp + " INFO \U{25B6} Test message" + newline
            && Contains(line, "INFO") && Contains(line, "Test message") && Contains(line, "\U{25B6}")
            && NoEscape(line)
  {
    TestMessagePieces(callerData, timestamp, newline, style);
    TestMessageLiterals(timestamp, newline);
    MessageLineFacts(timestamp, "INFO", "Test message", newline);
  }

  // ----- encoder framing ----------------------------------------------------

  /** `headerBytes()`: nothing is written before the first line. */
  function HeaderBytes(f: Formatter): (r: seq<Utf8.Byte>)
    ensures |r| == 0
  {
    []
  }

  /** `footerBytes()`: nothing is written after the last line. */
  function FooterBytes(f: Formatter): (r: seq<Utf8.Byte>)
    ensures |r| == 0
  {
    []
  }

  /** `encode`: the rendered line as UTF-8 bytes, which decode back to
      exactly that line. */
  function Encode(f: Formatter, e: Event, timestamp: string, newline: string, style: Style): (r: seq<Utf8.Byte>)
    ensures Utf8.Decode(r) == Some(Render(DoLayout(f, e, timestamp, newline), style))
    ensures |Render(DoLayout(f, e, timestamp, newline), style)| <= |r|
  {
    var line := Render(DoLayout(f, e, timestamp, newline), style);
    Utf8.DecodeEncode(line);
    Utf8.Encode(line)
  }

  /** The lines of a run of events, each with its formatted timestamp. */
  function Lines(f: Formatter, events: seq<(Event, string)>, newline: string, style: Style): string {
    if |events| == 0 then ""
    else Render(DoLayout(f, events[0].0, events[0].1, newline), style) + Lines(f, events[1..], newline, style)
  }

  /** What the encoder writes for a run of events: each event's bytes, one
      after the other. */
  function EncodeAll(f: Formatter, events: seq<(Event, string)>, newline: string, style: Style): seq<Utf8.Byte> {
    if |events| == 0 then []
    else Encode(f, events[0].0, events[0].1, newline, style) + EncodeAll(f, events[1..], newline, style)
  }

  lemma {:induction false} EncodeAllIsEncoding(f: Formatter, events: seq<(Event, string)>, newline: string, style: Style)
    ensures EncodeAll(f, events, newline, style) == Utf8.Encode(Lines(f, events, newline, style))
    decreases |events|
  {
    if |events| > 0 {
      EncodeAllIsEncoding(f, events[1..], newline, style);
      Utf8.EncodeAppend(Render(DoLayout(f, events[0].0, events[0].1, newline), style),
                        Lines(f, events[1..], newline, style));
    }
  }

  /** A whole stream, header and footer included, decodes to the event
      lines one after the other: the framing adds and loses nothing. */
  lemma StreamDecodes(f: Formatter, events: seq<(Event, string)>, newline: string, style: Style)
    ensures Utf8.Decode(HeaderBytes(f) + EncodeAll(f, events, newline, style) + FooterBytes(f))
            == Some(Lines(f, events, newline, style))
  {
    EncodeAllIsEncoding(f, events, newline, style);
    Utf8.DecodeEncode(Lines(f, events, newline, style));
    assert HeaderBytes(f) + EncodeAll(f, events, newline, style) + FooterBytes(f) == EncodeAll(f, events, newline, style);
  }
}
