/** The three exceptions the library throws, and the messages they carry.
    Each message is a fixed prefix followed by the offending value; the
    prefixes start with different letters, so a message also tells which
    exception produced it and what the offending value was. */
module ClojogExceptions {
  import opened Wrappers
  import opened Strings

  /** What the backend reported when it could not parse a level; it rides
      along as the Java exception's cause and never enters the message. */
  datatype Cause = IllegalArgument(input: string)

  datatype ClojogError =
    | InvalidLogLevel(level: string, cause: Option<Cause>)
    | UnsupportedLogOutput(output: string)
    | NotImplemented(feature: string)

  datatype Kind = InvalidLevelKind | UnsupportedOutputKind | NotImplementedKind

  const InvalidLevelPrefix: string := "Could not set configured log level: "
  const UnsupportedOutputPrefix: string := "Unsupported log output: "
  const NotImplementedPrefix: string := "Not yet implemented: "

  function KindOf(e: ClojogError): Kind {
    match e
    case InvalidLogLevel(_, _) => InvalidLevelKind
    case UnsupportedLogOutput(_) => UnsupportedOutputKind
    case NotImplemented(_) => NotImplementedKind
  }

  /** The value the caller supplied that the exception complains about. */
  function Detail(e: ClojogError): string {
    match e
    case InvalidLogLevel(level, _) => level
    case UnsupportedLogOutput(output) => output
    case NotImplemented(feature) => feature
  }

  function Prefix(k: Kind): string {
    match k
    case InvalidLevelKind => InvalidLevelPrefix
    case UnsupportedOutputKind => UnsupportedOutputPrefix
    case NotImplementedKind => NotImplementedPrefix
  }

  /** `getMessage()`: the prefix of the exception's kind, then its detail.
      The message keeps the detail verbatim and can be read back. */
  function GetMessage(e: ClojogError): (r: string)
    ensures Contains(r, Detail(e))
    ensures ParseMessage(r) == Some((KindOf(e), Detail(e)))
  {
    var r := Prefix(KindOf(e)) + Detail(e);
    ContainsInfix(Prefix(KindOf(e)), Detail(e), "");
    assert Prefix(KindOf(e)) + Detail(e) + "" == r;
    ParsePrefixed(KindOf(e), Detail(e));
    r
  }

  lemma ParsePrefixed(k: Kind, d: string)
    ensures ParseMessage(Prefix(k) + d) == Some((k, d))
  {
    var m := Prefix(k) + d;
    assert m[..|Prefix(k)|] == Prefix(k);
    assert m[|Prefix(k)|..] == d;
    assert m[0] == Prefix(k)[0];
    if k != InvalidLevelKind {
      assert InvalidLevelPrefix[0] != m[0];
    }
    if k == NotImplementedKind {
      assert UnsupportedOutputPrefix[0] != m[0];
    }
  }

  /** Recovers the kind and the detail from a message, or None when the
      message has none of the three prefixes. */
  function ParseMessage(m: string): Option<(Kind, string)> {
    if InvalidLevelPrefix <= m then Some((InvalidLevelKind, m[|InvalidLevelPrefix|..]))
    else if UnsupportedOutputPrefix <= m then Some((UnsupportedOutputKind, m[|UnsupportedOutputPrefix|..]))
    else if NotImplementedPrefix <= m then Some((NotImplementedKind, m[|NotImplementedPrefix|..]))
    else None
  }

  /** `new InvalidLogLevelException(message)`. */
  function InvalidLogLevelException(message: string): (r: ClojogError)
    ensures InvalidLevelPrefix <= GetMessage(r)
    ensures GetMessage(r)[|InvalidLevelPrefix|..] == message
    ensures r.InvalidLogLevel? && r.cause == None
  {
    InvalidLogLevel(message, None)
  }

  /** `new InvalidLogLevelException(message, cause)`: same message as the
      one-argument form, with the cause kept beside it. */
  function InvalidLogLevelExceptionWithCause(message: string, cause: Cause): (r: ClojogError)
    ensures GetMessage(r) == GetMessage(InvalidLogLevelException(message))
    ensures r.InvalidLogLevel? && r.cause == Some(cause)
  {
    InvalidLogLevel(message, Some(cause))
  }

  /** `new UnsupportedLogOutputException(output)`. */
  function UnsupportedLogOutputException(output: string): (r: ClojogError)
    ensures UnsupportedOutputPrefix <= GetMessage(r)
    ensures GetMessage(r)[|UnsupportedOutputPrefix|..] == output
  {
    UnsupportedLogOutput(output)
  }

  /** `new NotImplementedException(feature)`. */
  function NotImplementedException(feature: string): (r: ClojogError)
    ensures NotImplementedPrefix <= GetMessage(r)
    ensures GetMessage(r)[|NotImplementedPrefix|..] == feature
  {
    NotImplemented(feature)
  }

  /** Different exceptions never share a message, except two invalid-level
      exceptions that differ only in their cause. */
  lemma MessageDeterminesError(e1: ClojogError, e2: ClojogError)
    requires GetMessage(e1) == GetMessage(e2)
    ensures KindOf(e1) == KindOf(e2) && Detail(e1) == Detail(e2)
  {
    assert ParseMessage(GetMessage(e1)) == ParseMessage(GetMessage(e2));
  }
}
