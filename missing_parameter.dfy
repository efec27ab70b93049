/**
 * MissingParameterException: its message is a fixed template with the
 * offending parameter substituted by `String.format`.
 */
module MissingParameter {
  import opened Wrappers
  import opened Failures
  import opened Http
  import ExceptionMapper

  const ErrorMessageTemplate: string := "The request sent by the client is faulty: '%s'."

  /** The template's text before and after its one `%s`. */
  const Prefix: string := "The request sent by the client is faulty: '"
  const Suffix: string := "'."

  /** Puts `c` in front of a formatted text; a formatting error stays one. */
  function Cons(c: char, rest: Option<string>): Option<string>
  {
    match rest
    case None => None
    case Some(s) => Some([c] + s)
  }

  /**
   * `String.format` with a single argument, from a position in the template:
   * `%s` takes the argument (a second `%s` finds none left and fails), `%%`
   * is a literal percent sign, and any other `%` sequence fails; other
   * characters are copied.
   */
  function FormatFrom(template: string, arg: string, used: bool): Option<string>
    decreases |template|
  {
    if template == [] then Some([])
    else if template[0] != '%' then Cons(template[0], FormatFrom(template[1..], arg, used))
    else if |template| >= 2 && template[1] == 's' && !used then
      match FormatFrom(template[2..], arg, true)
      case None => None
      case Some(s) => Some(arg + s)
    else if |template| >= 2 && template[1] == '%' then Cons('%', FormatFrom(template[2..], arg, used))
    else None
  }

  function Format(template: string, arg: string): Option<string>
  {
    FormatFrom(template, arg, false)
  }

  /** Text without a `%` is copied through unchanged. */
  lemma {:induction false} FormatLiteral(a: string, b: string, arg: string, used: bool)
    requires '%' !in a
    ensures FormatFrom(a + b, arg, used) ==
      match FormatFrom(b, arg, used)
      case None => None
      case Some(s) => Some(a + s)
  {
    if a != [] {
      assert (a + b)[0] == a[0];
      assert (a + b)[1..] == a[1..] + b;
      FormatLiteral(a[1..], b, arg, used);
      assert [a[0]] + a[1..] == a;
      match FormatFrom(b, arg, used)
      case None =>
      case Some(s) =>
        assert [a[0]] + (a[1..] + s) == a + s;
    } else {
      assert a + b == b;
      match FormatFrom(b, arg, used)
      case None =>
      case Some(s) =>
        assert a + s == s;
    }
  }

  /** Formatting the template puts `param` between the fixed prefix and suffix. */
  lemma FormatTemplate(param: string)
    ensures Format(ErrorMessageTemplate, param) == Some(Prefix + param + Suffix)
  {
    assert ErrorMessageTemplate == Prefix + ("%s" + Suffix);
    assert '%' !in Prefix;
    assert '%' !in Suffix;
    FormatLiteral(Suffix, [], param, true);
    assert Suffix + [] == Suffix;
    assert FormatFrom(Suffix, param, true) == Some(Suffix);
    assert FormatFrom("%s" + Suffix, param, false) == Some(param + Suffix);
    FormatLiteral(Prefix, "%s" + Suffix, param, false);
    assert Prefix + (param + Suffix) == Prefix + param + Suffix;
  }

  /**
   * The message `new MissingParameterException(param)` carries: the fixed
   * prefix, `param` unchanged, the fixed suffix.
   */
  function ErrorMessage(param: string): (m: string)
    ensures m == Prefix + param + Suffix
    ensures |m| == |ErrorMessageTemplate| - 2 + |param|
    ensures m[..|Prefix|] == Prefix && m[|m| - |Suffix|..] == Suffix
    ensures m[|Prefix|..|Prefix| + |param|] == param
  {
    FormatTemplate(param);
    Format(ErrorMessageTemplate, param).value
  }

  /** The exception itself, as the mapper sees it. */
  function MissingParameterFailure(param: string): (f: Thrown)
    ensures f.cls == MissingParameterException
    ensures f.detail == Prefix + param + Suffix
  {
    Raised(MissingParameterException, ErrorMessage(param))
  }

  /** A missing parameter reaches the client as 400 without its message. */
  lemma MissingParameterIsBadRequest(param: string)
    ensures ExceptionMapper.Handle(MissingParameterFailure(param)) == Response(BadRequest, None)
  {
  }

  /** Recovers the parameter from a message, if it has the template's shape. */
  function ParameterOf(m: string): (p: Option<string>)
    ensures p.Some? ==> ErrorMessage(p.value) == m
  {
    if |m| >= |Prefix| + |Suffix| && m[..|Prefix|] == Prefix && m[|m| - |Suffix|..] == Suffix then
      var p := m[|Prefix|..|m| - |Suffix|];
      assert m == m[..|Prefix|] + p + m[|m| - |Suffix|..];
      Some(p)
    else None
  }

  /** The message keeps the parameter recoverable: reading it back gives `param`. */
  lemma ParameterRoundTrip(param: string)
    ensures ParameterOf(ErrorMessage(param)) == Some(param)
  {
  }

  /** Distinct parameters give distinct messages. */
  lemma ErrorMessageInjective(p: string, q: string)
    ensures ErrorMessage(p) == ErrorMessage(q) <==> p == q
  {
    ParameterRoundTrip(p);
    ParameterRoundTrip(q);
  }
}
