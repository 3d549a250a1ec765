/** The few pieces of Python semantics that the model classes rely on:
    optional values (a nullable model field), truthiness of such a value,
    the `x or None` idiom, and `%` string formatting restricted to `%s`. */
module Python {

  /** A nullable value: `None` is Python's None. */
  datatype Option<+T> = None | Some(value: T)

  /** The outcome of an operation that may raise. */
  datatype Result<+T, +E> = Ok(value: T) | Err(error: E)

  /** Python truthiness of a nullable string field: None and "" are false,
      every other string is true. */
  predicate Truthy(s: Option<string>) {
    s.Some? && s.value != ""
  }

  /** `s or None`: keeps a truthy value, turns a falsy one into None, so that an
      empty string is never stored. */
  function OrNone(s: Option<string>): (r: Option<string>)
    ensures r.None? || r.value != ""
    ensures Truthy(s) ==> r == s
    ensures Truthy(r) <==> Truthy(s)
  {
    if Truthy(s) then s else None
  }

  /** Normalising twice is normalising once. */
  lemma OrNoneIdempotent(s: Option<string>)
    ensures OrNone(OrNone(s)) == OrNone(s)
  {
  }

  // ---------------------------------------------------------------------
  // `template % args`, for templates whose only conversion is `%s` and whose
  // arguments are already strings (str of a str is the string itself).

  datatype FormatError =
    | NotEnoughArguments        // TypeError: not enough arguments for format string
    | NotAllArgumentsConverted  // TypeError: not all arguments converted during string formatting
    | UnsupportedConversion     // a `%` not followed by `s`; other conversions are not modelled

  /** The number of `%s` conversions in a template, or None when the template
      holds a `%` that does not start a `%s`. */
  function Conversions(template: string): (n: Option<nat>)
    decreases |template|
  {
    if template == [] then Some(0)
    else if template[0] != '%' then Conversions(template[1..])
    else if |template| >= 2 && template[1] == 's' then
      match Conversions(template[2..])
      case Some(k) => Some(k + 1)
      case None => None
    else None
  }

  /** `template % tuple(args)`: each `%s` in turn is replaced by the next
      argument, left to right; a conversion with no argument left, or an
      argument left over at the end, raises. */
  function Format(template: string, args: seq<string>): (r: Result<string, FormatError>)
    ensures r.Ok? <==> Conversions(template) == Some(|args|)
    decreases |template|
  {
    if template == [] then
      if args == [] then Ok("") else Err(NotAllArgumentsConverted)
    else if template[0] != '%' then
      match Format(template[1..], args)
      case Ok(s) => Ok([template[0]] + s)
      case Err(e) => Err(e)
    else if |template| >= 2 && template[1] == 's' then
      if args == [] then Err(NotEnoughArguments)
      else
        match Format(template[2..], args[1..])
        case Ok(s) => Ok(args[0] + s)
        case Err(e) => Err(e)
    else Err(UnsupportedConversion)
  }

  /** A template without `%` formats to itself when given no arguments. */
  lemma {:induction false} FormatLiteral(lit: string)
    requires '%' !in lit
    ensures Format(lit, []) == Ok(lit)
    decreases |lit|
  {
    if lit != [] {
      assert lit[0] in lit;
      assert forall c :: c in lit[1..] ==> c in lit;
      FormatLiteral(lit[1..]);
      assert [lit[0]] + lit[1..] == lit;
    }
  }

  /** The first `%s` after a `%`-free prefix takes the first argument, and the
      rest of the template is formatted with the remaining arguments. */
  lemma {:induction false} FormatSplice(lit: string, rest: string, a: string, args: seq<string>)
    requires '%' !in lit
    ensures Format(lit + "%s" + rest, [a] + args) ==
            match Format(rest, args)
            case Ok(s) => Ok(lit + a + s)
            case Err(e) => Err(e)
    decreases |lit|
  {
    var t := lit + "%s" + rest;
    if lit == [] {
      assert t[0] == '%' && t[1] == 's' && t[2..] == rest;
      assert ([a] + args)[0] == a && ([a] + args)[1..] == args;
      match Format(rest, args)
      case Ok(s) =>
        assert lit + a + s == a + s;
      case Err(e) =>
    } else {
      assert lit[0] in lit;
      assert forall c :: c in lit[1..] ==> c in lit;
      assert t[0] == lit[0] && t[1..] == lit[1..] + "%s" + rest;
      FormatSplice(lit[1..], rest, a, args);
      assert [lit[0]] + (lit[1..] + a) == lit + a;
      match Format(rest, args)
      case Ok(s) =>
        assert [lit[0]] + (lit[1..] + a + s) == lit + a + s;
      case Err(e) =>
    }
  }

  /** `(prefix + "%s" + suffix) % (a,)`, with `%`-free literal parts. */
  lemma FormatOne(prefix: string, suffix: string, a: string)
    requires '%' !in prefix && '%' !in suffix
    ensures Format(prefix + "%s" + suffix, [a]) == Ok(prefix + a + suffix)
  {
    FormatLiteral(suffix);
    FormatSplice(prefix, suffix, a, []);
    assert [a] + [] == [a];
  }

  /** `(prefix + "%s" + middle + "%s" + suffix) % (a, b)`, with `%`-free literal parts. */
  lemma FormatTwo(prefix: string, middle: string, suffix: string, a: string, b: string)
    requires '%' !in prefix && '%' !in middle && '%' !in suffix
    ensures Format(prefix + "%s" + middle + "%s" + suffix, [a, b]) == Ok(prefix + a + middle + b + suffix)
  {
    FormatOne(middle, suffix, b);
    FormatSplice(prefix, middle + "%s" + suffix, a, [b]);
    assert [a] + [b] == [a, b];
    assert prefix + "%s" + (middle + "%s" + suffix) == prefix + "%s" + middle + "%s" + suffix;
    assert prefix + a + (middle + b + suffix) == prefix + a + middle + b + suffix;
  }
}
