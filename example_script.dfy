/**
 * The template script: `validateInputs`, `processData`, `main` and the
 * command line. `main` converts its second argument with `Number`, so that
 * conversion is modelled on the text: surrounding white space, the empty
 * text, `Infinity`, binary/octal/hexadecimal literals and decimal literals
 * with fraction and exponent. Values are exact reals; rounding to a double is
 * not modelled.
 *
 * `processData`'s timer only delays the result. Rendering a number back to
 * text (`${param2}`) is a parameter.
 */
module ExampleScript {
  import opened Wrappers
  import opened Strings

  // ---------------------------------------------------------------------------
  // Number(text)

  datatype JsNumber = NaN | Finite(r: real) | Infinite(negative: bool)

  function Pow10(n: nat): (p: nat)
    ensures p >= 1
  {
    if n == 0 then 1 else 10 * Pow10(n - 1)
  }

  /** `v` times ten to the `e`. */
  function Scale(v: real, e: int): real {
    if e >= 0 then v * Pow10(e) as real else v / Pow10(-e) as real
  }

  /** An optional sign and a non-empty run of digits, the whole of `s`: an exponent's value. */
  function ExponentValue(s: string): Option<int> {
    var neg := |s| > 0 && s[0] == '-';
    var u := if |s| > 0 && (s[0] == '-' || s[0] == '+') then s[1..] else s;
    if |u| > 0 && DigitRun(u) == |u| then
      var m: int := DecimalValue(u);
      Some(if neg then -m else m)
    else None
  }

  /**
   * A StrUnsignedDecimalLiteral that is the whole of `u`: digits, an optional
   * fraction, at least one digit in all, and an optional exponent.
   */
  function UnsignedDecimal(u: string): Option<real> {
    var i := DigitRun(u);
    var rest := u[i..];
    var f := if |rest| > 0 && rest[0] == '.' then DigitRun(rest[1..]) else 0;
    var afterFraction := if |rest| > 0 && rest[0] == '.' then rest[1 + f..] else rest;
    if i + f == 0 then None
    else
      var mantissa := DecimalValue(u[..i]) as real
        + (if f == 0 then 0.0 else DecimalValue(rest[1..][..f]) as real / Pow10(f) as real);
      if afterFraction == [] then Some(mantissa)
      else if afterFraction[0] == 'e' || afterFraction[0] == 'E' then
        match ExponentValue(afterFraction[1..])
        case None => None
        case Some(e) => Some(Scale(mantissa, e))
      else None
  }

  /** A non-empty run of base-`radix` digits that is the whole of `digits`. */
  function NonDecimal(digits: string, radix: nat): JsNumber {
    if |digits| > 0 && RadixRun(digits, radix) == |digits| then Finite(RadixValue(digits, radix) as real)
    else NaN
  }

  predicate IsRadixPrefix(t: string) {
    |t| >= 2 && t[0] == '0' && t[1] in "xXoObB"
  }

  function Radix(c: char): nat {
    if c == 'x' || c == 'X' then 16 else if c == 'o' || c == 'O' then 8 else 2
  }

  /** `Number(s)` for a string `s`: ToNumber applied to a String. */
  function StringToNumber(s: string): JsNumber {
    var t := Trim(s);
    if t == [] then Finite(0.0)
    else if IsRadixPrefix(t) then NonDecimal(t[2..], Radix(t[1]))
    else
      var neg := t[0] == '-';
      var u := if t[0] == '-' || t[0] == '+' then t[1..] else t;
      if u == "Infinity" then Infinite(neg)
      else match UnsignedDecimal(u)
        case None => NaN
        case Some(v) => Finite(if neg then -v else v)
  }

  lemma TrimOfDigits(d: string)
    requires |d| >= 1 && forall i :: 0 <= i < |d| ==> IsDigit(d[i])
    ensures Trim(d) == d
  {
    assert LeadingWs(d) == 0;
    assert TrailingWs(d[0..]) == 0 by {
      assert d[0..] == d;
    }
    assert d[0..|d|] == d;
  }

  /** A natural number written in decimal converts to itself. */
  lemma NumberOfDecimal(n: nat)
    ensures StringToNumber(NatToDecimal(n)) == Finite(n as real)
  {
    var d := NatToDecimal(n);
    TrimOfDigits(d);
    assert !IsRadixPrefix(d) by {
      if |d| >= 2 {
        assert d[0] != '0';
      }
    }
    assert d[0] != '-' && d[0] != '+' && d != "Infinity";
    UnsignedDecimalOfDigits(d);
    DecimalRoundTrip(n);
  }

  /** A run of digits alone is an unsigned decimal literal with its decimal value. */
  lemma UnsignedDecimalOfDigits(d: string)
    requires |d| >= 1 && forall i :: 0 <= i < |d| ==> IsDigit(d[i])
    ensures UnsignedDecimal(d) == Some(DecimalValue(d) as real)
  {
    assert DigitRun(d) == |d|;
    assert d[..|d|] == d && d[|d|..] == [];
  }

  /** Text of white space only, the empty text included, converts to 0. */
  lemma BlankIsZero(s: string)
    requires forall i :: 0 <= i < |s| ==> IsJsWhitespace(s[i])
    ensures StringToNumber(s) == Finite(0.0)
  {
  }

  // ---------------------------------------------------------------------------
  // Validation

  /** The JavaScript values `main` may receive as its first argument. */
  datatype JsValue = Undefined | Null | Bool(b: bool) | Number(n: JsNumber) | Str(s: string) | Object

  const Param1Error := "param1 deve essere una stringa non vuota"
  const Param2Error := "param2 deve essere un numero valido"

  /** `!param1 || typeof param1 !== 'string'`: anything but a non-empty string. */
  predicate BadParam1(v: JsValue) {
    !(v.Str? && v.s != "")
  }

  /** `!param2 || isNaN(param2)` on a number: zero (of either sign) or NaN. */
  predicate BadParam2(n: JsNumber) {
    n == NaN || n == Finite(0.0)
  }

  /** The errors `validateInputs` reports, param1's before param2's. */
  function ValidationErrors(param1: JsValue, param2: JsNumber): (errors: seq<string>)
    ensures Param1Error in errors <==> BadParam1(param1)
    ensures Param2Error in errors <==> BadParam2(param2)
    ensures |errors| <= 2
    ensures |errors| == 2 ==> errors == [Param1Error, Param2Error]
  {
    (if BadParam1(param1) then [Param1Error] else [])
    + (if BadParam2(param2) then [Param2Error] else [])
  }

  /** `validateInputs`: the `errors` list built by two `push`es; valid exactly when it stays empty. */
  method ValidateInputs(param1: JsValue, param2: JsNumber) returns (valid: bool, errors: seq<string>)
    ensures errors == ValidationErrors(param1, param2)
    ensures valid <==> !BadParam1(param1) && !BadParam2(param2)
  {
    errors := [];
    if param1.Undefined? || param1.Null? || (param1.Str? && param1.s == "") || !param1.Str? {
      errors := errors + [Param1Error];
    }
    if param2.NaN? || param2 == Finite(0.0) {
      errors := errors + [Param2Error];
    }
    valid := |errors| == 0;
  }

  /** The `"0"` and empty second arguments are rejected: `Number` turns both into 0. */
  lemma ZeroAndEmptyRejected(param1: JsValue)
    ensures Param2Error in ValidationErrors(param1, StringToNumber("0"))
    ensures Param2Error in ValidationErrors(param1, StringToNumber(""))
  {
    NumberOfDecimal(0);
    assert NatToDecimal(0) == "0";
    BlankIsZero("");
  }

  /** A positive whole number in decimal is accepted as the second argument. */
  lemma PositiveDecimalAccepted(param1: JsValue, n: nat)
    requires n > 0
    ensures Param2Error !in ValidationErrors(param1, StringToNumber(NatToDecimal(n)))
  {
    NumberOfDecimal(n);
  }

  // ---------------------------------------------------------------------------
  // main

  const ValidationFailed := "Errori di validazione"

  /** `processData`'s result for the two inputs. */
  datatype Processed = Processed(input1: string, input2: JsNumber, result: string)

  datatype Outcome =
    | Invalid(error: string, details: seq<string>)
    | Succeeded(data: Processed)

  /**
   * The result text, with the number rendered as `${param2}` renders it: the
   * fixed prefix with the first input, then the rendered number and nothing
   * else.
   */
  function ResultText(p1: string, rendered: string): (t: string)
    ensures StartsWith(t, "Elaborato: " + p1 + " con valore ")
    ensures EndsWith(t, rendered)
    ensures |t| == |"Elaborato: "| + |p1| + |" con valore "| + |rendered|
  {
    var t := "Elaborato: " + p1 + " con valore " + rendered;
    assert t[..|"Elaborato: " + p1 + " con valore "|] == "Elaborato: " + p1 + " con valore ";
    assert t[|t| - |rendered|..] == rendered;
    t
  }

  /**
   * `main`: convert the second argument with `Number`, validate, and either
   * fail with the errors as details or succeed with the processed data.
   */
  function Main(param1: JsValue, param2: Option<string>, render: JsNumber -> string): (o: Outcome)
    ensures var n := if param2.Some? then StringToNumber(param2.value) else NaN;
      (o.Invalid? <==> ValidationErrors(param1, n) != [])
      && (o.Invalid? ==> o.error == ValidationFailed && o.details == ValidationErrors(param1, n))
      && (o.Succeeded? ==>
            (param1.Str? && o.data.input1 == param1.s && o.data.input2 == n
             && o.data.result == ResultText(param1.s, render(n))))
  {
    var n := if param2.Some? then StringToNumber(param2.value) else NaN;
    var errors := ValidationErrors(param1, n);
    if errors != [] then Invalid(ValidationFailed, errors)
    else Succeeded(Processed(param1.s, n, ResultText(param1.s, render(n))))
  }

  /**
   * The command line: without two non-empty arguments the usage is printed and
   * the exit code is 1; otherwise `main` runs and the exit code is 0 exactly
   * on success.
   */
  function Cli(args: seq<string>, render: JsNumber -> string): (exitCode: nat)
    ensures exitCode == 0 <==>
      (|args| >= 2 && args[0] != "" && args[1] != "" && Main(Str(args[0]), Some(args[1]), render).Succeeded?)
  {
    if |args| < 2 || args[0] == "" || args[1] == "" then 1
    else if Main(Str(args[0]), Some(args[1]), render).Succeeded? then 0
    else 1
  }

  /** From the command line, a non-empty first argument always passes; only the second can fail. */
  lemma CliFailsOnlyOnNumber(args: seq<string>, render: JsNumber -> string)
    requires |args| >= 2 && args[0] != "" && args[1] != ""
    ensures Cli(args, render) == 0 <==> !BadParam2(StringToNumber(args[1]))
  {
  }
}
