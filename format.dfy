/** The parts of Go's `fmt` formatting that the program relies on. */
module Format {

  /** `fmt.Sprintf` restricted to the `%s` and `%%` verbs: each `%s`
      consumes the next argument, a `%s` without an argument renders as
      `%!s(MISSING)`, a lone trailing `%` as `%!(NOVERB)`, and arguments left
      over are reported as `%!(EXTRA string=…, …)`. */
  function Sprintf(template: string, args: seq<string>): string
    decreases |template|
  {
    if template == [] then
      (if args == [] then "" else "%!(EXTRA " + ExtraList(args) + ")")
    else if template[0] != '%' then
      [template[0]] + Sprintf(template[1..], args)
    else if |template| == 1 then
      "%!(NOVERB)" + Sprintf(template[1..], args)
    else if template[1] == '%' then
      "%" + Sprintf(template[2..], args)
    else if template[1] == 's' then
      if args == [] then "%!s(MISSING)" + Sprintf(template[2..], args)
      else args[0] + Sprintf(template[2..], args[1..])
    else
      template[..2] + Sprintf(template[2..], args)
  }

  function ExtraList(args: seq<string>): string
    requires args != []
  {
    if |args| == 1 then "string=" + args[0]
    else "string=" + args[0] + ", " + ExtraList(args[1..])
  }

  /** Formatting text without a `%` reproduces the text after the arguments
      are used up. */
  lemma {:induction false} SprintfLiteralPrefix(p: string, rest: string, args: seq<string>)
    requires forall i :: 0 <= i < |p| ==> p[i] != '%'
    ensures Sprintf(p + rest, args) == p + Sprintf(rest, args)
  {
    if p != [] {
      var t := p + rest;
      assert t != [] && t[0] == p[0] && t[0] != '%';
      assert t[1..] == p[1..] + rest;
      assert Sprintf(t, args) == [p[0]] + Sprintf(p[1..] + rest, args);
      SprintfLiteralPrefix(p[1..], rest, args);
      assert p == [p[0]] + p[1..];
    } else {
      assert p + rest == rest;
    }
  }

  /** A `%s` consumes the first argument. */
  lemma SprintfVerbS(q: string, args: seq<string>)
    requires args != []
    ensures Sprintf("%s" + q, args) == args[0] + Sprintf(q, args[1..])
  {
    var t := "%s" + q;
    assert t[0] == '%' && t[1] == 's' && t[2..] == q;
  }

  /** A template with a single `%s` between two literal parts, given
      exactly one argument, puts the argument between the two parts. */
  lemma SprintfOneString(p: string, q: string, a: string)
    requires forall i :: 0 <= i < |p| ==> p[i] != '%'
    requires forall i :: 0 <= i < |q| ==> q[i] != '%'
    ensures Sprintf(p + "%s" + q, [a]) == p + a + q
  {
    assert p + "%s" + q == p + ("%s" + q);
    SprintfLiteralPrefix(p, "%s" + q, [a]);
    SprintfVerbS(q, [a]);
    assert [a][1..] == [];
    SprintfLiteralPrefix(q, [], []);
    assert q + [] == q;
  }

  /** Go's `%d` rendering of a non-negative integer. */
  function Decimal(n: nat): (s: string)
    ensures |s| > 0
    ensures forall i :: 0 <= i < |s| ==> '0' <= s[i] <= '9'
    ensures s[0] == '0' ==> n == 0
  {
    if n < 10 then [Digit(n)] else Decimal(n / 10) + [Digit(n % 10)]
  }

  function Digit(d: nat): (c: char)
    requires d < 10
    ensures '0' <= c <= '9'
  {
    ('0' as int + d) as char
  }

  /** The value of a string of decimal digits, read most significant first. */
  function DecimalValue(s: string): nat
    requires forall i :: 0 <= i < |s| ==> '0' <= s[i] <= '9'
  {
    if s == [] then 0
    else DecimalValue(s[..|s| - 1]) * 10 + (s[|s| - 1] as int - '0' as int)
  }

  /** Reading back the rendering of `n` gives `n`: `%d` loses nothing. */
  lemma {:induction false} DecimalRoundTrip(n: nat)
    ensures DecimalValue(Decimal(n)) == n
  {
    if n >= 10 {
      var s := Decimal(n);
      assert s[..|s| - 1] == Decimal(n / 10);
      DecimalRoundTrip(n / 10);
    }
  }
}
