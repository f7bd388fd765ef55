/** How Python turns values into text: `str` of an int, `repr` of a str,
    and the comma-separated joins used by tuple, list and dict reprs.
    These are what the bot's f-strings and `str(error)` produce. */
module PyText {

  /** `sep.join(parts)`. */
  function Join(sep: string, parts: seq<string>): (r: string)
  {
    if |parts| == 0 then ""
    else if |parts| == 1 then parts[0]
    else parts[0] + sep + Join(sep, parts[1..])
  }

  function DigitChar(d: nat): (c: char)
    requires d < 10
    ensures '0' <= c <= '9'
  {
    "0123456789"[d]
  }

  function DigitValue(c: char): (r: nat)
  {
    if '0' <= c <= '9' then (c as int - '0' as int) as nat else 0
  }

  /** Decimal digits of a natural number, most significant first. */
  function Digits(n: nat): (s: string)
    ensures |s| >= 1
    ensures forall k :: 0 <= k < |s| ==> '0' <= s[k] <= '9'
  {
    if n < 10 then [DigitChar(n)] else Digits(n / 10) + [DigitChar(n % 10)]
  }

  /** Reads a string of decimal digits back as a number. */
  function DigitsValue(s: string): (r: nat)
  {
    if |s| == 0 then 0 else 10 * DigitsValue(s[..|s| - 1]) + DigitValue(s[|s| - 1])
  }

  lemma {:induction false} DigitsRoundTrip(n: nat)
    ensures DigitsValue(Digits(n)) == n
  {
    var s := Digits(n);
    if n < 10 {
      assert s[..|s| - 1] == [];
    } else {
      assert s[..|s| - 1] == Digits(n / 10);
      DigitsRoundTrip(n / 10);
    }
  }

  /** `str(i)` for a Python int. */
  function IntText(i: int): (s: string)
    ensures |s| >= 1
  {
    if i < 0 then "-" + Digits(-i) else Digits(i)
  }

  /** `str` of an int determines the int: a leading minus sign exactly for
      negatives, then the digits of the magnitude. */
  lemma IntTextInjective(a: int, b: int)
    requires IntText(a) == IntText(b)
    ensures a == b
  {
    LeadingMinus(a);
    LeadingMinus(b);
    if a < 0 {
      var m: nat, n: nat := -a, -b;
      DropSign(Digits(m));
      DropSign(Digits(n));
      DigitsInjective(m, n);
    } else {
      DigitsInjective(a, b);
    }
  }

  lemma DigitsInjective(m: nat, n: nat)
    requires Digits(m) == Digits(n)
    ensures m == n
  {
    DigitsRoundTrip(m);
    DigitsRoundTrip(n);
  }

  lemma LeadingMinus(i: int)
    ensures (IntText(i)[0] == '-') <==> i < 0
  {
  }

  lemma DropSign(d: string)
    ensures ("-" + d)[1..] == d
  {
  }

  /** The escape `repr` writes for one character inside quotes `q`. */
  function EscapeChar(c: char, q: char): (r: string)
    ensures |r| >= 1
  {
    if c == '\\' then "\\\\"
    else if c == q then ['\\', q]
    else if c == '\n' then "\\n"
    else if c == '\r' then "\\r"
    else if c == '\t' then "\\t"
    else [c]
  }

  function Escape(s: string, q: char): (r: string)
  {
    if |s| == 0 then "" else EscapeChar(s[0], q) + Escape(s[1..], q)
  }

  /** Undoes `Escape`: the reading of a Python string literal's body. */
  function Unescape(s: string): (r: string)
  {
    if |s| == 0 then ""
    else if s[0] == '\\' && |s| >= 2 then [EscapedChar(s[1])] + Unescape(s[2..])
    else [s[0]] + Unescape(s[1..])
  }

  function EscapedChar(c: char): (r: char)
  {
    if c == 'n' then '\n' else if c == 'r' then '\r' else if c == 't' then '\t' else c
  }

  lemma {:induction false} UnescapeEscape(s: string, q: char)
    requires q == '\'' || q == '"'
    ensures Unescape(Escape(s, q)) == s
  {
    if |s| > 0 {
      var e := EscapeChar(s[0], q);
      var rest := Escape(s[1..], q);
      assert Escape(s, q) == e + rest;
      UnescapeEscape(s[1..], q);
      if |e| == 1 {
        assert (e + rest)[0] == s[0] && (e + rest)[1..] == rest;
      } else {
        assert (e + rest)[0] == '\\' && (e + rest)[1] == e[1] && (e + rest)[2..] == rest;
      }
    }
  }

  /** The quote `repr` chooses: double quotes only when the text holds a
      single quote and no double quote. */
  function QuoteFor(s: string): (r: char)
  {
    if '\'' in s && '"' !in s then '"' else '\''
  }

  /** `repr(s)` for a Python str (non-printable characters other than
      newline, carriage return and tab are not escaped here). */
  function QuoteRepr(s: string): (r: string)
    ensures |r| >= 2 && r[0] == r[|r| - 1] == QuoteFor(s)
  {
    var q := QuoteFor(s);
    [q] + Escape(s, q) + [q]
  }

  lemma QuoteReprInjective(a: string, b: string)
    requires QuoteRepr(a) == QuoteRepr(b)
    ensures a == b
  {
    var q := QuoteFor(a);
    var r := QuoteRepr(a);
    assert QuoteFor(b) == q;
    assert Escape(a, q) == r[1..|r| - 1] == Escape(b, q);
    UnescapeEscape(a, q);
    UnescapeEscape(b, q);
  }

  lemma JoinPair(sep: string, x: string, y: string)
    ensures Join(sep, [x, y]) == x + sep + y
  {
    assert [x, y][1..] == [y];
  }

  lemma JoinTriple(sep: string, x: string, y: string, z: string)
    ensures Join(sep, [x, y, z]) == x + sep + y + sep + z
  {
    assert [x, y, z][1..] == [y, z];
    JoinPair(sep, y, z);
  }

  /** A pair whose second item is a triple, written out. */
  lemma NestedTupleText(h: string, x: string, y: string, z: string)
    ensures TupleText([h, TupleText([x, y, z])]) == "(" + h + ", (" + x + ", " + y + ", " + z + "))"
  {
    JoinTriple(", ", x, y, z);
    JoinPair(", ", h, TupleText([x, y, z]));
  }

  /** Equal texts with the same frame have the same middle part. */
  lemma SameMiddle(p: string, x: string, y: string, q: string)
    requires p + x + q == p + y + q
    ensures x == y
  {
    assert |x| == |y|;
    assert x == (p + x + q)[|p|..|p| + |x|];
    assert y == (p + y + q)[|p|..|p| + |y|];
  }

  /** `repr` of a tuple whose items are already rendered. */
  function TupleText(items: seq<string>): (r: string)
    requires |items| >= 2
    ensures |r| >= 2 && r[0] == '(' && r[|r| - 1] == ')'
  {
    "(" + Join(", ", items) + ")"
  }
}
