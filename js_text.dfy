/**
 * The few JavaScript string operations the contact form relies on:
 * the `\s` character class, `String.prototype.trim`, the global
 * replacement of newlines, and the decimal rendering of a status number.
 */
module JsText {

  /**
   * The ECMAScript WhiteSpace and LineTerminator code points. This is the set
   * a regular expression's `\s` matches and the set `trim` strips.
   */
  predicate IsSpace(c: char)
  {
    || ('\t' <= c <= '\r')  // tab, line feed, vertical tab, form feed, carriage return
    || c == ' ' || c == '\U{00A0}' || c == '\U{1680}'
    || ('\U{2000}' <= c <= '\U{200A}')
    || c == '\U{2028}' || c == '\U{2029}' || c == '\U{202F}' || c == '\U{205F}'
    || c == '\U{3000}' || c == '\U{FEFF}'
  }

  /** Every character of `s` is whitespace (vacuously so for ""). */
  predicate AllSpace(s: string)
  {
    forall k :: 0 <= k < |s| ==> IsSpace(s[k])
  }

  /** The number of whitespace characters `s` starts with. */
  function LeadingSpaces(s: string): (n: nat)
    ensures n <= |s|
    ensures forall k :: 0 <= k < n ==> IsSpace(s[k])
    ensures n < |s| ==> !IsSpace(s[n])
  {
    if s != [] && IsSpace(s[0]) then 1 + LeadingSpaces(s[1..]) else 0
  }

  /** The number of whitespace characters `s` ends with. */
  function TrailingSpaces(s: string): (n: nat)
    ensures n <= |s|
    ensures forall k :: |s| - n <= k < |s| ==> IsSpace(s[k])
    ensures n < |s| ==> !IsSpace(s[|s| - n - 1])
  {
    if s != [] && IsSpace(s[|s| - 1]) then 1 + TrailingSpaces(s[..|s| - 1]) else 0
  }

  /**
   * `s.trim()`: `s` with its leading and trailing whitespace dropped. The
   * result is empty exactly when `s` is all whitespace, and otherwise begins
   * and ends with a non-space; it is the stretch of `s` after the leading
   * whitespace, and only whitespace follows it.
   */
  function Trim(s: string): (r: string)
    ensures |r| <= |s|
    ensures r == [] <==> AllSpace(s)
    ensures r != [] ==> !IsSpace(r[0]) && !IsSpace(r[|r| - 1])
    ensures var m := LeadingSpaces(s);
      && m + |r| <= |s| && AllSpace(s[..m])
      && r == s[m..m + |r|] && AllSpace(s[m + |r|..])
  {
    var t := s[LeadingSpaces(s)..];
    TrimFacts(s, t);
    TrimPlacement(s, t);
    t[..|t| - TrailingSpaces(t)]
  }

  /** The facts behind Trim's contract. */
  lemma TrimFacts(s: string, t: string)
    requires t == s[LeadingSpaces(s)..]
    ensures var r := t[..|t| - TrailingSpaces(t)];
      && (r == [] <==> AllSpace(s))
      && (r != [] ==> !IsSpace(r[0]) && !IsSpace(r[|r| - 1]))
  {
    var m := LeadingSpaces(s);
    var n := TrailingSpaces(t);
    var r := t[..|t| - n];
    if r == [] {
      assert |t| == n;
      assert m == |s|;
    } else {
      assert r[0] == t[0] == s[m];
      assert r[|r| - 1] == t[|t| - n - 1];
    }
  }

  /** Where Trim's result sits in `s`: after the leading whitespace, followed only by whitespace. */
  lemma TrimPlacement(s: string, t: string)
    requires t == s[LeadingSpaces(s)..]
    ensures var r := t[..|t| - TrailingSpaces(t)];
      var m := LeadingSpaces(s);
      && m + |r| <= |s| && AllSpace(s[..m])
      && r == s[m..m + |r|] && AllSpace(s[m + |r|..])
  {
    var m := LeadingSpaces(s);
    var n := TrailingSpaces(t);
    var r := t[..|t| - n];
    assert r == s[m..m + |r|];
    assert s[m + |r|..] == t[|t| - n..];
  }

  /** Trimming twice is trimming once. */
  lemma TrimIdempotent(s: string)
    ensures Trim(Trim(s)) == Trim(s)
  {
    var r := Trim(s);
    if r != [] {
      assert LeadingSpaces(r) == 0;
      assert TrailingSpaces(r) == 0;
      assert r[0..] == r && r[..|r|] == r;
    }
  }

  /** `s.replace(/\n/g, '<br>')`: every line feed becomes `<br>`, every other character is kept. */
  function ReplaceNewlines(s: string): (r: string)
    ensures '\n' !in r
    ensures '\n' !in s ==> r == s
  {
    if s == [] then []
    else
      assert s == [s[0]] + s[1..];
      (if s[0] == '\n' then "<br>" else [s[0]]) + ReplaceNewlines(s[1..])
  }

  /** Each line feed grows the text by three characters. */
  lemma {:induction false} ReplaceNewlinesLength(s: string)
    ensures |ReplaceNewlines(s)| == |s| + 3 * multiset(s)['\n']
  {
    if s != [] {
      assert s == [s[0]] + s[1..];
      ReplaceNewlinesLength(s[1..]);
    }
  }

  /** The replacement works character by character, so it distributes over concatenation. */
  lemma {:induction false} ReplaceNewlinesConcat(a: string, b: string)
    ensures ReplaceNewlines(a + b) == ReplaceNewlines(a) + ReplaceNewlines(b)
  {
    if a == [] {
      assert a + b == b;
    } else {
      assert (a + b)[0] == a[0];
      assert (a + b)[1..] == a[1..] + b;
      ReplaceNewlinesConcat(a[1..], b);
    }
  }

  /** A single line feed between two lines becomes one `<br>`. */
  lemma {:induction false} LineBreakBecomesBr(a: string, b: string)
    requires '\n' !in a && '\n' !in b
    ensures ReplaceNewlines(a + "\n" + b) == a + "<br>" + b
  {
    ReplaceNewlinesConcat(a + "\n", b);
    ReplaceNewlinesConcat(a, "\n");
    assert ReplaceNewlines("\n") == "<br>" by { assert "\n"[1..] == []; }
  }

  /** The digit character for `d`. */
  function DigitChar(d: nat): char
    requires d < 10
  {
    "0123456789"[d]
  }

  /** The numeric value of a digit character. */
  function DigitValue(c: char): nat
    requires '0' <= c <= '9'
  {
    c as int - '0' as int
  }

  /** A non-empty string of decimal digits. */
  predicate IsDigits(s: string)
  {
    s != [] && forall k :: 0 <= k < |s| ==> '0' <= s[k] <= '9'
  }

  /** The value of a string of decimal digits. */
  function DecimalValue(s: string): nat
    requires IsDigits(s)
  {
    if |s| == 1 then DigitValue(s[0])
    else DecimalValue(s[..|s| - 1]) * 10 + DigitValue(s[|s| - 1])
  }

  /** How a template literal renders a non-negative integer: its decimal digits, without leading zeros. */
  function DecimalString(n: nat): (r: string)
    ensures IsDigits(r)
    ensures r[0] == '0' ==> n == 0
  {
    if n < 10 then [DigitChar(n)] else DecimalString(n / 10) + [DigitChar(n % 10)]
  }

  /** Reading the rendered digits back gives the number. */
  lemma {:induction false} DecimalRoundTrip(n: nat)
    ensures DecimalValue(DecimalString(n)) == n
  {
    if n >= 10 {
      var s := DecimalString(n);
      assert s[..|s| - 1] == DecimalString(n / 10);
      DecimalRoundTrip(n / 10);
    }
  }
}
