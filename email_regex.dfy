/**
 * The address pattern `/^[^\s@]+@[^\s@]+\.[^\s@]+$/` that both the browser
 * code and the serverless handler test submitted addresses against.
 */
module EmailRegex {
  import opened JsText

  /** A character of the class `[^\s@]`. */
  predicate Plain(c: char)
  {
    !IsSpace(c) && c != '@'
  }

  /** Every character of `s` is in `[^\s@]`. */
  predicate AllPlain(s: string)
  {
    forall k :: 0 <= k < |s| ==> Plain(s[k])
  }

  /**
   * `pattern.test(s)`: the anchored pattern matches all of `s`, that is, `s`
   * splits as local part, `@`, host, `.`, top-level part, with each of the
   * three parts a non-empty run of `[^\s@]`. The `.` is literal, but `[^\s@]`
   * also admits dots, so any dot of the domain with text on both sides will do.
   * A matching address has at least five characters, an `@` and a `.`.
   */
  predicate Matches(s: string)
    ensures Matches(s) ==> |s| >= 5 && '@' in s && '.' in s
  {
    exists i, j | 0 < i < |s| && i + 1 < j < |s| - 1 ::
      && s[i] == '@' && s[j] == '.'
      && AllPlain(s[..i]) && AllPlain(s[i + 1..j]) && AllPlain(s[j + 1..])
  }

  /** `s` holds no whitespace character. */
  predicate NoSpace(s: string)
  {
    forall k :: 0 <= k < |s| ==> !IsSpace(s[k])
  }

  /** `d` has a `.` with at least one character before it and one after it. */
  predicate InnerDot(d: string)
  {
    exists k | 0 < k < |d| - 1 :: d[k] == '.'
  }

  /**
   * The pattern matches exactly the strings with no whitespace and exactly one
   * `@`, where the part before the `@` is non-empty and the part after it has a
   * `.` with text on both sides.
   */
  lemma {:induction false} MatchesIff(s: string)
    ensures Matches(s) <==>
      && NoSpace(s)
      && multiset(s)['@'] == 1
      && exists i | 0 < i < |s| :: s[i] == '@' && InnerDot(s[i + 1..])
  {
    if Matches(s) {
      var i, j :| 0 < i < |s| && i + 1 < j < |s| - 1 && s[i] == '@' && s[j] == '.'
        && AllPlain(s[..i]) && AllPlain(s[i + 1..j]) && AllPlain(s[j + 1..]);
      MatchedShape(s, i, j);
    }
    if && NoSpace(s) && multiset(s)['@'] == 1
       && exists i | 0 < i < |s| :: s[i] == '@' && InnerDot(s[i + 1..])
    {
      var i :| 0 < i < |s| && s[i] == '@' && InnerDot(s[i + 1..]);
      var k :| 0 < k < |s[i + 1..]| - 1 && s[i + 1..][k] == '.';
      ShapeMatches(s, i, i + 1 + k);
    }
  }

  /** Splitting at `i` splits the count of every character. */
  lemma CountAround(s: string, i: nat, x: char)
    requires i < |s|
    ensures multiset(s)[x] == multiset(s[..i])[x] + (if s[i] == x then 1 else 0) + multiset(s[i + 1..])[x]
  {
    assert s == s[..i] + [s[i]] + s[i + 1..];
  }

  /** A run of `[^\s@]` has no `@`. */
  lemma PlainHasNoAt(t: string)
    requires AllPlain(t)
    ensures multiset(t)['@'] == 0
  {
  }

  /** The "only if" half of MatchesIff, for one decomposition. */
  lemma MatchedShape(s: string, i: nat, j: nat)
    requires 0 < i < |s| && i + 1 < j < |s| - 1 && s[i] == '@' && s[j] == '.'
    requires AllPlain(s[..i]) && AllPlain(s[i + 1..j]) && AllPlain(s[j + 1..])
    ensures NoSpace(s) && multiset(s)['@'] == 1 && InnerDot(s[i + 1..])
  {
    forall k | 0 <= k < |s| ensures !IsSpace(s[k]) {
      if k < i { assert s[k] == s[..i][k]; }
      else if i < k < j { assert s[k] == s[i + 1..j][k - i - 1]; }
      else if j < k { assert s[k] == s[j + 1..][k - j - 1]; }
    }
    var d := s[i + 1..];
    assert d == s[i + 1..j] + ['.'] + s[j + 1..];
    PlainHasNoAt(s[..i]);
    PlainHasNoAt(s[i + 1..j]);
    PlainHasNoAt(s[j + 1..]);
    CountAround(s, i, '@');
    assert d[j - i - 1] == '.';
  }

  /** The "if" half of MatchesIff: with one `@` at `i` and a dot at `j`, the three parts are plain. */
  lemma ShapeMatches(s: string, i: nat, j: nat)
    requires NoSpace(s) && multiset(s)['@'] == 1
    requires 0 < i && i + 1 < j < |s| - 1 && s[i] == '@' && s[j] == '.'
    ensures Matches(s)
  {
    CountAround(s, i, '@');
    assert AllPlain(s[..i]) by {
      forall k | 0 <= k < i ensures Plain(s[..i][k]) {
        assert s[..i][k] == s[k];
        assert s[k] in multiset(s[..i]);
      }
    }
    var d := s[i + 1..];
    forall k | i + 1 <= k < |s| ensures Plain(s[k]) {
      assert s[k] == d[k - i - 1];
      assert d[k - i - 1] in multiset(d);
    }
    assert AllPlain(s[i + 1..j]);
    assert AllPlain(s[j + 1..]);
  }
}
