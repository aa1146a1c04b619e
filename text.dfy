/**
 * String primitives the extraction engine is built on: ASCII lowercasing
 * (String.prototype.toLowerCase restricted to ASCII), substring presence
 * (String.prototype.includes), Array.prototype.join, and decimal digits
 * (parseInt on a run of digits, and number-to-text in template literals).
 */
module Text {

  predicate IsDigit(c: char) { '0' <= c <= '9' }

  predicate AllDigits(s: string) { forall k :: 0 <= k < |s| ==> IsDigit(s[k]) }

  function LowerChar(c: char): char
  {
    if 'A' <= c <= 'Z' then (c as int + 32) as char else c
  }

  function Lower(s: string): (r: string)
    ensures |r| == |s|
  {
    if |s| == 0 then "" else [LowerChar(s[0])] + Lower(s[1..])
  }

  /** Lowercasing works character by character. */
  lemma {:induction false} LowerChars(s: string)
    ensures forall k :: 0 <= k < |s| ==> Lower(s)[k] == LowerChar(s[k])
  {
    if |s| > 0 {
      LowerChars(s[1..]);
    }
  }

  lemma {:induction false} LowerAppend(a: string, b: string)
    ensures Lower(a + b) == Lower(a) + Lower(b)
  {
    LowerChars(a + b);
    LowerChars(a);
    LowerChars(b);
    assert |Lower(a + b)| == |Lower(a) + Lower(b)|;
    forall k | 0 <= k < |a + b|
      ensures Lower(a + b)[k] == (Lower(a) + Lower(b))[k]
    {
      if k < |a| { assert (a + b)[k] == a[k]; } else { assert (a + b)[k] == b[k - |a|]; }
    }
  }

  /** `pat` occurs in `s` starting at index `i`. */
  predicate OccursAt(s: string, pat: string, i: int)
  {
    0 <= i && i + |pat| <= |s| && s[i..i + |pat|] == pat
  }

  /** Substring presence: `s.includes(pat)`. */
  predicate Contains(s: string, pat: string)
  {
    exists i | 0 <= i <= |s| :: OccursAt(s, pat, i)
  }

  /** Some term of the list occurs in `s`: `s.includes(t0) || s.includes(t1) || ...`. */
  predicate MentionsAny(s: string, terms: seq<string>)
  {
    exists t :: 0 <= t < |terms| && Contains(s, terms[t])
  }

  lemma MentionsOne(s: string, a: string)
    ensures MentionsAny(s, [a]) <==> Contains(s, a)
  {
    if Contains(s, a) { assert Contains(s, [a][0]); }
  }

  lemma MentionsTwo(s: string, a: string, b: string)
    ensures MentionsAny(s, [a, b]) <==> Contains(s, a) || Contains(s, b)
  {
    var terms := [a, b];
    if Contains(s, a) { assert Contains(s, terms[0]); }
    if Contains(s, b) { assert Contains(s, terms[1]); }
  }

  lemma MentionsThree(s: string, a: string, b: string, c: string)
    ensures MentionsAny(s, [a, b, c]) <==> Contains(s, a) || Contains(s, b) || Contains(s, c)
  {
    var terms := [a, b, c];
    if Contains(s, a) { assert Contains(s, terms[0]); }
    if Contains(s, b) { assert Contains(s, terms[1]); }
    if Contains(s, c) { assert Contains(s, terms[2]); }
  }

  lemma ContainsInMiddle(a: string, b: string, c: string, pat: string)
    requires Contains(b, pat)
    ensures Contains(a + b + c, pat)
  {
    var i :| 0 <= i <= |b| && OccursAt(b, pat, i);
    assert b[i..i + |pat|] == pat;
    assert (a + b + c)[|a| + i..|a| + i + |pat|] == b[i..i + |pat|];
    assert OccursAt(a + b + c, pat, |a| + i);
  }

  lemma NothingInEmpty(pat: string)
    requires |pat| > 0
    ensures !Contains("", pat)
  {
  }

  /** `parts.join(sep)`. */
  function Join(parts: seq<string>, sep: string): string
  {
    if |parts| == 0 then ""
    else if |parts| == 1 then parts[0]
    else parts[0] + sep + Join(parts[1..], sep)
  }

  lemma JoinFour(a: string, b: string, c: string, d: string, sep: string)
    ensures Join([a, b, c, d], sep) == a + sep + b + sep + c + sep + d
  {
    assert [a, b, c, d][1..] == [b, c, d];
    assert [b, c, d][1..] == [c, d];
    assert [c, d][1..] == [d];
    assert Join([c, d], sep) == c + sep + d;
    assert Join([b, c, d], sep) == b + sep + (c + sep + d);
  }

  /** Joining two non-empty lists puts exactly one separator between their joins. */
  lemma {:induction false} JoinAppend(a: seq<string>, b: seq<string>, sep: string)
    requires |a| > 0 && |b| > 0
    ensures Join(a + b, sep) == Join(a, sep) + sep + Join(b, sep)
  {
    if |a| == 1 {
      assert (a + b)[1..] == b;
    } else {
      assert (a + b)[1..] == a[1..] + b;
      JoinAppend(a[1..], b, sep);
    }
  }

  /** Every part of a join is a substring of it, so any text inside a part is found in the join. */
  lemma {:induction false} ContainsInJoin(parts: seq<string>, sep: string, k: nat, pat: string)
    requires k < |parts| && Contains(parts[k], pat)
    ensures Contains(Join(parts, sep), pat)
  {
    if |parts| == 1 {
    } else if k == 0 {
      ContainsInMiddle("", parts[0], sep + Join(parts[1..], sep), pat);
      assert "" + parts[0] + (sep + Join(parts[1..], sep)) == Join(parts, sep);
    } else {
      ContainsInJoin(parts[1..], sep, k - 1, pat);
      ContainsInMiddle(parts[0] + sep, Join(parts[1..], sep), "", pat);
      assert parts[0] + sep + Join(parts[1..], sep) + "" == Join(parts, sep);
    }
  }

  function DigitValue(c: char): nat
    requires IsDigit(c)
  {
    c as int - '0' as int
  }

  function DigitChar(d: nat): (c: char)
    requires d < 10
    ensures IsDigit(c) && DigitValue(c) == d
  {
    ('0' as int + d) as char
  }

  /** The value of a run of decimal digits, as `parseInt` reads it. */
  function DecimalValue(s: string): nat
    requires AllDigits(s)
  {
    if |s| == 0 then 0
    else DecimalValue(s[..|s| - 1]) * 10 + DigitValue(s[|s| - 1])
  }

  /** The decimal text of a non-negative integer, as a template literal prints it. */
  function DecimalString(n: nat): (r: string)
    ensures |r| > 0 && AllDigits(r)
    ensures r[0] == '0' <==> n == 0
  {
    if n < 10 then [DigitChar(n)] else DecimalString(n / 10) + [DigitChar(n % 10)]
  }

  /** Printing a score and reading it back yields the same score. */
  lemma {:induction false} DecimalRoundTrip(n: nat)
    ensures DecimalValue(DecimalString(n)) == n
  {
    var r := DecimalString(n);
    if n >= 10 {
      DecimalRoundTrip(n / 10);
      assert r[..|r| - 1] == DecimalString(n / 10);
    }
  }
}
