/**
 * The four fixed regular expressions of the extractor, written as scanners:
 *
 *   CiwaArScore   ciwa-ar score[:\s]*(\d+)
 *   CowsScore     cows[:\s]*score[:\s]*(\d+)
 *   Amount        (\d+)\s*(ml|mg|g|oz)
 *   LastUse       last use[:\s]*(\d+)\s*days?\s*ago
 *
 * Every starred class is followed by a character outside it (a digit, a
 * letter), so backtracking can never shorten a run and still succeed: the
 * greedy maximal run (Skip) is the only choice that can match.  String
 * `match` without the `g` flag reports the match that starts leftmost
 * (Search); its capture group is read by `parseInt` (Hit.number).
 */
module Patterns {
  import opened Wrappers
  import opened Text

  /** The characters of the JavaScript `\s` class. */
  predicate IsSpace(c: char)
  {
    c == ' ' || c == '\t' || c == '\n' || c == '\r' || c as int == 0x0B || c as int == 0x0C
    || c as int == 0xA0 || c as int == 0x1680 || (0x2000 <= c as int <= 0x200A)
    || c as int == 0x2028 || c as int == 0x2029 || c as int == 0x202F
    || c as int == 0x205F || c as int == 0x3000 || c as int == 0xFEFF
  }

  datatype CharClass = ColonOrSpace | Space | Digit

  predicate InClass(c: char, cls: CharClass)
  {
    match cls
    case ColonOrSpace => c == ':' || IsSpace(c)
    case Space => IsSpace(c)
    case Digit => IsDigit(c)
  }

  lemma LitAtHead(s: string, i: nat, lit: string)
    requires LitAt(s, i, lit) && |lit| > 0
    ensures s[i] == lit[0]
  {
    assert s[i..i + |lit|][0] == s[i];
  }

  /** A run cannot pass a character outside its class. */
  lemma RunStopsAtOutsider(s: string, a: nat, b: nat, cls: CharClass)
    ensures RunOf(s, a, b, cls) && a < |s| && !InClass(s[a], cls) ==> b == a
  {
  }

  /** End of the maximal run of `cls` characters that starts at `i`. */
  function Skip(s: string, i: nat, cls: CharClass): (j: nat)
    requires i <= |s|
    ensures i <= j <= |s|
    ensures forall t :: i <= t < j ==> InClass(s[t], cls)
    ensures j == |s| || !InClass(s[j], cls)
    decreases |s| - i
  {
    if i < |s| && InClass(s[i], cls) then Skip(s, i + 1, cls) else i
  }

  /** A run of `cls` characters that cannot be extended is the one Skip finds. */
  lemma SkipIsMaximalRun(s: string, i: nat, j: nat, cls: CharClass)
    requires i <= j <= |s|
    requires forall t :: i <= t < j ==> InClass(s[t], cls)
    requires j == |s| || !InClass(s[j], cls)
    ensures Skip(s, i, cls) == j
  {
  }

  /** The literal `lit` stands at index `i` of `s`. */
  predicate LitAt(s: string, i: nat, lit: string)
  {
    i + |lit| <= |s| && s[i..i + |lit|] == lit
  }

  datatype Pattern = CiwaArScore | CowsScore | Amount | LastUse

  /** A match of a pattern: `s[start..end]` is the whole match, `number` the value of its digit group. */
  datatype Hit = Hit(start: nat, end: nat, number: nat)

  lemma DigitRun(s: string, j: nat, k: nat)
    requires j <= k <= |s|
    requires forall t :: j <= t < k ==> InClass(s[t], Digit)
    ensures AllDigits(s[j..k])
  {
    assert forall t :: 0 <= t < k - j ==> s[j..k][t] == s[j + t];
  }

  /** The number in the digit run `s[j..k]`. */
  function RunValue(s: string, j: nat, k: nat): nat
    requires j <= k <= |s|
    requires forall t :: j <= t < k ==> InClass(s[t], Digit)
  {
    DigitRun(s, j, k);
    DecimalValue(s[j..k])
  }

  /** A CIWA-Ar hit spans the literal and a digit group that cannot be extended. */
  function CiwaArAt(s: string, i: nat): (r: Option<Hit>)
    requires i <= |s|
    ensures r.Some? ==> r.value.start == i && LitAt(s, i, "ciwa-ar score") && i + 13 < r.value.end <= |s|
    ensures r.Some? ==> IsDigit(s[r.value.end - 1]) && (r.value.end == |s| || !IsDigit(s[r.value.end]))
  {
    if !LitAt(s, i, "ciwa-ar score") then None
    else
      var j := Skip(s, i + 13, ColonOrSpace);
      var k := Skip(s, j, Digit);
      if j == k then None else Some(Hit(i, k, RunValue(s, j, k)))
  }

  /** A COWS hit spans "cows", "score" and a digit group that cannot be extended. */
  function CowsAt(s: string, i: nat): (r: Option<Hit>)
    requires i <= |s|
    ensures r.Some? ==> r.value.start == i && LitAt(s, i, "cows") && i + 9 < r.value.end <= |s|
    ensures r.Some? ==> IsDigit(s[r.value.end - 1]) && (r.value.end == |s| || !IsDigit(s[r.value.end]))
  {
    if !LitAt(s, i, "cows") then None
    else
      var j := Skip(s, i + 4, ColonOrSpace);
      if !LitAt(s, j, "score") then None
      else
        var d := Skip(s, j + 5, ColonOrSpace);
        var k := Skip(s, d, Digit);
        if d == k then None else Some(Hit(i, k, RunValue(s, d, k)))
  }

  /** Length of the unit `ml|mg|g|oz` at `j`, tried in that order; 0 when none is there. */
  function UnitLength(s: string, j: nat): nat
  {
    if LitAt(s, j, "ml") || LitAt(s, j, "mg") then 2
    else if LitAt(s, j, "g") then 1
    else if LitAt(s, j, "oz") then 2
    else 0
  }

  /** An amount hit starts on a digit and ends on the last letter of a unit. */
  function AmountAt(s: string, i: nat): (r: Option<Hit>)
    requires i <= |s|
    ensures r.Some? ==> r.value.start == i && i + 1 < r.value.end <= |s|
    ensures r.Some? ==> IsDigit(s[i]) && s[r.value.end - 1] in "lgz"
  {
    var k := Skip(s, i, Digit);
    if k == i then None
    else
      var j := Skip(s, k, Space);
      var u := UnitLength(s, j);
      if u == 0 then None else Some(Hit(i, j + u, RunValue(s, i, k)))
  }

  /** End of `\s*days?\s*ago` when it matches at `k`. */
  function AgoTail(s: string, k: nat): (r: Option<nat>)
    requires k <= |s|
    ensures r.Some? ==> k < r.value <= |s| && r.value >= 3 && LitAt(s, r.value - 3, "ago")
  {
    var m := Skip(s, k, Space);
    if !LitAt(s, m, "day") then None
    else
      var m' := if LitAt(s, m + 3, "s") then m + 4 else m + 3;
      var g := Skip(s, m', Space);
      if !LitAt(s, g, "ago") then None else Some(g + 3)
  }

  /** A last-use hit spans "last use" and ends with "ago". */
  function LastUseAt(s: string, i: nat): (r: Option<Hit>)
    requires i <= |s|
    ensures r.Some? ==> r.value.start == i && LitAt(s, i, "last use") && i + 8 < r.value.end <= |s|
    ensures r.Some? ==> LitAt(s, r.value.end - 3, "ago")
  {
    if !LitAt(s, i, "last use") then None
    else
      var j := Skip(s, i + 8, ColonOrSpace);
      var k := Skip(s, j, Digit);
      if j == k then None
      else
        match AgoTail(s, k)
        case None => None
        case Some(e) => Some(Hit(i, e, RunValue(s, j, k)))
  }

  /** The match of `pat` that starts exactly at `i`, if any. */
  function MatchAt(pat: Pattern, s: string, i: nat): (r: Option<Hit>)
    requires i <= |s|
    ensures r.Some? ==> r.value.start == i && i < r.value.end <= |s|
  {
    match pat
    case CiwaArScore => CiwaArAt(s, i)
    case CowsScore => CowsAt(s, i)
    case Amount => AmountAt(s, i)
    case LastUse => LastUseAt(s, i)
  }

  /** The first index at or after `from` where `c` holds a value; `|c|` when there is none. */
  function FirstSome<T>(c: seq<Option<T>>, from: nat): (k: nat)
    requires from <= |c|
    ensures from <= k <= |c|
    ensures k < |c| ==> c[k].Some?
    ensures forall i :: from <= i < k ==> c[i].None?
    decreases |c| - from
  {
    if from == |c| || c[from].Some? then from else FirstSome(c, from + 1)
  }

  /** The match of `pat` at every start position of `s`, `|s|` included. */
  function Candidates(pat: Pattern, s: string): (c: seq<Option<Hit>>)
    ensures |c| == |s| + 1
    ensures forall i :: 0 <= i <= |s| ==> c[i] == MatchAt(pat, s, i)
  {
    seq(|s| + 1, i requires 0 <= i <= |s| => MatchAt(pat, s, i))
  }

  /** `s.match(re)` for one of the fixed patterns: the match that starts leftmost. */
  function FirstMatch(pat: Pattern, s: string): (r: Option<Hit>)
    ensures r.Some? ==> r.value.start <= |s| && MatchAt(pat, s, r.value.start) == r
    ensures r.Some? ==> forall i :: 0 <= i < r.value.start ==> MatchAt(pat, s, i).None?
    ensures r.None? ==> forall i :: 0 <= i <= |s| ==> MatchAt(pat, s, i).None?
  {
    var c := Candidates(pat, s);
    var k := FirstSome(c, 0);
    if k < |c| then c[k] else None
  }

  /** The first present value is found wherever it is. */
  lemma FirstSomeFinds<T>(c: seq<Option<T>>, i: nat)
    requires i < |c| && c[i].Some?
    requires forall j :: 0 <= j < i ==> c[j].None?
    ensures FirstSome(c, 0) == i
  {
    var k := FirstSome(c, 0);
    if k < i {
      assert false;
    } else if k > i {
      assert false;
    }
  }

  /** A match at `i` with no match before it is the one `FirstMatch` reports. */
  lemma LeftmostIsFirstMatch(pat: Pattern, s: string, i: nat)
    requires i <= |s| && MatchAt(pat, s, i).Some?
    requires forall i' :: 0 <= i' < i ==> MatchAt(pat, s, i').None?
    ensures FirstMatch(pat, s) == MatchAt(pat, s, i)
  {
    var c := Candidates(pat, s);
    assert forall j :: 0 <= j < i ==> c[j].None?;
    FirstSomeFinds(c, i);
  }

  // ---------------------------------------------------------------------
  // The patterns read declaratively: a decomposition of the matched text
  // into the pieces of the regular expression, with the digit group greedy.
  // ---------------------------------------------------------------------

  predicate RunOf(s: string, i: nat, j: nat, cls: CharClass)
  {
    i <= j <= |s| && forall t :: i <= t < j ==> InClass(s[t], cls)
  }

  /** `s[j..k]` is a digit group that cannot be extended to the right (`\d+` is greedy). */
  predicate DigitGroup(s: string, j: nat, k: nat)
  {
    j < k && RunOf(s, j, k, Digit) && (k == |s| || !IsDigit(s[k]))
  }

  /** `s[i..k]` matches `ciwa-ar score[:\s]*(\d+)` with the group at `s[j..k]`. */
  ghost predicate CiwaArMatch(s: string, i: nat, j: nat, k: nat)
  {
    LitAt(s, i, "ciwa-ar score") && RunOf(s, i + 13, j, ColonOrSpace) && DigitGroup(s, j, k)
  }

  /** `s[i..k]` matches `cows[:\s]*score[:\s]*(\d+)` with the group at `s[d..k]`. */
  ghost predicate CowsMatch(s: string, i: nat, j: nat, d: nat, k: nat)
  {
    LitAt(s, i, "cows") && RunOf(s, i + 4, j, ColonOrSpace) && LitAt(s, j, "score")
    && RunOf(s, j + 5, d, ColonOrSpace) && DigitGroup(s, d, k)
  }

  lemma {:induction false} CiwaArAtSound(s: string, i: nat)
    requires i <= |s| && CiwaArAt(s, i).Some?
    ensures exists j :: CiwaArMatch(s, i, j, CiwaArAt(s, i).value.end)
                        && CiwaArAt(s, i).value.number == RunValue(s, j, CiwaArAt(s, i).value.end)
  {
    var j := Skip(s, i + 13, ColonOrSpace);
    assert CiwaArMatch(s, i, j, Skip(s, j, Digit));
  }

  lemma {:induction false} CiwaArAtComplete(s: string, i: nat, j: nat, k: nat)
    requires CiwaArMatch(s, i, j, k)
    ensures CiwaArAt(s, i) == Some(Hit(i, k, RunValue(s, j, k)))
  {
    assert IsDigit(s[j]);
    assert !InClass(s[j], ColonOrSpace);
    SkipIsMaximalRun(s, i + 13, j, ColonOrSpace);
    SkipIsMaximalRun(s, j, k, Digit);
  }

  lemma {:induction false} CowsAtSound(s: string, i: nat)
    requires i <= |s| && CowsAt(s, i).Some?
    ensures exists j, d :: CowsMatch(s, i, j, d, CowsAt(s, i).value.end)
                           && CowsAt(s, i).value.number == RunValue(s, d, CowsAt(s, i).value.end)
  {
    var j := Skip(s, i + 4, ColonOrSpace);
    var d := Skip(s, j + 5, ColonOrSpace);
    assert CowsMatch(s, i, j, d, Skip(s, d, Digit));
  }

  /** The three runs `CowsAt` skips end where a COWS decomposition puts them. */
  lemma {:induction false} CowsSkips(s: string, i: nat, j: nat, d: nat, k: nat)
    requires CowsMatch(s, i, j, d, k)
    ensures Skip(s, i + 4, ColonOrSpace) == j && Skip(s, j + 5, ColonOrSpace) == d && Skip(s, d, Digit) == k
  {
    LitAtHead(s, j, "score");
    assert !InClass(s[j], ColonOrSpace);
    SkipIsMaximalRun(s, i + 4, j, ColonOrSpace);
    assert IsDigit(s[d]);
    assert !InClass(s[d], ColonOrSpace);
    SkipIsMaximalRun(s, j + 5, d, ColonOrSpace);
    SkipIsMaximalRun(s, d, k, Digit);
  }

  lemma {:induction false} CowsAtComplete(s: string, i: nat, j: nat, d: nat, k: nat)
    requires CowsMatch(s, i, j, d, k)
    ensures CowsAt(s, i) == Some(Hit(i, k, RunValue(s, d, k)))
  {
    CowsSkips(s, i, j, d, k);
    assert LitAt(s, i, "cows") && LitAt(s, j, "score") && d < k;
  }

  /** `s[j..e]` is one of the units `ml`, `mg`, `g`, `oz`. */
  predicate UnitMatch(s: string, j: nat, e: nat)
  {
    (e == j + 2 && (LitAt(s, j, "ml") || LitAt(s, j, "mg") || LitAt(s, j, "oz")))
    || (e == j + 1 && LitAt(s, j, "g"))
  }

  /** `s[i..e]` matches `(\d+)\s*(ml|mg|g|oz)` with the digits at `s[i..k]` and the unit at `s[j..e]`. */
  ghost predicate AmountMatch(s: string, i: nat, k: nat, j: nat, e: nat)
  {
    i < k && RunOf(s, i, k, Digit) && RunOf(s, k, j, Space) && UnitMatch(s, j, e)
  }

  /** `s[k..e]` matches `\s*days?\s*ago`. */
  ghost predicate AgoTailMatch(s: string, k: nat, m: nat, m': nat, g: nat, e: nat)
  {
    RunOf(s, k, m, Space) && LitAt(s, m, "day")
    && (m' == m + 3 || (m' == m + 4 && LitAt(s, m + 3, "s")))
    && RunOf(s, m', g, Space) && LitAt(s, g, "ago") && e == g + 3
  }

  /** `s[i..e]` matches `last use[:\s]*(\d+)\s*days?\s*ago` with the group at `s[j..k]`. */
  ghost predicate LastUseMatch(s: string, i: nat, j: nat, k: nat, e: nat)
  {
    LitAt(s, i, "last use") && RunOf(s, i + 8, j, ColonOrSpace) && j < k && RunOf(s, j, k, Digit)
    && exists m, m', g :: AgoTailMatch(s, k, m, m', g, e)
  }

  lemma {:induction false} AmountAtSound(s: string, i: nat)
    requires i <= |s| && AmountAt(s, i).Some?
    ensures exists k, j :: AmountMatch(s, i, k, j, AmountAt(s, i).value.end)
  {
    var k := Skip(s, i, Digit);
    var j := Skip(s, k, Space);
    assert AmountMatch(s, i, k, j, AmountAt(s, i).value.end);
  }

  lemma {:induction false} AmountAtComplete(s: string, i: nat, k: nat, j: nat, e: nat)
    requires AmountMatch(s, i, k, j, e)
    ensures AmountAt(s, i) == Some(Hit(i, e, RunValue(s, i, k)))
  {
    assert s[j] != ' ' && !IsSpace(s[j]) && !IsDigit(s[j]);
    SkipIsMaximalRun(s, i, k, Digit);
    SkipIsMaximalRun(s, k, j, Space);
  }

  lemma {:induction false} AgoTailSound(s: string, k: nat)
    requires k <= |s| && AgoTail(s, k).Some?
    ensures exists m, m', g :: AgoTailMatch(s, k, m, m', g, AgoTail(s, k).value)
  {
    var m := Skip(s, k, Space);
    var m' := if LitAt(s, m + 3, "s") then m + 4 else m + 3;
    var g := Skip(s, m', Space);
    assert AgoTailMatch(s, k, m, m', g, g + 3);
  }

  lemma {:induction false} AgoTailComplete(s: string, k: nat, m: nat, m': nat, g: nat, e: nat)
    requires AgoTailMatch(s, k, m, m', g, e)
    ensures AgoTail(s, k) == Some(e)
  {
    LitAtHead(s, m, "day");
    assert !InClass(s[m], Space);
    SkipIsMaximalRun(s, k, m, Space);
    LitAtHead(s, g, "ago");
    assert !InClass(s[g], Space);
    if LitAt(s, m + 3, "s") {
      // leaving the optional "s" out would make "ago" start on that "s"
      LitAtHead(s, m + 3, "s");
      assert m' == m + 4 by {
        if m' == m + 3 {
          RunStopsAtOutsider(s, m + 3, g, Space);
          assert false;
        }
      }
    }
    SkipIsMaximalRun(s, m', g, Space);
  }

  lemma {:induction false} LastUseAtSound(s: string, i: nat)
    requires i <= |s| && LastUseAt(s, i).Some?
    ensures exists j, k :: LastUseMatch(s, i, j, k, LastUseAt(s, i).value.end)
                           && LastUseAt(s, i).value.number == RunValue(s, j, k)
  {
    var j := Skip(s, i + 8, ColonOrSpace);
    var k := Skip(s, j, Digit);
    AgoTailSound(s, k);
    assert LastUseMatch(s, i, j, k, LastUseAt(s, i).value.end);
  }

  lemma {:induction false} LastUseAtComplete(s: string, i: nat, j: nat, k: nat, e: nat)
    requires LastUseMatch(s, i, j, k, e)
    ensures LastUseAt(s, i) == Some(Hit(i, e, RunValue(s, j, k)))
  {
    var m, m', g :| AgoTailMatch(s, k, m, m', g, e);
    AgoTailComplete(s, k, m, m', g, e);
    LitAtHead(s, m, "day");
    assert !InClass(s[j], ColonOrSpace) by { assert IsDigit(s[j]); }
    SkipIsMaximalRun(s, i + 8, j, ColonOrSpace);
    assert !InClass(s[k], Digit) by { assert k < m ==> IsSpace(s[k]); }
    SkipIsMaximalRun(s, j, k, Digit);
  }

  /** Only a colon or whitespace may separate "ciwa-ar score" from its digits: "ciwa-ar score of 15" is no match. */
  lemma CiwaArNeedsColonOrSpace(s: string, i: nat)
    requires LitAt(s, i, "ciwa-ar score") && i + 13 < |s|
    requires !InClass(s[i + 13], ColonOrSpace) && !IsDigit(s[i + 13])
    ensures CiwaArAt(s, i).None?
  {
  }
}
