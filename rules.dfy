/**
 * Ordered rule tables: each rule pairs a condition already evaluated on the
 * notes with the clause it contributes.  The cascades of the engine return
 * the clause of the first rule that applies; the collectors keep the clauses
 * of all applicable rules, in table order.
 */
module Rules {
  import opened Text

  datatype Rule = Rule(applies: bool, clause: string)

  /** The clauses of the applicable rules, in table order. */
  function Applicable(rules: seq<Rule>): (r: seq<string>)
    ensures |r| <= |rules|
  {
    if |rules| == 0 then [] else (if rules[0].applies then [rules[0].clause] else []) + Applicable(rules[1..])
  }

  /** A clause is collected exactly when some rule carrying it applies; nothing is collected exactly when no rule applies. */
  lemma {:induction false} ApplicableMembers(rules: seq<Rule>)
    ensures forall x :: x in Applicable(rules) <==> exists k :: 0 <= k < |rules| && rules[k].applies && rules[k].clause == x
    ensures Applicable(rules) == [] <==> forall k :: 0 <= k < |rules| ==> !rules[k].applies
  {
    if |rules| > 0 {
      ApplicableMembers(rules[1..]);
      assert forall k :: 1 <= k < |rules| ==> rules[1..][k - 1] == rules[k];
    }
  }

  /** Table order is kept: the clauses of an earlier part of a table come before those of a later part. */
  lemma {:induction false} ApplicableAppend(a: seq<Rule>, b: seq<Rule>)
    ensures Applicable(a + b) == Applicable(a) + Applicable(b)
  {
    if |a| > 0 {
      assert (a + b)[1..] == a[1..] + b;
      ApplicableAppend(a[1..], b);
    } else {
      assert a + b == b;
    }
  }

  /**
   * `if (condition) list.push(item)`.  The ghost `done` is the part of the
   * rule table evaluated so far; the list holds exactly its applicable clauses.
   */
  method PushIf(list: seq<string>, ghost done: seq<Rule>, condition: bool, item: string)
    returns (list': seq<string>, ghost done': seq<Rule>)
    requires list == Applicable(done)
    ensures list' == list + Picked(Rule(condition, item))
    ensures done' == done + [Rule(condition, item)]
    ensures list' == Applicable(done')
  {
    list' := list;
    if condition {
      list' := list' + [item];
    }
    done' := done + [Rule(condition, item)];
    ApplicableAppend(done, [Rule(condition, item)]);
  }

  /** What one rule contributes to the collected clauses. */
  function Picked(r: Rule): seq<string>
  {
    if r.applies then [r.clause] else []
  }

  /** A three-rule table collects rule by rule. */
  lemma ApplicableThree(r0: Rule, r1: Rule, r2: Rule)
    ensures Applicable([r0, r1, r2]) == Picked(r0) + Picked(r1) + Picked(r2)
  {
    assert [r0, r1, r2][1..] == [r1, r2];
    assert [r1, r2][1..] == [r2];
    assert [r2][1..] == [];
    assert Applicable([r2]) == Picked(r2);
    assert Applicable([r1, r2]) == Picked(r1) + Picked(r2);
  }

  /** A four-rule table collects rule by rule. */
  lemma ApplicableFour(r0: Rule, r1: Rule, r2: Rule, r3: Rule)
    ensures Applicable([r0, r1, r2, r3]) == Picked(r0) + Picked(r1) + Picked(r2) + Picked(r3)
  {
    assert [r0, r1, r2, r3][1..] == [r1, r2, r3];
    ApplicableThree(r1, r2, r3);
  }

  lemma ThreeSingletons(r0: Rule, r1: Rule, r2: Rule)
    ensures [] + [r0] + [r1] + [r2] == [r0, r1, r2]
  {
  }

  lemma FourSingletons(r0: Rule, r1: Rule, r2: Rule, r3: Rule)
    ensures [] + [r0] + [r1] + [r2] + [r3] == [r0, r1, r2, r3]
  {
  }

  lemma SixSingletons(r0: Rule, r1: Rule, r2: Rule, r3: Rule, r4: Rule, r5: Rule)
    ensures [] + [r0] + [r1] + [r2] + [r3] + [r4] + [r5] == [r0, r1, r2, r3, r4, r5]
  {
  }

  /** Two rules that both apply keep their table order among the collected clauses. */
  lemma ApplicableKeepsOrder(rules: seq<Rule>, i: nat, j: nat)
    requires i < j < |rules| && rules[i].applies && rules[j].applies
    ensures exists a, b :: 0 <= a < b < |Applicable(rules)|
              && Applicable(rules)[a] == rules[i].clause && Applicable(rules)[b] == rules[j].clause
  {
    var front, back := rules[..j], rules[j..];
    assert rules == front + back;
    ApplicableAppend(front, back);
    ApplicableMembers(front);
    assert front[i] == rules[i];
    assert rules[i].clause in Applicable(front);
    var a :| 0 <= a < |Applicable(front)| && Applicable(front)[a] == rules[i].clause;
    assert back[0] == rules[j];
    assert Applicable(back)[0] == rules[j].clause;
    assert Applicable(rules)[a] == rules[i].clause;
    assert Applicable(rules)[|Applicable(front)|] == rules[j].clause;
  }

  /** In a table whose clauses are distinct, a clause is listed exactly when its own rule applies. */
  lemma ListedIffApplies(rules: seq<Rule>, k: nat)
    requires k < |rules|
    requires forall i, j :: 0 <= i < j < |rules| ==> rules[i].clause != rules[j].clause
    ensures rules[k].clause in Applicable(rules) <==> rules[k].applies
  {
    ApplicableMembers(rules);
  }

  /** The clause of the first rule that applies; `fallback` when none does. */
  function FirstApplicable(rules: seq<Rule>, fallback: string): string
  {
    if |rules| == 0 then fallback
    else if rules[0].applies then rules[0].clause
    else FirstApplicable(rules[1..], fallback)
  }

  /** Priority: when rule k is the first that applies its clause wins; when none applies (k = |rules|) the fallback does. */
  lemma {:induction false} FirstApplicableAt(rules: seq<Rule>, fallback: string, k: nat)
    requires k <= |rules|
    requires forall j :: 0 <= j < k ==> !rules[j].applies
    requires k < |rules| ==> rules[k].applies
    ensures FirstApplicable(rules, fallback) == if k < |rules| then rules[k].clause else fallback
  {
    if |rules| > 0 && k > 0 {
      assert forall j :: 0 <= j < k - 1 ==> rules[1..][j] == rules[j + 1];
      FirstApplicableAt(rules[1..], fallback, k - 1);
    }
  }

  /** `parts.length > 0 ? parts.join(sep) : fallback`. */
  function JoinOr(parts: seq<string>, sep: string, fallback: string): (r: string)
    ensures |parts| == 0 ==> r == fallback
    ensures |parts| > 0 && |parts[0]| > 0 ==> |r| > 0 && r[0] == parts[0][0]
    ensures |parts| > 0 ==> |parts[0]| <= |r| && r[..|parts[0]|] == parts[0]
  {
    if |parts| > 0 then Join(parts, sep) else fallback
  }

  /** When no clause can be mistaken for the fallback, the fallback is reported exactly when no rule applies. */
  lemma FallbackIffNoneApplies(rules: seq<Rule>, sep: string, fallback: string)
    requires |fallback| > 0
    requires forall k :: 0 <= k < |rules| ==> |rules[k].clause| > 0 && rules[k].clause[0] != fallback[0]
    ensures JoinOr(Applicable(rules), sep, fallback) == fallback <==> Applicable(rules) == []
  {
    var found := Applicable(rules);
    ApplicableMembers(rules);
    if |found| > 0 {
      assert found[0] in found;
    }
  }

  /** A rule whose condition is "one of these terms occurs in the text". */
  function KeywordRule(text: string, terms: seq<string>, clause: string): (r: Rule)
    ensures r.clause == clause
    ensures r.applies <==> exists t :: 0 <= t < |terms| && Contains(text, terms[t])
  {
    Rule(MentionsAny(text, terms), clause)
  }
}
