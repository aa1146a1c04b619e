/**
 * Section 6 of the form: the medical-necessity justification, the treatment
 * goals and the discharge plan.  Each branches on the requested level of
 * care: "PHP" (partial hospitalization) selects the intensive tier, every
 * other value the IOP (intensive outpatient) tier.
 *
 * The justification is a preamble naming the level of care, the clauses of
 * the tier's rules that apply, joined by ", ", and the tier's closing
 * sentence.  The note-based rules look only at the latest note.
 */
module Justification {
  import opened Wrappers
  import opened Text
  import opened Records
  import opened Rules
  import opened ClinicalExtraction

  // ---------------------------------------------------------------------
  // Fixed wording
  // ---------------------------------------------------------------------

  function Preamble(serviceType: string): string
  {
    "Patient meets criteria for " + serviceType + " level of care based on the following:"
  }

  const PhpClosing := ". Patient requires minimum 20 hours weekly structured programming with daily psychiatric monitoring."
  const IopClosing := ". Patient can benefit from 9-19 hours weekly programming while maintaining employment and stable environment."

  function Closing(serviceType: string): string
  {
    if serviceType == "PHP" then PhpClosing else IopClosing
  }

  const FailedIopClause := "Failed IOP treatment within past 12 months"
  const CoOccurringClause := "Co-occurring psychiatric conditions requiring intensive treatment"
  const SevereImpairmentClause := "Severe functional impairment in multiple domains"
  const RelapseClause := "Recent relapse after period of sobriety"
  const ModerateImpairmentClause := "Moderate functional impairment"
  const StableEnvironmentClause := "Stable environment with protective factors"

  const WithdrawalLead := "Moderate to severe withdrawal risk with CIWA-Ar score of "
  const WithdrawalMiddle := " and COWS score of "

  /** The withdrawal clause, with both scores printed in decimal. */
  function WithdrawalClause(ciwaArScore: nat, cowsScore: nat): string
  {
    WithdrawalLead + DecimalString(ciwaArScore) + WithdrawalMiddle + DecimalString(cowsScore)
  }

  // ---------------------------------------------------------------------
  // The conditions
  // ---------------------------------------------------------------------

  /** The latest note, lowercased, contains one of the terms; false when there is no note. */
  predicate LatestMentions(latest: Option<ClinicalRecord>, terms: seq<string>)
  {
    latest.Some? && MentionsAny(Lower(latest.value.content), terms)
  }

  /** Some diagnosis description, lowercased, contains the term. */
  predicate SomeDiagnosisMentions(diagnoses: seq<Diagnosis>, term: string)
  {
    exists d | 0 <= d < |diagnoses| :: Contains(Lower(diagnoses[d].description), term)
  }

  predicate WithdrawalRiskHigh(info: ClinicalInfo)
  {
    info.ciwaArScore >= 10 || info.cowsScore >= 12 || info.hasSeizureHistory
  }

  predicate PsychiatricComorbidity(diagnoses: seq<Diagnosis>)
  {
    SomeDiagnosisMentions(diagnoses, "depression") || SomeDiagnosisMentions(diagnoses, "anxiety")
    || SomeDiagnosisMentions(diagnoses, "ptsd")
  }

  const FailedIopTerms: seq<string> := ["failed iop"]
  const SevereImpairmentTerms: seq<string> := ["severe impairment", "unable to work", "job loss"]
  const RelapseTerms: seq<string> := ["relapse"]
  const ModerateImpairmentTerms: seq<string> := ["moderate impairment", "relationship strain"]
  const StableEnvironmentTerms: seq<string> := ["stable", "employment", "supportive"]

  // ---------------------------------------------------------------------
  // The rule tables of the two tiers
  // ---------------------------------------------------------------------

  /** The PHP table, given the outcome of each condition and the two scores. */
  function PhpTable(failedIop: bool, withdrawal: bool, psychiatric: bool, impairment: bool, ciwaArScore: nat, cowsScore: nat): seq<Rule>
  {
    [Rule(failedIop, FailedIopClause),
     Rule(withdrawal, WithdrawalClause(ciwaArScore, cowsScore)),
     Rule(psychiatric, CoOccurringClause),
     Rule(impairment, SevereImpairmentClause)]
  }

  function PhpRules(p: Patient, info: ClinicalInfo): seq<Rule>
  {
    PhpTable(LatestMentions(info.latestRecord, FailedIopTerms), WithdrawalRiskHigh(info),
             PsychiatricComorbidity(p.diagnoses), LatestMentions(info.latestRecord, SevereImpairmentTerms),
             info.ciwaArScore, info.cowsScore)
  }

  /** The IOP table, given the outcome of each condition. */
  function IopTable(relapse: bool, moderate: bool, stable: bool): seq<Rule>
  {
    [Rule(relapse, RelapseClause), Rule(moderate, ModerateImpairmentClause), Rule(stable, StableEnvironmentClause)]
  }

  function IopRules(info: ClinicalInfo): seq<Rule>
  {
    IopTable(LatestMentions(info.latestRecord, RelapseTerms), LatestMentions(info.latestRecord, ModerateImpairmentTerms),
             LatestMentions(info.latestRecord, StableEnvironmentTerms))
  }

  /** The rules of the tier the requested level of care selects. */
  function TierRules(p: Patient, info: ClinicalInfo, serviceType: string): seq<Rule>
  {
    if serviceType == "PHP" then PhpRules(p, info) else IopRules(info)
  }

  /** A justification listing `clauses`: the preamble, a space, the clauses joined by ", ", the closing. */
  function Justify(serviceType: string, clauses: seq<string>): string
  {
    Preamble(serviceType) + (" " + Join(clauses, ", ") + Closing(serviceType))
  }

  /** The justification text: the applicable clauses of the tier. */
  function MedicalNecessity(p: Patient, info: ClinicalInfo, serviceType: string): (r: string)
    ensures |Preamble(serviceType)| < |r| && r[..|Preamble(serviceType)|] == Preamble(serviceType)
            && r[|Preamble(serviceType)|] == ' '
    ensures |Closing(serviceType)| <= |r| && r[|r| - |Closing(serviceType)|..] == Closing(serviceType)
  {
    var clauses := Applicable(TierRules(p, info, serviceType));
    JustificationStartsWithPreamble(serviceType, clauses);
    JustificationEndsWithClosing(serviceType, clauses);
    Justify(serviceType, clauses)
  }

  // ---------------------------------------------------------------------
  // generateMedicalNecessityJustification, push by push
  // ---------------------------------------------------------------------

  /** The four tests of the PHP branch, each as `generateMedicalNecessityJustification` writes it. */
  method PhpTests(p: Patient, info: ClinicalInfo) returns (failedIop: bool, withdrawal: bool, psychiatric: bool, impairment: bool)
    ensures PhpRules(p, info) == PhpTable(failedIop, withdrawal, psychiatric, impairment, info.ciwaArScore, info.cowsScore)
  {
    var latest := info.latestRecord;
    failedIop := latest.Some? && Contains(Lower(latest.value.content), "failed iop");
    withdrawal := info.ciwaArScore >= 10 || info.cowsScore >= 12 || info.hasSeizureHistory;
    var hasDepression := SomeDiagnosisMentions(p.diagnoses, "depression");
    var hasAnxiety := SomeDiagnosisMentions(p.diagnoses, "anxiety");
    var hasPtsd := SomeDiagnosisMentions(p.diagnoses, "ptsd");
    psychiatric := hasDepression || hasAnxiety || hasPtsd;
    impairment := latest.Some? && (Contains(Lower(latest.value.content), "severe impairment")
                                   || Contains(Lower(latest.value.content), "unable to work")
                                   || Contains(Lower(latest.value.content), "job loss"));
    if latest.Some? {
      MentionsOne(Lower(latest.value.content), "failed iop");
      MentionsThree(Lower(latest.value.content), "severe impairment", "unable to work", "job loss");
    }
  }

  /** The pushes of the PHP branch. */
  method PhpCriteria(failedIop: bool, withdrawal: bool, psychiatric: bool, impairment: bool, ciwaArScore: nat, cowsScore: nat)
    returns (criteria: seq<string>)
    ensures criteria == Applicable(PhpTable(failedIop, withdrawal, psychiatric, impairment, ciwaArScore, cowsScore))
  {
    criteria := [];
    ghost var done: seq<Rule> := [];
    criteria, done := PushIf(criteria, done, failedIop, FailedIopClause);
    criteria, done := PushIf(criteria, done, withdrawal, WithdrawalClause(ciwaArScore, cowsScore));
    criteria, done := PushIf(criteria, done, psychiatric, CoOccurringClause);
    criteria, done := PushIf(criteria, done, impairment, SevereImpairmentClause);
    FourSingletons(Rule(failedIop, FailedIopClause), Rule(withdrawal, WithdrawalClause(ciwaArScore, cowsScore)),
                   Rule(psychiatric, CoOccurringClause), Rule(impairment, SevereImpairmentClause));
  }

  /** The three tests of the IOP branch, each as `generateMedicalNecessityJustification` writes it. */
  method IopTests(info: ClinicalInfo) returns (relapse: bool, moderate: bool, stable: bool)
    ensures IopRules(info) == IopTable(relapse, moderate, stable)
  {
    var latest := info.latestRecord;
    relapse := latest.Some? && Contains(Lower(latest.value.content), "relapse");
    moderate := latest.Some? && (Contains(Lower(latest.value.content), "moderate impairment")
                                 || Contains(Lower(latest.value.content), "relationship strain"));
    stable := latest.Some? && (Contains(Lower(latest.value.content), "stable")
                               || Contains(Lower(latest.value.content), "employment")
                               || Contains(Lower(latest.value.content), "supportive"));
    if latest.Some? {
      MentionsOne(Lower(latest.value.content), "relapse");
      MentionsTwo(Lower(latest.value.content), "moderate impairment", "relationship strain");
      MentionsThree(Lower(latest.value.content), "stable", "employment", "supportive");
    }
  }

  /** The pushes of the IOP branch. */
  method IopCriteria(relapse: bool, moderate: bool, stable: bool) returns (criteria: seq<string>)
    ensures criteria == Applicable(IopTable(relapse, moderate, stable))
  {
    criteria := [];
    ghost var done: seq<Rule> := [];
    criteria, done := PushIf(criteria, done, relapse, RelapseClause);
    criteria, done := PushIf(criteria, done, moderate, ModerateImpairmentClause);
    criteria, done := PushIf(criteria, done, stable, StableEnvironmentClause);
    ThreeSingletons(Rule(relapse, RelapseClause), Rule(moderate, ModerateImpairmentClause), Rule(stable, StableEnvironmentClause));
  }

  /** generateMedicalNecessityJustification. */
  method GenerateMedicalNecessityJustification(p: Patient, info: ClinicalInfo, serviceType: string) returns (r: string)
    ensures r == MedicalNecessity(p, info, serviceType)
  {
    var baseCriteria := Preamble(serviceType);
    if serviceType == "PHP" {
      var failedIop, withdrawal, psychiatric, impairment := PhpTests(p, info);
      var criteria := PhpCriteria(failedIop, withdrawal, psychiatric, impairment, info.ciwaArScore, info.cowsScore);
      r := baseCriteria + (" " + Join(criteria, ", ") + PhpClosing);
    } else {
      var relapse, moderate, stable := IopTests(info);
      var criteria := IopCriteria(relapse, moderate, stable);
      r := baseCriteria + (" " + Join(criteria, ", ") + IopClosing);
    }
  }

  // ---------------------------------------------------------------------
  // What the justification promises
  // ---------------------------------------------------------------------

  /** Whatever clauses are listed, the text starts with the preamble naming the level of care, followed by a space. */
  lemma JustificationStartsWithPreamble(serviceType: string, clauses: seq<string>)
    ensures var r := Justify(serviceType, clauses);
            var head := Preamble(serviceType);
            |head| < |r| && r[..|head|] == head && r[|head|] == ' '
  {
  }

  /** Whatever clauses are listed, the text ends with the closing sentence of the tier. */
  lemma JustificationEndsWithClosing(serviceType: string, clauses: seq<string>)
    ensures var r := Justify(serviceType, clauses);
            var tail := Closing(serviceType);
            |tail| <= |r| && r[|r| - |tail|..] == tail
  {
    var middle := Preamble(serviceType) + " " + Join(clauses, ", ");
    assert Justify(serviceType, clauses) == middle + Closing(serviceType);
  }

  /** Every level of care other than "PHP" gets the IOP text; only the name in the preamble differs. */
  lemma OtherTiersAreIop(p: Patient, info: ClinicalInfo, serviceType: string)
    requires serviceType != "PHP"
    ensures var r := MedicalNecessity(p, info, serviceType);
            var iop := MedicalNecessity(p, info, "IOP");
            |Preamble(serviceType)| <= |r| && |Preamble("IOP")| <= |iop|
            && r[|Preamble(serviceType)|..] == iop[|Preamble("IOP")|..]
  {
    var clauses := Applicable(IopRules(info));
    assert TierRules(p, info, serviceType) == TierRules(p, info, "IOP");
    var findings := " " + Join(clauses, ", ") + IopClosing;
    assert Justify(serviceType, clauses) == Preamble(serviceType) + findings;
    assert Justify("IOP", clauses) == Preamble("IOP") + findings;
  }

  /** In the PHP tier the withdrawal clause, naming both scores, is listed exactly when a score is high or seizures are on record. */
  lemma WithdrawalClauseIff(p: Patient, info: ClinicalInfo)
    ensures WithdrawalClause(info.ciwaArScore, info.cowsScore) in Applicable(PhpRules(p, info)) <==> WithdrawalRiskHigh(info)
  {
    var rules := PhpRules(p, info);
    PhpClausesDistinct(rules[0].applies, rules[1].applies, rules[2].applies, rules[3].applies, info.ciwaArScore, info.cowsScore);
    ListedIffApplies(rules, 1);
  }

  /** The four PHP clauses differ from one another, whatever the scores. */
  lemma PhpClausesDistinct(failedIop: bool, withdrawal: bool, psychiatric: bool, impairment: bool, ciwaArScore: nat, cowsScore: nat)
    ensures var t := PhpTable(failedIop, withdrawal, psychiatric, impairment, ciwaArScore, cowsScore);
            forall i, j :: 0 <= i < j < |t| ==> t[i].clause != t[j].clause
  {
    var w := WithdrawalClause(ciwaArScore, cowsScore);
    assert |w| >= |WithdrawalLead| + |WithdrawalMiddle| + 2 > |CoOccurringClause|;
  }

  /** Both scores can be read back from the withdrawal clause, at fixed offsets after its lead. */
  lemma WithdrawalClauseNamesScores(ciwaArScore: nat, cowsScore: nat)
    ensures var w := WithdrawalClause(ciwaArScore, cowsScore);
            var a := |WithdrawalLead|;
            var b := a + |DecimalString(ciwaArScore)|;
            var c := b + |WithdrawalMiddle|;
            c <= |w| && AllDigits(w[a..b]) && DecimalValue(w[a..b]) == ciwaArScore
            && w[b..c] == WithdrawalMiddle && AllDigits(w[c..]) && DecimalValue(w[c..]) == cowsScore
  {
    var w := WithdrawalClause(ciwaArScore, cowsScore);
    var x, y := DecimalString(ciwaArScore), DecimalString(cowsScore);
    var a := |WithdrawalLead|;
    var b := a + |x|;
    var c := b + |WithdrawalMiddle|;
    assert w == WithdrawalLead + x + WithdrawalMiddle + y;
    assert w[a..b] == x;
    assert w[b..c] == WithdrawalMiddle;
    assert w[c..] == y;
    DecimalRoundTrip(ciwaArScore);
    DecimalRoundTrip(cowsScore);
  }

  /** With no latest note no note-based clause fires: the IOP tier lists nothing, the PHP tier at most the withdrawal and psychiatric clauses. */
  lemma NoLatestNoteNoNoteClause(p: Patient, info: ClinicalInfo)
    requires info.latestRecord.None?
    ensures Applicable(IopRules(info)) == []
    ensures Applicable(PhpRules(p, info))
            == (if WithdrawalRiskHigh(info) then [WithdrawalClause(info.ciwaArScore, info.cowsScore)] else [])
               + (if PsychiatricComorbidity(p.diagnoses) then [CoOccurringClause] else [])
  {
    var php := PhpRules(p, info);
    ApplicableFour(php[0], php[1], php[2], php[3]);
    var iop := IopRules(info);
    ApplicableThree(iop[0], iop[1], iop[2]);
  }

  /** A patient without notes gets, in the PHP tier, at most the psychiatric clause, and in the IOP tier no clause at all. */
  lemma NoNotesJustification(p: Patient, serviceType: string)
    requires |p.clinicalRecords| == 0
    ensures MedicalNecessity(p, ClinicalInfoOf(p), serviceType)
            == Preamble(serviceType)
               + (" " + (if serviceType == "PHP" && PsychiatricComorbidity(p.diagnoses) then CoOccurringClause else "")
                  + Closing(serviceType))
  {
    var info := ClinicalInfoOf(p);
    NoNotesDefaults(p);
    NoLatestNoteNoNoteClause(p, info);
  }

  /** When every PHP test passes, all four clauses appear in table order, joined by ", ". */
  lemma PhpAllClauses(p: Patient, info: ClinicalInfo)
    requires LatestMentions(info.latestRecord, FailedIopTerms) && WithdrawalRiskHigh(info)
    requires PsychiatricComorbidity(p.diagnoses) && LatestMentions(info.latestRecord, SevereImpairmentTerms)
    ensures var clauses := FailedIopClause + ", " + WithdrawalClause(info.ciwaArScore, info.cowsScore)
                           + ", " + CoOccurringClause + ", " + SevereImpairmentClause;
            MedicalNecessity(p, info, "PHP") == Preamble("PHP") + (" " + clauses + PhpClosing)
  {
    assert PhpRules(p, info) == PhpTable(true, true, true, true, info.ciwaArScore, info.cowsScore);
    PhpTableAllFire(info.ciwaArScore, info.cowsScore);
  }

  lemma PhpTableAllFire(ciwaArScore: nat, cowsScore: nat)
    ensures Join(Applicable(PhpTable(true, true, true, true, ciwaArScore, cowsScore)), ", ")
            == FailedIopClause + ", " + WithdrawalClause(ciwaArScore, cowsScore) + ", " + CoOccurringClause + ", " + SevereImpairmentClause
  {
    var w := WithdrawalClause(ciwaArScore, cowsScore);
    var php := PhpTable(true, true, true, true, ciwaArScore, cowsScore);
    ApplicableFour(php[0], php[1], php[2], php[3]);
    assert Applicable(php) == [FailedIopClause] + [w] + [CoOccurringClause] + [SevereImpairmentClause];
    assert Applicable(php) == [FailedIopClause, w, CoOccurringClause, SevereImpairmentClause];
    JoinFour(FailedIopClause, w, CoOccurringClause, SevereImpairmentClause, ", ");
  }

  /** Two clauses of a tier that both fire appear in table order. */
  lemma ClausesInTableOrder(p: Patient, info: ClinicalInfo, serviceType: string, i: nat, j: nat)
    requires i < j < |TierRules(p, info, serviceType)|
    requires TierRules(p, info, serviceType)[i].applies && TierRules(p, info, serviceType)[j].applies
    ensures var found := Applicable(TierRules(p, info, serviceType));
            exists a, b :: 0 <= a < b < |found|
              && found[a] == TierRules(p, info, serviceType)[i].clause && found[b] == TierRules(p, info, serviceType)[j].clause
  {
    ApplicableKeepsOrder(TierRules(p, info, serviceType), i, j);
  }

  // ---------------------------------------------------------------------
  // Treatment goals and discharge planning
  // ---------------------------------------------------------------------

  const SharedGoals: seq<string> :=
    ["Achieve and maintain sobriety", "Develop effective coping strategies", "Improve functional status",
     "Address co-occurring mental health conditions"]
  const PhpGoals: seq<string> := ["Stabilize withdrawal symptoms", "Address severe functional impairments"]
  const IopGoals: seq<string> := ["Prevent relapse escalation", "Maintain employment and relationships"]

  const SharedPlan: seq<string> :=
    ["Step down to less intensive level of care", "Establish ongoing outpatient treatment",
     "Connect with community support resources", "Develop relapse prevention plan"]
  const PhpPlan: seq<string> := ["Consider IOP as next step", "Address housing and employment needs"]
  const IopPlan: seq<string> := ["Maintain current employment", "Strengthen support system"]

  /** The items of a six-item list: four shared ones, then the two of the tier. */
  function TierItems(shared: seq<string>, php: seq<string>, other: seq<string>, serviceType: string): seq<string>
  {
    shared + (if serviceType == "PHP" then php else other)
  }

  /** Items joined by ", " with a closing period. */
  function Sentence(items: seq<string>): string
  {
    Join(items, ", ") + "."
  }

  /** generateTreatmentGoals: the patient is not consulted. */
  function TreatmentGoals(p: Patient, serviceType: string): (r: string)
    ensures serviceType == "PHP" ==> r == Sentence(SharedGoals + PhpGoals)
    ensures serviceType != "PHP" ==> r == Sentence(SharedGoals + IopGoals)
    ensures r[|r| - 1] == '.'
  {
    SixItemShape(SharedGoals, PhpGoals, IopGoals, serviceType);
    Sentence(TierItems(SharedGoals, PhpGoals, IopGoals, serviceType))
  }

  /** generateDischargePlanning: the patient is not consulted. */
  function DischargePlanning(p: Patient, serviceType: string): (r: string)
    ensures serviceType == "PHP" ==> r == Sentence(SharedPlan + PhpPlan)
    ensures serviceType != "PHP" ==> r == Sentence(SharedPlan + IopPlan)
    ensures r[|r| - 1] == '.'
  {
    SixItemShape(SharedPlan, PhpPlan, IopPlan, serviceType);
    Sentence(TierItems(SharedPlan, PhpPlan, IopPlan, serviceType))
  }

  /** A six-item list: the four shared items, then the tier's two, each added with `push` in order. */
  method SixItems(shared: seq<string>, php: seq<string>, other: seq<string>, serviceType: string) returns (r: string)
    requires |shared| == 4 && |php| == 2 && |other| == 2
    ensures r == Sentence(TierItems(shared, php, other, serviceType))
  {
    var items := shared;
    if serviceType == "PHP" {
      items := items + [php[0], php[1]];
    } else {
      items := items + [other[0], other[1]];
    }
    assert php == [php[0], php[1]] && other == [other[0], other[1]];
    r := Join(items, ", ") + ".";
  }

  method GenerateTreatmentGoals(p: Patient, serviceType: string) returns (r: string)
    ensures r == TreatmentGoals(p, serviceType)
  {
    r := SixItems(SharedGoals, PhpGoals, IopGoals, serviceType);
  }

  method GenerateDischargePlanning(p: Patient, serviceType: string) returns (r: string)
    ensures r == DischargePlanning(p, serviceType)
  {
    r := SixItems(SharedPlan, PhpPlan, IopPlan, serviceType);
  }

  /** Six items: the four shared ones first, then the tier's two, joined by ", " and closed by a period. */
  lemma SixItemShape(shared: seq<string>, php: seq<string>, other: seq<string>, serviceType: string)
    requires |shared| == 4 && |php| == 2 && |other| == 2
    ensures var items := TierItems(shared, php, other, serviceType);
            var r := Sentence(items);
            |items| == 6 && items[..4] == shared
            && items[4..] == (if serviceType == "PHP" then php else other)
            && r == Join(shared, ", ") + ", " + Join(items[4..], ", ") + "."
            && r[|r| - 1] == '.'
  {
    var items := TierItems(shared, php, other, serviceType);
    assert items == shared + items[4..];
    JoinAppend(shared, items[4..], ", ");
  }

  /** Goals: six items, four fixed, two by tier; every tier other than "PHP" gets the same text, and no patient changes it. */
  lemma TreatmentGoalsShape(p: Patient, q: Patient, serviceType: string)
    ensures var items := TierItems(SharedGoals, PhpGoals, IopGoals, serviceType);
            |items| == 6 && items[..4] == SharedGoals
            && TreatmentGoals(p, serviceType)
               == Join(SharedGoals, ", ") + ", " + Join(if serviceType == "PHP" then PhpGoals else IopGoals, ", ") + "."
    ensures serviceType != "PHP" ==> TreatmentGoals(p, serviceType) == TreatmentGoals(q, "IOP")
  {
    SixItemShape(SharedGoals, PhpGoals, IopGoals, serviceType);
  }

  /** Discharge planning: six items, four fixed, two by tier; every tier other than "PHP" gets the same text. */
  lemma DischargePlanningShape(p: Patient, q: Patient, serviceType: string)
    ensures var items := TierItems(SharedPlan, PhpPlan, IopPlan, serviceType);
            |items| == 6 && items[..4] == SharedPlan
            && DischargePlanning(p, serviceType)
               == Join(SharedPlan, ", ") + ", " + Join(if serviceType == "PHP" then PhpPlan else IopPlan, ", ") + "."
    ensures serviceType != "PHP" ==> DischargePlanning(p, serviceType) == DischargePlanning(q, "IOP")
  {
    SixItemShape(SharedPlan, PhpPlan, IopPlan, serviceType);
  }

  /** Two six-item sentences whose tier items start with different letters differ. */
  lemma TierSentencesDiffer(shared: seq<string>, php: seq<string>, other: seq<string>)
    requires |shared| == 4 && |php| == 2 && |other| == 2
    requires |php[0]| > 0 && |other[0]| > 0 && php[0][0] != other[0][0]
    ensures Sentence(TierItems(shared, php, other, "PHP")) != Sentence(TierItems(shared, php, other, "IOP"))
  {
    SixItemShape(shared, php, other, "PHP");
    SixItemShape(shared, php, other, "IOP");
    var g := Join(shared, ", ") + ", ";
    assert Join(php, ", ") == php[0] + (", " + php[1]);
    assert Join(other, ", ") == other[0] + (", " + other[1]);
    assert Sentence(TierItems(shared, php, other, "PHP"))[|g|] == php[0][0];
    assert Sentence(TierItems(shared, php, other, "IOP"))[|g|] == other[0][0];
  }

  /** The two tiers' goal texts differ. */
  lemma TiersDifferInGoals(p: Patient)
    ensures TreatmentGoals(p, "PHP") != TreatmentGoals(p, "IOP")
    ensures DischargePlanning(p, "PHP") != DischargePlanning(p, "IOP")
  {
    assert PhpGoals[0][0] == 'S' && IopGoals[0][0] == 'P';
    TierSentencesDiffer(SharedGoals, PhpGoals, IopGoals);
    assert PhpPlan[0][0] == 'C' && IopPlan[0][0] == 'M';
    TierSentencesDiffer(SharedPlan, PhpPlan, IopPlan);
  }
}
