/**
 * The auxiliary scanners of the form: each reads the text of all notes
 * joined by one space and lowercased, and is either a priority cascade of
 * substring tests (frequency, route, relapse history), a leftmost pattern
 * match (amount, last use date) or an ordered collect-then-join with a
 * fallback string (current symptoms, previous treatment).
 */
module Scanners {
  import opened Wrappers
  import opened Text
  import opened Patterns
  import opened Records
  import opened Rules
  import opened ClinicalExtraction

  function Contents(notes: seq<ClinicalRecord>): (r: seq<string>)
    ensures |r| == |notes|
    ensures forall k :: 0 <= k < |notes| ==> r[k] == notes[k].content
  {
    seq(|notes|, k requires 0 <= k < |notes| => notes[k].content)
  }

  /** The text every scanner reads: the note contents joined by " ", lowercased. */
  function NotesText(p: Patient): (r: string)
    ensures |p.clinicalRecords| == 0 ==> r == ""
    ensures forall k :: 0 <= k < |r| ==> !('A' <= r[k] <= 'Z')
  {
    var joined := Join(Contents(p.clinicalRecords), " ");
    LowerChars(joined);
    Lower(joined)
  }

  function LowerAll(parts: seq<string>): (r: seq<string>)
    ensures |r| == |parts|
    ensures forall k :: 0 <= k < |parts| ==> r[k] == Lower(parts[k])
  {
    seq(|parts|, k requires 0 <= k < |parts| => Lower(parts[k]))
  }

  /** Lowercasing a join lowercases every part and the separator. */
  lemma {:induction false} LowerJoin(parts: seq<string>, sep: string)
    ensures Lower(Join(parts, sep)) == Join(LowerAll(parts), Lower(sep))
  {
    if |parts| > 1 {
      LowerAppend(parts[0] + sep, Join(parts[1..], sep));
      LowerAppend(parts[0], sep);
      LowerJoin(parts[1..], sep);
      assert LowerAll(parts)[1..] == LowerAll(parts[1..]);
    }
  }

  /** A term that one note mentions is found in the scanned text. */
  lemma NoteMentionReachesText(p: Patient, k: nat, pat: string)
    requires k < |p.clinicalRecords| && Contains(Lower(p.clinicalRecords[k].content), pat)
    ensures Contains(NotesText(p), pat)
  {
    var parts := Contents(p.clinicalRecords);
    LowerJoin(parts, " ");
    assert Lower(" ") == " ";
    ContainsInJoin(LowerAll(parts), " ", k, pat);
  }

  /** Without notes the scanned text is empty, so no term is found. */
  lemma NoNotesNoMention(p: Patient, pat: string)
    requires |p.clinicalRecords| == 0 && |pat| > 0
    ensures !Contains(NotesText(p), pat)
  {
    assert NotesText(p) == "";
    NothingInEmpty(pat);
  }

  /** Without notes no pattern matches the scanned text. */
  lemma NoNotesNoMatch(p: Patient, pat: Pattern)
    requires |p.clinicalRecords| == 0
    ensures FirstMatch(pat, NotesText(p)).None?
  {
    assert NotesText(p) == "";
  }

  // ---------------------------------------------------------------------
  // Last use date
  // ---------------------------------------------------------------------

  /** extractLastUseDate: today minus the days of the first "last use N days ago"; today when there is none. */
  function LastUseDate(p: Patient, today: int): (r: int)
    ensures r <= today
    ensures FirstMatch(LastUse, NotesText(p)).None? ==> r == today
  {
    match FirstMatch(LastUse, NotesText(p))
    case Some(h) => today - h.number
    case None => today
  }

  /** A last use date before today comes from the leftmost "last use" phrase and its day count. */
  lemma LastUseDateFromPhrase(p: Patient, today: int)
    requires LastUseDate(p, today) != today
    ensures var t := NotesText(p);
            exists i: nat, j: nat, k: nat, e: nat :: LastUseMatch(t, i, j, k, e) && LastUseDate(p, today) == today - RunValue(t, j, k)
                                 && forall i' :: 0 <= i' < i ==> MatchAt(LastUse, t, i').None?
  {
    var t := NotesText(p);
    var h := FirstMatch(LastUse, t).value;
    assert LastUseAt(t, h.start) == Some(h);
    LastUseAtSound(t, h.start);
    var j, k :| LastUseMatch(t, h.start, j, k, h.end) && h.number == RunValue(t, j, k);
    assert LastUseDate(p, today) == today - h.number;
  }

  /** The leftmost "last use" phrase decides the date. */
  lemma LastUsePhraseDecides(p: Patient, today: int, i: nat, j: nat, k: nat, e: nat)
    requires LastUseMatch(NotesText(p), i, j, k, e)
    requires forall i' :: 0 <= i' < i ==> MatchAt(LastUse, NotesText(p), i').None?
    ensures LastUseDate(p, today) == today - RunValue(NotesText(p), j, k)
  {
    var t := NotesText(p);
    LastUseAtComplete(t, i, j, k, e);
    assert MatchAt(LastUse, t, i) == Some(Hit(i, e, RunValue(t, j, k)));
    LeftmostIsFirstMatch(LastUse, t, i);
  }

  // ---------------------------------------------------------------------
  // Frequency and route: priority cascades
  // ---------------------------------------------------------------------

  function FrequencyRules(t: string): seq<Rule>
  {
    [KeywordRule(t, ["daily"], "Daily"), KeywordRule(t, ["weekly"], "Weekly"), KeywordRule(t, ["monthly"], "Monthly")]
  }

  /** extractSubstanceFrequency (the priority order is FrequencyFollowsPriority). */
  function SubstanceFrequency(p: Patient): (r: string)
    ensures r in ["Daily", "Weekly", "Monthly", "Unknown"]
    ensures r == "Daily" <==> Contains(NotesText(p), "daily")
  {
    var content := NotesText(p);
    if Contains(content, "daily") then "Daily"
    else if Contains(content, "weekly") then "Weekly"
    else if Contains(content, "monthly") then "Monthly"
    else "Unknown"
  }

  /** The frequency is the label of the first of daily, weekly, monthly that occurs; "Unknown" when none does. */
  lemma FrequencyFollowsPriority(p: Patient)
    ensures SubstanceFrequency(p) == FirstApplicable(FrequencyRules(NotesText(p)), "Unknown")
  {
    var t := NotesText(p);
    var rules := FrequencyRules(t);
    MentionsOne(t, "daily");
    MentionsOne(t, "weekly");
    MentionsOne(t, "monthly");
    var k := if rules[0].applies then 0 else if rules[1].applies then 1 else if rules[2].applies then 2 else 3;
    FirstApplicableAt(rules, "Unknown", k);
  }

  /** Any note saying "daily" makes the frequency Daily, whatever else the notes say. */
  lemma DailyWins(p: Patient, k: nat)
    requires k < |p.clinicalRecords| && Contains(Lower(p.clinicalRecords[k].content), "daily")
    ensures SubstanceFrequency(p) == "Daily"
  {
    NoteMentionReachesText(p, k, "daily");
  }

  /** Without notes the frequency is Unknown. */
  lemma NoNotesFrequencyUnknown(p: Patient)
    requires |p.clinicalRecords| == 0
    ensures SubstanceFrequency(p) == "Unknown"
  {
    NoNotesNoMention(p, "daily");
    NoNotesNoMention(p, "weekly");
    NoNotesNoMention(p, "monthly");
  }

  function RouteRules(t: string): seq<Rule>
  {
    [KeywordRule(t, ["iv", "intravenous"], "IV"), KeywordRule(t, ["oral", "po"], "Oral"),
     KeywordRule(t, ["insufflation", "snort"], "Insufflation"), KeywordRule(t, ["smoke", "inhalation"], "Inhalation")]
  }

  /** extractSubstanceRoute (the priority order is RouteFollowsPriority). */
  function SubstanceRoute(p: Patient): (r: string)
    ensures r in ["IV", "Oral", "Insufflation", "Inhalation", "Unknown"]
    ensures r == "IV" <==> Contains(NotesText(p), "iv") || Contains(NotesText(p), "intravenous")
  {
    var content := NotesText(p);
    if Contains(content, "iv") || Contains(content, "intravenous") then "IV"
    else if Contains(content, "oral") || Contains(content, "po") then "Oral"
    else if Contains(content, "insufflation") || Contains(content, "snort") then "Insufflation"
    else if Contains(content, "smoke") || Contains(content, "inhalation") then "Inhalation"
    else "Unknown"
  }

  /** The route is IV > Oral > Insufflation > Inhalation by the first term pair that occurs; "Unknown" when none does. */
  lemma RouteFollowsPriority(p: Patient)
    ensures SubstanceRoute(p) == FirstApplicable(RouteRules(NotesText(p)), "Unknown")
  {
    var t := NotesText(p);
    var rules := RouteRules(t);
    MentionsTwo(t, "iv", "intravenous");
    MentionsTwo(t, "oral", "po");
    MentionsTwo(t, "insufflation", "snort");
    MentionsTwo(t, "smoke", "inhalation");
    var k := if rules[0].applies then 0 else if rules[1].applies then 1
             else if rules[2].applies then 2 else if rules[3].applies then 3 else 4;
    FirstApplicableAt(rules, "Unknown", k);
  }

  /** Without notes the route is Unknown. */
  lemma NoNotesRouteUnknown(p: Patient)
    requires |p.clinicalRecords| == 0
    ensures SubstanceRoute(p) == "Unknown"
  {
    NoNotesNoMention(p, "iv");
    NoNotesNoMention(p, "intravenous");
    NoNotesNoMention(p, "oral");
    NoNotesNoMention(p, "po");
    NoNotesNoMention(p, "insufflation");
    NoNotesNoMention(p, "snort");
    NoNotesNoMention(p, "smoke");
    NoNotesNoMention(p, "inhalation");
  }

  /** The tests are plain substrings, so a word such as "motivated" already selects IV. */
  lemma RouteMatchesInsideWords(p: Patient, k: nat)
    requires k < |p.clinicalRecords| && Contains(Lower(p.clinicalRecords[k].content), "motivated")
    ensures SubstanceRoute(p) == "IV"
  {
    var t := NotesText(p);
    NoteMentionReachesText(p, k, "motivated");
    var i :| 0 <= i <= |t| && OccursAt(t, "motivated", i);
    assert t[i..i + 9] == "motivated";
    assert t[i + 3] == t[i..i + 9][3] == 'i';
    assert t[i + 4] == t[i..i + 9][4] == 'v';
    assert t[i + 3..i + 5] == "iv";
    assert OccursAt(t, "iv", i + 3);
  }

  // ---------------------------------------------------------------------
  // Amount: the leftmost "(\d+)\s*(ml|mg|g|oz)", whole match
  // ---------------------------------------------------------------------

  /** extractSubstanceAmount: the text of the leftmost amount, "Unknown" when there is none. */
  function SubstanceAmount(p: Patient): (r: string)
    ensures r == "Unknown" <==> FirstMatch(Amount, NotesText(p)).None?
    ensures r != "Unknown" ==> |r| > 0 && IsDigit(r[0])
  {
    var t := NotesText(p);
    match FirstMatch(Amount, t)
    case Some(h) =>
      assert IsDigit(t[h.start..h.end][0]) by { AmountAtSound(t, h.start); }
      t[h.start..h.end]
    case None => "Unknown"
  }

  /** A reported amount is digits, optional whitespace and a unit, and no amount starts earlier. */
  lemma AmountIsLeftmostMatch(p: Patient)
    requires SubstanceAmount(p) != "Unknown"
    ensures var t := NotesText(p);
            exists i: nat, k: nat, j: nat, e: nat :: AmountMatch(t, i, k, j, e) && i <= e <= |t| && SubstanceAmount(p) == t[i..e]
                                 && forall i' :: 0 <= i' < i ==> MatchAt(Amount, t, i').None?
  {
    var t := NotesText(p);
    var h := FirstMatch(Amount, t).value;
    AmountAtSound(t, h.start);
  }

  /** The leftmost amount in the text is the one reported. */
  lemma LeftmostAmountReported(p: Patient, i: nat, k: nat, j: nat, e: nat)
    requires AmountMatch(NotesText(p), i, k, j, e)
    requires forall i' :: 0 <= i' < i ==> MatchAt(Amount, NotesText(p), i').None?
    ensures i <= e <= |NotesText(p)| && SubstanceAmount(p) == NotesText(p)[i..e]
  {
    var t := NotesText(p);
    AmountAtComplete(t, i, k, j, e);
    assert MatchAt(Amount, t, i) == Some(Hit(i, e, RunValue(t, i, k)));
    LeftmostIsFirstMatch(Amount, t, i);
  }

  // ---------------------------------------------------------------------
  // Current symptoms and previous treatment: collect, then join
  // ---------------------------------------------------------------------

  const SymptomFallback := "Various withdrawal and psychiatric symptoms"
  const SymptomLabels: seq<string> := ["Anxiety", "Depression", "Insomnia", "Tremors", "Diaphoresis", "Tachycardia"]
  const SymptomTerms: seq<seq<string>> :=
    [["anxiety"], ["depression"], ["insomnia"], ["tremor", "tremulous"], ["sweat", "diaphoretic"], ["tachycardia", "hr 1"]]

  /** The symptom table, given the outcome of each symptom's test. */
  function SymptomTable(anxiety: bool, depression: bool, insomnia: bool, tremors: bool, diaphoresis: bool, tachycardia: bool): seq<Rule>
  {
    [Rule(anxiety, "Anxiety"), Rule(depression, "Depression"), Rule(insomnia, "Insomnia"),
     Rule(tremors, "Tremors"), Rule(diaphoresis, "Diaphoresis"), Rule(tachycardia, "Tachycardia")]
  }

  /** The tests of generateCurrentSymptoms, in its order. */
  function SymptomRules(t: string): seq<Rule>
  {
    SymptomTable(Contains(t, "anxiety"), Contains(t, "depression"), Contains(t, "insomnia"),
                 Contains(t, "tremor") || Contains(t, "tremulous"),
                 Contains(t, "sweat") || Contains(t, "diaphoretic"),
                 Contains(t, "tachycardia") || Contains(t, "hr 1"))
  }

  /** Rule s of the table carries label s and applies exactly when the text mentions one of the terms of symptom s. */
  lemma SymptomRuleMeaning(t: string, s: nat)
    requires s < 6
    ensures SymptomRules(t)[s].clause == SymptomLabels[s]
    ensures SymptomRules(t)[s].applies <==> MentionsAny(t, SymptomTerms[s])
  {
    if s < 3 {
      MentionsOne(t, SymptomTerms[s][0]);
    } else {
      MentionsTwo(t, SymptomTerms[s][0], SymptomTerms[s][1]);
    }
  }

  /** The symptom labels of the notes, in table order, joined by ", "; the fallback when none. */
  function CurrentSymptoms(p: Patient): (r: string)
    ensures r == SymptomFallback <==> Applicable(SymptomRules(NotesText(p))) == []
  {
    FallbackIffNoneApplies(SymptomRules(NotesText(p)), ", ", SymptomFallback);
    JoinOr(Applicable(SymptomRules(NotesText(p))), ", ", SymptomFallback)
  }

  /** The six tests of generateCurrentSymptoms, over the lowercased notes text. */
  method SymptomTests(content: string) returns (anxiety: bool, depression: bool, insomnia: bool, tremors: bool, diaphoresis: bool, tachycardia: bool)
    ensures SymptomRules(content) == SymptomTable(anxiety, depression, insomnia, tremors, diaphoresis, tachycardia)
  {
    anxiety := Contains(content, "anxiety");
    depression := Contains(content, "depression");
    insomnia := Contains(content, "insomnia");
    tremors := Contains(content, "tremor") || Contains(content, "tremulous");
    diaphoresis := Contains(content, "sweat") || Contains(content, "diaphoretic");
    tachycardia := Contains(content, "tachycardia") || Contains(content, "hr 1");
  }

  /** The six conditional pushes of generateCurrentSymptoms, in its order. */
  method PushFound(anxiety: bool, depression: bool, insomnia: bool, tremors: bool, diaphoresis: bool, tachycardia: bool) returns (symptoms: seq<string>)
    ensures symptoms == Applicable(SymptomTable(anxiety, depression, insomnia, tremors, diaphoresis, tachycardia))
  {
    symptoms := [];
    ghost var done: seq<Rule> := [];
    symptoms, done := PushIf(symptoms, done, anxiety, "Anxiety");
    symptoms, done := PushIf(symptoms, done, depression, "Depression");
    symptoms, done := PushIf(symptoms, done, insomnia, "Insomnia");
    symptoms, done := PushIf(symptoms, done, tremors, "Tremors");
    symptoms, done := PushIf(symptoms, done, diaphoresis, "Diaphoresis");
    symptoms, done := PushIf(symptoms, done, tachycardia, "Tachycardia");
    SixSingletons(Rule(anxiety, "Anxiety"), Rule(depression, "Depression"), Rule(insomnia, "Insomnia"),
                  Rule(tremors, "Tremors"), Rule(diaphoresis, "Diaphoresis"), Rule(tachycardia, "Tachycardia"));
  }

  method CollectSymptoms(content: string) returns (symptoms: seq<string>)
    ensures symptoms == Applicable(SymptomRules(content))
  {
    var anxiety, depression, insomnia, tremors, diaphoresis, tachycardia := SymptomTests(content);
    symptoms := PushFound(anxiety, depression, insomnia, tremors, diaphoresis, tachycardia);
  }

  /** generateCurrentSymptoms: pushes the label of every symptom found, then joins. */
  method GenerateCurrentSymptoms(p: Patient, clinicalInfo: ClinicalInfo) returns (r: string)
    ensures r == CurrentSymptoms(p)
  {
    var content := NotesText(p);
    var symptoms := CollectSymptoms(content);
    r := JoinOr(symptoms, ", ", SymptomFallback);
  }

  /** A symptom is listed exactly when the text mentions one of its terms. */
  lemma SymptomListedIff(p: Patient, s: nat)
    requires s < 6
    ensures SymptomLabels[s] in Applicable(SymptomRules(NotesText(p))) <==> MentionsAny(NotesText(p), SymptomTerms[s])
  {
    ListedIffApplies(SymptomRules(NotesText(p)), s);
    SymptomRuleMeaning(NotesText(p), s);
  }

  /** Tremors is listed exactly when the notes say "tremor" or "tremulous". */
  lemma TremorsListedIff(p: Patient)
    ensures var t := NotesText(p);
            "Tremors" in Applicable(SymptomRules(t)) <==> Contains(t, "tremor") || Contains(t, "tremulous")
  {
    ListedIffApplies(SymptomRules(NotesText(p)), 3);
  }

  /** A symptom term in any one note lists its symptom. */
  lemma SymptomFromOneNote(p: Patient, k: nat, s: nat, t: nat)
    requires k < |p.clinicalRecords| && s < 6 && t < |SymptomTerms[s]|
    requires Contains(Lower(p.clinicalRecords[k].content), SymptomTerms[s][t])
    ensures SymptomLabels[s] in Applicable(SymptomRules(NotesText(p)))
  {
    NoteMentionReachesText(p, k, SymptomTerms[s][t]);
    SymptomListedIff(p, s);
  }

  /** Without notes no symptom is found and the fallback is reported. */
  lemma NoNotesSymptomFallback(p: Patient)
    requires |p.clinicalRecords| == 0
    ensures CurrentSymptoms(p) == SymptomFallback
  {
    var rules := SymptomRules(NotesText(p));
    ApplicableMembers(rules);
    forall k | 0 <= k < 6
      ensures !rules[k].applies
    {
      SymptomRuleMeaning(NotesText(p), k);
      forall t | 0 <= t < |SymptomTerms[k]|
        ensures !Contains(NotesText(p), SymptomTerms[k][t])
      {
        NoNotesNoMention(p, SymptomTerms[k][t]);
      }
    }
  }

  const TreatmentFallback := "No previous treatment documented"
  const TreatmentLabels: seq<string> := ["IOP", "PHP", "Inpatient", "Detox"]
  const TreatmentTerms: seq<string> := ["iop", "php", "inpatient", "detox"]

  /** Level of care k is listed when the text mentions its term. */
  function TreatmentRules(t: string): (r: seq<Rule>)
    ensures |r| == 4
    ensures forall k :: 0 <= k < 4 ==> r[k] == Rule(Contains(t, TreatmentTerms[k]), TreatmentLabels[k])
  {
    seq(4, k requires 0 <= k < 4 => Rule(Contains(t, TreatmentTerms[k]), TreatmentLabels[k]))
  }

  /** The levels of care the notes mention, in table order, joined by ", "; the fallback when none. */
  function PreviousTreatment(p: Patient): (r: string)
    ensures r == TreatmentFallback <==> Applicable(TreatmentRules(NotesText(p))) == []
  {
    FallbackIffNoneApplies(TreatmentRules(NotesText(p)), ", ", TreatmentFallback);
    JoinOr(Applicable(TreatmentRules(NotesText(p))), ", ", TreatmentFallback)
  }

  /** generatePreviousTreatment: pushes every level of care found, then joins. */
  method GeneratePreviousTreatment(p: Patient) returns (r: string)
    ensures r == PreviousTreatment(p)
  {
    var content := NotesText(p);
    var treatments: seq<string> := [];
    ghost var done: seq<Rule> := [];

    treatments, done := PushIf(treatments, done, Contains(content, "iop"), "IOP");
    treatments, done := PushIf(treatments, done, Contains(content, "php"), "PHP");
    treatments, done := PushIf(treatments, done, Contains(content, "inpatient"), "Inpatient");
    treatments, done := PushIf(treatments, done, Contains(content, "detox"), "Detox");
    assert done == TreatmentRules(content);

    r := JoinOr(treatments, ", ", TreatmentFallback);
  }

  /** Without notes no previous treatment is documented. */
  lemma NoNotesTreatmentFallback(p: Patient)
    requires |p.clinicalRecords| == 0
    ensures PreviousTreatment(p) == TreatmentFallback
  {
    var rules := TreatmentRules(NotesText(p));
    forall k | 0 <= k < 4
      ensures !rules[k].applies
    {
      NoNotesNoMention(p, TreatmentTerms[k]);
    }
    ApplicableMembers(rules);
  }

  /** A level of care is listed exactly when the notes mention it. */
  lemma TreatmentListedIff(p: Patient, k: nat)
    requires k < 4
    ensures TreatmentLabels[k] in Applicable(TreatmentRules(NotesText(p))) <==> Contains(NotesText(p), TreatmentTerms[k])
  {
    ListedIffApplies(TreatmentRules(NotesText(p)), k);
  }

  // ---------------------------------------------------------------------
  // Relapse history
  // ---------------------------------------------------------------------

  const RelapseFound := "History of relapse documented in clinical records"
  const RelapseNone := "No documented relapse history"

  /** generateRelapseHistory. */
  function RelapseHistory(p: Patient): (r: string)
    ensures r == RelapseFound || r == RelapseNone
  {
    if Contains(NotesText(p), "relapse") then RelapseFound else RelapseNone
  }

  /** The history reports a relapse exactly when some part of the notes says "relapse". */
  lemma RelapseReportedIff(p: Patient)
    ensures RelapseHistory(p) == RelapseFound <==> Contains(NotesText(p), "relapse")
  {
  }

  /** One note mentioning a relapse is enough. */
  lemma RelapseFromOneNote(p: Patient, k: nat)
    requires k < |p.clinicalRecords| && Contains(Lower(p.clinicalRecords[k].content), "relapse")
    ensures RelapseHistory(p) == RelapseFound
  {
    NoteMentionReachesText(p, k, "relapse");
  }
}
