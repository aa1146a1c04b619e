/**
 * Clinical signal extraction (extractClinicalInfo): one pass over the notes
 * in stored order, overwriting the running CIWA-Ar and COWS scores whenever a
 * note matches, and raising the seizure and delirium-tremens flags on keyword
 * hits.
 */
module ClinicalExtraction {
  import opened Wrappers
  import opened Text
  import opened Patterns
  import opened Records

  /** The structured summary the form is built from. */
  datatype ClinicalInfo = ClinicalInfo(
    latestRecord: Option<ClinicalRecord>,
    primaryDiagnosis: Option<Diagnosis>,
    ciwaArScore: nat,
    cowsScore: nat,
    hasSeizureHistory: bool,
    hasDTHistory: bool,
    allDiagnoses: seq<Diagnosis>,
    medications: seq<string>,
    labResults: seq<LabResult>)

  const SeizureTerms: seq<string> := ["seizure", "grand mal"]
  const DtTerms: seq<string> := ["dt", "delirium tremens"]

  /** The score a single note reports on a scale (CiwaArScore or CowsScore): its first match, read as a number. */
  function NoteScore(scale: Pattern, note: ClinicalRecord): Option<nat>
  {
    match FirstMatch(scale, Lower(note.content))
    case None => None
    case Some(h) => Some(h.number)
  }

  /** `f` applied to every note, in stored order. */
  function MapNotes(f: ClinicalRecord -> Option<nat>, notes: seq<ClinicalRecord>): (r: seq<Option<nat>>)
    ensures |r| == |notes|
    ensures forall k :: 0 <= k < |notes| ==> r[k] == f(notes[k])
  {
    seq(|notes|, k requires 0 <= k < |notes| => f(notes[k]))
  }

  /** Mapping a concatenation maps each part. */
  lemma MapNotesAppend(f: ClinicalRecord -> Option<nat>, a: seq<ClinicalRecord>, b: seq<ClinicalRecord>)
    ensures MapNotes(f, a + b) == MapNotes(f, a) + MapNotes(f, b)
  {
    var l, r := MapNotes(f, a + b), MapNotes(f, a) + MapNotes(f, b);
    forall k | 0 <= k < |a| + |b| ensures l[k] == r[k] {
      if k < |a| {
        assert (a + b)[k] == a[k];
      } else {
        assert (a + b)[k] == b[k - |a|];
      }
    }
  }

  /** The scale's score reader, as a function value. */
  function ScoreOf(scale: Pattern): ClinicalRecord -> Option<nat>
  {
    note => NoteScore(scale, note)
  }

  /** The scores reported note by note, in stored order. */
  function NoteScores(scale: Pattern, notes: seq<ClinicalRecord>): (r: seq<Option<nat>>)
    ensures |r| == |notes|
    ensures forall k :: 0 <= k < |notes| ==> r[k] == NoteScore(scale, notes[k])
  {
    MapNotes(ScoreOf(scale), notes)
  }

  /** The running value after a sequence of reports: each report overwrites it, 0 before the first. */
  function LastReported(reports: seq<Option<nat>>): nat
  {
    if |reports| == 0 then 0
    else
      match reports[|reports| - 1]
      case Some(v) => v
      case None => LastReported(reports[..|reports| - 1])
  }

  /** The running score after all of `notes`: the last note that reports one wins, 0 when none does. */
  function LatestScore(scale: Pattern, notes: seq<ClinicalRecord>): nat
  {
    LastReported(NoteScores(scale, notes))
  }

  /** Some note, lowercased, contains one of `terms`. */
  predicate AnyNoteMentions(notes: seq<ClinicalRecord>, terms: seq<string>)
  {
    exists k :: 0 <= k < |notes| && MentionsAny(Lower(notes[k].content), terms)
  }

  function LastOf<T>(s: seq<T>): (r: Option<T>)
    ensures r.None? <==> |s| == 0
    ensures r.Some? ==> r.value == s[|s| - 1]
  {
    if |s| == 0 then None else Some(s[|s| - 1])
  }

  function FirstOf<T>(s: seq<T>): (r: Option<T>)
    ensures r.None? <==> |s| == 0
    ensures r.Some? ==> r.value == s[0]
  {
    if |s| == 0 then None else Some(s[0])
  }

  /** The summary extractClinicalInfo computes for a patient. */
  function ClinicalInfoOf(p: Patient): (r: ClinicalInfo)
    ensures r.latestRecord.None? <==> |p.clinicalRecords| == 0
    ensures r.primaryDiagnosis.None? <==> |p.diagnoses| == 0
    ensures r.ciwaArScore == 0
            || exists k :: 0 <= k < |p.clinicalRecords| && NoteScore(CiwaArScore, p.clinicalRecords[k]) == Some(r.ciwaArScore)
    ensures r.cowsScore == 0
            || exists k :: 0 <= k < |p.clinicalRecords| && NoteScore(CowsScore, p.clinicalRecords[k]) == Some(r.cowsScore)
  {
    var notes := p.clinicalRecords;
    ReportedValue(NoteScores(CiwaArScore, notes));
    ReportedValue(NoteScores(CowsScore, notes));
    ClinicalInfo(
      LastOf(notes), FirstOf(p.diagnoses),
      LatestScore(CiwaArScore, notes), LatestScore(CowsScore, notes),
      AnyNoteMentions(notes, SeizureTerms), AnyNoteMentions(notes, DtTerms),
      p.diagnoses, p.medications, p.labResults)
  }

  /** The scores of a concatenation are the concatenation of the scores. */
  lemma NoteScoresAppend(scale: Pattern, a: seq<ClinicalRecord>, b: seq<ClinicalRecord>)
    ensures NoteScores(scale, a + b) == NoteScores(scale, a) + NoteScores(scale, b)
  {
    MapNotesAppend(ScoreOf(scale), a, b);
  }

  /** The flag after one more note: raised before, or raised by that note. */
  lemma StepMentions(notes: seq<ClinicalRecord>, i: nat, terms: seq<string>)
    requires i < |notes|
    ensures AnyNoteMentions(notes[..i + 1], terms)
            <==> AnyNoteMentions(notes[..i], terms) || MentionsAny(Lower(notes[i].content), terms)
  {
    if AnyNoteMentions(notes[..i + 1], terms) {
      var k :| 0 <= k < i + 1 && MentionsAny(Lower(notes[..i + 1][k].content), terms);
      if k < i { assert notes[..i][k] == notes[..i + 1][k]; }
    }
    if AnyNoteMentions(notes[..i], terms) {
      var k :| 0 <= k < i && MentionsAny(Lower(notes[..i][k].content), terms);
      assert notes[..i + 1][k] == notes[..i][k];
    }
    if MentionsAny(Lower(notes[i].content), terms) {
      assert notes[..i + 1][i] == notes[i];
    }
  }

  /** Whether each note, lowercased, contains one of `terms`, in stored order. */
  function NoteMentions(notes: seq<ClinicalRecord>, terms: seq<string>): (r: seq<bool>)
    ensures |r| == |notes|
    ensures forall k :: 0 <= k < |notes| ==> r[k] == MentionsAny(Lower(notes[k].content), terms)
  {
    seq(|notes|, k requires 0 <= k < |notes| => MentionsAny(Lower(notes[k].content), terms))
  }

  /** The running flag after a sequence of observations: raised once any is true. */
  predicate AnySeen(seen: seq<bool>)
  {
    |seen| > 0 && (seen[|seen| - 1] || AnySeen(seen[..|seen| - 1]))
  }

  /** The running flag after one more observation. */
  lemma StepSeen(seen: seq<bool>, i: nat)
    requires i < |seen|
    ensures AnySeen(seen[..i + 1]) == (AnySeen(seen[..i]) || seen[i])
  {
    assert seen[..i + 1][..i] == seen[..i];
  }

  /** The running flag is raised iff some observation is true. */
  lemma {:induction false} AnySeenIff(seen: seq<bool>)
    ensures AnySeen(seen) <==> exists k :: 0 <= k < |seen| && seen[k]
  {
    if |seen| > 0 {
      var init := seen[..|seen| - 1];
      AnySeenIff(init);
      if AnySeen(init) {
        var k :| 0 <= k < |init| && init[k];
        assert seen[k];
      }
      if exists k :: 0 <= k < |seen| && seen[k] {
        var k :| 0 <= k < |seen| && seen[k];
        if k < |init| { assert init[k]; }
      }
    }
  }

  /** Folding the per-note observations gives the flag of the summary. */
  lemma NoteMentionsFlag(notes: seq<ClinicalRecord>, terms: seq<string>)
    ensures AnySeen(NoteMentions(notes, terms)) == AnyNoteMentions(notes, terms)
  {
    var seen := NoteMentions(notes, terms);
    AnySeenIff(seen);
    if AnyNoteMentions(notes, terms) {
      var k :| 0 <= k < |notes| && MentionsAny(Lower(notes[k].content), terms);
      assert seen[k];
    }
  }

  /** The running score after one more note: that note's score if it reports one, else unchanged. */
  lemma StepScore(reports: seq<Option<nat>>, i: nat)
    requires i < |reports|
    ensures LastReported(reports[..i + 1])
            == match reports[i] case Some(v) => v case None => LastReported(reports[..i])
  {
    assert reports[..i + 1][..i] == reports[..i];
  }

  /**
   * The forEach callback: folds one note into the four running values it
   * captures.  A score is overwritten only when the note matches its
   * pattern; a flag is only ever raised.
   */
  method VisitRecord(record: ClinicalRecord, ciwaArScore: nat, cowsScore: nat, hasSeizureHistory: bool, hasDTHistory: bool)
    returns (ciwaArScore': nat, cowsScore': nat, hasSeizureHistory': bool, hasDTHistory': bool)
    ensures ciwaArScore' == match NoteScore(CiwaArScore, record) case Some(v) => v case None => ciwaArScore
    ensures cowsScore' == match NoteScore(CowsScore, record) case Some(v) => v case None => cowsScore
    ensures hasSeizureHistory' == (hasSeizureHistory || MentionsAny(Lower(record.content), SeizureTerms))
    ensures hasDTHistory' == (hasDTHistory || MentionsAny(Lower(record.content), DtTerms))
  {
    ciwaArScore', cowsScore', hasSeizureHistory', hasDTHistory' := ciwaArScore, cowsScore, hasSeizureHistory, hasDTHistory;
    var content := Lower(record.content);
    var ciwaMatch := FirstMatch(CiwaArScore, content);
    if ciwaMatch.Some? {
      ciwaArScore' := ciwaMatch.value.number;
    }
    var cowsMatch := FirstMatch(CowsScore, content);
    if cowsMatch.Some? {
      cowsScore' := cowsMatch.value.number;
    }
    if Contains(content, "seizure") || Contains(content, "grand mal") {
      hasSeizureHistory' := true;
    }
    if Contains(content, "dt") || Contains(content, "delirium tremens") {
      hasDTHistory' := true;
    }
    MentionsTwo(content, "seizure", "grand mal");
    MentionsTwo(content, "dt", "delirium tremens");
  }

  /** The four running values after folding the first `i` notes. */
  ghost predicate Folded(records: seq<ClinicalRecord>, i: nat, ciwaArScore: nat, cowsScore: nat,
                         hasSeizureHistory: bool, hasDTHistory: bool)
    requires i <= |records|
  {
    ciwaArScore == LastReported(NoteScores(CiwaArScore, records)[..i])
    && cowsScore == LastReported(NoteScores(CowsScore, records)[..i])
    && hasSeizureHistory == AnySeen(NoteMentions(records, SeizureTerms)[..i])
    && hasDTHistory == AnySeen(NoteMentions(records, DtTerms)[..i])
  }

  /** Visiting note `i` advances the fold by one note. */
  lemma FoldStep(records: seq<ClinicalRecord>, i: nat,
                 ciwaArScore: nat, cowsScore: nat, hasSeizureHistory: bool, hasDTHistory: bool,
                 ciwaArScore': nat, cowsScore': nat, hasSeizureHistory': bool, hasDTHistory': bool)
    requires i < |records|
    requires Folded(records, i, ciwaArScore, cowsScore, hasSeizureHistory, hasDTHistory)
    requires ciwaArScore' == match NoteScore(CiwaArScore, records[i]) case Some(v) => v case None => ciwaArScore
    requires cowsScore' == match NoteScore(CowsScore, records[i]) case Some(v) => v case None => cowsScore
    requires hasSeizureHistory' == (hasSeizureHistory || MentionsAny(Lower(records[i].content), SeizureTerms))
    requires hasDTHistory' == (hasDTHistory || MentionsAny(Lower(records[i].content), DtTerms))
    ensures Folded(records, i + 1, ciwaArScore', cowsScore', hasSeizureHistory', hasDTHistory')
  {
    StepScore(NoteScores(CiwaArScore, records), i);
    StepScore(NoteScores(CowsScore, records), i);
    StepSeen(NoteMentions(records, SeizureTerms), i);
    StepSeen(NoteMentions(records, DtTerms), i);
  }

  /** Folding every note yields the scores and flags of the summary. */
  lemma WholePrefix<T>(s: seq<T>)
    ensures s[..|s|] == s
  {
  }

  lemma FoldDone(records: seq<ClinicalRecord>, ciwaArScore: nat, cowsScore: nat, hasSeizureHistory: bool, hasDTHistory: bool)
    requires Folded(records, |records|, ciwaArScore, cowsScore, hasSeizureHistory, hasDTHistory)
    ensures ciwaArScore == LatestScore(CiwaArScore, records) && cowsScore == LatestScore(CowsScore, records)
    ensures hasSeizureHistory == AnyNoteMentions(records, SeizureTerms)
    ensures hasDTHistory == AnyNoteMentions(records, DtTerms)
  {
    WholePrefix(NoteScores(CiwaArScore, records));
    WholePrefix(NoteScores(CowsScore, records));
    WholePrefix(NoteMentions(records, SeizureTerms));
    WholePrefix(NoteMentions(records, DtTerms));
    NoteMentionsFlag(records, SeizureTerms);
    NoteMentionsFlag(records, DtTerms);
  }

  /** extractClinicalInfo (src/app/api/generate-pa/route.ts). */
  method ExtractClinicalInfo(p: Patient) returns (info: ClinicalInfo)
    ensures info == ClinicalInfoOf(p)
  {
    var records := p.clinicalRecords;
    var latestRecord := if |records| > 0 then Some(records[|records| - 1]) else None;
    var primaryDiagnosis := if |p.diagnoses| > 0 then Some(p.diagnoses[0]) else None;

    var ciwaArScore: nat := 0;
    var cowsScore: nat := 0;
    var hasSeizureHistory := false;
    var hasDTHistory := false;

    var i := 0;
    while i < |records|
      invariant 0 <= i <= |records|
      invariant Folded(records, i, ciwaArScore, cowsScore, hasSeizureHistory, hasDTHistory)
    {
      var ciwaArScore', cowsScore', hasSeizureHistory', hasDTHistory' :=
        VisitRecord(records[i], ciwaArScore, cowsScore, hasSeizureHistory, hasDTHistory);
      FoldStep(records, i, ciwaArScore, cowsScore, hasSeizureHistory, hasDTHistory,
               ciwaArScore', cowsScore', hasSeizureHistory', hasDTHistory');
      ciwaArScore, cowsScore, hasSeizureHistory, hasDTHistory := ciwaArScore', cowsScore', hasSeizureHistory', hasDTHistory';
      i := i + 1;
    }
    FoldDone(records, ciwaArScore, cowsScore, hasSeizureHistory, hasDTHistory);

    info := ClinicalInfo(latestRecord, primaryDiagnosis, ciwaArScore, cowsScore,
                         hasSeizureHistory, hasDTHistory, p.diagnoses, p.medications, p.labResults);
  }

  // ---------------------------------------------------------------------
  // Properties of the extraction
  // ---------------------------------------------------------------------

  /** Last report wins: the running value is the last report there is. */
  lemma {:induction false} LastReportWins(reports: seq<Option<nat>>, k: nat)
    requires k < |reports| && reports[k].Some?
    requires forall j :: k < j < |reports| ==> reports[j].None?
    ensures LastReported(reports) == reports[k].value
  {
    if k < |reports| - 1 {
      var init := reports[..|reports| - 1];
      assert forall j :: k < j < |init| ==> init[j] == reports[j];
      LastReportWins(init, k);
    }
  }

  /** With no report at all the running value keeps its initial 0. */
  lemma {:induction false} NoReportKeepsZero(reports: seq<Option<nat>>)
    requires forall j :: 0 <= j < |reports| ==> reports[j].None?
    ensures LastReported(reports) == 0
  {
    if |reports| > 0 {
      var init := reports[..|reports| - 1];
      assert forall j :: 0 <= j < |init| ==> init[j] == reports[j];
      NoReportKeepsZero(init);
    }
  }

  /** A report followed only by empty reports is the running value. */
  lemma ReportThenSilence(front: seq<Option<nat>>, v: Option<nat>, back: seq<Option<nat>>)
    requires v.Some? && forall j :: 0 <= j < |back| ==> back[j].None?
    ensures LastReported(front + [v] + back) == v.value
  {
    var reports := front + [v] + back;
    assert forall j :: |front| < j < |reports| ==> reports[j] == back[j - |front| - 1];
    LastReportWins(reports, |front|);
  }

  /** A nonzero running value was reported by some entry. */
  lemma {:induction false} ReportedValue(reports: seq<Option<nat>>)
    ensures LastReported(reports) == 0
            || exists k :: 0 <= k < |reports| && reports[k] == Some(LastReported(reports))
  {
    if |reports| > 0 && reports[|reports| - 1].None? {
      var init := reports[..|reports| - 1];
      ReportedValue(init);
      if LastReported(init) != 0 {
        var k :| 0 <= k < |init| && init[k] == Some(LastReported(init));
        assert reports[k] == init[k];
      }
    }
  }

  /** An empty report can be inserted anywhere without changing the running value. */
  lemma {:induction false} EmptyReportIgnored(a: seq<Option<nat>>, b: seq<Option<nat>>)
    ensures LastReported(a + [None] + b) == LastReported(a + b)
  {
    if |b| == 0 {
      assert a + [None] + b == a + [None];
      assert (a + [None])[..|a|] == a;
      assert a + b == a;
    } else {
      var b' := b[..|b| - 1];
      assert (a + [None] + b)[..|a + [None] + b| - 1] == a + [None] + b';
      assert (a + b)[..|a + b| - 1] == a + b';
      EmptyReportIgnored(a, b');
    }
  }

  /** Last match wins: the score is the one of the last note that reports one. */
  lemma LastMatchWins(scale: Pattern, notes: seq<ClinicalRecord>, k: nat)
    requires k < |notes| && NoteScore(scale, notes[k]).Some?
    requires forall j :: k < j < |notes| ==> NoteScore(scale, notes[j]).None?
    ensures LatestScore(scale, notes) == NoteScore(scale, notes[k]).value
  {
    LastReportWins(NoteScores(scale, notes), k);
  }

  /** A scale no note reports keeps its initial value 0. */
  lemma NoMatchKeepsZero(scale: Pattern, notes: seq<ClinicalRecord>)
    requires forall j :: 0 <= j < |notes| ==> NoteScore(scale, notes[j]).None?
    ensures LatestScore(scale, notes) == 0
  {
    NoReportKeepsZero(NoteScores(scale, notes));
  }

  /** A note that reports no score can be inserted anywhere without changing the score. */
  lemma UnscoredNoteIgnored(scale: Pattern, a: seq<ClinicalRecord>, n: ClinicalRecord, b: seq<ClinicalRecord>)
    requires NoteScore(scale, n).None?
    ensures LatestScore(scale, a + [n] + b) == LatestScore(scale, a + b)
  {
    NoteScoresAppend(scale, a, [n]);
    NoteScoresAppend(scale, a + [n], b);
    NoteScoresAppend(scale, a, b);
    assert NoteScores(scale, [n]) == [None];
    EmptyReportIgnored(NoteScores(scale, a), NoteScores(scale, b));
  }

  /** A scored note followed only by unscored notes decides the score. */
  lemma LastScoredNoteWins(scale: Pattern, a: seq<ClinicalRecord>, x: ClinicalRecord, b: seq<ClinicalRecord>)
    requires NoteScore(scale, x).Some?
    requires forall j :: 0 <= j < |b| ==> NoteScore(scale, b[j]).None?
    ensures LatestScore(scale, a + [x] + b) == NoteScore(scale, x).value
  {
    NoteScoresAppend(scale, a, [x]);
    NoteScoresAppend(scale, a + [x], b);
    assert NoteScores(scale, [x]) == [NoteScore(scale, x)];
    ReportThenSilence(NoteScores(scale, a), NoteScore(scale, x), NoteScores(scale, b));
  }

  lemma PairSplit<T>(a: seq<T>, x: T, y: T, b: seq<T>)
    ensures a + [x, y] + b == (a + [x]) + [y] + b
  {
  }

  /** Swapping the two last scored notes swaps the winning score, whatever unscored notes follow them. */
  lemma SwapChangesWinner(scale: Pattern, a: seq<ClinicalRecord>, x: ClinicalRecord, y: ClinicalRecord, b: seq<ClinicalRecord>)
    requires NoteScore(scale, x).Some? && NoteScore(scale, y).Some?
    requires forall j :: 0 <= j < |b| ==> NoteScore(scale, b[j]).None?
    ensures LatestScore(scale, a + [x, y] + b) == NoteScore(scale, y).value
    ensures LatestScore(scale, a + [y, x] + b) == NoteScore(scale, x).value
  {
    PairSplit(a, x, y, b);
    PairSplit(a, y, x, b);
    LastScoredNoteWins(scale, a + [x], y, b);
    LastScoredNoteWins(scale, a + [y], x, b);
  }

  /** The flags are monotone: notes added later never lower a raised flag. */
  lemma FlagsMonotone(a: seq<ClinicalRecord>, b: seq<ClinicalRecord>, terms: seq<string>)
    requires AnyNoteMentions(a, terms)
    ensures AnyNoteMentions(a + b, terms)
  {
    var k :| 0 <= k < |a| && MentionsAny(Lower(a[k].content), terms);
    assert (a + b)[k] == a[k];
  }

  /** A patient without notes gets the defaults: no latest note, scores 0, flags false. */
  lemma NoNotesDefaults(p: Patient)
    requires |p.clinicalRecords| == 0
    ensures var info := ClinicalInfoOf(p);
            && info.latestRecord.None? && info.ciwaArScore == 0 && info.cowsScore == 0
            && !info.hasSeizureHistory && !info.hasDTHistory
  {
  }

  /** The summary's other fields: the last note, the first diagnosis, and the patient's own lists unchanged. */
  lemma SummaryFields(p: Patient)
    ensures var info := ClinicalInfoOf(p);
            var notes := p.clinicalRecords;
            (info.latestRecord.None? <==> |notes| == 0)
            && (info.latestRecord.Some? ==> info.latestRecord.value == notes[|notes| - 1])
            && (info.primaryDiagnosis.None? <==> |p.diagnoses| == 0)
            && (info.primaryDiagnosis.Some? ==> info.primaryDiagnosis.value == p.diagnoses[0])
            && info.allDiagnoses == p.diagnoses && info.medications == p.medications && info.labResults == p.labResults
  {
  }

  /** The seizure flag is raised exactly when some lowercased note says "seizure" or "grand mal". */
  lemma SeizureFlagIff(p: Patient)
    ensures var notes := p.clinicalRecords;
            ClinicalInfoOf(p).hasSeizureHistory
            <==> exists k :: 0 <= k < |notes|
                   && (Contains(Lower(notes[k].content), "seizure") || Contains(Lower(notes[k].content), "grand mal"))
  {
    forall k | 0 <= k < |p.clinicalRecords| {
      MentionsTwo(Lower(p.clinicalRecords[k].content), "seizure", "grand mal");
    }
  }

  /** The delirium-tremens flag is raised exactly when some lowercased note says "dt" or "delirium tremens". */
  lemma DtFlagIff(p: Patient)
    ensures var notes := p.clinicalRecords;
            ClinicalInfoOf(p).hasDTHistory
            <==> exists k :: 0 <= k < |notes|
                   && (Contains(Lower(notes[k].content), "dt") || Contains(Lower(notes[k].content), "delirium tremens"))
  {
    forall k | 0 <= k < |p.clinicalRecords| {
      MentionsTwo(Lower(p.clinicalRecords[k].content), "dt", "delirium tremens");
    }
  }
}
