/**
 * The prior authorization form (generatePAForm): one record built from the
 * patient, the extracted clinical summary, the requested level of care and
 * today's day number.
 */
module PaForm {
  import opened Wrappers
  import opened Text
  import opened Records
  import opened ClinicalExtraction
  import opened Scanners
  import opened Patterns
  import opened Justification

  const FacilityName := "Arkansas Behavioral Health Center"
  const Npi := "1234567890"
  const ContactPerson := "Dr. Sarah Johnson, MD"
  const Phone := "(501) 555-0123"
  const Fax := "(501) 555-0124"
  const ProviderName := "Dr. Sarah Johnson, MD"
  const LicenseNumber := "MD12345"

  /** Length of the authorization window in days. */
  function WindowDays(serviceType: string): nat
  {
    if serviceType == "PHP" then 14 else 30
  }

  function RequestDuration(serviceType: string): string
  {
    if serviceType == "PHP" then "14 days" else "30 days"
  }

  /** The codes of the diagnoses, in order. */
  function Codes(diagnoses: seq<Diagnosis>): seq<string>
  {
    seq(|diagnoses|, k requires 0 <= k < |diagnoses| => diagnoses[k].code)
  }

  /** Every diagnosis but the first (`slice(1)`, empty for an empty list). */
  function AfterFirst(diagnoses: seq<Diagnosis>): seq<Diagnosis>
  {
    if |diagnoses| == 0 then [] else diagnoses[1..]
  }

  function GeneratePAForm(p: Patient, info: ClinicalInfo, serviceType: string, today: int): (r: PAForm)
    ensures r.authStartDate == today && r.date == today
    ensures r.facilityName == FacilityName && r.npi == Npi && r.contactPerson == ContactPerson
            && r.phone == Phone && r.fax == Fax && r.providerSignature == ""
            && r.providerName == ProviderName && r.licenseNumber == LicenseNumber
  {
    PAForm(
      p.demographics.name, p.demographics.dob, p.demographics.memberId,
      match info.latestRecord case Some(record) => record.date case None => today,
      today, today + WindowDays(serviceType),
      FacilityName, Npi, ContactPerson, Phone, Fax,
      serviceType, RequestDuration(serviceType),
      match info.primaryDiagnosis case Some(d) => d.code case None => "",
      Codes(AfterFirst(info.allDiagnoses)),
      SubstanceUse(LastUseDate(p, today), SubstanceFrequency(p), SubstanceAmount(p), SubstanceRoute(p)),
      CurrentSymptoms(p),
      WithdrawalRisk(info.ciwaArScore, info.cowsScore, info.hasSeizureHistory, info.hasDTHistory),
      PreviousTreatment(p), RelapseHistory(p),
      MedicalNecessity(p, info, serviceType), TreatmentGoals(p, serviceType), DischargePlanning(p, serviceType),
      "", today, ProviderName, LicenseNumber)
  }

  /** The requested duration names the window length. */
  lemma DurationNamesWindow(serviceType: string)
    ensures RequestDuration(serviceType) == DecimalString(WindowDays(serviceType)) + " days"
  {
    if serviceType == "PHP" {
      assert DecimalString(14) == DecimalString(1) + [DigitChar(4)];
    } else {
      assert DecimalString(30) == DecimalString(3) + [DigitChar(0)];
    }
  }

  /** The authorization runs from today for 14 days exactly when PHP is requested, 30 days otherwise, and the requested duration says so. */
  lemma AuthorizationWindow(p: Patient, info: ClinicalInfo, serviceType: string, today: int)
    ensures var f := GeneratePAForm(p, info, serviceType, today);
            f.authStartDate == today
            && (f.authEndDate == today + 14 <==> serviceType == "PHP")
            && (serviceType != "PHP" ==> f.authEndDate == today + 30)
            && f.initialRequestDuration == DecimalString(f.authEndDate - f.authStartDate) + " days"
  {
    var f := GeneratePAForm(p, info, serviceType, today);
    DurationNamesWindow(serviceType);
    assert f.authEndDate - f.authStartDate == WindowDays(serviceType);
  }

  /** The form of the patient's own summary. */
  function FormOf(p: Patient, serviceType: string, today: int): PAForm
  {
    GeneratePAForm(p, ClinicalInfoOf(p), serviceType, today)
  }

  /** The primary diagnosis is the first code, "" without diagnoses; the additional ones are all other codes, in order. */
  lemma DiagnosisFields(p: Patient, serviceType: string, today: int)
    ensures var f := FormOf(p, serviceType, today);
            var n := |p.diagnoses|;
            f.primaryDiagnosis == (if n == 0 then "" else p.diagnoses[0].code)
            && |f.additionalDiagnoses| == (if n == 0 then 0 else n - 1)
            && forall k :: 0 <= k < |f.additionalDiagnoses| ==> f.additionalDiagnoses[k] == p.diagnoses[k + 1].code
  {
    var f := FormOf(p, serviceType, today);
    assert f.primaryDiagnosis == (match ClinicalInfoOf(p).primaryDiagnosis case Some(d) => d.code case None => "");
    assert f.additionalDiagnoses == Codes(AfterFirst(p.diagnoses));
    AdditionalCodes(p.diagnoses);
  }

  /** The codes after the first, one per diagnosis but the first, in order. */
  lemma AdditionalCodes(diagnoses: seq<Diagnosis>)
    ensures var c := Codes(AfterFirst(diagnoses));
            |c| == (if |diagnoses| == 0 then 0 else |diagnoses| - 1)
            && forall k :: 0 <= k < |c| ==> c[k] == diagnoses[k + 1].code
  {
  }

  /** The diagnosis date is the date of the last note, today when there is none. */
  lemma DiagnosisDateFromLatestNote(p: Patient, serviceType: string, today: int)
    ensures var notes := p.clinicalRecords;
            FormOf(p, serviceType, today).diagnosisDate == (if |notes| == 0 then today else notes[|notes| - 1].date)
  {
  }

  /** The withdrawal section reports the last score of each scale and whether any note raises each flag. */
  lemma WithdrawalSection(p: Patient, serviceType: string, today: int)
    ensures var w := FormOf(p, serviceType, today).withdrawalRisk;
            var notes := p.clinicalRecords;
            w.ciwaArScore == LatestScore(CiwaArScore, notes) && w.cowsScore == LatestScore(CowsScore, notes)
            && (w.historyOfSeizures <==> exists k :: 0 <= k < |notes| && MentionsAny(Lower(notes[k].content), SeizureTerms))
            && (w.historyOfDTs <==> exists k :: 0 <= k < |notes| && MentionsAny(Lower(notes[k].content), DtTerms))
  {
    var info := ClinicalInfoOf(p);
    assert FormOf(p, serviceType, today).withdrawalRisk
           == WithdrawalRisk(info.ciwaArScore, info.cowsScore, info.hasSeizureHistory, info.hasDTHistory);
  }

  /** A patient without notes gets the empty-chart form: today's date, no withdrawal risk, and every scanner's default. */
  lemma NoNotesForm(p: Patient, serviceType: string, today: int)
    requires |p.clinicalRecords| == 0
    ensures var f := FormOf(p, serviceType, today);
            f.diagnosisDate == today
            && f.withdrawalRisk == WithdrawalRisk(0, 0, false, false)
            && f.substanceUse == SubstanceUse(today, "Unknown", "Unknown", "Unknown")
            && f.currentSymptoms == SymptomFallback
            && f.previousTreatment == TreatmentFallback
            && f.relapseHistory == RelapseNone
  {
    NoNotesDefaults(p);
    NoNotesNoMatch(p, LastUse);
    NoNotesNoMatch(p, Amount);
    NoNotesFrequencyUnknown(p);
    NoNotesRouteUnknown(p);
    NoNotesSymptomFallback(p);
    NoNotesTreatmentFallback(p);
    NoNotesNoMention(p, "relapse");
  }
}
