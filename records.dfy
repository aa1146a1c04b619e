/**
 * The record shapes the engine reads and writes: a patient with its clinical
 * notes, diagnoses, medications and laboratory results, and the prior
 * authorization form.  Calendar dates are day numbers.
 */
module Records {

  datatype Demographics = Demographics(name: string, dob: string, memberId: string, address: string)

  /** One clinical note: its day number, note-type tag, author and free text. */
  datatype ClinicalRecord = ClinicalRecord(date: int, noteType: string, provider: string, content: string)

  datatype Diagnosis = Diagnosis(code: string, description: string)

  datatype LabResult = LabResult(date: int, test: string, result: string, reference: string)

  datatype Patient = Patient(
    patientId: string,
    demographics: Demographics,
    clinicalRecords: seq<ClinicalRecord>,
    diagnoses: seq<Diagnosis>,
    medications: seq<string>,
    labResults: seq<LabResult>)

  datatype SubstanceUse = SubstanceUse(lastUseDate: int, frequency: string, amount: string, route: string)

  datatype WithdrawalRisk = WithdrawalRisk(
    ciwaArScore: nat, cowsScore: nat, historyOfSeizures: bool, historyOfDTs: bool)

  /** The prior authorization request form, section by section. */
  datatype PAForm = PAForm(
    // Section 1: member information
    memberName: string, dob: string, memberId: string,
    diagnosisDate: int, authStartDate: int, authEndDate: int,
    // Section 2: provider information
    facilityName: string, npi: string, contactPerson: string, phone: string, fax: string,
    // Section 3: service requested
    serviceType: string, initialRequestDuration: string,
    // Section 4: clinical information
    primaryDiagnosis: string, additionalDiagnoses: seq<string>,
    substanceUse: SubstanceUse, currentSymptoms: string, withdrawalRisk: WithdrawalRisk,
    // Section 5: treatment history
    previousTreatment: string, relapseHistory: string,
    // Section 6: medical necessity justification
    medicalNecessityJustification: string, treatmentGoals: string, dischargePlanning: string,
    // Section 7: provider attestation
    providerSignature: string, date: int, providerName: string, licenseNumber: string)
}
