/**
 * Patient lookup (getPatientById): the first patient of the list whose
 * identifier equals the one asked for.
 */
module PatientData {
  import opened Wrappers
  import opened Records

  /** `patients.find(p => p.patient_id === patientId)`: None stands for undefined. */
  function GetPatientById(patients: seq<Patient>, patientId: string): (r: Option<Patient>)
    ensures r.None? <==> forall k :: 0 <= k < |patients| ==> patients[k].patientId != patientId
    ensures r.Some? ==> r.value.patientId == patientId && r.value in patients
  {
    if |patients| == 0 then None
    else if patients[0].patientId == patientId then Some(patients[0])
    else GetPatientById(patients[1..], patientId)
  }

  /** The first patient with the identifier is the one found, whatever follows it. */
  lemma {:induction false} FoundIsFirst(patients: seq<Patient>, patientId: string, k: nat)
    requires k < |patients| && patients[k].patientId == patientId
    requires forall j :: 0 <= j < k ==> patients[j].patientId != patientId
    ensures GetPatientById(patients, patientId) == Some(patients[k])
  {
    if k > 0 {
      FoundIsFirst(patients[1..], patientId, k - 1);
    }
  }

  /** Patients added after a match do not change the result. */
  lemma {:induction false} LaterPatientsIgnored(patients: seq<Patient>, more: seq<Patient>, patientId: string)
    requires GetPatientById(patients, patientId).Some?
    ensures GetPatientById(patients + more, patientId) == GetPatientById(patients, patientId)
  {
    if patients[0].patientId != patientId {
      assert (patients + more)[1..] == patients[1..] + more;
      LaterPatientsIgnored(patients[1..], more, patientId);
    }
  }
}
