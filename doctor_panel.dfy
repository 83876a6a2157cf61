/** The legacy doctor panel: the stored bookings made under the logged-in
    doctor's name, and a form that stores a prescription once both a patient
    and its text are entered. */
module DoctorPanel {
  import opened JsValues
  import opened JsArrays
  import opened LocalStorage

  const RejectAlert: string := "Select a patient and add prescription!"
  const SentAlert: string := "Prescription sent!"

  /** The bookings the panel lists: exactly those under the doctor's name, in stored order. */
  function AppointmentsOf(stored: Option<seq<BookedAppointment>>, userName: string): (r: seq<BookedAppointment>)
    ensures IsSubsequence(r, StoredOrEmpty(stored))
    ensures forall k :: 0 <= k < |r| ==> r[k].doctor == userName
    ensures forall i :: 0 <= i < |StoredOrEmpty(stored)| && StoredOrEmpty(stored)[i].doctor == userName
                        ==> StoredOrEmpty(stored)[i] in r
    ensures forall x :: multiset(r)[x] == if x.doctor == userName then multiset(StoredOrEmpty(stored))[x] else 0
  {
    FilterMultiset(StoredOrEmpty(stored), ForDoctor(userName));
    Filter(StoredOrEmpty(stored), ForDoctor(userName))
  }

  /** A booking made under the doctor's name is listed last; one under another name is not listed. */
  lemma BookingIsListed(entries: seq<BookedAppointment>, b: BookedAppointment, userName: string)
    ensures AppointmentsOf(Some(entries + [b]), userName)
            == AppointmentsOf(Some(entries), userName) + (if b.doctor == userName then [b] else [])
  {
    ForDoctorAfterAppend(entries, b, userName);
  }

  /** The stored prescriptions a send leaves behind: None when the patient or
      the text is empty, otherwise the list with the prescription appended. */
  function Send(prescriptions: seq<SentPrescription>, userName: string, patient: string, details: string)
    : (r: Option<seq<SentPrescription>>)
    ensures r.None? <==> patient == "" || details == ""
    ensures r.Some? ==> |r.value| == |prescriptions| + 1 && r.value[..|prescriptions|] == prescriptions
                        && r.value[|prescriptions|] == SentPrescription(userName, patient, details)
  {
    if patient == "" || details == "" then None
    else Some(prescriptions + [SentPrescription(userName, patient, details)])
  }

  /** The component for the doctor `user.name`. */
  class DoctorPanelView {
    const userName: string
    var appointments: seq<BookedAppointment>
    var prescription: string
    var selectedPatient: string

    constructor (userName: string)
      ensures this.userName == userName
      ensures appointments == [] && prescription == "" && selectedPatient == ""
    {
      this.userName := userName;
      appointments, prescription, selectedPatient := [], "", "";
    }

    /** The mount effect: load the stored bookings and keep the doctor's own. */
    method LoadAppointments(storage: BrowserStorage)
      modifies this`appointments
      ensures appointments == AppointmentsOf(storage.appointments, userName)
    {
      var data := StoredOrEmpty(storage.appointments);
      appointments := Filter(data, ForDoctor(userName));
    }

    /** The patient input's and the text area's `onChange` handlers. */
    method Edit(patient: string, details: string)
      modifies this`selectedPatient, this`prescription
      ensures selectedPatient == patient && prescription == details
    {
      selectedPatient, prescription := patient, details;
    }

    /** `sendPrescription`: rejected with an alert when the patient or the text
        is empty; otherwise stored, and the text cleared while the patient stays. */
    method SendPrescription(storage: BrowserStorage) returns (alert: string)
      modifies storage`prescriptions, this`prescription
      ensures match Send(StoredOrEmpty(old(storage.prescriptions)), userName, selectedPatient, old(prescription))
              case None =>
                alert == RejectAlert && storage.prescriptions == old(storage.prescriptions)
                && prescription == old(prescription)
              case Some(after) =>
                alert == SentAlert && storage.prescriptions == Some(after) && prescription == ""
    {
      if selectedPatient == "" || prescription == "" {
        alert := RejectAlert;
        return;
      }
      var prescriptions := StoredOrEmpty(storage.prescriptions);
      prescriptions := prescriptions + [SentPrescription(userName, selectedPatient, prescription)];
      storage.prescriptions := Some(prescriptions);
      alert := SentAlert;
      prescription := "";
    }
  }
}
