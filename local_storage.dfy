/** The browser storage the legacy panels share. Each key holds a JSON list
    that a handler reads whole and writes back whole; the entries are the
    name-keyed records those panels write. */
module LocalStorage {
  import opened JsValues
  import opened JsArrays

  /** `{doctor, patient, date}` as BookAppointment stores it. */
  datatype BookedAppointment = BookedAppointment(doctor: string, patient: string, date: string)

  /** `{name, email, password, role}` as Register stores it. */
  datatype RegisteredUser = RegisteredUser(name: string, email: string, password: string, role: string)

  /** `{doctor, patient, details}` as DoctorPanel stores it. */
  datatype SentPrescription = SentPrescription(doctor: string, patient: string, details: string)

  /** The keys `appointments`, `prescriptions` and `registeredUsers`; None is a key never written. */
  class BrowserStorage {
    var appointments: Option<seq<BookedAppointment>>
    var prescriptions: Option<seq<SentPrescription>>
    var registeredUsers: Option<seq<RegisteredUser>>

    /** Storage in which nothing has been written yet. */
    constructor ()
      ensures appointments.None? && prescriptions.None? && registeredUsers.None?
    {
      appointments := None;
      prescriptions := None;
      registeredUsers := None;
    }
  }

  /** `JSON.parse(localStorage.getItem(key)) || []`: a missing key reads as the empty list. */
  function StoredOrEmpty<T>(stored: Option<seq<T>>): seq<T> {
    match stored
    case None => []
    case Some(items) => items
  }

  /** `a => a.doctor === name`, the filter BookAppointment counts with and DoctorPanel shows. */
  function ForDoctor(name: string): BookedAppointment -> bool {
    (a: BookedAppointment) => a.doctor == name
  }

  /** A new booking shows up, last, in its own doctor's list, and in no other doctor's. */
  lemma ForDoctorAfterAppend(entries: seq<BookedAppointment>, b: BookedAppointment, name: string)
    ensures Filter(entries + [b], ForDoctor(name))
            == Filter(entries, ForDoctor(name)) + (if b.doctor == name then [b] else [])
  {
    FilterSnoc(entries, b, ForDoctor(name));
  }
}
