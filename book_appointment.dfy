/** The legacy booking form: a doctor may hold at most 15 stored bookings,
    counted by exact doctor name. */
module BookAppointment {
  import opened JsValues
  import opened JsArrays
  import opened LocalStorage

  const Capacity: nat := 15

  const BookedMessage: string := "\U{2705} Appointment booked successfully!"

  /** The alert shown when the doctor is full. */
  function FullAlert(doctor: string): string {
    "\U{26A0}\U{FE0F} Sorry, " + doctor + " already has 15 appointments booked!"
  }

  /** The number of stored bookings whose doctor is exactly this name. */
  function CountForDoctor(entries: seq<BookedAppointment>, doctor: string): (r: nat)
    ensures r <= |entries|
    ensures r == 0 <==> forall i :: 0 <= i < |entries| ==> entries[i].doctor != doctor
    ensures r == |set i | 0 <= i < |entries| && entries[i].doctor == doctor|
  {
    var mine := Filter(entries, ForDoctor(doctor));
    DoctorCountIsPositions(entries, doctor);
    if mine == [] then
      FilterKeepsNone(entries, ForDoctor(doctor));
      0
    else
      assert ForDoctor(doctor)(mine[0]);
      |mine|
  }

  /** The bookings under a name are as many as the positions holding one. */
  lemma DoctorCountIsPositions(entries: seq<BookedAppointment>, doctor: string)
    ensures |Filter(entries, ForDoctor(doctor))| == |set i | 0 <= i < |entries| && entries[i].doctor == doctor|
  {
    FilterLengthIsIndexCount(entries, ForDoctor(doctor));
    assert Positions(entries, ForDoctor(doctor)) == set i | 0 <= i < |entries| && entries[i].doctor == doctor;
  }

  /** The stored list a submit leaves behind: None when the doctor already has
      `Capacity` bookings, otherwise the list with the booking appended. */
  function Book(entries: seq<BookedAppointment>, doctor: string, patient: string, date: string)
    : (r: Option<seq<BookedAppointment>>)
    ensures r.None? <==> CountForDoctor(entries, doctor) >= Capacity
    ensures r.Some? ==> |r.value| == |entries| + 1 && r.value[..|entries|] == entries
                        && r.value[|entries|] == BookedAppointment(doctor, patient, date)
  {
    if CountForDoctor(entries, doctor) >= Capacity then None
    else Some(entries + [BookedAppointment(doctor, patient, date)])
  }

  /** A booking adds one to its own doctor's count and leaves every other doctor's as it was. */
  lemma BookCounts(entries: seq<BookedAppointment>, doctor: string, patient: string, date: string, other: string)
    requires Book(entries, doctor, patient, date).Some?
    ensures var after := Book(entries, doctor, patient, date).value;
            CountForDoctor(after, other)
            == CountForDoctor(entries, other) + (if other == doctor then 1 else 0)
  {
    var after := Book(entries, doctor, patient, date).value;
    assert after == entries + [BookedAppointment(doctor, patient, date)];
    ForDoctorAfterAppend(entries, BookedAppointment(doctor, patient, date), other);
  }

  /** No doctor has more than `Capacity` bookings. */
  ghost predicate WithinCapacity(entries: seq<BookedAppointment>) {
    forall doctor :: CountForDoctor(entries, doctor) <= Capacity
  }

  /** Booking through the form never takes a doctor above `Capacity`. */
  lemma BookKeepsCapacity(entries: seq<BookedAppointment>, doctor: string, patient: string, date: string)
    requires WithinCapacity(entries)
    ensures match Book(entries, doctor, patient, date)
            case None => true
            case Some(after) => WithinCapacity(after)
  {
    if Book(entries, doctor, patient, date).Some? {
      var after := Book(entries, doctor, patient, date).value;
      forall other ensures CountForDoctor(after, other) <= Capacity {
        BookCounts(entries, doctor, patient, date, other);
      }
    }
  }

  /** The component's state: the three inputs and the confirmation message. */
  class BookingForm {
    var doctor: string
    var patient: string
    var date: string
    var message: string

    constructor ()
      ensures doctor == "" && patient == "" && date == "" && message == ""
    {
      doctor, patient, date, message := "", "", "", "";
    }

    /** The inputs' `onChange` handlers. */
    method Edit(newDoctor: string, newPatient: string, newDate: string)
      modifies this`doctor, this`patient, this`date
      ensures doctor == newDoctor && patient == newPatient && date == newDate
    {
      doctor, patient, date := newDoctor, newPatient, newDate;
    }

    /** `handleSubmit`: reject with an alert when the doctor is full, leaving
        storage and form as they were; otherwise store the booking, show the
        confirmation and clear the inputs. */
    method HandleSubmit(storage: BrowserStorage) returns (alert: Option<string>)
      modifies storage`appointments, this`doctor, this`patient, this`date, this`message
      ensures var before := StoredOrEmpty(old(storage.appointments));
              match Book(before, old(doctor), old(patient), old(date))
              case None =>
                && alert == Some(FullAlert(old(doctor)))
                && storage.appointments == old(storage.appointments)
                && doctor == old(doctor) && patient == old(patient) && date == old(date)
                && message == old(message)
              case Some(after) =>
                && alert.None?
                && storage.appointments == Some(after)
                && doctor == "" && patient == "" && date == ""
                && message == BookedMessage
    {
      var appointments := StoredOrEmpty(storage.appointments);
      var doctorAppointments := Filter(appointments, ForDoctor(doctor));
      if |doctorAppointments| >= Capacity {
        alert := Some(FullAlert(doctor));
        return;
      }
      appointments := appointments + [BookedAppointment(doctor, patient, date)];
      storage.appointments := Some(appointments);
      message := BookedMessage;
      doctor, patient, date := "", "", "";
      alert := None;
    }

    /** The timer set on success, three seconds later, clears the message. */
    method MessageTimeout()
      modifies this`message
      ensures message == ""
    {
      message := "";
    }
  }
}
