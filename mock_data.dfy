/** The seed collections the data layer starts from. The appointment,
    prescription, patient and order dates are relative to the day the module is
    loaded, so those collections take today's, tomorrow's and yesterday's date
    strings (`YYYY-MM-DD`) as parameters. Money is in cents and a doctor's
    rating in tenths, because numbers are integers in this model. */
module MockData {
  import opened JsValues

  function User(id: int, email: string, password: string, role: string, name: string, avatar: string)
    : JsObject
  {
    map["id" := Num(id), "email" := Str(email), "password" := Str(password), "role" := Str(role),
        "name" := Str(name), "avatar" := Str(avatar)]
  }

  function Users(): seq<JsObject>
  {
    [
      User(1, "admin@medical.com", "admin123", "admin", "Admin User", "A"),
      User(2, "doctor@medical.com", "doctor123", "doctor", "Dr. Sarah Johnson", "SJ")
        ["specialization" := Str("Cardiologist")],
      User(3, "patient@medical.com", "patient123", "patient", "John Doe", "JD")["age" := Num(35)],
      User(4, "pharmacist@medical.com", "pharmacist123", "pharmacist", "Emily Chen", "EC")
        ["pharmacyName" := Str("City Pharmacy")]
    ]
  }

  function Slots(times: seq<string>): Value {
    List(seq(|times|, i requires 0 <= i < |times| => Str(times[i])))
  }

  function Doctor(id: int, name: string, specialization: string, experience: int, rating: int,
                  slots: seq<string>): JsObject
  {
    map["id" := Num(id), "name" := Str(name), "specialization" := Str(specialization),
        "experience" := Num(experience), "rating" := Num(rating), "availableSlots" := Slots(slots)]
  }

  function Doctors(): seq<JsObject>
  {
    [
      Doctor(1, "Dr. Sarah Johnson", "Cardiologist", 10, 48, ["09:00", "10:00", "11:00", "14:00", "15:00"]),
      Doctor(2, "Dr. Michael Brown", "Dermatologist", 8, 46, ["09:00", "10:00", "14:00", "15:00", "16:00"]),
      Doctor(3, "Dr. Lisa Anderson", "Pediatrician", 12, 49, ["09:00", "10:00", "11:00", "12:00", "14:00"]),
      Doctor(4, "Dr. Robert Wilson", "Neurologist", 15, 47, ["10:00", "11:00", "14:00", "15:00", "16:00"])
    ]
  }

  function Appointment(id: int, patientId: int, patientName: string, doctorId: int,
                       doctorName: string, date: string, time: string, status: string,
                       notes: string): JsObject
  {
    map["id" := Num(id), "patientId" := Num(patientId), "patientName" := Str(patientName),
        "doctorId" := Num(doctorId), "doctorName" := Str(doctorName), "date" := Str(date),
        "time" := Str(time), "status" := Str(status), "type" := Str("consultation"),
        "notes" := Str(notes)]
  }


  function Appointments(today: string, tomorrow: string, yesterday: string): seq<JsObject> {
    [ Appointment(1, 3, "John Doe", 1, "Dr. Sarah Johnson", today, "10:00", "confirmed", "Regular checkup"),
      Appointment(2, 3, "John Doe", 2, "Dr. Michael Brown", tomorrow, "14:00", "pending", ""),
      Appointment(3, 5, "Jane Smith", 1, "Dr. Sarah Johnson", today, "11:00", "confirmed", "Follow-up appointment"),
      Appointment(4, 3, "John Doe", 1, "Dr. Sarah Johnson", yesterday, "15:00", "completed", "Previous visit") ]
  }

  function Medication(name: string, dosage: string, frequency: string, duration: string): Value {
    Obj(map["name" := Str(name), "dosage" := Str(dosage), "frequency" := Str(frequency),
            "duration" := Str(duration)])
  }

  function Prescription(id: int, patientId: int, patientName: string, doctorId: int,
                        doctorName: string, date: string, medications: seq<Value>,
                        status: string, notes: string): JsObject
  {
    map["id" := Num(id), "patientId" := Num(patientId), "patientName" := Str(patientName),
        "doctorId" := Num(doctorId), "doctorName" := Str(doctorName), "date" := Str(date),
        "medications" := List(medications), "status" := Str(status), "notes" := Str(notes)]
  }

  function Prescriptions(yesterday: string): seq<JsObject> {
    [ Prescription(1, 3, "John Doe", 1, "Dr. Sarah Johnson", yesterday,
                   [Medication("Aspirin", "100mg", "Once daily", "7 days"),
                    Medication("Metformin", "500mg", "Twice daily", "30 days")],
                   "pending", "Take with food"),
      Prescription(2, 3, "John Doe", 2, "Dr. Michael Brown", yesterday,
                   [Medication("Cetirizine", "10mg", "Once daily", "5 days")],
                   "completed", "For allergy relief"),
      Prescription(3, 5, "Jane Smith", 1, "Dr. Sarah Johnson", yesterday,
                   [Medication("Ibuprofen", "200mg", "Twice daily", "5 days")],
                   "pending", "Take after meals") ]
  }

  function Patients(yesterday: string): seq<JsObject> {
    [ map["id" := Num(3), "name" := Str("John Doe"), "age" := Num(35), "gender" := Str("Male"),
          "email" := Str("patient@medical.com"), "phone" := Str("+1234567890"),
          "medicalHistory" := List([Str("Hypertension"), Str("Type 2 Diabetes")]),
          "lastVisit" := Str(yesterday)],
      map["id" := Num(5), "name" := Str("Jane Smith"), "age" := Num(28), "gender" := Str("Female"),
          "email" := Str("jane@example.com"), "phone" := Str("+1234567891"),
          "medicalHistory" := List([Str("Asthma")]),
          "lastVisit" := Str(yesterday)] ]
  }

  function OrderItem(name: string, quantity: int): Value {
    Obj(map["name" := Str(name), "quantity" := Num(quantity)])
  }

  function PharmacyOrder(id: int, prescriptionId: int, patientName: string, items: seq<Value>,
                         status: string, orderDate: string, cents: int): JsObject
  {
    map["id" := Num(id), "prescriptionId" := Num(prescriptionId), "patientName" := Str(patientName),
        "medications" := List(items), "status" := Str(status), "orderDate" := Str(orderDate),
        "totalAmount" := Num(cents)]
  }

  function PharmacyOrders(today: string, yesterday: string): seq<JsObject> {
    [ PharmacyOrder(1, 1, "John Doe", [OrderItem("Aspirin", 7), OrderItem("Metformin", 60)],
                    "pending", yesterday, 4599),
      PharmacyOrder(2, 2, "John Doe", [OrderItem("Cetirizine", 5)], "completed", yesterday, 1250),
      PharmacyOrder(3, 3, "Jane Smith", [OrderItem("Ibuprofen", 10)], "pending", today, 899) ]
  }

  // ---------------------------------------------------------------------------
  // Properties of the seed

  /** The fields of a user row the data layer looks at. */
  ghost predicate UserRow(row: JsObject, id: int, email: string, password: string, role: string, name: string) {
    && Get(row, "id") == Num(id) && Get(row, "email") == Str(email) && Get(row, "password") == Str(password)
    && Get(row, "role") == Str(role) && Get(row, "name") == Str(name)
  }

  /** The fields of an appointment row the data layer looks at. */
  ghost predicate AppointmentRow(row: JsObject, id: int, patientId: int, doctorId: int, date: string, status: string) {
    && Get(row, "id") == Num(id) && Get(row, "patientId") == Num(patientId) && Get(row, "doctorId") == Num(doctorId)
    && Get(row, "date") == Str(date) && Get(row, "status") == Str(status)
  }

  /** The fields of a prescription row the data layer looks at. */
  ghost predicate PrescriptionRow(row: JsObject, id: int, patientId: int, doctorId: int) {
    Get(row, "id") == Num(id) && Get(row, "patientId") == Num(patientId) && Get(row, "doctorId") == Num(doctorId)
  }

  /** The fields of a pharmacy order row the data layer looks at. */
  ghost predicate OrderRow(row: JsObject, id: int, status: string, cents: int) {
    Get(row, "id") == Num(id) && Get(row, "status") == Str(status) && Get(row, "totalAmount") == Num(cents)
  }

  lemma UserFields(id: int, email: string, password: string, role: string, name: string, avatar: string)
    ensures UserRow(User(id, email, password, role, name, avatar), id, email, password, role, name)
  {
  }

  /** A field other than the five looked at leaves a user row's fields as they were. */
  lemma UserFieldsWithExtra(row: JsObject, id: int, email: string, password: string, role: string, name: string,
                            key: string, v: Value)
    requires UserRow(row, id, email, password, role, name)
    requires key !in {"id", "email", "password", "role", "name"}
    ensures UserRow(row[key := v], id, email, password, role, name)
  {
  }

  lemma AppointmentFields(id: int, patientId: int, patientName: string, doctorId: int, doctorName: string,
                          date: string, time: string, status: string, notes: string)
    ensures AppointmentRow(Appointment(id, patientId, patientName, doctorId, doctorName, date, time, status, notes),
                           id, patientId, doctorId, date, status)
  {
  }

  lemma PrescriptionFields(id: int, patientId: int, patientName: string, doctorId: int, doctorName: string,
                           date: string, medications: seq<Value>, status: string, notes: string)
    ensures PrescriptionRow(Prescription(id, patientId, patientName, doctorId, doctorName, date, medications,
                                         status, notes), id, patientId, doctorId)
  {
  }

  lemma OrderFields(id: int, prescriptionId: int, patientName: string, items: seq<Value>, status: string,
                    orderDate: string, cents: int)
    ensures OrderRow(PharmacyOrder(id, prescriptionId, patientName, items, status, orderDate, cents), id, status, cents)
  {
  }

  /** The seed users: admin, doctor, patient and pharmacist, with ids 1 to 4. */
  ghost predicate SeedUserRows(u: seq<JsObject>) {
    && |u| == 4
    && UserRow(u[0], 1, "admin@medical.com", "admin123", "admin", "Admin User")
    && UserRow(u[1], 2, "doctor@medical.com", "doctor123", "doctor", "Dr. Sarah Johnson")
    && UserRow(u[2], 3, "patient@medical.com", "patient123", "patient", "John Doe")
    && UserRow(u[3], 4, "pharmacist@medical.com", "pharmacist123", "pharmacist", "Emily Chen")
  }

  /** The seed appointments: id, patient, doctor, date and status of each. */
  ghost predicate SeedAppointmentRows(a: seq<JsObject>, today: string, tomorrow: string, yesterday: string) {
    && |a| == 4
    && AppointmentRow(a[0], 1, 3, 1, today, "confirmed")
    && AppointmentRow(a[1], 2, 3, 2, tomorrow, "pending")
    && AppointmentRow(a[2], 3, 5, 1, today, "confirmed")
    && AppointmentRow(a[3], 4, 3, 1, yesterday, "completed")
  }

  /** The seed prescriptions: id, patient and doctor of each. */
  ghost predicate SeedPrescriptionRows(p: seq<JsObject>) {
    |p| == 3 && PrescriptionRow(p[0], 1, 3, 1) && PrescriptionRow(p[1], 2, 3, 2) && PrescriptionRow(p[2], 3, 5, 1)
  }

  /** The seed orders: id, status and amount in cents of each. */
  ghost predicate SeedOrderRows(o: seq<JsObject>) {
    |o| == 3 && OrderRow(o[0], 1, "pending", 4599) && OrderRow(o[1], 2, "completed", 1250)
    && OrderRow(o[2], 3, "pending", 899)
  }

  /** A seed user with one role-specific field keeps the five fields looked at. */
  lemma ExtraUserRow(id: int, email: string, password: string, role: string, name: string, avatar: string,
                     key: string, v: Value)
    requires key !in {"id", "email", "password", "role", "name"}
    ensures UserRow(User(id, email, password, role, name, avatar)[key := v], id, email, password, role, name)
  {
    UserFields(id, email, password, role, name, avatar);
    UserFieldsWithExtra(User(id, email, password, role, name, avatar), id, email, password, role, name, key, v);
  }

  lemma SeedUsers()
    ensures SeedUserRows(Users())
  {
    var u := Users();
    assert |u| == 4;
    assert UserRow(u[0], 1, "admin@medical.com", "admin123", "admin", "Admin User") by {
      UserFields(1, "admin@medical.com", "admin123", "admin", "Admin User", "A");
    }
    assert UserRow(u[1], 2, "doctor@medical.com", "doctor123", "doctor", "Dr. Sarah Johnson") by {
      ExtraUserRow(2, "doctor@medical.com", "doctor123", "doctor", "Dr. Sarah Johnson", "SJ",
                   "specialization", Str("Cardiologist"));
    }
    assert UserRow(u[2], 3, "patient@medical.com", "patient123", "patient", "John Doe") by {
      ExtraUserRow(3, "patient@medical.com", "patient123", "patient", "John Doe", "JD", "age", Num(35));
    }
    assert UserRow(u[3], 4, "pharmacist@medical.com", "pharmacist123", "pharmacist", "Emily Chen") by {
      ExtraUserRow(4, "pharmacist@medical.com", "pharmacist123", "pharmacist", "Emily Chen", "EC",
                   "pharmacyName", Str("City Pharmacy"));
    }
  }

  lemma SeedAppointments(today: string, tomorrow: string, yesterday: string)
    ensures SeedAppointmentRows(Appointments(today, tomorrow, yesterday), today, tomorrow, yesterday)
  {
    AppointmentFields(1, 3, "John Doe", 1, "Dr. Sarah Johnson", today, "10:00", "confirmed", "Regular checkup");
    AppointmentFields(2, 3, "John Doe", 2, "Dr. Michael Brown", tomorrow, "14:00", "pending", "");
    AppointmentFields(3, 5, "Jane Smith", 1, "Dr. Sarah Johnson", today, "11:00", "confirmed", "Follow-up appointment");
    AppointmentFields(4, 3, "John Doe", 1, "Dr. Sarah Johnson", yesterday, "15:00", "completed", "Previous visit");
  }

  lemma SeedPrescriptions(yesterday: string)
    ensures SeedPrescriptionRows(Prescriptions(yesterday))
  {
    var p := Prescriptions(yesterday);
    PrescriptionFields(1, 3, "John Doe", 1, "Dr. Sarah Johnson", yesterday, Get(p[0], "medications").items,
                       "pending", "Take with food");
    PrescriptionFields(2, 3, "John Doe", 2, "Dr. Michael Brown", yesterday, Get(p[1], "medications").items,
                       "completed", "For allergy relief");
    PrescriptionFields(3, 5, "Jane Smith", 1, "Dr. Sarah Johnson", yesterday, Get(p[2], "medications").items,
                       "pending", "Take after meals");
  }

  lemma SeedOrders(today: string, yesterday: string)
    ensures SeedOrderRows(PharmacyOrders(today, yesterday))
  {
    var o := PharmacyOrders(today, yesterday);
    OrderFields(1, 1, "John Doe", Get(o[0], "medications").items, "pending", yesterday, 4599);
    OrderFields(2, 2, "John Doe", Get(o[1], "medications").items, "completed", yesterday, 1250);
    OrderFields(3, 3, "Jane Smith", Get(o[2], "medications").items, "pending", today, 899);
  }

  /** The rows of a collection carry the ids 1, 2, ..., n in that order. */
  ghost predicate NumberedFromOne(rows: seq<JsObject>) {
    forall i :: 0 <= i < |rows| ==> Get(rows[i], "id") == Num(i + 1)
  }

  lemma UserRowsAreNumbered(u: seq<JsObject>)
    requires SeedUserRows(u)
    ensures NumberedFromOne(u)
  {
  }

  lemma AppointmentRowsAreNumbered(a: seq<JsObject>, today: string, tomorrow: string, yesterday: string)
    requires SeedAppointmentRows(a, today, tomorrow, yesterday)
    ensures NumberedFromOne(a)
  {
  }

  lemma PrescriptionRowsAreNumbered(p: seq<JsObject>)
    requires SeedPrescriptionRows(p)
    ensures NumberedFromOne(p)
  {
  }

  lemma OrderRowsAreNumbered(o: seq<JsObject>)
    requires SeedOrderRows(o)
    ensures NumberedFromOne(o)
  {
  }

  /** Every seed collection with ids carries 1, 2, ..., n, so `length + 1` is a fresh id. */
  lemma SeedIdsAreNumberedFromOne(today: string, tomorrow: string, yesterday: string)
    ensures NumberedFromOne(Users()) && NumberedFromOne(Doctors())
    ensures NumberedFromOne(Appointments(today, tomorrow, yesterday))
    ensures NumberedFromOne(Prescriptions(yesterday))
    ensures NumberedFromOne(PharmacyOrders(today, yesterday))
  {
    SeedUsers();
    UserRowsAreNumbered(Users());
    SeedDoctors();
    SeedAppointments(today, tomorrow, yesterday);
    AppointmentRowsAreNumbered(Appointments(today, tomorrow, yesterday), today, tomorrow, yesterday);
    SeedPrescriptions(yesterday);
    PrescriptionRowsAreNumbered(Prescriptions(yesterday));
    SeedOrders(today, yesterday);
    OrderRowsAreNumbered(PharmacyOrders(today, yesterday));
  }

  lemma DoctorFields(id: int, name: string, specialization: string, experience: int, rating: int,
                     slots: seq<string>)
    ensures Get(Doctor(id, name, specialization, experience, rating, slots), "id") == Num(id)
    ensures Get(Doctor(id, name, specialization, experience, rating, slots), "name") == Str(name)
  {
  }

  /** The seed doctors' ids 1 to 4 and names. */
  lemma SeedDoctors()
    ensures |Doctors()| == 4 && forall i :: 0 <= i < 4 ==> Get(Doctors()[i], "id") == Num(i + 1)
    ensures Get(Doctors()[0], "name") == Str("Dr. Sarah Johnson")
  {
    DoctorFields(1, "Dr. Sarah Johnson", "Cardiologist", 10, 48, ["09:00", "10:00", "11:00", "14:00", "15:00"]);
    DoctorFields(2, "Dr. Michael Brown", "Dermatologist", 8, 46, ["09:00", "10:00", "14:00", "15:00", "16:00"]);
    DoctorFields(3, "Dr. Lisa Anderson", "Pediatrician", 12, 49, ["09:00", "10:00", "11:00", "12:00", "14:00"]);
    DoctorFields(4, "Dr. Robert Wilson", "Neurologist", 15, 47, ["10:00", "11:00", "14:00", "15:00", "16:00"]);
  }

  lemma SeedPatientIds(yesterday: string)
    ensures |Patients(yesterday)| == 2
    ensures Get(Patients(yesterday)[0], "id") == Num(3) && Get(Patients(yesterday)[1], "id") == Num(5)
  {
  }

  /** Ids 1..n are pairwise distinct. */
  lemma NumberedIdsAreUnique(rows: seq<JsObject>)
    requires NumberedFromOne(rows)
    ensures forall i, j :: 0 <= i < j < |rows| ==> Get(rows[i], "id") != Get(rows[j], "id")
  {
  }

  const Roles: set<Value> := {Str("admin"), Str("doctor"), Str("patient"), Str("pharmacist")}

  lemma UserRowsAreWellFormed(u: seq<JsObject>)
    requires SeedUserRows(u)
    ensures forall i, j :: 0 <= i < j < |u| ==> Get(u[i], "email") != Get(u[j], "email")
    ensures forall i :: 0 <= i < |u| ==> Get(u[i], "role") in Roles
  {
  }

  /** The seed emails are pairwise distinct and every seed role is one of the four. */
  lemma SeedUsersAreWellFormed()
    ensures forall i, j :: 0 <= i < j < |Users()| ==> Get(Users()[i], "email") != Get(Users()[j], "email")
    ensures forall i :: 0 <= i < |Users()| ==> Get(Users()[i], "role") in Roles
  {
    SeedUsers();
    UserRowsAreWellFormed(Users());
  }

  /** Strict lexicographic order on strings; on `HH:MM` times it is time order. */
  predicate LexLess(a: string, b: string) {
    if a == [] then b != []
    else if b == [] then false
    else if a[0] != b[0] then a[0] < b[0]
    else LexLess(a[1..], b[1..])
  }

  ghost predicate FiveAscendingSlots(v: Value) {
    v.List? && |v.items| == 5
    && (forall j :: 0 <= j < 5 ==> v.items[j].Str?)
    && forall j :: 0 <= j < 4 ==> LexLess(v.items[j].s, v.items[j + 1].s)
  }

  lemma SlotsAscend(times: seq<string>)
    requires |times| == 5 && forall j :: 0 <= j < 4 ==> LexLess(times[j], times[j + 1])
    ensures FiveAscendingSlots(Slots(times))
  {
  }

  lemma SeedSlotsAscend()
    ensures forall i :: 0 <= i < |Doctors()| ==> FiveAscendingSlots(Get(Doctors()[i], "availableSlots"))
  {
    assert LexLess("09:00", "10:00") && LexLess("10:00", "11:00") && LexLess("11:00", "12:00");
    assert LexLess("11:00", "14:00") && LexLess("12:00", "14:00") && LexLess("10:00", "14:00");
    assert LexLess("14:00", "15:00") && LexLess("15:00", "16:00");
    SlotsAscend(["09:00", "10:00", "11:00", "14:00", "15:00"]);
    SlotsAscend(["09:00", "10:00", "14:00", "15:00", "16:00"]);
    SlotsAscend(["09:00", "10:00", "11:00", "12:00", "14:00"]);
    SlotsAscend(["10:00", "11:00", "14:00", "15:00", "16:00"]);
  }

  lemma SeedPrescriptionsHaveMedications(yesterday: string)
    ensures forall i :: 0 <= i < |Prescriptions(yesterday)| ==>
              var m := Get(Prescriptions(yesterday)[i], "medications"); m.List? && |m.items| > 0
  {
  }
}
