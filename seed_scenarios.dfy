/** What the data layer answers on the seed collections: who owns which
    appointments and prescriptions, the dashboard statistics of the seeded
    actors, and lookups by id and by credentials. */
module SeedScenarios {
  import opened JsValues
  import opened JsStrings
  import opened JsArrays
  import opened MockData
  import opened Api

  /** Filtering the last element of a sequence of one. */
  lemma FilterOne<T>(x: T, p: T -> bool)
    ensures Filter([x], p) == if p(x) then [x] else []
  {
    FilterCons(x, [], p);
  }

  /** Filtering a sequence of two: each element is kept exactly when it satisfies p. */
  lemma FilterTwo<T>(s: seq<T>, p: T -> bool)
    requires |s| == 2
    ensures p(s[0]) && p(s[1]) ==> Filter(s, p) == s
    ensures p(s[0]) && !p(s[1]) ==> Filter(s, p) == [s[0]]
    ensures !p(s[0]) && p(s[1]) ==> Filter(s, p) == [s[1]]
    ensures !p(s[0]) && !p(s[1]) ==> Filter(s, p) == []
  {
    assert s == [s[0]] + [s[1]];
    FilterCons(s[0], [s[1]], p);
    FilterOne(s[1], p);
  }

  /** Filtering a sequence of three, case by case on its first element. */
  lemma FilterThree<T>(s: seq<T>, p: T -> bool)
    requires |s| == 3
    ensures Filter(s, p) == (if p(s[0]) then [s[0]] else []) + Filter(s[1..], p)
    ensures |s[1..]| == 2 && s[1..][0] == s[1] && s[1..][1] == s[2]
  {
    assert s == [s[0]] + s[1..];
    FilterCons(s[0], s[1..], p);
  }

  /** Filtering a sequence of four, case by case on its first element. */
  lemma FilterFour<T>(s: seq<T>, p: T -> bool)
    requires |s| == 4
    ensures Filter(s, p) == (if p(s[0]) then [s[0]] else []) + Filter(s[1..], p)
    ensures |s[1..]| == 3 && s[1..][0] == s[1] && s[1..][1] == s[2] && s[1..][2] == s[3]
  {
    assert s == [s[0]] + s[1..];
    FilterCons(s[0], s[1..], p);
  }

  lemma KeepFirstSecondFourth<T>(s: seq<T>, p: T -> bool)
    requires |s| == 4 && p(s[0]) && p(s[1]) && !p(s[2]) && p(s[3])
    ensures Filter(s, p) == [s[0], s[1], s[3]]
  {
    FilterFour(s, p);
    FilterThree(s[1..], p);
    FilterTwo(s[1..][1..], p);
  }

  lemma KeepFirstThirdFourth<T>(s: seq<T>, p: T -> bool)
    requires |s| == 4 && p(s[0]) && !p(s[1]) && p(s[2]) && p(s[3])
    ensures Filter(s, p) == [s[0], s[2], s[3]]
  {
    FilterFour(s, p);
    FilterThree(s[1..], p);
    FilterTwo(s[1..][1..], p);
  }

  lemma KeepSecondOfFour<T>(s: seq<T>, p: T -> bool)
    requires |s| == 4 && !p(s[0]) && p(s[1]) && !p(s[2]) && !p(s[3])
    ensures Filter(s, p) == [s[1]]
  {
    FilterFour(s, p);
    FilterThree(s[1..], p);
    FilterTwo(s[1..][1..], p);
  }

  lemma KeepFirstSecond<T>(s: seq<T>, p: T -> bool)
    requires |s| == 3 && p(s[0]) && p(s[1]) && !p(s[2])
    ensures Filter(s, p) == [s[0], s[1]]
  {
    FilterThree(s, p);
    FilterTwo(s[1..], p);
  }

  lemma KeepFirstThird<T>(s: seq<T>, p: T -> bool)
    requires |s| == 3 && p(s[0]) && !p(s[1]) && p(s[2])
    ensures Filter(s, p) == [s[0], s[2]]
  {
    FilterThree(s, p);
    FilterTwo(s[1..], p);
  }

  lemma KeepSecondOfThree<T>(s: seq<T>, p: T -> bool)
    requires |s| == 3 && !p(s[0]) && p(s[1]) && !p(s[2])
    ensures Filter(s, p) == [s[1]]
  {
    FilterThree(s, p);
    FilterTwo(s[1..], p);
  }

  /** A numeric actor id scopes a patient's rows by `patientId` and a doctor's by `doctorId`. */
  lemma ScopeOfNumber(rows: seq<JsObject>, n: int)
    ensures Scope(rows, Num(n), Str("patient")) == Filter(rows, FieldIs("patientId", Num(n)))
    ensures Scope(rows, Num(n), Str("doctor")) == Filter(rows, FieldIs("doctorId", Num(n)))
  {
    assert OwnerField(Str("patient")) == Some("patientId");
    assert OwnerField(Str("doctor")) == Some("doctorId");
  }

  /** Patient 3 owns appointments 1, 2 and 4. */
  lemma PatientThreeAppointments(a: seq<JsObject>, today: string, tomorrow: string, yesterday: string)
    requires SeedAppointmentRows(a, today, tomorrow, yesterday)
    ensures Scope(a, Num(3), Str("patient")) == [a[0], a[1], a[3]]
  {
    ScopeOfNumber(a, 3);
    var q := FieldIs("patientId", Num(3));
    assert q(a[0]) && q(a[1]) && !q(a[2]) && q(a[3]);
    KeepFirstSecondFourth(a, q);
  }

  /** Patient 3 owns prescriptions 1 and 2. */
  lemma PatientThreePrescriptions(p: seq<JsObject>)
    requires SeedPrescriptionRows(p)
    ensures Scope(p, Num(3), Str("patient")) == [p[0], p[1]]
  {
    ScopeOfNumber(p, 3);
    var q := FieldIs("patientId", Num(3));
    assert q(p[0]) && q(p[1]) && !q(p[2]);
    KeepFirstSecond(p, q);
  }

  /** Doctor 1 owns appointments 1, 3 and 4. */
  lemma DoctorOneAppointments(a: seq<JsObject>, today: string, tomorrow: string, yesterday: string)
    requires SeedAppointmentRows(a, today, tomorrow, yesterday)
    ensures Scope(a, Num(1), Str("doctor")) == [a[0], a[2], a[3]]
  {
    ScopeOfNumber(a, 1);
    var q := FieldIs("doctorId", Num(1));
    assert q(a[0]) && !q(a[1]) && q(a[2]) && q(a[3]);
    KeepFirstThirdFourth(a, q);
  }

  /** Doctor 1 owns prescriptions 1 and 3. */
  lemma DoctorOnePrescriptions(p: seq<JsObject>)
    requires SeedPrescriptionRows(p)
    ensures Scope(p, Num(1), Str("doctor")) == [p[0], p[2]]
  {
    ScopeOfNumber(p, 1);
    var q := FieldIs("doctorId", Num(1));
    assert q(p[0]) && !q(p[1]) && q(p[2]);
    KeepFirstThird(p, q);
  }

  /** The doctor user Sarah Johnson has user id 2, while Sarah Johnson the doctor has id 1. */
  lemma DoctorUserIsNotDoctorOne()
    ensures Get(Users()[1], "role") == Str("doctor") && Get(Users()[1], "id") == Num(2)
    ensures Get(Users()[1], "name") == Get(Doctors()[0], "name") && Get(Doctors()[0], "id") == Num(1)
  {
    SeedUsers();
    SeedDoctors();
  }

  /** Scoped by user id 2, a doctor sees Michael Brown's appointment 2 only. */
  lemma DoctorUserTwoAppointments(a: seq<JsObject>, today: string, tomorrow: string, yesterday: string)
    requires SeedAppointmentRows(a, today, tomorrow, yesterday)
    ensures Scope(a, Num(2), Str("doctor")) == [a[1]]
  {
    ScopeOfNumber(a, 2);
    var q := FieldIs("doctorId", Num(2));
    assert !q(a[0]) && q(a[1]) && !q(a[2]) && !q(a[3]);
    KeepSecondOfFour(a, q);
  }

  /** Scoped by user id 2, a doctor sees Michael Brown's prescription 2 only. */
  lemma DoctorUserTwoPrescriptions(p: seq<JsObject>)
    requires SeedPrescriptionRows(p)
    ensures Scope(p, Num(2), Str("doctor")) == [p[1]]
  {
    ScopeOfNumber(p, 2);
    var q := FieldIs("doctorId", Num(2));
    assert !q(p[0]) && q(p[1]) && !q(p[2]);
    KeepSecondOfThree(p, q);
  }

  /** One confirmed, one pending and one completed appointment: two upcoming, one completed. */
  lemma PatientCountsOfThree(x: JsObject, y: JsObject, z: JsObject)
    requires Get(x, "status") == Str("confirmed") && Get(y, "status") == Str("pending")
    requires Get(z, "status") == Str("completed")
    ensures |Filter([x, y, z], IsUpcoming())| == 2 && Count([x, y, z], "status", Str("completed")) == 1
  {
    FilterOfThree(x, y, z, IsUpcoming());
    FilterOfThree(x, y, z, FieldIs("status", Str("completed")));
  }

  /** Patient statistics of any collections in which the patient owns three
      appointments (confirmed, pending, completed) and two prescriptions. */
  lemma PatientStatsOfThreeAppointments(users: seq<JsObject>, a: seq<JsObject>, p: seq<JsObject>,
                                        orders: seq<JsObject>, userId: Value, today: string,
                                        x: JsObject, y: JsObject, z: JsObject)
    requires Scope(a, userId, Str("patient")) == [x, y, z]
    requires |Scope(p, userId, Str("patient"))| == 2
    requires Get(x, "status") == Str("confirmed") && Get(y, "status") == Str("pending")
    requires Get(z, "status") == Str("completed")
    ensures DashboardStats(users, a, p, orders, Str("patient"), userId, today) == Ok(PatientStats(3, 2, 2, 1))
  {
    PatientCountsOfThree(x, y, z);
    PatientDashboard(users, a, p, orders, userId, today);
  }

  /** Patient 3's dashboard: 3 appointments, 2 upcoming, 1 completed, 2 prescriptions. */
  lemma PatientThreeStats(today: string, tomorrow: string, yesterday: string)
    ensures DashboardStats(Users(), Appointments(today, tomorrow, yesterday), Prescriptions(yesterday),
                           PharmacyOrders(today, yesterday), Str("patient"), Num(3), today)
            == Ok(PatientStats(3, 2, 2, 1))
  {
    var a := Appointments(today, tomorrow, yesterday);
    var p := Prescriptions(yesterday);
    SeedAppointments(today, tomorrow, yesterday);
    SeedPrescriptions(yesterday);
    PatientThreeAppointments(a, today, tomorrow, yesterday);
    PatientThreePrescriptions(p);
    PatientStatsOfThreeAppointments(Users(), a, p, PharmacyOrders(today, yesterday), Num(3), today, a[0], a[1], a[3]);
  }

  /** Two confirmed appointments today and a completed one another day: two today, two confirmed. */
  lemma DoctorCountsOfThree(x: JsObject, y: JsObject, z: JsObject, today: string)
    requires Get(x, "date") == Str(today) && Get(y, "date") == Str(today)
    requires Get(z, "date").Str? && Get(z, "date") != Str(today)
    requires Get(x, "status") == Str("confirmed") && Get(y, "status") == Str("confirmed")
    requires Get(z, "status") == Str("completed")
    ensures Count([x, y, z], "date", Str(today)) == 2 && Count([x, y, z], "status", Str("confirmed")) == 2
  {
    FilterOfThree(x, y, z, FieldIs("date", Str(today)));
    FilterOfThree(x, y, z, FieldIs("status", Str("confirmed")));
  }

  /** Doctor statistics of any collections in which the doctor owns three
      appointments (confirmed today, confirmed today, another day and not
      confirmed) and two prescriptions. */
  lemma DoctorStatsOfThreeAppointments(users: seq<JsObject>, a: seq<JsObject>, p: seq<JsObject>,
                                       orders: seq<JsObject>, userId: Value, today: string,
                                       x: JsObject, y: JsObject, z: JsObject)
    requires Scope(a, userId, Str("doctor")) == [x, y, z]
    requires |Scope(p, userId, Str("doctor"))| == 2
    requires Get(x, "date") == Str(today) && Get(y, "date") == Str(today)
    requires Get(z, "date").Str? && Get(z, "date") != Str(today)
    requires Get(x, "status") == Str("confirmed") && Get(y, "status") == Str("confirmed")
    requires Get(z, "status") == Str("completed")
    ensures DashboardStats(users, a, p, orders, Str("doctor"), userId, today) == Ok(DoctorStats(3, 2, 2, 2))
  {
    DoctorCountsOfThree(x, y, z, today);
    DoctorDashboard(users, a, p, orders, userId, today);
  }

  /** Doctor 1's dashboard on a day whose yesterday is another date: 3
      appointments, 2 of them today, 2 confirmed, 2 prescriptions. */
  lemma DoctorOneStats(today: string, tomorrow: string, yesterday: string)
    requires today != yesterday
    ensures DashboardStats(Users(), Appointments(today, tomorrow, yesterday), Prescriptions(yesterday),
                           PharmacyOrders(today, yesterday), Str("doctor"), Num(1), today)
            == Ok(DoctorStats(3, 2, 2, 2))
  {
    var a := Appointments(today, tomorrow, yesterday);
    var p := Prescriptions(yesterday);
    SeedAppointments(today, tomorrow, yesterday);
    SeedPrescriptions(yesterday);
    DoctorOneAppointments(a, today, tomorrow, yesterday);
    DoctorOnePrescriptions(p);
    DoctorStatsOfThreeAppointments(Users(), a, p, PharmacyOrders(today, yesterday), Num(1), today, a[0], a[2], a[3]);
  }

  /** The seed orders' statuses: the first and last are pending, the middle one, of 1250 cents, completed. */
  lemma SeedOrderStatuses(o: seq<JsObject>)
    requires SeedOrderRows(o)
    ensures Filter(o, FieldIs("status", Str("pending"))) == [o[0], o[2]]
    ensures Filter(o, FieldIs("status", Str("completed"))) == [o[1]]
    ensures Get(o[1], "totalAmount") == Num(1250)
  {
    var q := FieldIs("status", Str("pending"));
    assert q(o[0]) && !q(o[1]) && q(o[2]);
    KeepFirstThird(o, q);
    var c := FieldIs("status", Str("completed"));
    assert !c(o[0]) && c(o[1]) && !c(o[2]);
    KeepSecondOfThree(o, c);
  }

  /** Pharmacist statistics of any collections whose orders are the seed's. */
  lemma PharmacistStatsOfSeedOrders(users: seq<JsObject>, a: seq<JsObject>, p: seq<JsObject>,
                                    o: seq<JsObject>, today: string)
    requires SeedOrderRows(o)
    ensures DashboardStats(users, a, p, o, Str("pharmacist"), Undefined, today)
            == Ok(PharmacistStats(3, 2, 1, Num(1250)))
  {
    SeedOrderStatuses(o);
    assert SumAmounts(Num(0), [o[1]]) == SumAmounts(Num(1250), []);
  }

  /** The pharmacist's dashboard: 3 orders, 2 pending, 1 completed, 1250 cents of revenue. */
  lemma PharmacistSeedStats(today: string, tomorrow: string, yesterday: string)
    ensures DashboardStats(Users(), Appointments(today, tomorrow, yesterday), Prescriptions(yesterday),
                           PharmacyOrders(today, yesterday), Str("pharmacist"), Undefined, today)
            == Ok(PharmacistStats(3, 2, 1, Num(1250)))
  {
    SeedOrders(today, yesterday);
    PharmacistStatsOfSeedOrders(Users(), Appointments(today, tomorrow, yesterday), Prescriptions(yesterday),
                                PharmacyOrders(today, yesterday), today);
  }

  /** Admin statistics of any collections of the seed's sizes and order statuses. */
  lemma AdminStatsOfSeedRows(users: seq<JsObject>, a: seq<JsObject>, p: seq<JsObject>, o: seq<JsObject>,
                             today: string)
    requires |users| == 4 && |a| == 4 && |p| == 3 && SeedOrderRows(o)
    ensures DashboardStats(users, a, p, o, Str("admin"), Undefined, today) == Ok(AdminStats(4, 4, 3, 2))
  {
    SeedOrderStatuses(o);
  }

  /** The admin's dashboard: 4 users, 4 appointments, 3 prescriptions, 2 pending orders. */
  lemma AdminSeedStats(today: string, tomorrow: string, yesterday: string)
    ensures DashboardStats(Users(), Appointments(today, tomorrow, yesterday), Prescriptions(yesterday),
                           PharmacyOrders(today, yesterday), Str("admin"), Undefined, today)
            == Ok(AdminStats(4, 4, 3, 2))
  {
    SeedOrders(today, yesterday);
    AdminStatsOfSeedRows(Users(), Appointments(today, tomorrow, yesterday), Prescriptions(yesterday),
                         PharmacyOrders(today, yesterday), today);
  }

  /** Doctor 1 is found by the number 1 but not by the string "1". */
  lemma DoctorLookup()
    ensures FindById(Doctors(), Num(1)) == Some(Doctors()[0])
    ensures FindById(Doctors(), Str("1")).None?
  {
    SeedDoctors();
    FindByStringIdFindsNothing(Doctors(), "1");
  }

  /** The seeded patient logs in with `patient123` and gets their record
      without the password; the doctor's password is refused. */
  lemma PatientLogin()
    ensures Authenticate(Users(), Str("patient@medical.com"), Str("patient123")) == Ok(Users()[2] - {"password"})
    ensures Authenticate(Users(), Str("patient@medical.com"), Str("doctor123")) == Err("Invalid credentials")
  {
    SeedUsers();
    SeedUsersAreWellFormed();
    assert "patient123"[0] != "doctor123"[0];
    LoginWithDistinctEmails(Users(), 2, "patient@medical.com", "patient123", "doctor123");
  }

  /** A fifth user registered as "Jane Mary Smith" gets id 5 and the avatar "JMS". */
  lemma RegisterFifthUser()
    ensures var u := NewUser(|Users()|, map["name" := Str("Jane Mary Smith"), "role" := Str("patient")]);
            Get(u, "id") == Num(5) && Get(u, "avatar") == Str("JMS")
  {
    JaneMarySmithStarts();
    var d := map["name" := Str("Jane Mary Smith"), "role" := Str("patient")];
    assert Get(d, "name") == Str("Jane Mary Smith");
    assert |Users()| == 4;
  }

  lemma TwoWordStarts(y: string, z: string)
    requires y != [] && z != []
    requires ' ' !in y && ' ' !in z
    ensures WordStarts(y + [' '] + z, true) == [y[0], z[0]]
  {
    WordStartsOfWord(z, true);
    WordStartsOfWord(y, true);
    WordStartsAfterWord(y, z, true);
  }

  lemma ThreeWordStarts(x: string, y: string, z: string)
    requires x != [] && y != [] && z != []
    requires ' ' !in x && ' ' !in y && ' ' !in z
    ensures WordStarts(x + [' '] + (y + [' '] + z), true) == [x[0], y[0], z[0]]
  {
    TwoWordStarts(y, z);
    WordStartsOfWord(x, true);
    WordStartsAfterWord(x, y + [' '] + z, true);
  }

  lemma JaneMarySmithStarts()
    ensures WordStarts("Jane Mary Smith", true) == "JMS"
  {
    assert "Jane" + [' '] + ("Mary" + [' '] + "Smith") == "Jane Mary Smith";
    ThreeWordStarts("Jane", "Mary", "Smith");
  }
}
