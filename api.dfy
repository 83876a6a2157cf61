/** The mock data-access facade: module-level collections seeded from the mock
    data, and the auth, doctors, appointments, prescriptions, patients,
    pharmacy and stats operations over them. Every call is one atomic step
    (the simulated network delay is not modelled); each returns what its
    `{success, data | user, error}` envelope carries. */
module Api {
  import opened JsValues
  import opened JsStrings
  import opened JsArrays
  import MockData

  // ---------------------------------------------------------------------------
  // ensureNumber

  /** A string id is read with `parseInt(value, 10)`; any other value is kept. */
  function EnsureNumber(value: Value): (r: Value)
    ensures value.Str? ==> r.Num? || r.NaN?
    ensures !value.Str? ==> r == value
  {
    if value.Str? then ParseInt10(value.s) else value
  }

  /** The decimal text of an id normalises to that id: "3" and 3 are the same actor. */
  lemma EnsureNumberOfDecimal(n: int)
    ensures EnsureNumber(Str(IntToDecimal(n))) == EnsureNumber(Num(n)) == Num(n)
  {
    ParseIntOfDecimal("", n, "");
    assert "" + IntToDecimal(n) + "" == IntToDecimal(n);
  }

  // ---------------------------------------------------------------------------
  // Role scoping of appointments and prescriptions

  /** `row => row[field] === v` */
  function FieldIs(field: string, v: Value): JsObject -> bool {
    row => StrictEq(Get(row, field), v)
  }

  /** The field a role is scoped by: doctors see their `doctorId` rows,
      patients their `patientId` rows, every other role everything. */
  function OwnerField(role: Value): Option<string> {
    if StrictEq(role, Str("doctor")) then Some("doctorId")
    else if StrictEq(role, Str("patient")) then Some("patientId")
    else None
  }

  predicate Owns(row: JsObject, field: string, userId: Value) {
    StrictEq(Get(row, field), EnsureNumber(userId))
  }

  /** `getAll(userId, role)` of appointments and of prescriptions: for a doctor
      or a patient exactly the rows the normalised actor id owns, in their
      order; for any other role a copy of the whole collection. */
  function Scope(rows: seq<JsObject>, userId: Value, role: Value): (r: seq<JsObject>)
    ensures IsSubsequence(r, rows)
    ensures OwnerField(role).None? ==> r == rows
    ensures OwnerField(role).Some? ==>
              forall k :: 0 <= k < |r| ==> Owns(r[k], OwnerField(role).value, userId)
    ensures OwnerField(role).Some? ==>
              forall i :: 0 <= i < |rows| && Owns(rows[i], OwnerField(role).value, userId) ==> rows[i] in r
    ensures OwnerField(role).Some? ==>
              forall x :: multiset(r)[x] == if Owns(x, OwnerField(role).value, userId) then multiset(rows)[x] else 0
  {
    match OwnerField(role)
    case None => SubsequenceOfItself(rows); rows
    case Some(field) =>
      FilterMultiset(rows, FieldIs(field, EnsureNumber(userId)));
      Filter(rows, FieldIs(field, EnsureNumber(userId)))
  }

  /** A string actor id selects the same rows as the number it spells. */
  lemma ScopeOfDecimalActor(rows: seq<JsObject>, n: int, role: Value)
    ensures Scope(rows, Str(IntToDecimal(n)), role) == Scope(rows, Num(n), role)
  {
    EnsureNumberOfDecimal(n);
  }

  /** An actor id that does not parse (NaN) owns nothing. */
  lemma ScopeOfUnparsableActor(rows: seq<JsObject>, userId: Value, role: Value)
    requires OwnerField(role).Some? && EnsureNumber(userId) == NaN
    ensures Scope(rows, userId, role) == []
  {
    FilterKeepsNone(rows, FieldIs(OwnerField(role).value, NaN));
  }

  /** An empty id, or one that starts with a letter, reads as NaN, so a doctor
      or a patient with such an id sees nothing. */
  lemma ScopeOfNonNumericActor(rows: seq<JsObject>, id: string, role: Value)
    requires OwnerField(role).Some?
    requires id == [] || 'a' <= id[0] <= 'z' || 'A' <= id[0] <= 'Z'
    ensures Scope(rows, Str(id), role) == []
  {
    ParseIntIsNaN(id);
    assert TrimStart(id) == id;
    ScopeOfUnparsableActor(rows, Str(id), role);
  }

  /** A record added at the end shows up, at the end, exactly for the actors
      that own it (and for every unscoped role). */
  lemma ScopeAfterAppend(rows: seq<JsObject>, rec: JsObject, userId: Value, role: Value)
    ensures Scope(rows + [rec], userId, role) ==
            Scope(rows, userId, role)
            + (if OwnerField(role).None? || Owns(rec, OwnerField(role).value, userId) then [rec] else [])
  {
    match OwnerField(role)
    case None =>
    case Some(field) =>
      FilterSnoc(rows, rec, FieldIs(field, EnsureNumber(userId)));
  }

  // ---------------------------------------------------------------------------
  // create

  /** `{id: count + 1, ...data, status: 'pending'}`: the status is always
      pending; the id is the next one unless the data brings its own; every
      other field comes from the data. */
  function NewRecord(count: nat, data: JsObject): (r: JsObject)
    ensures Get(r, "status") == Str("pending")
    ensures Get(r, "id") == if "id" in data then data["id"] else Num(count + 1)
    ensures forall k :: k in data && k != "status" ==> k in r && r[k] == data[k]
    ensures forall k :: k in r ==> k in data || k == "id" || k == "status"
  {
    map["id" := Num(count + 1)] + data + map["status" := Str("pending")]
  }

  /** Ids stay 1..n + 1 after a create whose data carries no id. */
  lemma CreateKeepsNumbering(rows: seq<JsObject>, data: JsObject)
    requires MockData.NumberedFromOne(rows)
    requires "id" !in data
    ensures MockData.NumberedFromOne(rows + [NewRecord(|rows|, data)])
  {
    var rows' := rows + [NewRecord(|rows|, data)];
    forall i | 0 <= i < |rows'| ensures Get(rows'[i], "id") == Num(i + 1) {
      if i < |rows| {
        assert rows'[i] == rows[i];
      }
    }
  }

  // ---------------------------------------------------------------------------
  // update / updateOrderStatus

  /** The result of a successful update: where the row was, the new
      collection, and the merged row. */
  datatype Updated = Updated(index: nat, rows: seq<JsObject>, row: JsObject)

  /** Replace the first row whose id is `=== id` by `{...row, ...updates}`;
      None when no row has that id. */
  function UpdateById(rows: seq<JsObject>, id: Value, updates: JsObject): (r: Option<Updated>)
    ensures r.None? <==> forall i :: 0 <= i < |rows| ==> !StrictEq(Get(rows[i], "id"), id)
    ensures r.Some? ==>
              && r.value.index < |rows|
              && StrictEq(Get(rows[r.value.index], "id"), id)
              && forall j :: 0 <= j < r.value.index ==> !StrictEq(Get(rows[j], "id"), id)
    ensures r.Some? ==>
              var old_row, new_row := rows[r.value.index], r.value.row;
              && new_row.Keys == old_row.Keys + updates.Keys
              && (forall k :: k in updates ==> new_row[k] == updates[k])
              && (forall k :: k in old_row && k !in updates ==> new_row[k] == old_row[k])
    ensures r.Some? ==>
              && |r.value.rows| == |rows|
              && r.value.rows[r.value.index] == r.value.row
              && forall j :: 0 <= j < |rows| && j != r.value.index ==> r.value.rows[j] == rows[j]
  {
    match FindIndex(rows, FieldIs("id", id))
    case None => None
    case Some(i) =>
      var merged := rows[i] + updates;
      Some(Updated(i, rows[i := merged], merged))
  }

  /** Ids are compared strictly: a string id finds no row among numeric ids. */
  lemma UpdateByStringIdFindsNothing(rows: seq<JsObject>, id: string, updates: JsObject)
    requires forall i :: 0 <= i < |rows| ==> Get(rows[i], "id").Num?
    ensures UpdateById(rows, Str(id), updates).None?
  {
  }

  /** Setting the status in place is the merge of `{status}`: only that field changes. */
  lemma StatusUpdateIsMerge(row: JsObject, status: Value)
    ensures row + map["status" := status] == row["status" := status]
  {
  }

  // ---------------------------------------------------------------------------
  // getById

  /** `rows.find(r => r.id === id)`; `success` is whether one was found. */
  function FindById(rows: seq<JsObject>, id: Value): (r: Option<JsObject>)
    ensures r.Some? <==> exists i :: 0 <= i < |rows| && StrictEq(Get(rows[i], "id"), id)
    ensures r.Some? ==> r.value in rows && StrictEq(Get(r.value, "id"), id)
    ensures r.Some? ==> exists i :: 0 <= i < |rows| && rows[i] == r.value
                                    && forall j :: 0 <= j < i ==> !StrictEq(Get(rows[j], "id"), id)
  {
    Find(rows, FieldIs("id", id))
  }

  /** Unlike `getAll`, `getById` does not normalise its argument: "1" finds no doctor 1. */
  lemma FindByStringIdFindsNothing(rows: seq<JsObject>, id: string)
    requires forall i :: 0 <= i < |rows| ==> Get(rows[i], "id").Num?
    ensures FindById(rows, Str(id)).None?
  {
  }

  // ---------------------------------------------------------------------------
  // login / register

  /** `u => u.email === email && u.password === password` */
  function Credentials(email: Value, password: Value): JsObject -> bool {
    u => StrictEq(Get(u, "email"), email) && StrictEq(Get(u, "password"), password)
  }

  /** `login`: the first user whose email and password both match, without its
      password; otherwise 'Invalid credentials'. */
  function Authenticate(users: seq<JsObject>, email: Value, password: Value): (r: Result<JsObject>)
    ensures r.Err? <==> forall i :: 0 <= i < |users| ==> !Credentials(email, password)(users[i])
    ensures r.Err? ==> r.error == "Invalid credentials"
    ensures r.Ok? ==> "password" !in r.data
    ensures r.Ok? ==> exists i :: 0 <= i < |users| && Credentials(email, password)(users[i])
                                  && (forall j :: 0 <= j < i ==> !Credentials(email, password)(users[j]))
                                  && r.data == users[i] - {"password"}
  {
    match FindIndex(users, Credentials(email, password))
    case None => Err("Invalid credentials")
    case Some(i) => Ok(users[i] - {"password"})
  }

  /** When no two users share an email, the user whose email and password are
      entered is the one logged in, and any other password is refused. */
  lemma LoginWithDistinctEmails(users: seq<JsObject>, k: nat, email: string, password: string, wrong: string)
    requires k < |users| && forall i, j :: 0 <= i < j < |users| ==> Get(users[i], "email") != Get(users[j], "email")
    requires Get(users[k], "email") == Str(email) && Get(users[k], "password") == Str(password)
    requires wrong != password
    ensures Authenticate(users, Str(email), Str(password)) == Ok(users[k] - {"password"})
    ensures Authenticate(users, Str(email), Str(wrong)) == Err("Invalid credentials")
  {
    var p := Credentials(Str(email), Str(password));
    forall i | 0 <= i < |users| && i != k ensures !p(users[i]) {
      if i < k {
        assert Get(users[i], "email") != Get(users[k], "email");
      } else {
        assert Get(users[k], "email") != Get(users[i], "email");
      }
    }
    var q := Credentials(Str(email), Str(wrong));
    forall i | 0 <= i < |users| ensures !q(users[i]) {
      if i < k {
        assert Get(users[i], "email") != Get(users[k], "email");
      } else if k < i {
        assert Get(users[k], "email") != Get(users[i], "email");
      }
    }
    match FindIndex(users, p)
    case None =>
    case Some(i) =>
      assert i == k;
  }

  /** `register`'s new user `{id: count + 1, ...userData, avatar}`, whose avatar
      is the first letter of every space-separated word of the name. The
      source calls `name.split`, so the name must be a string. */
  function NewUser(count: nat, userData: JsObject): (r: JsObject)
    requires Get(userData, "name").Str?
    ensures Get(r, "id") == if "id" in userData then userData["id"] else Num(count + 1)
    ensures Get(r, "avatar") == Str(WordStarts(userData["name"].s, true))
    ensures forall k :: k in userData && k != "avatar" ==> k in r && r[k] == userData[k]
    ensures r.Keys == userData.Keys + {"id", "avatar"}
  {
    InitialsAreWordStarts(userData["name"].s);
    map["id" := Num(count + 1)] + userData + map["avatar" := Str(Initials(userData["name"].s))]
  }

  /** A user registered with an email and password no earlier user has can log in with them. */
  lemma LoginAfterRegister(users: seq<JsObject>, userData: JsObject)
    requires Get(userData, "name").Str?
    requires Get(userData, "email").Str? && Get(userData, "password").Str?
    requires forall i :: 0 <= i < |users| ==> !Credentials(userData["email"], userData["password"])(users[i])
    ensures Authenticate(users + [NewUser(|users|, userData)], userData["email"], userData["password"])
            == Ok(NewUser(|users|, userData) - {"password"})
  {
    var u := NewUser(|users|, userData);
    var users' := users + [u];
    var p := Credentials(userData["email"], userData["password"]);
    assert users'[|users|] == u;
    assert p(u);
    forall j | 0 <= j < |users| ensures !p(users'[j]) {
      assert users'[j] == users[j];
    }
  }

  // ---------------------------------------------------------------------------
  // getDashboardStats

  /** One stats shape per role. */
  datatype Stats =
    | AdminStats(totalUsers: nat, totalAppointments: nat, totalPrescriptions: nat, pendingOrders: nat)
    | DoctorStats(totalAppointments: nat, todayAppointments: nat, totalPrescriptions: nat,
                  confirmedAppointments: nat)
    | PatientStats(totalAppointments: nat, upcomingAppointments: nat, totalPrescriptions: nat,
                   completedAppointments: nat)
    | PharmacistStats(totalOrders: nat, pendingOrders: nat, completedOrders: nat, totalRevenue: Value)

  /** The number of rows whose field is `=== v`. */
  function Count(rows: seq<JsObject>, field: string, v: Value): nat {
    |Filter(rows, FieldIs(field, v))|
  }

  /** Rows with two different field values are disjoint sets. */
  lemma CountTwoValues(rows: seq<JsObject>, field: string, a: Value, b: Value)
    requires a != b
    ensures Count(rows, field, a) + Count(rows, field, b) <= |rows|
  {
    var p, q := FieldIs(field, a), FieldIs(field, b);
    var pq: JsObject -> bool := row => p(row) || q(row);
    FilterDisjointCount(rows, p, q, pq);
  }

  /** `apt.status === 'confirmed' || apt.status === 'pending'` */
  function IsUpcoming(): JsObject -> bool {
    apt => StrictEq(Get(apt, "status"), Str("confirmed")) || StrictEq(Get(apt, "status"), Str("pending"))
  }

  /** Upcoming appointments are the confirmed ones and the pending ones, and
      none of them is completed. */
  lemma UpcomingCount(rows: seq<JsObject>)
    ensures |Filter(rows, IsUpcoming())| == Count(rows, "status", Str("confirmed")) + Count(rows, "status", Str("pending"))
    ensures |Filter(rows, IsUpcoming())| + Count(rows, "status", Str("completed")) <= |rows|
  {
    var c, p, d := FieldIs("status", Str("confirmed")), FieldIs("status", Str("pending")),
                   FieldIs("status", Str("completed"));
    FilterDisjointCount(rows, c, p, IsUpcoming());
    var ud: JsObject -> bool := row => IsUpcoming()(row) || d(row);
    FilterDisjointCount(rows, IsUpcoming(), d, ud);
  }

  /** `orders.reduce((sum, o) => sum + o.totalAmount, sum)` */
  function SumAmounts(sum: Value, orders: seq<JsObject>): Value
    decreases orders
  {
    if orders == [] then sum else SumAmounts(JsAdd(sum, Get(orders[0], "totalAmount")), orders[1..])
  }

  predicate HasAmount(order: JsObject) {
    Get(order, "totalAmount").Num?
  }

  /** The sum of the numeric amounts (in cents) of the orders; the fold it
      specifies is only compared with it on orders that all have one. */
  function Cents(orders: seq<JsObject>): int {
    if orders == [] then 0
    else (if HasAmount(orders[0]) then Get(orders[0], "totalAmount").n else 0) + Cents(orders[1..])
  }

  /** Folding from a number adds the amounts to it. */
  lemma {:induction false} SumAmountsIsCents(a: int, orders: seq<JsObject>)
    requires forall o :: o in orders ==> HasAmount(o)
    ensures SumAmounts(Num(a), orders) == Num(a + Cents(orders))
    decreases orders
  {
    if orders != [] {
      assert HasAmount(orders[0]);
      SumAmountsIsCents(a + Get(orders[0], "totalAmount").n, orders[1..]);
    }
  }

  /** The doctor's figures: their appointments, those dated today, their
      prescriptions and their confirmed appointments. */
  function DoctorFigures(appointments: seq<JsObject>, prescriptions: seq<JsObject>, userId: Value, today: string)
    : (s: Stats)
    ensures var mine := Scope(appointments, userId, Str("doctor"));
            s.DoctorStats? && s.totalAppointments == |mine|
            && s.todayAppointments == Count(mine, "date", Str(today)) <= |mine|
            && s.confirmedAppointments == Count(mine, "status", Str("confirmed")) <= |mine|
            && s.totalPrescriptions == |Scope(prescriptions, userId, Str("doctor"))|
  {
    var userIdNum := EnsureNumber(userId);
    assert OwnerField(Str("doctor")) == Some("doctorId");
    var mine := Filter(appointments, FieldIs("doctorId", userIdNum));
    assert mine == Scope(appointments, userId, Str("doctor"));
    DoctorStats(|mine|, Count(mine, "date", Str(today)),
                Count(prescriptions, "doctorId", userIdNum), Count(mine, "status", Str("confirmed")))
  }

  /** The patient's figures: their appointments, the upcoming ones, their
      prescriptions and their completed appointments. */
  function PatientFigures(appointments: seq<JsObject>, prescriptions: seq<JsObject>, userId: Value): (s: Stats)
    ensures var mine := Scope(appointments, userId, Str("patient"));
            s.PatientStats? && s.totalAppointments == |mine|
            && s.upcomingAppointments == Count(mine, "status", Str("confirmed")) + Count(mine, "status", Str("pending"))
            && s.completedAppointments == Count(mine, "status", Str("completed"))
            && s.upcomingAppointments + s.completedAppointments <= |mine|
            && s.totalPrescriptions == |Scope(prescriptions, userId, Str("patient"))|
  {
    var userIdNum := EnsureNumber(userId);
    assert OwnerField(Str("patient")) == Some("patientId");
    var mine := Filter(appointments, FieldIs("patientId", userIdNum));
    assert mine == Scope(appointments, userId, Str("patient"));
    UpcomingCount(mine);
    PatientStats(|mine|, |Filter(mine, IsUpcoming())|,
                 Count(prescriptions, "patientId", userIdNum), Count(mine, "status", Str("completed")))
  }

  /** The pharmacist's figures: all orders, the pending ones, the completed
      ones and the revenue folded over the completed ones. */
  function PharmacistFigures(orders: seq<JsObject>): (s: Stats)
    ensures s.PharmacistStats? && s.totalOrders == |orders|
    ensures s.pendingOrders == Count(orders, "status", Str("pending"))
    ensures s.completedOrders == Count(orders, "status", Str("completed"))
    ensures s.pendingOrders + s.completedOrders <= s.totalOrders
    ensures s.totalRevenue == SumAmounts(Num(0), Filter(orders, FieldIs("status", Str("completed"))))
  {
    var completed := Filter(orders, FieldIs("status", Str("completed")));
    CountTwoValues(orders, "status", Str("pending"), Str("completed"));
    PharmacistStats(|orders|, Count(orders, "status", Str("pending")), |completed|, SumAmounts(Num(0), completed))
  }

  /** `getDashboardStats(role, userId)` with today's date string; 'Invalid role'
      for anything but the four role names. */
  function DashboardStats(users: seq<JsObject>, appointments: seq<JsObject>, prescriptions: seq<JsObject>,
                          orders: seq<JsObject>, role: Value, userId: Value, today: string): (r: Result<Stats>)
    ensures r.Err? <==> role !in MockData.Roles
    ensures r.Err? ==> r.error == "Invalid role"
    ensures role == Str("admin") ==>
              r.Ok? && r.data.AdminStats? && r.data.totalUsers == |users|
              && r.data.totalAppointments == |appointments| && r.data.totalPrescriptions == |prescriptions|
              && r.data.pendingOrders == Count(orders, "status", Str("pending"))
    ensures role == Str("doctor") ==> r == Ok(DoctorFigures(appointments, prescriptions, userId, today))
    ensures role == Str("patient") ==> r == Ok(PatientFigures(appointments, prescriptions, userId))
    ensures role == Str("pharmacist") ==> r == Ok(PharmacistFigures(orders))
  {
    assert MockData.Roles == {Str("admin"), Str("doctor"), Str("patient"), Str("pharmacist")};
    if StrictEq(role, Str("admin")) then
      Ok(AdminStats(|users|, |appointments|, |prescriptions|, Count(orders, "status", Str("pending"))))
    else if StrictEq(role, Str("doctor")) then
      Ok(DoctorFigures(appointments, prescriptions, userId, today))
    else if StrictEq(role, Str("patient")) then
      Ok(PatientFigures(appointments, prescriptions, userId))
    else if StrictEq(role, Str("pharmacist")) then
      Ok(PharmacistFigures(orders))
    else
      Err("Invalid role")
  }

  /** A doctor's dashboard, field by field, over the doctor's scoped appointments. */
  lemma DoctorDashboard(users: seq<JsObject>, appointments: seq<JsObject>, prescriptions: seq<JsObject>,
                        orders: seq<JsObject>, userId: Value, today: string)
    ensures var mine := Scope(appointments, userId, Str("doctor"));
            DashboardStats(users, appointments, prescriptions, orders, Str("doctor"), userId, today)
            == Ok(DoctorStats(|mine|, Count(mine, "date", Str(today)),
                              |Scope(prescriptions, userId, Str("doctor"))|, Count(mine, "status", Str("confirmed"))))
  {
  }

  /** A patient's dashboard, field by field, over the patient's scoped appointments. */
  lemma PatientDashboard(users: seq<JsObject>, appointments: seq<JsObject>, prescriptions: seq<JsObject>,
                         orders: seq<JsObject>, userId: Value, today: string)
    ensures var mine := Scope(appointments, userId, Str("patient"));
            DashboardStats(users, appointments, prescriptions, orders, Str("patient"), userId, today)
            == Ok(PatientStats(|mine|, |Filter(mine, IsUpcoming())|,
                               |Scope(prescriptions, userId, Str("patient"))|, Count(mine, "status", Str("completed"))))
  {
  }

  lemma FilteredOrdersHaveAmounts(orders: seq<JsObject>, p: JsObject -> bool)
    requires forall o :: o in orders ==> HasAmount(o)
    ensures forall o :: o in Filter(orders, p) ==> HasAmount(o)
  {
    var kept := Filter(orders, p);
    forall o | o in kept ensures HasAmount(o) {
      var k :| 0 <= k < |kept| && kept[k] == o;
      assert kept[k] in orders;
    }
  }

  /** The pharmacist's revenue is the sum of the completed orders' amounts. */
  lemma RevenueIsCompletedCents(orders: seq<JsObject>)
    requires forall o :: o in orders ==> HasAmount(o)
    ensures PharmacistFigures(orders).totalRevenue == Num(Cents(Filter(orders, FieldIs("status", Str("completed")))))
  {
    var p := FieldIs("status", Str("completed"));
    FilteredOrdersHaveAmounts(orders, p);
    RevenueFromZero(Filter(orders, p));
  }

  /** The fold the pharmacist's revenue uses, started at 0. */
  lemma RevenueFromZero(completed: seq<JsObject>)
    requires forall o :: o in completed ==> HasAmount(o)
    ensures SumAmounts(Num(0), completed) == Num(Cents(completed))
  {
    SumAmountsIsCents(0, completed);
  }

  // ---------------------------------------------------------------------------
  // The store

  /** The module-level collections, seeded at load time and mutated in place
      by register, create, update and updateOrderStatus. */
  class MockStore {
    var users: seq<JsObject>
    var doctors: seq<JsObject>
    var appointments: seq<JsObject>
    var prescriptions: seq<JsObject>
    var patients: seq<JsObject>
    var pharmacyOrders: seq<JsObject>

    /** The store as the module loads on the day with the given dates. */
    constructor (today: string, tomorrow: string, yesterday: string)
      ensures users == MockData.Users() && doctors == MockData.Doctors()
      ensures appointments == MockData.Appointments(today, tomorrow, yesterday)
      ensures prescriptions == MockData.Prescriptions(yesterday)
      ensures patients == MockData.Patients(yesterday)
      ensures pharmacyOrders == MockData.PharmacyOrders(today, yesterday)
    {
      users := MockData.Users();
      doctors := MockData.Doctors();
      appointments := MockData.Appointments(today, tomorrow, yesterday);
      prescriptions := MockData.Prescriptions(yesterday);
      patients := MockData.Patients(yesterday);
      pharmacyOrders := MockData.PharmacyOrders(today, yesterday);
    }

    // authAPI

    method Login(email: Value, password: Value) returns (r: Result<JsObject>)
      ensures r == Authenticate(users, email, password)
    {
      r := Authenticate(users, email, password);
    }

    /** Appends the new user (no duplicate-email check) and returns it without its password. */
    method Register(userData: JsObject) returns (user: JsObject)
      requires Get(userData, "name").Str?
      modifies this`users
      ensures users == old(users) + [NewUser(|old(users)|, userData)]
      ensures user == NewUser(|old(users)|, userData) - {"password"}
    {
      var newUser := NewUser(|users|, userData);
      users := users + [newUser];
      user := newUser - {"password"};
    }

    // doctorsAPI and patientsAPI

    method GetAllDoctors() returns (r: seq<JsObject>)
      ensures r == doctors
    {
      r := doctors;
    }

    method GetDoctorById(id: Value) returns (r: Option<JsObject>)
      ensures r == FindById(doctors, id)
    {
      r := FindById(doctors, id);
    }

    method GetAllPatients() returns (r: seq<JsObject>)
      ensures r == patients
    {
      r := patients;
    }

    method GetPatientById(id: Value) returns (r: Option<JsObject>)
      ensures r == FindById(patients, id)
    {
      r := FindById(patients, id);
    }

    // appointmentsAPI

    method GetAllAppointments(userId: Value, role: Value) returns (r: seq<JsObject>)
      ensures r == Scope(appointments, userId, role)
    {
      r := Scope(appointments, userId, role);
    }

    method CreateAppointment(data: JsObject) returns (created: JsObject)
      modifies this`appointments
      ensures created == NewRecord(|old(appointments)|, data)
      ensures appointments == old(appointments) + [created]
    {
      created := NewRecord(|appointments|, data);
      appointments := appointments + [created];
    }

    method UpdateAppointment(id: Value, updates: JsObject) returns (r: Result<JsObject>)
      modifies this`appointments
      ensures match UpdateById(old(appointments), id, updates)
              case None => r == Err("Appointment not found") && appointments == old(appointments)
              case Some(u) => r == Ok(u.row) && appointments == u.rows
    {
      match UpdateById(appointments, id, updates)
      case None =>
        r := Err("Appointment not found");
      case Some(u) =>
        appointments := u.rows;
        r := Ok(u.row);
    }

    // prescriptionsAPI

    method GetAllPrescriptions(userId: Value, role: Value) returns (r: seq<JsObject>)
      ensures r == Scope(prescriptions, userId, role)
    {
      r := Scope(prescriptions, userId, role);
    }

    method CreatePrescription(data: JsObject) returns (created: JsObject)
      modifies this`prescriptions
      ensures created == NewRecord(|old(prescriptions)|, data)
      ensures prescriptions == old(prescriptions) + [created]
    {
      created := NewRecord(|prescriptions|, data);
      prescriptions := prescriptions + [created];
    }

    method UpdatePrescription(id: Value, updates: JsObject) returns (r: Result<JsObject>)
      modifies this`prescriptions
      ensures match UpdateById(old(prescriptions), id, updates)
              case None => r == Err("Prescription not found") && prescriptions == old(prescriptions)
              case Some(u) => r == Ok(u.row) && prescriptions == u.rows
    {
      match UpdateById(prescriptions, id, updates)
      case None =>
        r := Err("Prescription not found");
      case Some(u) =>
        prescriptions := u.rows;
        r := Ok(u.row);
    }

    // pharmacyAPI

    method GetAllOrders() returns (r: seq<JsObject>)
      ensures r == pharmacyOrders
    {
      r := pharmacyOrders;
    }

    /** Sets the status of the first order with that id and touches nothing else. */
    method UpdateOrderStatus(id: Value, status: Value) returns (r: Result<JsObject>)
      modifies this`pharmacyOrders
      ensures match FindIndex(old(pharmacyOrders), FieldIs("id", id))
              case None => r == Err("Order not found") && pharmacyOrders == old(pharmacyOrders)
              case Some(i) =>
                && pharmacyOrders == old(pharmacyOrders)[i := old(pharmacyOrders)[i]["status" := status]]
                && r == Ok(pharmacyOrders[i])
      ensures match UpdateById(old(pharmacyOrders), id, map["status" := status])
              case None => r == Err("Order not found") && pharmacyOrders == old(pharmacyOrders)
              case Some(u) => pharmacyOrders == u.rows && r == Ok(u.row)
    {
      match FindIndex(pharmacyOrders, FieldIs("id", id))
      case None =>
        r := Err("Order not found");
      case Some(i) =>
        StatusUpdateIsMerge(pharmacyOrders[i], status);
        pharmacyOrders := pharmacyOrders[i := pharmacyOrders[i]["status" := status]];
        r := Ok(pharmacyOrders[i]);
    }

    // statsAPI

    method GetDashboardStats(role: Value, userId: Value, today: string) returns (r: Result<Stats>)
      ensures r == DashboardStats(users, appointments, prescriptions, pharmacyOrders, role, userId, today)
    {
      r := DashboardStats(users, appointments, prescriptions, pharmacyOrders, role, userId, today);
    }
  }
}
