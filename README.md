# Online healthcare system: the mock data layer and the legacy panels

This project is a Dafny model of the data side of a React healthcare
front end. There are two parts.

- **The mock API facade** (`src/utils/api.js`) keeps six module-level
  collections, seeded from `src/utils/mockData.js`: users, doctors,
  appointments, prescriptions, patients and pharmacy orders. Over them it
  offers:
  - login and register;
  - listing and lookup of doctors and patients;
  - role-scoped listing, creation and update of appointments and prescriptions;
  - order status updates;
  - per-role dashboard statistics.
- **The legacy components** `BookAppointment`, `Register`, `Login`,
  `AdminPanel` and `DoctorPanel` read and write JSON lists in the
  browser's `localStorage`:
  - booking caps a doctor at 15 stored appointments;
  - registration refuses an email already stored;
  - login finds the first stored user whose email and password both match;
  - the admin panel searches bookings without regard to ASCII case;
  - the doctor panel lists the bookings made under the doctor's name and
    stores prescriptions.

Modules:

- `JsValues`: JavaScript values, plain objects as `map<string, Value>`,
  property access, `===` and `+`.
- `JsStrings`: `toLowerCase`, `includes`, `split`/`join`, the avatar
  initials and `parseInt(s, 10)`.
- `JsArrays`: `filter`, `find`, `findIndex` and `some`, with their laws.
- `MockData`: the seed constants and facts about them.
- `Api`: the operations as functions, and the class `MockStore`, which
  holds the six collections. Its methods update users, appointments,
  prescriptions and pharmacy orders in place. Doctors and patients are
  only read.
- `SeedScenarios`: what the API answers on the seed data.
- `LocalStorage`: the browser storage as a class with one field per key.
- `BookAppointment`, `Register`, `Login`, `AdminPanel`, `DoctorPanel`: the
  components. Their state is a class; the handlers are methods; the pure
  decision each handler makes is a function.

Facts about the code worth knowing:

- `authAPI.register` appends every user it is given, without checking for
  a duplicate email (`src/utils/api.js:34-44`). Only the legacy `Register`
  component refuses a taken email.
- Patient 3 owns appointments 1, 2 and 4
  (`src/utils/mockData.js:86-135`).
- The doctor user "Dr. Sarah Johnson" has user id 2, but the doctor record
  of that name has id 1. So a doctor logged in as user 2 who asks for their
  appointments gets Dr. Michael Brown's appointment 2 only
  (`SeedScenarios.DoctorUserTwoAppointments`).

Model choices:

- Numbers are integers. Ids are integral. `rating` is kept in tenths
  (4.8 is 48). `totalAmount` is kept in cents (45.99 is 4599).
- The dates `today`, `tomorrow` and `yesterday`, which the source
  computes from the clock, are parameters.

## Model

| member | source | states |
|---|---|---|
| JsValues.Get | src/utils/api.js:69 | property access `o[k]`: the stored value, or `undefined` for a missing property; the `MockData` field lemmas read rows back through it |
| JsValues.StrictEq | src/utils/api.js:69 | `===`: equal numbers, equal strings, equal booleans, or both `null` or both `undefined`; NaN and objects are `===` to nothing; `StrictEqMeansEqual` states what it means |
| JsValues.JsAdd | src/utils/api.js:215 | `+` of two numbers is their sum; any other operand gives NaN; `SumAmountsIsCents` relates the fold over it to `Cents` |
| JsValues.StrictEqMeansEqual | src/utils/api.js:69 | `===` holds exactly for two equal primitives other than NaN |
| JsStrings.ToLowerAscii | src/components/AdminPanel.js:15-16 | same length; every character mapped by the ASCII lower-case mapping |
| JsStrings.LowerAsciiIdempotent | src/components/AdminPanel.js:15-16 | lower-casing twice equals lower-casing once, and leaves no upper-case ASCII letter |
| JsStrings.Includes | src/components/AdminPanel.js:15-17 | `hay.includes(needle)`; `IncludesIff` states it equals occurrence at some position |
| JsStrings.IncludesIff | src/components/AdminPanel.js:15-17 | `includes` holds exactly when the needle occurs at some position of the hay |
| JsStrings.OccurrenceIsIncluded | src/components/AdminPanel.js:15-17 | an occurrence at any position makes `includes` true |
| JsStrings.IncludesEmpty | src/components/AdminPanel.js:17 | every string includes the empty string |
| JsStrings.SplitOn | src/utils/api.js:39 | `split` yields at least one piece, and no piece contains the separator |
| JsStrings.JoinWith | src/utils/api.js:39 | `join(sep)`: the pieces with the separator between each two; `JoinSplit` and `SplitJoin` state it inverts `SplitOn` |
| JsStrings.JoinSplit | src/utils/api.js:39 | joining the pieces of a split gives back the string |
| JsStrings.SplitJoin | src/utils/api.js:39 | splitting a join of separator-free pieces gives back the pieces |
| JsStrings.SplitOnSeparator | src/utils/api.js:39 | a leading separator splits off an empty piece |
| JsStrings.SplitOnOther | src/utils/api.js:39 | a leading non-separator character starts the first piece |
| JsStrings.FirstLetters | src/utils/api.js:39 | `map(n => n[0]).join('')`: the first character of each piece, and nothing for an empty piece |
| JsStrings.Initials | src/utils/api.js:39 | the avatar: the first letters of the pieces of the name split on a space; `InitialsAreWordStarts` states it equals `WordStarts` |
| JsStrings.WordStarts | src/utils/api.js:39 | the independent reference for the avatar: every non-space character at the start of the name or right after a space |
| JsStrings.InitialsAreWordStarts | src/utils/api.js:39 | the avatar equals the first character of every space-separated word, in order |
| JsStrings.WordStartsOfWord | src/utils/api.js:39 | a single word contributes its first letter |
| JsStrings.WordStartsAfterWord | src/utils/api.js:39 | word starts of `w + " " + rest` are those of w followed by those of rest |
| JsStrings.DigitPrefix | src/utils/api.js:17 | the prefix that `parseInt` reads is all digits and is a prefix of the input |
| JsStrings.ParseInt10 | src/utils/api.js:17 | `parseInt(s, 10)` is a number or NaN; exact up to 2^53 (see "## Left out") |
| JsStrings.ParseDigitRun | src/utils/api.js:17 | reading the digit run gives a number or NaN |
| JsStrings.NatToDecimal | src/utils/api.js:17 | the decimal form of a natural is a non-empty digit string |
| JsStrings.DigitsValue | src/utils/api.js:17 | the number a digit string denotes, most significant digit first; `DigitsValueOfDecimal` states it inverts `NatToDecimal` |
| JsStrings.DigitsValueOfDecimal | src/utils/api.js:17 | the decimal form of n denotes n |
| JsStrings.DigitPrefixStops | src/utils/api.js:17 | the digit prefix stops at the first non-digit |
| JsStrings.IsJsWhitespace | src/utils/api.js:17 | the characters `parseInt` skips: TAB, LF, VT, FF, CR, the Zs space separators, LINE and PARAGRAPH SEPARATOR, and the BOM |
| JsStrings.TrimStart | src/utils/api.js:17 | the white space `parseInt` skips, dropped from the front; `TrimStartSkips` states what it skips |
| JsStrings.TrimStartSkips | src/utils/api.js:17 | leading white space is skipped |
| JsStrings.ParseDigitRunOf | src/utils/api.js:17 | a digit run followed by a non-digit reads as its value |
| JsStrings.ParseDigits | src/utils/api.js:17 | `parseInt` of digits followed by non-digit text is the value of the digits |
| JsStrings.ParseNegativeDigits | src/utils/api.js:17 | `parseInt` of a minus sign and digits is the negated value |
| JsStrings.ParsePositiveDigits | src/utils/api.js:17 | `parseInt` of a plus sign and digits is the value of the digits |
| JsStrings.IntToDecimal | src/utils/api.js:17 | `String(n)` for an integer of magnitude up to 2^53: a minus sign for a negative one, then the digits of its magnitude; `ParseIntOfDecimalAlone` states `parseInt` reads it back |
| JsStrings.ParseIntOfDecimalAlone | src/utils/api.js:17 | `parseInt` reads back the decimal form of any integer |
| JsStrings.ParseIntOfDecimal | src/utils/api.js:17 | the same with any leading white space and any trailing non-digit text |
| JsStrings.ParseIntIsNaN | src/utils/api.js:17 | `parseInt` gives NaN exactly when no digit follows the leading white space and an optional sign |
| JsArrays.SubsequenceOfItself | src/utils/api.js:65 | a copy of a collection is a subsequence of it |
| JsArrays.Filter | src/utils/api.js:69 | `filter` keeps exactly the elements that satisfy p, in order; the result is no longer than the input |
| JsArrays.FilterCons | src/utils/api.js:69 | filtering keeps or drops the head, then filters the tail |
| JsArrays.FilterCounts | src/utils/api.js:69 | each satisfying element is kept as often as it occurs; every other element is dropped |
| JsArrays.FilterMultiset | src/utils/api.js:69 | the result's multiset is exactly the satisfying part of the input's multiset |
| JsArrays.PositionsOfSnoc | src/utils/api.js:69 | proof helper: appending an element adds its position exactly when it satisfies p |
| JsArrays.FilterLengthIsIndexCount | src/components/BookAppointment.js:13-15 | the length of a filter is the number of positions whose element satisfies p |
| JsArrays.FilterAppend | src/utils/api.js:69 | filtering distributes over concatenation |
| JsArrays.FilterSnoc | src/utils/api.js:84 | after an append, the new element is kept, last, exactly when it satisfies p |
| JsArrays.FilterOfThree | src/utils/api.js:69 | proof helper: filtering three elements keeps each one exactly when it satisfies p |
| JsArrays.FilterKeepsAll | src/components/AdminPanel.js:13-19 | when every element satisfies p, filtering keeps the whole sequence |
| JsArrays.FilterKeepsNone | src/utils/api.js:69 | when no element satisfies p, filtering keeps nothing |
| JsArrays.FilterDisjointCount | src/utils/api.js:203 | for disjoint predicates p and q, the count of "p or q" is the sum of the two counts |
| JsArrays.FindIndex | src/utils/api.js:90 | `findIndex` gives the first satisfying index, or none exactly when no element satisfies p |
| JsArrays.Find | src/utils/api.js:26 | `find` gives a satisfying element, or none exactly when no element satisfies p |
| JsArrays.Any | src/components/Register.js:12 | `some` holds exactly when some element satisfies p |
| MockData.User | src/utils/mockData.js:4-11 | a user object with the six common fields; `UserFields` states it reads them back |
| MockData.Users | src/utils/mockData.js:3-39 | `mockUsers`: admin, doctor, patient and pharmacist, with the doctor's specialization, the patient's age and the pharmacist's pharmacy name; `SeedUsers` states them field by field |
| MockData.Slots | src/utils/mockData.js:48 | a slot list: the times as strings, in the given order |
| MockData.Doctor | src/utils/mockData.js:42-49 | a doctor object: id, name, specialization, experience, rating in tenths and the slot list |
| MockData.Doctors | src/utils/mockData.js:41-74 | `mockDoctors`: the four doctors; `SeedDoctors` and `SeedSlotsAscend` state their ids, names and slots |
| MockData.Appointment | src/utils/mockData.js:87-98 | an appointment object; `AppointmentFields` states it reads its fields back |
| MockData.Appointments | src/utils/mockData.js:86-135 | `mockAppointments` over the three dates; `SeedAppointments` states them field by field |
| MockData.Medication | src/utils/mockData.js:146 | a medication entry: name, dosage, frequency and duration |
| MockData.Prescription | src/utils/mockData.js:138-151 | a prescription object; `PrescriptionFields` states it reads its fields back |
| MockData.Prescriptions | src/utils/mockData.js:137-178 | `mockPrescriptions`; `SeedPrescriptions` and `SeedPrescriptionsHaveMedications` state them |
| MockData.Patients | src/utils/mockData.js:180-201 | `mockPatients`; `SeedPatientIds` states their ids |
| MockData.OrderItem | src/utils/mockData.js:209 | an order line: medication name and quantity |
| MockData.PharmacyOrder | src/utils/mockData.js:204-215 | an order object with its amount in cents; `OrderFields` states it reads its fields back |
| MockData.PharmacyOrders | src/utils/mockData.js:203-238 | `mockPharmacyOrders`; `SeedOrders` states them field by field |
| MockData.UserFields | src/utils/mockData.js:4-11 | a user built from its fields reads those fields back |
| MockData.UserFieldsWithExtra | src/utils/mockData.js:12-20 | a role-specific extra field leaves a user's other fields as they were |
| MockData.AppointmentFields | src/utils/mockData.js:87-98 | an appointment reads back its id, patient, doctor, date and status |
| MockData.PrescriptionFields | src/utils/mockData.js:138-151 | a prescription reads back its id, patient and doctor |
| MockData.OrderFields | src/utils/mockData.js:204-215 | an order reads back its id, status and amount |
| MockData.SeedUsers | src/utils/mockData.js:3-39 | the four seed users: id, email, password, role and name of each |
| MockData.SeedAppointments | src/utils/mockData.js:86-135 | the four seed appointments: id, patient, doctor, date and status of each |
| MockData.SeedPrescriptions | src/utils/mockData.js:137-178 | the three seed prescriptions: id, patient and doctor of each |
| MockData.SeedOrders | src/utils/mockData.js:203-238 | the three seed orders: id, status and amount of each (4599, 1250, 899 cents) |
| MockData.SeedDoctors | src/utils/mockData.js:41-74 | four doctors with ids 1 to 4; doctor 1 is Dr. Sarah Johnson |
| MockData.SeedPatientIds | src/utils/mockData.js:180-201 | the two patients have ids 3 and 5 |
| MockData.UserRowsAreNumbered | src/utils/mockData.js:3-39 | the seed users' ids are 1 to 4 in order |
| MockData.AppointmentRowsAreNumbered | src/utils/mockData.js:86-135 | the seed appointments' ids are 1 to 4 in order |
| MockData.PrescriptionRowsAreNumbered | src/utils/mockData.js:137-178 | the seed prescriptions' ids are 1 to 3 in order |
| MockData.OrderRowsAreNumbered | src/utils/mockData.js:203-238 | the seed orders' ids are 1 to 3 in order |
| MockData.SeedIdsAreNumberedFromOne | src/utils/mockData.js:3-238 | users, doctors, appointments, prescriptions and orders are numbered 1..n, so `length + 1` is a fresh id |
| MockData.NumberedIdsAreUnique | src/utils/mockData.js:3-238 | ids 1..n are pairwise distinct |
| MockData.UserRowsAreWellFormed | src/utils/mockData.js:3-39 | seed-shaped users have pairwise distinct emails, and each role is one of the four |
| MockData.SeedUsersAreWellFormed | src/utils/mockData.js:3-39 | the seed users' emails are pairwise distinct, and each role is one of the four |
| MockData.SlotsAscend | src/utils/mockData.js:48 | five strictly ascending times form an ascending slot list |
| MockData.SeedSlotsAscend | src/utils/mockData.js:41-74 | every doctor's five available slots are in strictly ascending time order |
| MockData.SeedPrescriptionsHaveMedications | src/utils/mockData.js:137-178 | every seed prescription lists at least one medication |
| Api.EnsureNumber | src/utils/api.js:15-20 | a string becomes a number or NaN; any other value is kept as it is |
| Api.EnsureNumberOfDecimal | src/utils/api.js:15-20 | the decimal string of an id normalises to that id, as does the id itself |
| Api.FieldIs | src/utils/api.js:69 | the callback `row => row[field] === v` |
| Api.OwnerField | src/utils/api.js:68-72 | `doctorId` for a role `===` 'doctor', `patientId` for 'patient', and no field for any other role |
| Api.Owns | src/utils/api.js:66-71 | a row is the actor's when its owner field `===` the normalised actor id |
| Api.Scope | src/utils/api.js:63-75 | doctor and patient see exactly the rows whose owner field `===` the normalised id, in order and each as often as it is stored; any other role sees the whole collection |
| Api.ScopeOfDecimalActor | src/utils/api.js:66 | a string actor id scopes exactly like the number it spells |
| Api.ScopeOfUnparsableActor | src/utils/api.js:66-71 | an actor id that parses to NaN owns no row |
| Api.ScopeOfNonNumericActor | src/utils/api.js:66-71 | a doctor or patient whose id is empty or starts with a letter sees no row |
| Api.ScopeAfterAppend | src/utils/api.js:77-86 | a created record appears, last, for exactly the actors that own it |
| Api.NewRecord | src/utils/api.js:79-83 | status is pending; the id is `count + 1` unless the data brings one; every other field comes from the data, and no field is added besides |
| Api.CreateKeepsNumbering | src/utils/api.js:77-86 | a create without its own id keeps the collection numbered 1..n+1 |
| Api.UpdateById | src/utils/api.js:88-96 | not found exactly when no id `===` matches; otherwise the first match is replaced by the merge of its fields and the updates, and every other row is unchanged |
| Api.UpdateByStringIdFindsNothing | src/utils/api.js:90 | a string id matches no row among numeric ids |
| Api.StatusUpdateIsMerge | src/utils/api.js:162 | setting `status` in place equals merging `{status}`; `UpdateOrderStatus` uses it to meet `UpdateById` |
| Api.FindById | src/utils/api.js:56 | found exactly when some row's id `===` the argument; the row found is the first such row |
| Api.FindByStringIdFindsNothing | src/utils/api.js:56 | `getById` does not normalise: a string id finds no row among numeric ids |
| Api.Credentials | src/utils/api.js:26 | the callback `u => u.email === email && u.password === password` |
| Api.Authenticate | src/utils/api.js:24-32 | 'Invalid credentials' exactly when no user matches both fields; otherwise the first match, without its password |
| Api.LoginWithDistinctEmails | src/utils/api.js:26 | with distinct emails, the user's own password logs that user in, and any other password is refused |
| Api.NewUser | src/utils/api.js:36-40 | the id is `count + 1` unless given; the avatar is the word initials of the name; the user data is kept; no other key is added |
| Api.LoginAfterRegister | src/utils/api.js:34-44 | a user registered with credentials no earlier user has can log in with them |
| Api.Count | src/utils/api.js:176-217 | `filter(row => row[field] === v).length`; `CountTwoValues` bounds two such counts by the total |
| Api.IsUpcoming | src/utils/api.js:203 | the callback: status `===` 'confirmed' or 'pending'; `UpcomingCount` states its count |
| Api.CountTwoValues | src/utils/api.js:213-214 | pending orders plus completed orders are at most all orders |
| Api.UpcomingCount | src/utils/api.js:203 | upcoming is confirmed plus pending, and upcoming plus completed is at most the total |
| Api.SumAmounts | src/utils/api.js:215 | `reduce((sum, o) => sum + o.totalAmount, sum)` |
| Api.Cents | src/utils/api.js:215 | the independent reference for revenue: the sum of the numeric amounts, in cents; `SumAmountsIsCents` ties the fold to it |
| Api.SumAmountsIsCents | src/utils/api.js:215 | the `reduce` fold from a number a is a plus the sum of the amounts |
| Api.RevenueFromZero | src/utils/api.js:215 | the fold from 0 is the sum of the amounts |
| Api.DoctorFigures | src/utils/api.js:186-196 | the doctor's totals count their scoped appointments, those dated today, the confirmed ones, and their scoped prescriptions |
| Api.PatientFigures | src/utils/api.js:197-207 | the patient's totals count their scoped appointments and prescriptions; upcoming is confirmed plus pending; completed counts their completed appointments; upcoming plus completed is at most the total |
| Api.PharmacistFigures | src/utils/api.js:208-217 | the totals count all orders, the pending ones and the completed ones; pending plus completed is at most the total; revenue is the fold over the completed orders |
| Api.RevenueIsCompletedCents | src/utils/api.js:215 | revenue is the sum of the completed orders' amounts |
| Api.DashboardStats | src/utils/api.js:171-221 | 'Invalid role' exactly for a role other than the four names; admin gets the collection sizes and pending orders; the other three roles get their figures |
| Api.DoctorDashboard | src/utils/api.js:186-196 | a doctor's dashboard, field by field, over the doctor's scoped rows |
| Api.PatientDashboard | src/utils/api.js:197-207 | a patient's dashboard, field by field, over the patient's scoped rows |
| Api.MockStore.constructor | src/utils/api.js:2-9 | the store starts with the six seed collections |
| Api.MockStore.Login | src/utils/api.js:24-32 | the login answer is `Authenticate` over the current users |
| Api.MockStore.Register | src/utils/api.js:34-44 | the new user is appended and returned without its password |
| Api.MockStore.GetAllDoctors | src/utils/api.js:49-52 | returns the doctors collection |
| Api.MockStore.GetDoctorById | src/utils/api.js:54-58 | returns `FindById` over the doctors |
| Api.MockStore.GetAllPatients | src/utils/api.js:139-142 | returns the patients collection |
| Api.MockStore.GetPatientById | src/utils/api.js:144-148 | returns `FindById` over the patients |
| Api.MockStore.GetAllAppointments | src/utils/api.js:63-75 | returns the scoped appointments |
| Api.MockStore.CreateAppointment | src/utils/api.js:77-86 | the new pending record is appended and returned |
| Api.MockStore.UpdateAppointment | src/utils/api.js:88-96 | on a match the collection becomes the merged one and the merged row is returned; otherwise 'Appointment not found' and nothing changes |
| Api.MockStore.GetAllPrescriptions | src/utils/api.js:101-113 | returns the scoped prescriptions |
| Api.MockStore.CreatePrescription | src/utils/api.js:115-124 | the new pending record is appended and returned |
| Api.MockStore.UpdatePrescription | src/utils/api.js:126-134 | on a match the collection becomes the merged one and the merged row is returned; otherwise 'Prescription not found' and nothing changes |
| Api.MockStore.GetAllOrders | src/utils/api.js:153-156 | returns the orders collection |
| Api.MockStore.UpdateOrderStatus | src/utils/api.js:158-166 | only the status of the first matching order changes, and that order is returned; otherwise 'Order not found' and nothing changes; the orders and the answer are those of `UpdateById` with the updates `{status}` |
| Api.MockStore.GetDashboardStats | src/utils/api.js:171-221 | returns `DashboardStats` over the current collections |
| SeedScenarios.ScopeOfNumber | src/utils/api.js:68-71 | a numeric id scopes a patient by `patientId` and a doctor by `doctorId` |
| SeedScenarios.PatientThreeAppointments | src/utils/mockData.js:86-135 | patient 3 sees appointments 1, 2 and 4 |
| SeedScenarios.PatientThreePrescriptions | src/utils/mockData.js:137-178 | patient 3 sees prescriptions 1 and 2 |
| SeedScenarios.DoctorOneAppointments | src/utils/mockData.js:86-135 | doctor 1 sees appointments 1, 3 and 4 |
| SeedScenarios.DoctorOnePrescriptions | src/utils/mockData.js:137-178 | doctor 1 sees prescriptions 1 and 3 |
| SeedScenarios.DoctorUserIsNotDoctorOne | src/utils/mockData.js:12-20 | the doctor user has id 2 but the name of doctor 1 |
| SeedScenarios.DoctorUserTwoAppointments | src/utils/mockData.js:99-110 | scoped by user id 2, a doctor sees appointment 2 only |
| SeedScenarios.DoctorUserTwoPrescriptions | src/utils/mockData.js:152-164 | scoped by user id 2, a doctor sees prescription 2 only |
| SeedScenarios.PatientCountsOfThree | src/utils/api.js:203-205 | confirmed, pending and completed give 2 upcoming and 1 completed |
| SeedScenarios.PatientStatsOfThreeAppointments | src/utils/api.js:197-207 | three such scoped appointments and two prescriptions give the stats (3, 2, 2, 1) |
| SeedScenarios.PatientThreeStats | src/utils/mockData.js:86-178 | patient 3's dashboard on the seed is (3, 2, 2, 1) |
| SeedScenarios.DoctorCountsOfThree | src/utils/api.js:192-194 | two confirmed appointments today and a completed one on another day: two today, two confirmed |
| SeedScenarios.DoctorStatsOfThreeAppointments | src/utils/api.js:186-196 | three such scoped appointments and two prescriptions give the stats (3, 2, 2, 2) |
| SeedScenarios.DoctorOneStats | src/utils/mockData.js:86-178 | doctor 1's dashboard on the seed is (3, 2, 2, 2) when yesterday is another date |
| SeedScenarios.SeedOrderStatuses | src/utils/mockData.js:203-238 | orders 1 and 3 are pending; order 2, of 1250 cents, is completed |
| SeedScenarios.PharmacistStatsOfSeedOrders | src/utils/api.js:208-217 | seed-shaped orders give the pharmacist stats (3, 2, 1, 1250) |
| SeedScenarios.PharmacistSeedStats | src/utils/mockData.js:203-238 | the pharmacist's dashboard on the seed is (3, 2, 1, 1250 cents) |
| SeedScenarios.AdminStatsOfSeedRows | src/utils/api.js:176-185 | collections of the seed's sizes and order statuses give the admin stats (4, 4, 3, 2) |
| SeedScenarios.AdminSeedStats | src/utils/api.js:176-185 | the admin's dashboard on the seed is (4, 4, 3, 2) |
| SeedScenarios.DoctorLookup | src/utils/api.js:54-58 | doctor 1 is found by the number 1 but not by the string "1" |
| SeedScenarios.PatientLogin | src/utils/mockData.js:21-29 | the seed patient logs in with its own password and is refused with the doctor's |
| SeedScenarios.RegisterFifthUser | src/utils/api.js:36-40 | "Jane Mary Smith" registered fifth gets id 5 and the avatar "JMS" |
| SeedScenarios.TwoWordStarts | src/utils/api.js:39 | two space-separated words give their two first letters |
| SeedScenarios.ThreeWordStarts | src/utils/api.js:39 | three space-separated words give their three first letters |
| SeedScenarios.JaneMarySmithStarts | src/utils/api.js:39 | the initials of "Jane Mary Smith" are "JMS" |
| LocalStorage.BrowserStorage.constructor | src/components/BookAppointment.js:12 | fresh storage has none of the three keys |
| LocalStorage.StoredOrEmpty | src/components/BookAppointment.js:12 | `JSON.parse(getItem(key))`, or `[]` when nothing is stored: a missing key reads as the empty list |
| LocalStorage.ForDoctor | src/components/BookAppointment.js:13 | the callback `a => a.doctor === doctor`; `ForDoctorAfterAppend` states how an append changes its filter |
| LocalStorage.ForDoctorAfterAppend | src/components/DoctorPanel.js:10 | a new booking appears last in its own doctor's list and in no other doctor's |
| BookAppointment.CountForDoctor | src/components/BookAppointment.js:13 | the doctor's count is the number of stored positions holding a booking under that exact name; it is at most the number stored, and 0 exactly when no stored booking is theirs |
| BookAppointment.DoctorCountIsPositions | src/components/BookAppointment.js:13 | the filtered list under a name is as long as the number of positions holding that name |
| BookAppointment.FullAlert | src/components/BookAppointment.js:16 | the alert text that names the full doctor |
| BookAppointment.Book | src/components/BookAppointment.js:12-22 | refused exactly when the doctor already has 15; otherwise the booking is appended |
| BookAppointment.BookCounts | src/components/BookAppointment.js:13-22 | a booking adds one to its own doctor's count and leaves every other doctor's count unchanged |
| BookAppointment.BookKeepsCapacity | src/components/BookAppointment.js:13-22 | booking never takes any doctor above 15 |
| BookAppointment.BookingForm.constructor | src/components/BookAppointment.js:5-8 | the form starts with empty inputs and no message |
| BookAppointment.BookingForm.Edit | src/components/BookAppointment.js:42-59 | the inputs hold what was typed |
| BookAppointment.BookingForm.HandleSubmit | src/components/BookAppointment.js:10-28 | full: the alert, nothing changed; otherwise stored, confirmed and cleared |
| BookAppointment.BookingForm.MessageTimeout | src/components/BookAppointment.js:30 | the timer clears the message |
| Register.HasEmail | src/components/Register.js:12 | the callback `u => u.email === email` |
| Register.AddUser | src/components/Register.js:11-17 | refused exactly when the email is stored; otherwise the user is appended |
| Register.AddUserKeepsEmailsDistinct | src/components/Register.js:12-17 | registering keeps the stored emails pairwise distinct |
| Register.RegisterForm.constructor | src/components/Register.js:4-7 | the form starts empty, with the role `patient` |
| Register.RegisterForm.Edit | src/components/Register.js:26-32 | the inputs hold what was typed |
| Register.RegisterForm.HandleSubmit | src/components/Register.js:9-20 | taken email: alert, nothing stored; otherwise stored, alert, and switch to login |
| Login.Matches | src/components/Login.js:11-13 | the callback `u => u.email === email && u.password === password` |
| Login.HandleSubmit | src/components/Login.js:8-19 | rejected exactly when no stored user matches both fields; otherwise the first match is logged in |
| Login.NothingStoredRejects | src/components/Login.js:10 | with nothing stored, every attempt is rejected |
| Login.LoginAfterRegister | src/components/Login.js:11-13 | after a successful registration, the same email and password log in that user |
| AdminPanel.Matches | src/components/AdminPanel.js:14-18 | the filter callback; `MatchesIff` states when it holds |
| AdminPanel.FilteredAppointments | src/components/AdminPanel.js:13-19 | exactly the matching bookings, in stored order, each as often as it is stored |
| AdminPanel.Loaded | src/components/AdminPanel.js:8-11 | a missing key loads no booking; otherwise the stored list |
| AdminPanel.TotalShown | src/components/AdminPanel.js:64 | the total shown is the number of matches, at most the number stored |
| AdminPanel.MatchesIff | src/components/AdminPanel.js:14-18 | a booking matches exactly when the term occurs in the lower-cased doctor or patient name, or in the raw date |
| AdminPanel.EmptyTermShowsAll | src/components/AdminPanel.js:6 | the initial empty search shows every booking |
| AdminPanel.NameSearchIgnoresCase | src/components/AdminPanel.js:15-16 | a term and its lower-cased form find the same names |
| AdminPanel.LetterNotInHay | src/components/AdminPanel.js:17 | a needle with an ASCII letter is not included in a letter-free hay |
| AdminPanel.SearchIgnoresCase | src/components/AdminPanel.js:13-19 | two terms that differ only in ASCII case find the same bookings, when the date holds no letter |
| DoctorPanel.AppointmentsOf | src/components/DoctorPanel.js:8-11 | exactly the bookings under the doctor's name, in stored order, each as often as it is stored |
| DoctorPanel.BookingIsListed | src/components/DoctorPanel.js:9-10 | a new booking under the doctor's name is listed last; any other booking is not listed |
| DoctorPanel.Send | src/components/DoctorPanel.js:13-20 | refused exactly when the patient or the text is empty; otherwise the prescription is appended |
| DoctorPanel.DoctorPanelView.constructor | src/components/DoctorPanel.js:3-6 | the panel starts with no bookings and empty inputs |
| DoctorPanel.DoctorPanelView.LoadAppointments | src/components/DoctorPanel.js:8-11 | the panel shows the doctor's stored bookings |
| DoctorPanel.DoctorPanelView.Edit | src/components/DoctorPanel.js:37-39 | the inputs hold what was typed |
| DoctorPanel.DoctorPanelView.SendPrescription | src/components/DoctorPanel.js:13-23 | empty input: alert, nothing changed; otherwise stored, alert, text cleared, patient kept |

## Left out

- The simulated network latency (`delay`) and the asynchrony of every API
  call are not modelled. Each call is one atomic step, and no interleaving
  of calls is modelled.
- The `{success, ...}` envelopes are `Result`/`Option` values. `!!doctor`
  is `Some?`.
- `JSON.stringify` and `JSON.parse` are not modelled. Storage keys hold
  typed lists: a missing key is `None`, and malformed stored JSON is not
  modelled.
- Aliasing is not modelled. `doctorsAPI.getAll`, `patientsAPI.getAll` and
  `pharmacyAPI.getAllOrders` return the module arrays themselves. The
  appointment and prescription `getAll` return new arrays (a copy or a
  `filter` result) whose elements are the live objects. `updateOrderStatus`
  mutates the shared order object. The model returns values, so a later
  mutation through a returned array or object is not visible.
- Floating-point numbers are not modelled. Amounts are integer cents and
  ratings integer tenths. `totalRevenue` of the seed is 1250 cents (the
  source's 12.5).
- JsStrings.IntToDecimal: is `String(n)` only for |n| up to 2^53. Beyond
  it a JavaScript number is a double, and `String` prints the shortest
  digits of the nearest double (`String(2**64)` is "18446744073709552000").
  From 10^21 on it writes exponent notation (`1e+21`). Neither is modelled.
- JsStrings.ParseInt10: reads the digit run exactly. JavaScript rounds a
  value above 2^53 to the nearest double (`parseInt("9007199254740993")`
  is 9007199254740992), and a run too long for a double gives `Infinity`,
  which the model has no value for. The ids in the store are far below
  that bound.
- The clock (`new Date()`) is not modelled: today, tomorrow and yesterday
  are parameters.
- `alert`, `onLogin` and `switchToLogin` are not called. The handlers
  return the alert text and a flag instead.
- The form's HTML `required` attributes are not modelled. The handlers
  accept any input, as the handler code itself does.
- JsValues.JsAdd: only number + number is modelled. Any other operand
  gives NaN. So string concatenation is left out, and so is the coercion
  of `null` to 0 and of booleans to 0 and 1. That path is never reached:
  every `totalAmount` is numeric.
- JsStrings.ToLowerAscii: models ASCII letters only. Unicode case mapping
  is left out.
- `===` on objects and arrays is reference identity, modelled as never
  equal.
- Api.NewUser: requires a string `name`. The source throws on `split` for
  any other value; the throw is not modelled.
- Api.NewUser: strings are sequences of Unicode code points, not of UTF-16
  code units. For a name whose word starts outside the Basic Multilingual
  Plane (an emoji, say), `n[0]` in the source is a lone surrogate, while
  the model's avatar holds the whole character.
- Api.MockStore.Register: requires a string `name`, for the same reason.
- Api.Cents: counts a non-numeric amount as 0. It is only related to the
  revenue fold on orders that all have numeric amounts.
- The React rendering (JSX, CSS, the table markup) is left out. Only the
  values the markup shows are modelled (`AdminPanel.TotalShown`).
