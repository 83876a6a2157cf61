/** The legacy login form: the first stored user with both the email and the
    password entered is handed to `onLogin`. The handler only reads storage. */
module Login {
  import opened JsValues
  import opened JsArrays
  import opened LocalStorage
  import Register

  const InvalidAlert: string := "\U{26A0}\U{FE0F} Invalid credentials!"

  /** `u => u.email === email && u.password === password` */
  function Matches(email: string, password: string): RegisteredUser -> bool {
    (u: RegisteredUser) => u.email == email && u.password == password
  }

  /** `handleSubmit` on what is stored under `registeredUsers`: Ok is the user
      passed to `onLogin`, Err the alert shown instead. */
  function HandleSubmit(stored: Option<seq<RegisteredUser>>, email: string, password: string)
    : (r: Result<RegisteredUser>)
    ensures var users := StoredOrEmpty(stored);
            r.Err? <==> forall i :: 0 <= i < |users| ==> !(users[i].email == email && users[i].password == password)
    ensures r.Err? ==> r.error == InvalidAlert
    ensures r.Ok? ==> var users := StoredOrEmpty(stored);
                      exists i :: 0 <= i < |users| && users[i] == r.data
                                  && r.data.email == email && r.data.password == password
                                  && forall j :: 0 <= j < i ==> !(users[j].email == email && users[j].password == password)
  {
    match Find(StoredOrEmpty(stored), Matches(email, password))
    case None => Err(InvalidAlert)
    case Some(found) => Ok(found)
  }

  /** With nothing stored, every attempt is rejected. */
  lemma NothingStoredRejects(email: string, password: string)
    ensures HandleSubmit(None, email, password) == Err(InvalidAlert)
  {
  }

  /** After a successful registration, logging in with the same email and
      password yields the user just registered. */
  lemma LoginAfterRegister(stored: Option<seq<RegisteredUser>>, name: string, email: string, password: string,
                           role: string)
    requires Register.AddUser(StoredOrEmpty(stored), name, email, password, role).Some?
    ensures HandleSubmit(Some(Register.AddUser(StoredOrEmpty(stored), name, email, password, role).value),
                         email, password)
            == Ok(RegisteredUser(name, email, password, role))
  {
    var users := StoredOrEmpty(stored);
    var after := Register.AddUser(users, name, email, password, role).value;
    var p := Matches(email, password);
    assert after[|users|] == RegisteredUser(name, email, password, role);
    forall j | 0 <= j < |users| ensures !p(after[j]) {
      assert after[j] == users[j];
    }
    assert p(after[|users|]);
    assert FindIndex(after, p) == Some(|users|);
  }
}
