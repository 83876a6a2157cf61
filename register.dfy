/** The legacy registration form: a new user is stored unless one with the
    same email is stored already. */
module Register {
  import opened JsValues
  import opened JsArrays
  import opened LocalStorage

  /** `u => u.email === email` */
  function HasEmail(email: string): RegisteredUser -> bool {
    (u: RegisteredUser) => u.email == email
  }

  /** The stored list a submit leaves behind: None when the email is taken,
      otherwise the list with the new user appended. */
  function AddUser(users: seq<RegisteredUser>, name: string, email: string, password: string, role: string)
    : (r: Option<seq<RegisteredUser>>)
    ensures r.None? <==> exists i :: 0 <= i < |users| && users[i].email == email
    ensures r.Some? ==> |r.value| == |users| + 1 && r.value[..|users|] == users
                        && r.value[|users|] == RegisteredUser(name, email, password, role)
  {
    if Any(users, HasEmail(email)) then None
    else Some(users + [RegisteredUser(name, email, password, role)])
  }

  /** No two stored users share an email. */
  ghost predicate DistinctEmails(users: seq<RegisteredUser>) {
    forall i, j :: 0 <= i < j < |users| ==> users[i].email != users[j].email
  }

  /** Every registration attempt keeps the stored emails pairwise distinct. */
  lemma AddUserKeepsEmailsDistinct(users: seq<RegisteredUser>, name: string, email: string, password: string,
                                   role: string)
    requires DistinctEmails(users)
    ensures match AddUser(users, name, email, password, role)
            case None => true
            case Some(after) => DistinctEmails(after)
  {
    match AddUser(users, name, email, password, role)
    case None =>
    case Some(after) =>
      forall i, j | 0 <= i < j < |after| ensures after[i].email != after[j].email {
        assert after[i] == users[i];
        if j < |users| {
          assert after[j] == users[j];
        }
      }
  }

  /** The component's state; the role select starts on `patient`. */
  class RegisterForm {
    var name: string
    var email: string
    var password: string
    var role: string

    constructor ()
      ensures name == "" && email == "" && password == "" && role == "patient"
    {
      name, email, password, role := "", "", "", "patient";
    }

    /** The inputs' and the select's `onChange` handlers. */
    method Edit(newName: string, newEmail: string, newPassword: string, newRole: string)
      modifies this
      ensures name == newName && email == newEmail && password == newPassword && role == newRole
    {
      name, email, password, role := newName, newEmail, newPassword, newRole;
    }

    /** `handleSubmit`: "User already exists!" and nothing stored when the
        email is taken; otherwise the user is appended, "Registered
        successfully!" is shown and the form switches to login. */
    method HandleSubmit(storage: BrowserStorage) returns (alert: string, switchToLogin: bool)
      modifies storage`registeredUsers
      ensures match AddUser(StoredOrEmpty(old(storage.registeredUsers)), name, email, password, role)
              case None =>
                alert == "User already exists!" && !switchToLogin
                && storage.registeredUsers == old(storage.registeredUsers)
              case Some(after) =>
                alert == "Registered successfully!" && switchToLogin
                && storage.registeredUsers == Some(after)
    {
      var users := StoredOrEmpty(storage.registeredUsers);
      if Any(users, HasEmail(email)) {
        alert, switchToLogin := "User already exists!", false;
        return;
      }
      var newUser := RegisteredUser(name, email, password, role);
      storage.registeredUsers := Some(users + [newUser]);
      alert, switchToLogin := "Registered successfully!", true;
    }
  }
}
