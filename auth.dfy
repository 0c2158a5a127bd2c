/**
 * The mock sign-in of src/context/AuthContext.tsx: the signed-in user, login
 * against the fixed demo accounts and the shared demo password, logout, and
 * registration. Persistence in browser storage is not modelled; generated ids
 * and creation times are parameters.
 */
module Auth {
  import opened Wrappers
  import opened Types

  const DemoPassword := "demo123"

  /** The three demo accounts. */
  const MockUsers: seq<User> := [
    User("1", "patient@demo.com", "John Smith", PatientRole, Some("+1234567890"), None, None,
         "2024-01-01T00:00:00Z"),
    User("2", "doctor@demo.com", "Dr. Sarah Johnson", DoctorRole, Some("+1234567891"),
         Some("General Medicine"), Some(8), "2024-01-01T00:00:00Z"),
    User("3", "admin@demo.com", "Admin User", AdminRole, None, None, None, "2024-01-01T00:00:00Z")
  ]

  /** Some account in `users` has this email. */
  predicate HasEmail(users: seq<User>, email: string) {
    exists k :: 0 <= k < |users| && users[k].email == email
  }

  /** `users.find(u => u.email === email)`: the first account with that email, if any. */
  function FindUser(users: seq<User>, email: string): (r: Option<User>)
    ensures r.Some? <==> HasEmail(users, email)
    ensures r.Some? ==> exists k :: 0 <= k < |users| && users[k] == r.value && r.value.email == email
                                    && forall j :: 0 <= j < k ==> users[j].email != email
  {
    if users == [] then None
    else if users[0].email == email then Some(users[0])
    else
      var r := FindUser(users[1..], email);
      assert forall k :: 1 <= k < |users| ==> users[k] == users[1..][k - 1];
      r
  }

  /** The demo accounts have pairwise distinct emails. */
  lemma MockEmailsDistinct()
    ensures |MockUsers| == 3
    ensures forall i, j :: 0 <= i < j < |MockUsers| ==> MockUsers[i].email != MockUsers[j].email
  {
  }

  /** Since emails are distinct, looking up an account's email finds that account. */
  lemma FindMockUser(k: nat)
    requires k < |MockUsers|
    ensures FindUser(MockUsers, MockUsers[k].email) == Some(MockUsers[k])
  {
    MockEmailsDistinct();
    var r := FindUser(MockUsers, MockUsers[k].email);
    var i :| 0 <= i < |MockUsers| && MockUsers[i] == r.value && r.value.email == MockUsers[k].email
             && forall j :: 0 <= j < i ==> MockUsers[j].email != MockUsers[k].email;
    assert i == k;
  }

  /** Who is signed in. */
  class AuthState {
    var user: Option<User>

    /** Nobody is signed in at first. */
    constructor()
      ensures user == None
    {
      user := None;
    }

    /**
     * Succeeds exactly when a demo account has the email and the password is the
     * demo password; then that account is signed in, otherwise nothing changes.
     */
    method Login(email: string, password: string) returns (ok: bool)
      modifies this
      ensures ok <==> HasEmail(MockUsers, email) && password == DemoPassword
      ensures ok ==> user == FindUser(MockUsers, email)
      ensures ok ==> user.Some? && user.value in MockUsers && user.value.email == email
      ensures !ok ==> user == old(user)
    {
      var found := FindUser(MockUsers, email);
      if found.Some? && password == DemoPassword {
        user := found;
        return true;
      }
      return false;
    }

    /** Signs out, whoever was signed in. */
    method Logout()
      modifies this
      ensures user == None
    {
      user := None;
    }

    /** Always succeeds and signs in the new account built from the data. */
    method Register(data: UserData, id: string, createdAt: string) returns (ok: bool)
      modifies this
      ensures ok
      ensures user == Some(UserOf(data, id, createdAt))
    {
      user := Some(UserOf(data, id, createdAt));
      return true;
    }
  }
}
