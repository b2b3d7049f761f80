/** The start-up step of `src/utils/ensureAdmin.js`: when an admin email and password are
    configured and no account has that email, one `Administrator` account is created. The
    two configuration values are parameters, as are the password hash and the clock. */
module Bootstrap {
  import opened Common
  import opened Users

  /** The account the bootstrap creates. */
  function AdminAccount(id: Id, email: string, passwordHash: string, now: int): (u: User)
    ensures u.name == "Administrator" && u.role == Admin && u.email == email && u.id == id
  {
    User(id, "Administrator", email, passwordHash, Admin, now)
  }

  /** The number of accounts holding `email`. */
  function EmailCount(users: seq<User>, email: string): (n: nat)
    ensures n <= |users|
    ensures n == 0 <==> !HasEmail(users, email)
  {
    if users == [] then 0
    else
      var rest := EmailCount(users[1..], email);
      assert HasEmail(users, email) <==> users[0].email == email || HasEmail(users[1..], email) by {
        if HasEmail(users[1..], email) {
          var i :| 0 <= i < |users[1..]| && users[1..][i].email == email;
          assert users[i + 1].email == email;
        }
        if HasEmail(users, email) && users[0].email != email {
          var i :| 0 <= i < |users| && users[i].email == email;
          assert users[1..][i - 1].email == email;
        }
      }
      (if users[0].email == email then 1 else 0) + rest
  }

  /** Under the unique email index no email is held twice. */
  lemma {:induction false} UniqueEmailCount(users: seq<User>, email: string)
    requires EmailsUnique(users)
    ensures EmailCount(users, email) <= 1
  {
    if users != [] {
      var tail := users[1..];
      assert EmailsUnique(tail) by {
        forall i, j | 0 <= i < j < |tail|
          ensures tail[i].email != tail[j].email
        {
          assert tail[i] == users[i + 1] && tail[j] == users[j + 1];
        }
      }
      UniqueEmailCount(tail, email);
      if users[0].email == email {
        assert !HasEmail(tail, email) by {
          forall i | 0 <= i < |tail|
            ensures tail[i].email != email
          {
            assert tail[i] == users[i + 1];
          }
        }
      }
    }
  }

  /** `ensureAdminIfConfigured`: nothing without both settings, nothing when the email is
      taken, otherwise exactly one new admin account. Afterwards the email, when configured,
      is held by exactly one account, so a second run changes nothing. */
  method EnsureAdminIfConfigured(dir: UserDirectory, email: Option<string>, password: Option<string>,
                                 hash: string -> string, now: int)
    requires dir.Valid()
    modifies dir
    ensures dir.Valid()
    ensures !Given(email) || !Given(password) ==> dir.users == old(dir.users)
    ensures Given(email) && Given(password) && HasEmail(old(dir.users), email.value) ==> dir.users == old(dir.users)
    ensures Given(email) && Given(password) && !HasEmail(old(dir.users), email.value) ==>
      dir.users == old(dir.users) + [AdminAccount(old(dir.nextId), email.value, hash(password.value), now)]
    ensures Given(email) && Given(password) ==> EmailCount(dir.users, email.value) == 1
  {
    if !Given(email) || !Given(password) {
      return;
    }
    var existing := FindByEmail(dir.users, email.value);
    if existing.Some? {
      UniqueEmailCount(dir.users, email.value);
      return;
    }
    var u := dir.Insert("Administrator", email.value, hash(password.value), Admin, now);
    UniqueEmailCount(dir.users, email.value);
    assert HasEmail(dir.users, email.value) by {
      assert dir.users[|dir.users| - 1].email == email.value;
    }
  }

  /** Running the bootstrap twice leaves the accounts a single run leaves: at most one admin
      account is added, and only by the first run. */
  method BootstrapTwice(dir: UserDirectory, email: Option<string>, password: Option<string>,
                        hash: string -> string, now: int, later: int)
    requires dir.Valid()
    modifies dir
    ensures dir.Valid()
    ensures Given(email) && Given(password) && !HasEmail(old(dir.users), email.value) ==>
      dir.users == old(dir.users) + [AdminAccount(old(dir.nextId), email.value, hash(password.value), now)]
    ensures !(Given(email) && Given(password) && !HasEmail(old(dir.users), email.value)) ==> dir.users == old(dir.users)
    ensures Given(email) && Given(password) ==> EmailCount(dir.users, email.value) == 1
  {
    EnsureAdminIfConfigured(dir, email, password, hash, now);
    ghost var afterFirst := dir.users;
    EnsureAdminIfConfigured(dir, email, password, hash, later);
    assert dir.users == afterFirst;
  }
}
