/** The user collection of `src/models/User.js` as the interval-calendar routes use it:
    accounts with a unique email, a password hash and one of three roles. */
module Users {
  import opened Common
  import opened Listing

  function RoleName(role: Role): string {
    match role
    case Patient => "patient"
    case Doctor => "doctor"
    case Admin => "admin"
  }

  /** A role string as the schemas accept it. */
  function ParseRole(s: string): (r: Option<Role>)
    ensures r.Some? ==> RoleName(r.value) == s
    ensures r.None? ==> forall role :: RoleName(role) != s
  {
    if s == "patient" then Some(Patient)
    else if s == "doctor" then Some(Doctor)
    else if s == "admin" then Some(Admin)
    else None
  }

  lemma RoleNameRoundTrip(role: Role)
    ensures ParseRole(RoleName(role)) == Some(role)
  {
  }

  /** A stored account; `createdAt` is the timestamp the store assigns. */
  datatype User = User(id: Id, name: string, email: string, passwordHash: string, role: Role, createdAt: int)

  /** The fields a reply may show: never the password hash. */
  datatype PublicUser = PublicUser(id: Id, name: string, email: string, role: Role)

  function Public(u: User): (p: PublicUser)
    ensures p.id == u.id && p.name == u.name && p.email == u.email && p.role == u.role
  {
    PublicUser(u.id, u.name, u.email, u.role)
  }

  predicate HasEmail(users: seq<User>, email: string) {
    exists i :: 0 <= i < |users| && users[i].email == email
  }

  /** `User.findOne({ email })`. */
  function FindByEmail(users: seq<User>, email: string): (r: Option<User>)
    ensures r.Some? <==> HasEmail(users, email)
    ensures r.Some? ==> r.value in users && r.value.email == email
  {
    if users == [] then None
    else if users[0].email == email then Some(users[0])
    else
      var rest := FindByEmail(users[1..], email);
      assert HasEmail(users[1..], email) ==> HasEmail(users, email) by {
        if HasEmail(users[1..], email) {
          var i :| 0 <= i < |users[1..]| && users[1..][i].email == email;
          assert users[i + 1].email == email;
        }
      }
      assert HasEmail(users, email) ==> HasEmail(users[1..], email) by {
        if HasEmail(users, email) {
          var i :| 0 <= i < |users| && users[i].email == email;
          assert i > 0 && users[1..][i - 1].email == email;
        }
      }
      rest
  }

  /** The unique index on `email`. */
  ghost predicate EmailsUnique(users: seq<User>) {
    forall i, j :: 0 <= i < j < |users| ==> users[i].email != users[j].email
  }

  /** Ids are below the next id to hand out and are never reused. */
  ghost predicate IdsFresh(users: seq<User>, nextId: Id) {
    forall i :: 0 <= i < |users| ==> users[i].id < nextId
  }

  ghost predicate IdsUnique(users: seq<User>) {
    forall i, j :: 0 <= i < j < |users| ==> users[i].id != users[j].id
  }

  function EmailOf(u: User): string {
    u.email
  }

  function IdOf(u: User): Id {
    u.id
  }

  /** Removing accounts keeps emails and ids unique. */
  lemma FilterKeepsUnique(users: seq<User>, p: User -> bool)
    requires EmailsUnique(users) && IdsUnique(users)
    ensures EmailsUnique(Filter(users, p)) && IdsUnique(Filter(users, p))
  {
    FilterKeepsDistinct(users, p, EmailOf);
    FilterKeepsDistinct(users, p, IdOf);
  }

  function Other(id: Id): User -> bool {
    (u: User) => u.id != id
  }

  /** The `users` collection. */
  class UserDirectory {
    var users: seq<User>
    var nextId: Id

    ghost predicate Valid()
      reads this
    {
      EmailsUnique(users) && IdsUnique(users) && IdsFresh(users, nextId)
    }

    constructor ()
      ensures Valid() && users == []
    {
      users := [];
      nextId := 0;
    }

    /** `User.create(...)` for an email no account has yet. */
    method Insert(name: string, email: string, passwordHash: string, role: Role, now: int) returns (u: User)
      requires Valid() && !HasEmail(users, email)
      modifies this
      ensures Valid()
      ensures u == User(old(nextId), name, email, passwordHash, role, now)
      ensures users == old(users) + [u] && nextId == old(nextId) + 1
    {
      u := User(nextId, name, email, passwordHash, role, now);
      users := users + [u];
      nextId := nextId + 1;
    }

    /** `User.findByIdAndDelete(id)`: removes the account with that id, if any. */
    method Remove(id: Id)
      requires Valid()
      modifies this
      ensures Valid()
      ensures nextId == old(nextId)
      ensures users == Filter(old(users), Other(id))
      ensures forall u :: u in users <==> u in old(users) && u.id != id
    {
      FilterKeepsUnique(users, Other(id));
      users := Filter(users, Other(id));
    }
  }
}
