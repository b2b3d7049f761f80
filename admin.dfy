/** The admin routes of `src/routes/admin.js`, all behind `requireRoles('admin')`: the user
    list without password hashes, the analytics counts and user deletion. */
module AdminRoutes {
  import opened Common
  import opened Listing
  import opened Users
  import opened AuthMiddleware
  import opened Appointments

  const AdminOnly: seq<Role> := [Admin]

  /** The gate every admin route passes first. */
  function AdminGate(caller: Option<Principal>, users: seq<User>): (r: Option<Failure>)
    ensures r.None? <==> caller.Some? && caller.value.role == Admin && StillExists(users, caller.value)
  {
    RequireRoles(caller, AdminOnly, users)
  }

  function HasRole(role: Role): User -> bool {
    (u: User) => u.role == role
  }

  /** The `$group` by role: one entry for each role some user holds, with that role's count. */
  function UsersByRole(users: seq<User>): (r: map<Role, nat>)
    ensures forall role :: role in r <==> Count(users, HasRole(role)) > 0
    ensures forall role :: role in r ==> r[role] == Count(users, HasRole(role))
  {
    map role | role in {Patient, Doctor, Admin} && Count(users, HasRole(role)) > 0 :: Count(users, HasRole(role))
  }

  function CountOr0(counts: map<Role, nat>, role: Role): nat {
    if role in counts then counts[role] else 0
  }

  /** Every user holds exactly one role, so the per-role counts add up to the number of users. */
  lemma {:induction false} RoleCountsSum(users: seq<User>)
    ensures Count(users, HasRole(Patient)) + Count(users, HasRole(Doctor)) + Count(users, HasRole(Admin)) == |users|
  {
    if users != [] {
      RoleCountsSum(users[1..]);
    }
  }

  /** The grouped counts add up to the number of users. */
  lemma UsersByRoleTotal(users: seq<User>)
    ensures CountOr0(UsersByRole(users), Patient) + CountOr0(UsersByRole(users), Doctor)
            + CountOr0(UsersByRole(users), Admin) == |users|
  {
    RoleCountsSum(users);
  }

  function IsUpcoming(now: int): Appointment -> bool {
    (a: Appointment) => a.status == Scheduled && a.startTime >= now
  }

  function IsCompleted(): Appointment -> bool {
    (a: Appointment) => a.status == Completed
  }

  /** `countDocuments({ status: 'scheduled', startTime: { $gte: now } })`. */
  function UpcomingCount(appts: seq<Appointment>, now: int): (n: nat)
    ensures n <= |appts|
  {
    Count(appts, IsUpcoming(now))
  }

  /** `countDocuments({ status: 'completed' })`. */
  function CompletedCount(appts: seq<Appointment>): (n: nat)
    ensures n <= |appts|
  {
    Count(appts, IsCompleted())
  }

  /** No appointment is both upcoming and completed, so the two counts fit in the store. */
  lemma UpcomingAndCompletedDisjoint(appts: seq<Appointment>, now: int)
    ensures UpcomingCount(appts, now) + CompletedCount(appts) <= |appts|
  {
    CountDisjoint(appts, IsUpcoming(now), IsCompleted());
  }

  /** A cancelled appointment is in neither count: cancelling one never raises them. */
  lemma CancelLowersNoCount(appts: seq<Appointment>, k: nat, now: int)
    requires k < |appts|
    ensures UpcomingCount(appts[k := appts[k].(status := Cancelled)], now) <= UpcomingCount(appts, now)
    ensures CompletedCount(appts[k := appts[k].(status := Cancelled)]) <= CompletedCount(appts)
  {
    var after := appts[k := appts[k].(status := Cancelled)];
    assert appts == appts[..k] + [appts[k]] + appts[k + 1..];
    assert after == appts[..k] + [after[k]] + appts[k + 1..];
    FilterConcat(appts[..k] + [appts[k]], appts[k + 1..], IsUpcoming(now));
    FilterConcat(appts[..k], [appts[k]], IsUpcoming(now));
    FilterConcat(appts[..k] + [after[k]], appts[k + 1..], IsUpcoming(now));
    FilterConcat(appts[..k], [after[k]], IsUpcoming(now));
    FilterConcat(appts[..k] + [appts[k]], appts[k + 1..], IsCompleted());
    FilterConcat(appts[..k], [appts[k]], IsCompleted());
    FilterConcat(appts[..k] + [after[k]], appts[k + 1..], IsCompleted());
    FilterConcat(appts[..k], [after[k]], IsCompleted());
    assert [after[k]][1..] == [] && [appts[k]][1..] == [];
  }

  datatype AnalyticsReport = AnalyticsReport(usersByRole: map<Role, nat>, upcomingAppointments: nat, completedAppointments: nat)

  /** GET /admin/analytics at time `now`. */
  function Analytics(caller: Option<Principal>, users: seq<User>, appts: seq<Appointment>, now: int)
    : (r: Outcome<AnalyticsReport>)
    ensures AdminGate(caller, users).Some? ==> r == Fail(AdminGate(caller, users).value)
    ensures r.Ok? <==> AdminGate(caller, users).None?
    ensures r.Ok? ==>
      && r.value.usersByRole == UsersByRole(users)
      && r.value.upcomingAppointments == UpcomingCount(appts, now)
      && r.value.completedAppointments == CompletedCount(appts)
      && r.value.upcomingAppointments + r.value.completedAppointments <= |appts|
  {
    var gate := AdminGate(caller, users);
    if gate.Some? then Fail(gate.value)
    else
      UpcomingAndCompletedDisjoint(appts, now);
      Ok(AnalyticsReport(UsersByRole(users), UpcomingCount(appts, now), CompletedCount(appts)))
  }

  function NewestUserFirst(u: User): int {
    -u.createdAt
  }

  /** An account as `select('-passwordHash')` returns it: every field but the hash. */
  datatype ListedUser = ListedUser(id: Id, name: string, email: string, role: Role, createdAt: int)

  function Listed(u: User): ListedUser {
    ListedUser(u.id, u.name, u.email, u.role, u.createdAt)
  }

  function ListAll(s: seq<User>): (r: seq<ListedUser>)
    ensures |r| == |s| && forall i :: 0 <= i < |s| ==> r[i] == Listed(s[i])
  {
    seq(|s|, i requires 0 <= i < |s| => Listed(s[i]))
  }

  /** Every account once, newest first, without its hash. */
  function NewestAccounts(users: seq<User>): (r: seq<ListedUser>)
    ensures |r| == |users|
    ensures forall i, j :: 0 <= i < j < |r| ==> r[i].createdAt >= r[j].createdAt
    ensures forall u :: u in users ==> Listed(u) in r
    ensures forall i :: 0 <= i < |r| ==> exists u :: u in users && r[i] == Listed(u)
    ensures multiset(r) == multiset(ListAll(users))
  {
    var sorted := SortBy(users, NewestUserFirst);
    SortedListingOrder(sorted);
    SortedListingMembers(users, sorted);
    ListAllPermutes(sorted, users);
    ListAll(sorted)
  }

  lemma ListAllConcat(a: seq<User>, b: seq<User>)
    ensures ListAll(a + b) == ListAll(a) + ListAll(b)
  {
  }

  /** Listing two orderings of the same accounts gives the same entries, as often each. */
  lemma {:induction false} ListAllPermutes(s: seq<User>, t: seq<User>)
    requires multiset(s) == multiset(t)
    ensures multiset(ListAll(s)) == multiset(ListAll(t))
  {
    if s == [] {
      assert |t| == |multiset(t)| == 0;
    } else {
      var x := s[0];
      assert x in multiset(t);
      var k :| 0 <= k < |t| && t[k] == x;
      var rest := t[..k] + t[k + 1..];
      assert t == t[..k] + [x] + t[k + 1..];
      assert s == [x] + s[1..];
      assert multiset(t) == multiset(t[..k]) + multiset{x} + multiset(t[k + 1..]);
      assert multiset(s) == multiset{x} + multiset(s[1..]);
      assert multiset(rest) == multiset(t[..k]) + multiset(t[k + 1..]);
      assert multiset(s[1..]) == multiset(s) - multiset{x};
      assert multiset(rest) == multiset(t) - multiset{x};
      ListAllPermutes(s[1..], rest);
      ListAllConcat([x], s[1..]);
      ListAllConcat(t[..k] + [x], t[k + 1..]);
      ListAllConcat(t[..k], [x]);
      ListAllConcat(t[..k], t[k + 1..]);
    }
  }

  lemma SortedListingOrder(sorted: seq<User>)
    requires SortedBy(sorted, NewestUserFirst)
    ensures forall i, j :: 0 <= i < j < |ListAll(sorted)| ==> ListAll(sorted)[i].createdAt >= ListAll(sorted)[j].createdAt
  {
    var shown := ListAll(sorted);
    forall i, j | 0 <= i < j < |shown|
      ensures shown[i].createdAt >= shown[j].createdAt
    {
      assert NewestUserFirst(sorted[i]) <= NewestUserFirst(sorted[j]);
    }
  }

  lemma SortedListingMembers(users: seq<User>, sorted: seq<User>)
    requires multiset(sorted) == multiset(users)
    ensures |ListAll(sorted)| == |users|
    ensures forall u :: u in users ==> Listed(u) in ListAll(sorted)
    ensures forall i :: 0 <= i < |ListAll(sorted)| ==> exists u :: u in users && ListAll(sorted)[i] == Listed(u)
  {
    var shown := ListAll(sorted);
    assert |sorted| == |users| by {
      assert |multiset(sorted)| == |multiset(users)|;
    }
    forall u | u in users
      ensures Listed(u) in shown
    {
      assert u in multiset(sorted);
      var i :| 0 <= i < |sorted| && sorted[i] == u;
      assert shown[i] == Listed(u);
    }
    forall i | 0 <= i < |shown|
      ensures exists u :: u in users && shown[i] == Listed(u)
    {
      assert sorted[i] in multiset(users);
      assert sorted[i] in users && shown[i] == Listed(sorted[i]);
    }
  }

  /** GET /admin/users. */
  function ListUsers(caller: Option<Principal>, users: seq<User>): (r: Outcome<seq<ListedUser>>)
    ensures AdminGate(caller, users).Some? ==> r == Fail(AdminGate(caller, users).value)
    ensures r.Ok? <==> AdminGate(caller, users).None?
    ensures r.Ok? ==> r.value == NewestAccounts(users)
  {
    var gate := AdminGate(caller, users);
    if gate.Some? then Fail(gate.value) else Ok(NewestAccounts(users))
  }

  /** DELETE /admin/users/:id: removes exactly that account; an unknown id still succeeds. */
  method DeleteUser(dir: UserDirectory, caller: Option<Principal>, id: Id) returns (r: Outcome<()>)
    requires dir.Valid()
    modifies dir
    ensures dir.Valid()
    ensures AdminGate(caller, old(dir.users)).Some? ==>
      r == Fail(AdminGate(caller, old(dir.users)).value) && dir.users == old(dir.users)
    ensures AdminGate(caller, old(dir.users)).None? ==>
      && r == Ok(())
      && (forall u :: u in dir.users <==> u in old(dir.users) && u.id != id)
      && dir.users == Filter(old(dir.users), Other(id))
  {
    var gate := AdminGate(caller, dir.users);
    if gate.Some? {
      return Fail(gate.value);
    }
    dir.Remove(id);
    r := Ok(());
  }
}
