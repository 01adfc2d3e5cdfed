/** Who administers a tenant: every tenant keeps an Admin as long as callers' tokens are up to date. */
module Membership {
  import opened Common
  import opened Schema
  import opened Invariants
  import opened Deletion
  import opened Members
  import opened Tenants
  import opened Tickets
  import opened Backend

  /** On the one route where a stale token could matter, the caller's claims match the caller's row. */
  predicate CallerCurrent(db: Db, call: Call) {
    call.DeleteUser? ==> Current(db, call.claims)
  }

  predicate CurrentRun(db: Db, calls: seq<Call>)
    decreases |calls|
  {
    calls == [] || (CallerCurrent(db, calls[0]) && CurrentRun(Step(db, calls[0]), calls[1..]))
  }

  predicate AnotherAdmin(db: Db, id: Id, t: Id) {
    exists v | v in db.users :: v != id && IsAdminOf(db, v, t)
  }

  /** A deletion the route lets through finds another Admin in the target's tenant. */
  predicate Spares(db: Db, call: Call) {
    call.DeleteUser? && MayDelete(db, call.claims, call.id) ==> AnotherAdmin(db, call.id, call.claims.tenantId.value)
  }

  ghost predicate SparingRun(db: Db, calls: seq<Call>)
    decreases |calls|
  {
    calls == [] || (Spares(db, calls[0]) && SparingRun(Step(db, calls[0]), calls[1..]))
  }

  /** Every tenant has an Admin now and after each call. */
  ghost predicate AdministeredThroughout(db: Db, calls: seq<Call>)
    decreases |calls|
  {
    Administered(db) && (calls == [] || AdministeredThroughout(Step(db, calls[0]), calls[1..]))
  }

  ghost predicate HasAdmin(db: Db, t: Id) {
    exists u :: IsAdminOf(db, u, t)
  }

  lemma AnotherMember(s: set<Id>, x: Id) returns (y: Id)
    requires |s| > 1
    ensures y in s && y != x
  {
    var z :| z in s;
    assert |s - {z}| > 0;
    var w :| w in s - {z};
    y := if z == x then w else z;
  }

  /** The Admins of a tenant stay Admins across an edit. */
  ghost predicate AdminsStay(db: Db, d: Db, t: Id) {
    forall u | IsAdminOf(db, u, t) :: IsAdminOf(d, u, t)
  }

  lemma AdminsStayAdministered(db: Db, d: Db)
    requires Administered(db) && d.tenants <= db.tenants && forall t | t in d.tenants :: AdminsStay(db, d, t)
    ensures Administered(d)
  {}

  lemma ChangeRoleKeepsAdministered(db: Db, c: Claims, id: Id, role: Role, level: Option<Level>)
    requires Administered(db)
    ensures Administered(UpdateUserRoleById(db, c, id, role, level).1)
  {
    var (r, d) := UpdateUserRoleById(db, c, id, role, level);
    if r.Ok? {
      forall t | t in d.tenants ensures HasAdmin(d, t) {
        var u :| IsAdminOf(db, u, t);
        if u == id && !role.Admin? {
          var v := AnotherMember(AdminsOf(db, t), id);
          assert IsAdminOf(d, v, t);
        } else {
          assert IsAdminOf(d, u, t);
        }
      }
    }
  }

  lemma SparedTenantKeepsAdmin(db: Db, id: Id, t: Id, v: Id)
    requires Administered(db) && InTenant(db, id, t) && v != id && IsAdminOf(db, v, t)
    ensures Administered(UserRemoved(db, id))
  {
    var d := UserRemoved(db, id);
    forall s | s in d.tenants ensures HasAdmin(d, s) {
      var u: Id :| IsAdminOf(db, u, s);
      assert if s == t then IsAdminOf(d, v, s) else IsAdminOf(d, u, s);
    }
  }

  lemma OnlyAdminLeaves(db: Db, id: Id, t: Id)
    requires ForeignKeys(db) && InTenant(db, id, t) && Administered(UserRemoved(db, id))
    ensures AnotherAdmin(db, id, t)
  {
    assert t in UserRemoved(db, id).tenants;
    var u: Id :| IsAdminOf(UserRemoved(db, id), u, t);
    assert u in db.users && u != id && IsAdminOf(db, u, t);
  }

  /**
   No count protects the last Admin: a deletion succeeds whenever the route's checks pass, and keeps every tenant
   administered exactly when, should they pass, another Admin exists.
   */
  lemma DeletionKeepsAnAdminIff(db: Db, c: Claims, id: Id)
    requires Inv(db) && Administered(db)
    ensures DeleteUserById(db, c, id).0.Ok? <==> MayDelete(db, c, id)
    ensures Administered(DeleteUserById(db, c, id).1)
            <==> (MayDelete(db, c, id) ==> AnotherAdmin(db, id, c.tenantId.value))
  {
    if MayDelete(db, c, id) {
      var t := c.tenantId.value;
      if v :| v in db.users && v != id && IsAdminOf(db, v, t) {
        SparedTenantKeepsAdmin(db, id, t, v);
      } else if Administered(UserRemoved(db, id)) {
        OnlyAdminLeaves(db, id, t);
      }
    }
  }

  lemma CreateTenantKeepsAdministered(db: Db, email: string, name: string, now: Time)
    requires Inv(db) && Administered(db)
    ensures Administered(CreateTenantWithAdmin(db, email, name, now).1)
  {
    var (r, d) := CreateTenantWithAdmin(db, email, name, now);
    if r.Ok? {
      forall t | t in d.tenants ensures HasAdmin(d, t) {
        if t == db.nextId {
          assert IsAdminOf(d, db.nextId + 1, t);
        } else {
          var u :| IsAdminOf(db, u, t);
          assert IsAdminOf(d, u, t);
        }
      }
    }
  }

  /** No user loses role or tenant, and no tenant appears. */
  ghost predicate MembersStay(db: Db, d: Db) {
    d.tenants == db.tenants && forall u | u in db.users ::
      u in d.users && d.users[u].role == db.users[u].role && d.users[u].tenantId == db.users[u].tenantId
  }

  lemma MembersStayAdministered(db: Db, d: Db)
    requires Administered(db) && MembersStay(db, d)
    ensures Administered(d)
  {
    AdminsStayAdministered(db, d);
  }

  lemma DeleteTenantKeepsAdministered(db: Db, id: Id)
    requires Administered(db)
    ensures Administered(DeleteTenantWithUsers(db, id).1)
  {
    AdminsStayAdministered(db, DeleteTenantWithUsers(db, id).1);
  }

  lemma RemoveIntegrationAdminKeepsAdministered(db: Db, id: Id)
    requires Administered(db)
    ensures Administered(RemoveIntegrationAdmin(db, id).1)
  {
    AdminsStayAdministered(db, RemoveIntegrationAdmin(db, id).1);
  }

  lemma InsertUserKeepsMembers(db: Db, user: User)
    requires db.nextId !in db.users
    ensures MembersStay(db, InsertUser(db, user))
  {}

  lemma CreateUserKeepsAdministered(
      db: Db, email: string, name: string, role: Role, tenantId: Option<Id>, level: Option<Level>, now: Time)
    requires IdsOK(db) && Administered(db)
    ensures Administered(CreateUser(db, email, name, role, tenantId, level, now).1)
  {
    var (r, d) := CreateUser(db, email, name, role, tenantId, level, now);
    if r.Ok? {
      var user := User(email, name, role, ResolveAnalystLevel(role, level).value, tenantId, None, now);
      InsertUserKeepsMembers(db, user);
      MembersStayAdministered(db, d);
    }
  }

  lemma TenancyKeepsAdministered(db: Db, call: Call)
    requires Inv(db) && Administered(db) && IsTenancy(call)
    ensures Administered(PerformTenancy(db, call).1) <==> Spares(db, call)
  {
    match call
    case CreateTenant(email, name, now) => CreateTenantKeepsAdministered(db, email, name, now);
    case DeleteTenant(tenantId) => DeleteTenantKeepsAdministered(db, tenantId);
    case ChangeRole(c, id, role, level) => ChangeRoleKeepsAdministered(db, c, id, role, level);
    case DeleteUser(c, id) => DeletionKeepsAnAdminIff(db, c, id);
    case DeleteIntegrationAdmin(id) => RemoveIntegrationAdminKeepsAdministered(db, id);
    case CreateAccount(c, email, name, role, level, now) =>
      CreateUserKeepsAdministered(db, email, name, role, c.tenantId, level, now);
    case CreateIntegrationAdmin(email, name, now) =>
      CreateUserKeepsAdministered(db, email, name, IntegrationAdmin, None, None, now);
  }

  lemma RowUpdateKeepsMembers(db: Db, id: Id, user: User)
    requires id in db.users && user.role == db.users[id].role && user.tenantId == db.users[id].tenantId
    ensures MembersStay(db, UpdateUser(db, id, user))
    ensures MembersStay(db, UpdateUser(AddHistory(db, id), id, user))
  {}

  lemma RequestKeepsMembers(db: Db, email: string, now: Time)
    ensures MembersStay(db, RequestPasswordReset(db, email, now).1)
  {
    forall u | u in db.users ensures MembersStay(db, MarkPending(db, u, now)) {
      RowUpdateKeepsMembers(db, u, db.users[u].(pendingSince := Some(now)));
    }
  }

  lemma EditKeepsMembers(db: Db, c: Claims, id: Id, email: Option<string>, name: Option<string>)
    ensures MembersStay(db, UpdateUserById(db, c, id, email, name).1)
  {
    var (r, d) := UpdateUserById(db, c, id, email, name);
    if r.Ok? {
      RowUpdateKeepsMembers(db, id, d.users[id]);
    }
  }

  lemma AccountCallsKeepMembers(db: Db, call: Call)
    requires IsAccount(call)
    ensures MembersStay(db, PerformAccount(db, call).1)
  {
    match call
    case EditProfile(c, id, email, name) => EditKeepsMembers(db, c, id, email, name);
    case ForgotPassword(email, now) => RequestKeepsMembers(db, email, now);
    case RequestOwnChange(c, now) =>
      if c.userId in db.users {
        RowUpdateKeepsMembers(db, c.userId, db.users[c.userId].(pendingSince := Some(now)));
      }
    case ResetPassword(c, id, refused) => ResetKeepsMembers(db, c, id, refused);
    case ResetIntegrationAdmin(id, refused) => ApplyResetKeepsMembers(db, id, refused);
    case ChangeOwnPassword(_) =>
    case Login(_) =>
  }

  lemma ApplyResetKeepsMembers(db: Db, id: Id, refused: bool)
    ensures id in db.users ==> MembersStay(db, ApplyPasswordReset(db, id, refused).1)
    ensures MembersStay(db, db)
  {}

  lemma ResetKeepsMembers(db: Db, c: Claims, id: Id, refused: bool)
    ensures MembersStay(db, ResetUserPassword(db, c, id, refused).1)
  {
    ApplyResetKeepsMembers(db, id, refused);
  }

  lemma TicketCallsKeepMembers(db: Db, call: Call)
    requires !IsTenancy(call) && !IsAccount(call) && !IsModule(call)
    ensures MembersStay(db, PerformTicket(db, call).1)
  {
    match call
    case RaiseTicket(c, title, category, m, rows) => RaiseKeepsMembers(db, c, title, category, m, rows);
    case MoveTicket(c, id, status) => MoveKeepsMembers(db, c, id, status);
    case ReadOne(_, _, _) =>
    case ReadAll(_, _) =>
  }

  lemma RaiseKeepsMembers(db: Db, c: Claims, title: string, category: Category, m: Option<ModuleName>, rows: seq<Id>)
    ensures MembersStay(db, CreateTicket(db, c, title, category, m, rows).1)
  {
    RaiseShape(db, c, title, category, m, rows);
  }

  lemma MoveKeepsMembers(db: Db, c: Claims, id: Id, status: Status)
    ensures MembersStay(db, UpdateStatus(db, c, id, status).1)
  {
    MoveShape(db, c, id, status);
  }

  /** Outside the tenancy calls no user loses role or tenant. */
  lemma OtherCallsKeepAdministered(db: Db, call: Call)
    requires Administered(db) && !IsTenancy(call)
    ensures Administered(Perform(db, call).1)
  {
    if IsAccount(call) {
      AccountCallsKeepMembers(db, call);
    } else if IsModule(call) {
      ModuleCallEdits(db, call);
    } else {
      TicketCallsKeepMembers(db, call);
    }
    MembersStayAdministered(db, Perform(db, call).1);
  }

  lemma StepKeepsAdministeredIff(db: Db, call: Call)
    requires Inv(db) && Administered(db)
    ensures Administered(Step(db, call)) <==> Spares(db, call)
  {
    if Possible(db, call) {
      if IsTenancy(call) {
        TenancyKeepsAdministered(db, call);
      } else {
        OtherCallsKeepAdministered(db, call);
      }
    }
  }

  /**
   Exactly which runs keep every tenant administered, with any mixture of fresh and stale tokens: those in which each
   deletion that goes through leaves its tenant another Admin.
   */
  lemma {:induction false} AdministeredIffSparing(db: Db, calls: seq<Call>)
    requires Inv(db) && Administered(db)
    ensures AdministeredThroughout(db, calls) <==> SparingRun(db, calls)
    decreases |calls|
  {
    if calls != [] {
      StepKeepsInv(db, calls[0]);
      StepKeepsAdministeredIff(db, calls[0]);
      if Spares(db, calls[0]) {
        AdministeredIffSparing(Step(db, calls[0]), calls[1..]);
      }
    }
  }

  /** A caller with current claims is an Admin who is not the target, so the self-target check spares the tenant. */
  lemma CurrentCallerSpares(db: Db, call: Call)
    requires CallerCurrent(db, call)
    ensures Spares(db, call)
  {
    if call.DeleteUser? && MayDelete(db, call.claims, call.id) {
      assert IsAdminOf(db, call.claims.userId, call.claims.tenantId.value);
    }
  }

  /**
   In every state reached by runs whose deletions carry current claims, every tenant has at least one Admin, exactly
   Admins and Analysts have a tenant, and exactly Analysts have a level.
   */
  lemma {:induction false} EveryTenantHasAnAdmin(db: Db, calls: seq<Call>)
    requires Inv(db) && Administered(db) && CurrentRun(db, calls)
    ensures var d := Run(db, calls); Administered(d) && forall u | u in d.users :: WellRoled(d.users[u])
    decreases |calls|
  {
    if calls != [] {
      StepKeepsInv(db, calls[0]);
      CurrentCallerSpares(db, calls[0]);
      StepKeepsAdministeredIff(db, calls[0]);
      EveryTenantHasAnAdmin(Step(db, calls[0]), calls[1..]);
    }
  }

  /**
   With a stale token the promise fails: of two Admins, one demotes the other, and the demoted one's old token, still
   within its lifetime, deletes the first. Both calls succeed and the tenant is left without an Admin.
   */
  lemma StaleTokenRemovesLastAdmin(db: Db, t: Id, a: Id, b: Id)
    requires Inv(db) && a != b && AdminsOf(db, t) == {a, b}
    ensures var demoted := UpdateUserRoleById(db, ClaimsOf(db, a), b, Analyst, Some(L1));
            var deleted := DeleteUserById(demoted.1, ClaimsOf(db, b), a);
            && demoted.0.Ok? && deleted.0.Ok? && !Current(demoted.1, ClaimsOf(db, b))
            && t in deleted.1.tenants && !HasAdmin(deleted.1, t)
  {
    assert a in AdminsOf(db, t) && b in AdminsOf(db, t);
    var d1 := UpdateUserRoleById(db, ClaimsOf(db, a), b, Analyst, Some(L1)).1;
    DemotionSucceeds(db, t, a, b);
    RemovalOrphans(d1, t, a);
  }

  lemma DemotionSucceeds(db: Db, t: Id, a: Id, b: Id)
    requires Inv(db) && a != b && AdminsOf(db, t) == {a, b} && IsAdminOf(db, a, t) && IsAdminOf(db, b, t)
    ensures var (r, d) := UpdateUserRoleById(db, ClaimsOf(db, a), b, Analyst, Some(L1));
            && r.Ok? && t in d.tenants && AdminsOf(d, t) == {a} && IsAdminOf(d, a, t)
            && b in d.users && d.users[b].role.Analyst?
  {
    assert UpdateUserRoleById(db, ClaimsOf(db, a), b, Analyst, Some(L1))
        == (Ok(Done), UpdateUser(db, b, db.users[b].(role := Analyst, level := Some(L1))));
    DemotedLeavesAdmins(db, t, b, db.users[b].(role := Analyst, level := Some(L1)));
    assert IsAdminOf(UpdateUser(db, b, db.users[b].(role := Analyst, level := Some(L1))), a, t);
  }

  lemma DemotedLeavesAdmins(db: Db, t: Id, b: Id, user: User)
    requires b in db.users && !user.role.Admin?
    ensures AdminsOf(UpdateUser(db, b, user), t) == AdminsOf(db, t) - {b}
  {}

  lemma RemovalOrphans(db: Db, t: Id, a: Id)
    requires AdminsOf(db, t) == {a}
    ensures !HasAdmin(UserRemoved(db, a), t)
  {
    forall u ensures !IsAdminOf(UserRemoved(db, a), u, t) {
      assert IsAdminOf(UserRemoved(db, a), u, t) ==> u in AdminsOf(db, t);
    }
  }

  lemma RunTwo(db: Db, x: Call, y: Call)
    ensures Run(db, [x] + [y]) == Step(Step(db, x), y)
  {
    RunAppends(db, [x], [y]);
    RunOne(db, x);
    RunOne(Step(db, x), y);
  }

  lemma RunOne(db: Db, x: Call)
    ensures Run(db, [x]) == Step(db, x)
  {
    assert [x][1..] == [];
  }

  /** Provisioning on a seed leaves one tenant with one Admin. */
  lemma OneAdmin(seed: Db, email: string, now: Time)
    requires Seeded(seed) && !EmailTaken(seed, email)
    ensures var t, d := seed.nextId, Step(seed, CreateTenant(email, email, now));
            && t in d.tenants && d.nextId == t + 2 && AdminsOf(d, t) == {t + 1}
            && forall other | other != email && !EmailTaken(seed, other) :: !EmailTaken(d, other)
  {
    assert !EmailTaken(AddTenant(seed), email);
    assert AdminsOf(Step(seed, CreateTenant(email, email, now)), seed.nextId) == {seed.nextId + 1};
  }

  /** Another Admin joins. */
  lemma OneMoreAdmin(db: Db, c: Claims, t: Id, email: string, now: Time)
    requires t in db.tenants && c.role.Admin? && c.tenantId == Some(t) && !EmailTaken(db, email)
    ensures AdminsOf(Step(db, CreateAccount(c, email, email, Admin, None, now)), t) == AdminsOf(db, t) + {db.nextId}
  {}

  /** Two calls from the seed reach a tenant with exactly two Admins. */
  lemma TwoAdmins(seed: Db, first: string, second: string, now: Time) returns (calls: seq<Call>, t: Id, a: Id, b: Id)
    requires Seeded(seed) && !EmailTaken(seed, first) && !EmailTaken(seed, second) && first != second
    ensures |calls| == 2 && calls[0].CreateTenant? && calls[1].CreateAccount?
    ensures Inv(Run(seed, calls)) && a != b && AdminsOf(Run(seed, calls), t) == {a, b}
  {
    t, a, b := seed.nextId, seed.nextId + 1, seed.nextId + 2;
    var create, c := CreateTenant(first, first, now), Claims(a, Admin, None, Some(t));
    var add := CreateAccount(c, second, second, Admin, None, now);
    calls := [create] + [add];
    SeededIsInv(seed);
    RunKeepsInv(seed, calls);
    OneAdmin(seed, first, now);
    OneMoreAdmin(Step(seed, create), c, t, second, now);
    RunTwo(seed, create, add);
  }

  lemma {:induction false} RunAppends(db: Db, a: seq<Call>, b: seq<Call>)
    ensures Run(db, a + b) == Run(Run(db, a), b)
    decreases |a|
  {
    if a == [] {
      assert a + b == b;
    } else {
      assert (a + b)[0] == a[0] && (a + b)[1..] == a[1..] + b;
      RunAppends(Step(db, a[0]), a[1..], b);
    }
  }

  /** From any seed four calls, the last of them the only deletion, leave a tenant without an Admin. */
  lemma StaleTokenFromSeed(seed: Db, first: string, second: string, now: Time) returns (calls: seq<Call>, t: Id)
    requires Seeded(seed) && !EmailTaken(seed, first) && !EmailTaken(seed, second) && first != second
    ensures |calls| == 4 && forall k | 0 <= k < 3 :: !calls[k].DeleteUser?
    ensures t in Run(seed, calls).tenants && !HasAdmin(Run(seed, calls), t)
  {
    var two, a, b;
    two, t, a, b := TwoAdmins(seed, first, second, now);
    var db := Run(seed, two);
    var more := StaleTokenRun(db, t, a, b);
    calls := two + more;
    RunAppends(seed, two, more);
  }

  lemma StaleTokenRun(db: Db, t: Id, a: Id, b: Id) returns (calls: seq<Call>)
    requires Inv(db) && a != b && AdminsOf(db, t) == {a, b} && {a, b} <= db.users.Keys
    ensures |calls| == 2 && calls[0].ChangeRole? && t in Run(db, calls).tenants && !HasAdmin(Run(db, calls), t)
  {
    var demote, remove := ChangeRole(ClaimsOf(db, a), b, Analyst, Some(L1)), DeleteUser(ClaimsOf(db, b), a);
    calls := [demote] + [remove];
    StaleTokenRemovesLastAdmin(db, t, a, b);
    RunTwo(db, demote, remove);
  }

  // ---- Reset paths ----

  /**
   For any tenant Admin exactly one reset path is open: either some co-Admin may reset the password, or the Super
   Admin's sole-Admin path passes its count check.
   */
  lemma ExactlyOneResetPath(db: Db, a: Id, t: Id)
    requires IsAdminOf(db, a, t)
    ensures (exists b :: IsAdminOf(db, b, t) && ResetUserPassword(db, ClaimsOf(db, b), a, false).0.Ok?)
            <==> !ResetSoleAdminPassword(db, a, false).0.Ok?
  {
    var admins := AdminsOf(db, t);
    assert a in admins;
    if |admins| > 1 {
      var b := AnotherMember(admins, a);
      assert IsAdminOf(db, b, t) && ResetUserPassword(db, ClaimsOf(db, b), a, false).0.Ok?;
    }
    if b :| IsAdminOf(db, b, t) && ResetUserPassword(db, ClaimsOf(db, b), a, false).0.Ok? {
      assert b in admins && b != a;
      assert admins == {a} + (admins - {a}) && b in admins - {a};
    }
  }
}
