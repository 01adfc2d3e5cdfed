/** What happens to an account over whole runs: its tenant, its seniority among the Admins, its pending request. */
module AccountHistory {
  import opened Common
  import opened Schema
  import opened Invariants
  import opened Members
  import opened Tenants
  import opened Tickets
  import opened Backend
  import opened Effects
  import opened EventStreams
  import opened Routing

  // ---- What one call does to the accounts ----

  /** When a call that creates accounts runs. */
  function ClockOf(call: Call): Option<Time> {
    if call.CreateTenant? || call.CreateAccount? || call.CreateIntegrationAdmin? then Some(call.now) else None
  }

  /** The account asks for a new password, on the public route or as itself. */
  predicate Requests(db: Db, call: Call, u: Id)
    requires u in db.users
  {
    || (call.ForgotPassword? && db.users[u].email == call.email && !db.users[u].role.SuperAdmin?)
    || (call.RequestOwnChange? && call.claims.userId == u)
  }

  /** Somebody resets the account's password. */
  predicate Resets(db: Db, call: Call, u: Id) {
    (call.ResetPassword? || call.ResetIntegrationAdmin?) && call.id == u && PerformAccount(db, call).0.Ok?
  }

  predicate PendingAfter(db: Db, call: Call, u: Id)
    requires u in db.users
  {
    Requests(db, call, u) || (Pending(db, u) && !Resets(db, call, u))
  }

  /** An account keeps tenant and time of creation; its request is recorded and cleared by just the calls above. */
  predicate Kept(db: Db, call: Call, u: Id, after: User)
    requires u in db.users
  {
    && after.tenantId == db.users[u].tenantId && after.createdAt == db.users[u].createdAt
    && (after.pendingSince.Some? <==> PendingAfter(db, call, u))
  }

  /** A new account has an id that was not drawn before, is created now, and asks for nothing. */
  predicate New(db: Db, call: Call, u: Id, after: User) {
    db.nextId <= u && ClockOf(call) == Some(after.createdAt) && after.pendingSince.None?
  }

  ghost predicate AccountsFollow(db: Db, d: Db, call: Call) {
    forall u | u in d.users :: if u in db.users then Kept(db, call, u, d.users[u]) else New(db, call, u, d.users[u])
  }

  // ---- Calls about tenancy ----

  lemma CreateUserFollows(
      db: Db, call: Call, email: string, name: string, role: Role, tenantId: Option<Id>, level: Option<Level>,
      now: Time)
    requires IdsOK(db) && ClockOf(call) == Some(now)
    ensures AccountsFollow(db, CreateUser(db, email, name, role, tenantId, level, now).1, call)
  {
    var (r, d) := CreateUser(db, email, name, role, tenantId, level, now);
    CreateUserCreatesOne(db, email, name, role, tenantId, level, now);
    assert r.Ok? ==> r.value.id == db.nextId;
  }

  lemma CreateTenantFollows(db: Db, call: Call)
    requires IdsOK(db) && call.CreateTenant?
    ensures AccountsFollow(db, CreateTenantWithAdmin(db, call.email, call.name, call.now).1, call)
  {
    var d := CreateTenantWithAdmin(db, call.email, call.name, call.now).1;
    assert d == db || d.users == db.users[db.nextId + 1 := FirstAdmin(db, call.email, call.name, call.now)];
  }

  lemma RoleChangeFollows(db: Db, call: Call)
    requires call.ChangeRole?
    ensures AccountsFollow(db, UpdateUserRoleById(db, call.claims, call.id, call.role, call.newLevel).1, call)
  {
    RoleChangeStaysInTenant(db, call.claims, call.id, call.role, call.newLevel);
  }

  lemma RemovalFollows(db: Db, call: Call)
    requires call.DeleteTenant? || call.DeleteUser? || call.DeleteIntegrationAdmin?
    ensures AccountsFollow(db, PerformTenancy(db, call).1, call)
  {}

  lemma CreateAccountFollows(db: Db, call: Call)
    requires IdsOK(db) && call.CreateAccount?
    ensures AccountsFollow(db, CreateUserByAdmin(db, call.claims, call.email, call.name, call.role, call.newLevel,
                                                 call.now).1, call)
  {
    var c := call.claims;
    CreateUserFollows(db, call, call.email, call.name, call.role, c.tenantId, call.newLevel, call.now);
    var d := CreateUserByAdmin(db, c, call.email, call.name, call.role, call.newLevel, call.now).1;
    assert d == db || d == CreateUser(db, call.email, call.name, call.role, c.tenantId, call.newLevel, call.now).1;
  }

  lemma TenancyFollows(db: Db, call: Call)
    requires IdsOK(db) && IsTenancy(call)
    ensures AccountsFollow(db, PerformTenancy(db, call).1, call)
  {
    match call
    case CreateTenant(_, _, _) => CreateTenantFollows(db, call);
    case CreateAccount(_, _, _, _, _, _) => CreateAccountFollows(db, call);
    case CreateIntegrationAdmin(email, name, now) =>
      CreateUserFollows(db, call, email, name, IntegrationAdmin, None, None, now);
    case ChangeRole(_, _, _, _) => RoleChangeFollows(db, call);
    case _ => RemovalFollows(db, call);
  }

  // ---- Calls about credentials ----

  lemma EditFollows(db: Db, call: Call)
    requires call.EditProfile?
    ensures AccountsFollow(db, UpdateUserById(db, call.claims, call.id, call.newEmail, call.newName).1, call)
  {
    EditChangesTheProfile(db, call.claims, call.id, call.newEmail, call.newName);
  }

  lemma ResetFollows(db: Db, call: Call)
    requires IdsOK(db) && call.ResetPassword?
    ensures AccountsFollow(db, PerformAccount(db, call).1, call)
  {
    ResetGoesThroughIff(db, call.claims, call.id, call.refused);
  }

  lemma IntegrationResetFollows(db: Db, call: Call)
    requires IdsOK(db) && call.ResetIntegrationAdmin?
    ensures AccountsFollow(db, PerformAccount(db, call).1, call)
  {
    IntegrationResetGoesThroughIff(db, call.id, call.refused);
  }

  lemma ForgotFollows(db: Db, call: Call)
    requires UsersOK(db.users) && call.ForgotPassword?
    ensures AccountsFollow(db, RequestPasswordReset(db, call.email, call.now).1, call)
  {
    ForgottenPasswordIsRecorded(db, call.email, call.now);
  }

  lemma OwnRequestFollows(db: Db, call: Call)
    requires call.RequestOwnChange?
    ensures AccountsFollow(db, RequestOwnPasswordChange(db, call.claims, call.now).1, call)
  {
    OwnRequestIsRecorded(db, call.claims, call.now);
  }

  lemma SessionCallFollows(db: Db, call: Call)
    requires call.ChangeOwnPassword? || call.Login?
    ensures AccountsFollow(db, PerformAccount(db, call).1, call)
  {
    assert PerformAccount(db, call).1.users == db.users;
  }

  lemma AccountCallFollows(db: Db, call: Call)
    requires Inv(db) && IsAccount(call)
    ensures AccountsFollow(db, PerformAccount(db, call).1, call)
  {
    match call
    case EditProfile(_, _, _, _) => EditFollows(db, call);
    case ResetPassword(_, _, _) => ResetFollows(db, call);
    case ResetIntegrationAdmin(_, _) => IntegrationResetFollows(db, call);
    case ForgotPassword(_, _) => ForgotFollows(db, call);
    case RequestOwnChange(_, _) => OwnRequestFollows(db, call);
    case ChangeOwnPassword(_) => SessionCallFollows(db, call);
    case Login(_) => SessionCallFollows(db, call);
  }

  // ---- Every call ----

  /** Calls about other things leave the accounts as they are. */
  lemma SameAccountsFollow(db: Db, d: Db, call: Call)
    requires !IsTenancy(call) && !IsAccount(call) && d.users == db.users
    ensures AccountsFollow(db, d, call)
  {}

  lemma ModuleCallFollows(db: Db, call: Call)
    requires IsModule(call)
    ensures AccountsFollow(db, PerformModule(db, call).1, call)
  {
    ModuleCallEdits(db, call);
    SameAccountsFollow(db, PerformModule(db, call).1, call);
  }

  lemma TicketCallFollows(db: Db, call: Call)
    requires !IsTenancy(call) && !IsAccount(call) && !IsModule(call)
    ensures AccountsFollow(db, PerformTicket(db, call).1, call)
  {
    TicketCallKeepsUsers(db, call);
    SameAccountsFollow(db, PerformTicket(db, call).1, call);
  }

  lemma TicketCallKeepsUsers(db: Db, call: Call)
    requires !IsTenancy(call) && !IsAccount(call) && !IsModule(call)
    ensures PerformTicket(db, call).1.users == db.users
  {
    match call
    case RaiseTicket(c, title, category, m, rows) => RaiseShape(db, c, title, category, m, rows);
    case MoveTicket(c, id, status) => MoveShape(db, c, id, status);
    case ReadOne(_, _, _) =>
    case ReadAll(_, _) =>
  }

  lemma StepFollows(db: Db, call: Call)
    requires Inv(db)
    ensures Possible(db, call) ==> AccountsFollow(db, Step(db, call), call)
    ensures !Possible(db, call) ==> Step(db, call) == db
  {
    if Possible(db, call) {
      if IsTenancy(call) {
        TenancyFollows(db, call);
      } else if IsAccount(call) {
        AccountCallFollows(db, call);
      } else if IsModule(call) {
        ModuleCallFollows(db, call);
      } else {
        TicketCallFollows(db, call);
      }
    }
  }

  // ---- Requests over runs ----

  /** Whether the account has a request pending after a run: some request came after the last reset. */
  function Asked(asked: bool, db: Db, calls: seq<Call>, u: Id): bool
    decreases |calls|
  {
    if calls == [] then asked
    else
      var now := if u in db.users && Possible(db, calls[0])
                 then Requests(db, calls[0], u) || (asked && !Resets(db, calls[0], u)) else asked;
      Asked(now, Step(db, calls[0]), calls[1..], u)
  }

  lemma {:induction false} GoneForever(db: Db, calls: seq<Call>, u: Id)
    requires Inv(db) && u < db.nextId && u !in db.users
    ensures u !in Run(db, calls).users
    decreases |calls|
  {
    if calls != [] {
      StepFollows(db, calls[0]);
      StepAnnounces(db, calls[0]);
      StepKeepsInv(db, calls[0]);
      GoneForever(Step(db, calls[0]), calls[1..], u);
    }
  }

  /** No request is lost and none lingers: after any run it is pending exactly if it came after the last reset. */
  lemma {:induction false} PendingFollowsHistory(db: Db, calls: seq<Call>, u: Id)
    requires Inv(db) && u in db.users && u in Run(db, calls).users
    ensures Pending(Run(db, calls), u) <==> Asked(Pending(db, u), db, calls, u)
    decreases |calls|
  {
    if calls != [] {
      var d := Step(db, calls[0]);
      StepFollows(db, calls[0]);
      StepAnnounces(db, calls[0]);
      StepKeepsInv(db, calls[0]);
      if u !in d.users {
        GoneForever(d, calls[1..], u);
      } else {
        PendingFollowsHistory(d, calls[1..], u);
      }
    }
  }

  // ---- Seniority over runs ----

  /** Accounts are created later than this, whenever a call of the run creates any. */
  predicate CreatesLater(calls: seq<Call>, than: Time) {
    forall k | 0 <= k < |calls| && ClockOf(calls[k]).Some? :: than < ClockOf(calls[k]).value
  }

  /** While the account exists, it was created at this time in this tenant, and every other member of it later. */
  ghost predicate Senior(db: Db, a: Id, t: Id, since: Time) {
    && a < db.nextId
    && (a in db.users ==> db.users[a].createdAt == since)
    && forall v | v in db.users && v != a && db.users[v].tenantId == Some(t) :: since < db.users[v].createdAt
  }

  lemma {:induction false} SeniorityStays(db: Db, calls: seq<Call>, a: Id, t: Id, since: Time)
    requires Inv(db) && Senior(db, a, t, since) && CreatesLater(calls, since)
    ensures Senior(Run(db, calls), a, t, since)
    decreases |calls|
  {
    if calls != [] {
      StepFollows(db, calls[0]);
      StepAnnounces(db, calls[0]);
      StepKeepsInv(db, calls[0]);
      forall k | 0 <= k < |calls[1..]| && ClockOf(calls[1..][k]).Some? ensures since < ClockOf(calls[1..][k]).value {
        assert calls[1..][k] == calls[k + 1];
      }
      SeniorityStays(Step(db, calls[0]), calls[1..], a, t, since);
    }
  }

  lemma ProvisionedIsSenior(db: Db, email: string, name: string, now: Time)
    requires Inv(db) && !EmailTaken(db, email)
    ensures var d, a, t := CreateTenantWithAdmin(db, email, name, now).1, db.nextId + 1, db.nextId;
            Senior(d, a, t, now) && IsAdminOf(d, a, t)
  {}

  /**
   The Admin provisioned with a tenant is asked first: over any run in which later accounts are created later, and as
   long as that Admin is an Admin of the tenant, possibly again, every other Admin of it was created later, so that
   requests of all others show on that Admin's indicator and only the Admin's own on the Super Admins' flag.
   */
  lemma ProvisionedAdminIsAsked(db: Db, email: string, name: string, now: Time, calls: seq<Call>, u: Id)
    requires Inv(db) && !EmailTaken(db, email) && CreatesLater(calls, now)
    requires var d, a, t := Run(CreateTenantWithAdmin(db, email, name, now).1, calls), db.nextId + 1, db.nextId;
             IsAdminOf(d, a, t) && InTenant(d, u, t)
    ensures var d, a, t := Run(CreateTenantWithAdmin(db, email, name, now).1, calls), db.nextId + 1, db.nextId;
            && (u != a ==> d.users[a].createdAt < d.users[u].createdAt)
            && (u in AdminQueue(d, a, t) <==> u != a && Pending(d, u))
            && (u in SuperQueue(d) <==> u == a && Pending(d, u))
  {
    var d0, a, t := CreateTenantWithAdmin(db, email, name, now).1, db.nextId + 1, db.nextId;
    CreateTenantKeepsInv(db, email, name, now);
    ProvisionedIsSenior(db, email, name, now);
    SeniorityStays(d0, calls, a, t, now);
    SeniorIsAsked(Run(d0, calls), a, t, now, u);
  }

  lemma SeniorIsAsked(db: Db, a: Id, t: Id, since: Time, u: Id)
    requires Senior(db, a, t, since) && IsAdminOf(db, a, t) && InTenant(db, u, t)
    ensures u != a ==> db.users[a].createdAt < db.users[u].createdAt
    ensures u in AdminQueue(db, a, t) <==> u != a && Pending(db, u)
    ensures u in SuperQueue(db) <==> u == a && Pending(db, u)
  {
    assert IsFirstAdmin(db, a, t);
    if IsFirstAdmin(db, u, t) {
      FirstAdminUnique(db, a, u, t);
    }
  }
}
