/**
 The backend as one transition system: every state-changing call of the API on the store, one call at a time, with
 arbitrary, possibly stale, token claims. The global invariant holds in every reachable store.
 */
module Backend {
  import opened Common
  import opened Schema
  import opened ModuleUrl
  import opened Invariants
  import opened Deletion
  import opened Members
  import opened Tenants
  import opened Tickets
  import opened ModuleAccess

  datatype Call =
    | CreateTenant(email: string, name: string, now: Time)
    | DeleteTenant(tenantId: Id)
    | Activate(tenantId: Id, moduleName: ModuleName)
    | UpdateSubscription(tenantId: Id, moduleName: ModuleName, isActive: Option<bool>)
    | Deactivate(tenantId: Id, moduleName: ModuleName)
    | SetLevel(claims: Claims, moduleName: ModuleName, level: Level)
    | SetEndpoint(claims: Claims, moduleName: ModuleName, endpoint: Endpoint)
    | LaunchCall(claims: Claims, moduleName: ModuleName)
    | CreateAccount(claims: Claims, email: string, name: string, role: Role, newLevel: Option<Level>, now: Time)
    | CreateIntegrationAdmin(email: string, name: string, now: Time)
    | ChangeRole(claims: Claims, id: Id, role: Role, newLevel: Option<Level>)
    | DeleteUser(claims: Claims, id: Id)
    | DeleteIntegrationAdmin(id: Id)
    | EditProfile(claims: Claims, id: Id, newEmail: Option<string>, newName: Option<string>)
    | ResetPassword(claims: Claims, id: Id, refused: bool)
    | ResetIntegrationAdmin(id: Id, refused: bool)
    | ForgotPassword(email: string, now: Time)
    | RequestOwnChange(claims: Claims, now: Time)
    | ChangeOwnPassword(claims: Claims)
    | Login(id: Id)
    | RaiseTicket(claims: Claims, title: string, category: Category, module_: Option<ModuleName>, rows: seq<Id>)
    | MoveTicket(claims: Claims, id: Id, status: Status)
    | ReadOne(claims: Claims, id: Id, now: Time)
    | ReadAll(claims: Claims, now: Time)

  /** A successful login leaves one more refresh token row. */
  function AddToken(db: Db, id: Id): Db {
    db.(tokens := db.tokens[db.nextId := id], nextId := db.nextId + 1)
  }

  /** The recipients query answers with exactly the accounts it selects, in some order. */
  predicate Possible(db: Db, call: Call) {
    call.RaiseTicket? && call.claims.tenantId.Some? ==>
      Enumerates(call.rows, Recipients(db, call.claims.userId, call.claims.tenantId.value, call.category))
  }

  predicate IsTenancy(call: Call) {
    call.CreateTenant? || call.DeleteTenant? || call.CreateAccount? || call.CreateIntegrationAdmin? || call.ChangeRole?
    || call.DeleteUser? || call.DeleteIntegrationAdmin?
  }

  function PerformTenancy(db: Db, call: Call): (Answer, Db)
    requires IsTenancy(call)
  {
    match call
    case CreateTenant(email, name, now) => CreateTenantWithAdmin(db, email, name, now)
    case DeleteTenant(tenantId) => DeleteTenantWithUsers(db, tenantId)
    case CreateAccount(c, email, name, role, level, now) => CreateUserByAdmin(db, c, email, name, role, level, now)
    case CreateIntegrationAdmin(email, name, now) => CreateUser(db, email, name, IntegrationAdmin, None, None, now)
    case ChangeRole(c, id, role, level) => UpdateUserRoleById(db, c, id, role, level)
    case DeleteUser(c, id) => DeleteUserById(db, c, id)
    case DeleteIntegrationAdmin(id) => RemoveIntegrationAdmin(db, id)
  }

  predicate IsAccount(call: Call) {
    call.EditProfile? || call.ResetPassword? || call.ResetIntegrationAdmin?
    || call.ForgotPassword? || call.RequestOwnChange?
    || call.ChangeOwnPassword? || call.Login?
  }

  function PerformAccount(db: Db, call: Call): (Answer, Db)
    requires IsAccount(call)
  {
    match call
    case EditProfile(c, id, email, name) => UpdateUserById(db, c, id, email, name)
    case ResetPassword(c, id, refused) => ResetUserPassword(db, c, id, refused)
    case ResetIntegrationAdmin(id, refused) => ResetIntegrationAdminPassword(db, id, refused)
    case ForgotPassword(email, now) => RequestPasswordReset(db, email, now)
    case RequestOwnChange(c, now) => RequestOwnPasswordChange(db, c, now)
    case ChangeOwnPassword(c) =>
      if c.userId in db.users then (Ok(Done), AddHistory(db, c.userId)) else (Err(NotFound), db)
    case Login(id) => if id in db.users then (Ok(Done), AddToken(db, id)) else (Err(Unauthorized), db)
  }

  predicate IsModule(call: Call) {
    call.Activate? || call.UpdateSubscription? || call.Deactivate? || call.SetLevel? || call.SetEndpoint?
    || call.LaunchCall?
  }

  function PerformModule(db: Db, call: Call): (Answer, Db)
    requires IsModule(call)
  {
    match call
    case Activate(tenantId, m) => ActivateModule(db, tenantId, m)
    case UpdateSubscription(tenantId, m, isActive) => UpdateModule(db, tenantId, m, isActive)
    case Deactivate(tenantId, m) => DeactivateModule(db, tenantId, m)
    case SetLevel(c, m, level) => SetMinLevel(db, c, m, level)
    case SetEndpoint(c, m, e) => UpdateEndpoint(db, c, m, e)
    case LaunchCall(c, m) => LaunchModule(db, c, m)
  }

  function PerformTicket(db: Db, call: Call): (Answer, Db)
    requires !IsTenancy(call) && !IsAccount(call) && !IsModule(call)
  {
    match call
    case RaiseTicket(c, title, category, m, rows) => CreateTicket(db, c, title, category, m, rows)
    case MoveTicket(c, id, status) => UpdateStatus(db, c, id, status)
    case ReadOne(c, id, now) => MarkRead(db, c, id, now)
    case ReadAll(c, now) => MarkAllRead(db, c, now)
  }

  function Perform(db: Db, call: Call): (Answer, Db) {
    if IsTenancy(call) then PerformTenancy(db, call)
    else if IsAccount(call) then PerformAccount(db, call)
    else if IsModule(call) then PerformModule(db, call)
    else PerformTicket(db, call)
  }

  function Step(db: Db, call: Call): Db {
    if Possible(db, call) then Perform(db, call).1 else db
  }

  function Run(db: Db, calls: seq<Call>): Db
    decreases |calls|
  {
    if calls == [] then db else Run(Step(db, calls[0]), calls[1..])
  }

  /** After the seed: Super Admins only; endpoint rows may already be configured. */
  ghost predicate Seeded(db: Db) {
    && (forall u | u in db.users :: u < db.nextId && db.users[u].role.SuperAdmin? && WellRoled(db.users[u]))
    && (forall u, v | u in db.users && v in db.users && db.users[u].email == db.users[v].email :: u == v)
    && db.tenants == {} && db.tokens == map[] && db.histories == map[] && db.tickets == map[]
    && db.notifications == map[] && db.subscriptions == map[] && db.launches == [] && db.bus == []
  }

  // ---- Row edits: the keys, then the rows ----

  lemma InsertUserKeepsKeys(db: Db, user: User)
    requires KeysOK(db) && (user.tenantId.Some? ==> user.tenantId.value in db.tenants)
    ensures KeysOK(InsertUser(db, user))
  {}

  lemma InsertUserKeepsInv(db: Db, user: User)
    requires Inv(db) && WellRoled(user) && !EmailTaken(db, user.email)
    requires user.tenantId.Some? ==> user.tenantId.value in db.tenants
    ensures Inv(InsertUser(db, user))
  {
    InsertUserKeepsKeys(db, user);
    NewUserKeepsRows(db, db.nextId, user);
  }

  lemma NewUserKeepsRows(db: Db, id: Id, user: User)
    requires Inv(db) && id !in db.users && WellRoled(user) && !EmailTaken(db, user.email)
    ensures RowsOK(db.(users := db.users[id := user]))
  {}

  lemma UpdateUserKeepsInv(db: Db, id: Id, user: User)
    requires Inv(db) && id in db.users && WellRoled(user)
    requires !EmailOfAnother(db, id, user.email) && user.tenantId == db.users[id].tenantId
    ensures Inv(UpdateUser(db, id, user))
  {
    assert UsersOK(UpdateUser(db, id, user).users);
    SameTenantsKeepInv(db, UpdateUser(db, id, user).users);
  }

  ghost predicate SameTenants(users: map<Id, User>, after: map<Id, User>) {
    after.Keys == users.Keys && forall u | u in after :: after[u].tenantId == users[u].tenantId
  }

  lemma SameTenantsKeepInv(db: Db, users: map<Id, User>)
    requires Inv(db) && UsersOK(users) && SameTenants(db.users, users)
    ensures Inv(db.(users := users))
  {
    SameTenantsKeepKeys(db, users);
    SameTenantsKeepTickets(db.users, users, db.tickets);
    SameTenantsKeepNotifications(db.users, users, db.tickets, db.notifications);
  }

  lemma SameTenantsKeepKeys(db: Db, users: map<Id, User>)
    requires KeysOK(db) && SameTenants(db.users, users)
    ensures KeysOK(db.(users := users))
  {}

  lemma SameTenantsKeepTickets(users: map<Id, User>, after: map<Id, User>, tickets: map<Id, Ticket>)
    requires TicketsOK(users, tickets) && SameTenants(users, after)
    ensures TicketsOK(after, tickets)
  {}

  lemma SameTenantsKeepNotifications(
      users: map<Id, User>, after: map<Id, User>, tickets: map<Id, Ticket>, notifications: map<Id, Notification>)
    requires NotificationsOK(users, tickets, notifications) && SameTenants(users, after)
    ensures NotificationsOK(after, tickets, notifications)
  {}

  lemma HistoryKeepsInv(db: Db, id: Id)
    requires Inv(db) && id in db.users
    ensures Inv(AddHistory(db, id))
  {
    assert KeysOK(AddHistory(db, id));
  }

  lemma TokenKeepsInv(db: Db, id: Id)
    requires Inv(db) && id in db.users
    ensures Inv(AddToken(db, id))
  {
    assert KeysOK(AddToken(db, id));
  }

  lemma TenantKeepsInv(db: Db)
    requires Inv(db)
    ensures Inv(AddTenant(db))
  {
    assert KeysOK(AddTenant(db));
  }

  lemma InsertTicketKeepsKeys(db: Db, t: Ticket)
    requires KeysOK(db) && t.createdById.Some? && InTenant(db, t.createdById.value, t.tenantId)
    ensures KeysOK(InsertTicket(db, t))
  {}

  lemma InsertTicketKeepsInv(db: Db, t: Ticket)
    requires Inv(db) && t.createdById.Some? && InTenant(db, t.createdById.value, t.tenantId)
    requires t.category.Modules? <==> t.moduleName.Some?
    ensures Inv(InsertTicket(db, t))
  {
    InsertTicketKeepsKeys(db, t);
    assert RowsOK(InsertTicket(db, t));
  }

  lemma SetStatusKeepsInv(db: Db, id: Id, status: Status, actor: Id)
    requires Inv(db) && id in db.tickets
    ensures Inv(SetStatus(db, id, status, actor))
  {
    assert KeysOK(SetStatus(db, id, status, actor));
    assert RowsOK(SetStatus(db, id, status, actor));
  }

  /** Whom a ticket may notify: members of its tenant and accounts without a tenant. */
  predicate MayHear(db: Db, u: Id, tenantId: Id) {
    u in db.users && (db.users[u].tenantId.None? || db.users[u].tenantId == Some(tenantId))
  }

  ghost predicate AllMayHear(db: Db, us: seq<Id>, ticketId: Id)
    requires ticketId in db.tickets
  {
    forall u | u in us :: MayHear(db, u, db.tickets[ticketId].tenantId)
  }

  lemma DeliverKeepsKeys(db: Db, unique: seq<Id>, ticketId: Id, kind: Kind)
    requires KeysOK(db) && ticketId in db.tickets && AllMayHear(db, unique, ticketId)
    ensures KeysOK(Deliver(db, unique, ticketId, kind))
  {
    var d := Deliver(db, unique, ticketId, kind);
    forall n | n in d.notifications
      ensures d.notifications[n].userId in d.users && d.notifications[n].ticketId in d.tickets {
      if db.nextId <= n {
        assert unique[n - db.nextId] in unique;
      }
    }
  }

  lemma DeliverKeepsRows(db: Db, unique: seq<Id>, ticketId: Id, kind: Kind)
    requires Inv(db) && ticketId in db.tickets && AllMayHear(db, unique, ticketId)
    ensures RowsOK(Deliver(db, unique, ticketId, kind))
  {
    var d := Deliver(db, unique, ticketId, kind);
    forall n | n in d.notifications && db.nextId <= n
      ensures MayHear(db, d.notifications[n].userId, db.tickets[ticketId].tenantId) {
      assert unique[n - db.nextId] in unique;
    }
    assert NotificationsOK(d.users, d.tickets, d.notifications);
  }

  lemma DeliverKeepsInv(db: Db, unique: seq<Id>, ticketId: Id, kind: Kind)
    requires Inv(db) && ticketId in db.tickets && AllMayHear(db, unique, ticketId)
    ensures Inv(Deliver(db, unique, ticketId, kind))
  {
    DeliverKeepsKeys(db, unique, ticketId, kind);
    DeliverKeepsRows(db, unique, ticketId, kind);
  }

  lemma {:induction false} DedupeIsSet(ids: seq<Id>)
    ensures forall u :: u in Dedupe(ids) <==> u in ids
    ensures forall i, j | 0 <= i < j < |Dedupe(ids)| :: Dedupe(ids)[i] != Dedupe(ids)[j]
  {
    if ids != [] {
      var init := ids[..|ids| - 1];
      DedupeIsSet(init);
      assert ids == init + [ids[|ids| - 1]];
    }
  }

  /** Where an element first occurs. */
  function FirstAt(ids: seq<Id>, u: Id): (k: nat)
    requires u in ids
    ensures k < |ids| && ids[k] == u && u !in ids[..k]
  {
    if ids[0] == u then 0 else 1 + FirstAt(ids[1..], u)
  }

  lemma {:induction false} FirstAtIs(ids: seq<Id>, u: Id, k: nat)
    requires k < |ids| && ids[k] == u && u !in ids[..k]
    ensures FirstAt(ids, u) == k
  {
    if k > 0 {
      assert ids[..k] == [ids[0]] + ids[1..][..k - 1];
      FirstAtIs(ids[1..], u, k - 1);
    }
  }

  /** Recipients keep the order in which they first occur. */
  lemma {:induction false} DedupeKeepsOrder(ids: seq<Id>, i: nat, j: nat)
    requires i < j < |Dedupe(ids)|
    ensures Dedupe(ids)[i] in ids && Dedupe(ids)[j] in ids
    ensures FirstAt(ids, Dedupe(ids)[i]) < FirstAt(ids, Dedupe(ids)[j])
  {
    var init, last := ids[..|ids| - 1], ids[|ids| - 1];
    DedupeIsSet(ids);
    DedupeIsSet(init);
    assert ids == init + [last];
    var u, v := Dedupe(ids)[i], Dedupe(ids)[j];
    assert u in init;
    FirstInPrefix(init, last, u);
    if j < |Dedupe(init)| {
      DedupeKeepsOrder(init, i, j);
      FirstInPrefix(init, last, v);
    } else {
      FirstAtIs(ids, last, |init|);
    }
  }

  lemma FirstInPrefix(init: seq<Id>, last: Id, u: Id)
    requires u in init
    ensures FirstAt(init + [last], u) == FirstAt(init, u)
  {
    var k := FirstAt(init, u);
    assert (init + [last])[..k] == init[..k];
    FirstAtIs(init + [last], u, k);
  }

  lemma NotifyKeepsInv(db: Db, recipients: seq<Id>, ticketId: Id, kind: Kind)
    requires Inv(db) && ticketId in db.tickets && AllMayHear(db, recipients, ticketId)
    ensures Inv(Notify(db, recipients, ticketId, kind).1)
    ensures Notify(db, recipients, ticketId, kind).0.Ok?
  {
    var unique := Dedupe(recipients);
    DedupeIsSet(recipients);
    assert forall i | 0 <= i < |unique| :: unique[i] in unique;
    DeliverKeepsInv(db, unique, ticketId, kind);
  }

  lemma MarkAsKeepsInv(db: Db, read: set<Id>, now: Time)
    requires Inv(db)
    ensures Inv(MarkAs(db, read, now))
  {
    MarkAsKeepsKeys(db, read, now);
    MarkAsKeepsRows(db, read, now);
  }

  lemma MarkAsKeepsKeys(db: Db, read: set<Id>, now: Time)
    requires KeysOK(db)
    ensures KeysOK(MarkAs(db, read, now))
  {}

  lemma MarkAsKeepsRows(db: Db, read: set<Id>, now: Time)
    requires RowsOK(db)
    ensures RowsOK(MarkAs(db, read, now))
  {}

  /** The later store differs in the module tables only, and subscriptions are new only for existing tenants. */
  ghost predicate EditsModules(db: Db, d: Db) {
    && d == db.(subscriptions := d.subscriptions, endpoints := d.endpoints, launches := d.launches)
    && forall s | s in d.subscriptions :: s in db.subscriptions || s.0 in db.tenants
  }

  lemma ActivateEdits(db: Db, tenantId: Id, m: ModuleName)
    ensures EditsModules(db, ActivateModule(db, tenantId, m).1)
  {}

  lemma SwitchEdits(db: Db, tenantId: Id, m: ModuleName, isActive: Option<bool>)
    ensures EditsModules(db, UpdateModule(db, tenantId, m, isActive).1)
  {}

  lemma DeactivateEdits(db: Db, tenantId: Id, m: ModuleName)
    ensures EditsModules(db, DeactivateModule(db, tenantId, m).1)
  {}

  lemma LaunchEdits(db: Db, c: Claims, m: ModuleName)
    ensures EditsModules(db, LaunchModule(db, c, m).1)
  {}

  lemma ModuleCallEdits(db: Db, call: Call)
    requires IsModule(call)
    ensures EditsModules(db, PerformModule(db, call).1)
  {
    match call
    case Activate(tenantId, m) => ActivateEdits(db, tenantId, m);
    case UpdateSubscription(tenantId, m, isActive) => SwitchEdits(db, tenantId, m, isActive);
    case Deactivate(tenantId, m) => DeactivateEdits(db, tenantId, m);
    case LaunchCall(c, m) => LaunchEdits(db, c, m);
    case _ =>
  }

  /** The later store differs in accounts, sessions and password history only. */
  ghost predicate EditsAccounts(db: Db, d: Db) {
    && d == db.(users := d.users, tokens := d.tokens, histories := d.histories, nextId := d.nextId)
    && db.nextId <= d.nextId
  }

  lemma ResetEdits(db: Db, id: Id, refused: bool)
    requires id in db.users
    ensures EditsAccounts(db, ApplyPasswordReset(db, id, refused).1)
  {}

  lemma EditEdits(db: Db, c: Claims, id: Id, email: Option<string>, name: Option<string>)
    ensures EditsAccounts(db, UpdateUserById(db, c, id, email, name).1)
  {}

  lemma ForgotEdits(db: Db, email: string, now: Time)
    ensures EditsAccounts(db, RequestPasswordReset(db, email, now).1)
  {}

  lemma ResetsEdit(db: Db, c: Claims, id: Id, refused: bool)
    ensures EditsAccounts(db, ResetUserPassword(db, c, id, refused).1)
    ensures EditsAccounts(db, ResetIntegrationAdminPassword(db, id, refused).1)
  {
    if id in db.users {
      ResetEdits(db, id, refused);
    }
  }

  lemma AccountCallEdits(db: Db, call: Call)
    requires IsAccount(call)
    ensures EditsAccounts(db, PerformAccount(db, call).1)
  {
    match call
    case EditProfile(c, id, email, name) => EditEdits(db, c, id, email, name);
    case ResetPassword(c, id, refused) => ResetsEdit(db, c, id, refused);
    case ResetIntegrationAdmin(id, refused) => ResetsEdit(db, Claims(id, Admin, None, None), id, refused);
    case ForgotPassword(email, now) => ForgotEdits(db, email, now);
    case _ =>
  }

  /** A ticket that only may have lost its creator. */
  predicate LosesCreator(t: Ticket, u: Ticket) {
    u == t || u == t.(createdById := None)
  }

  /** No new ticket, notification, launch or event; tickets that stay only may lose their creator. */
  ghost predicate EditsTenancy(db: Db, d: Db) {
    && d.launches == db.launches && d.endpoints == db.endpoints && d.bus == db.bus && db.nextId <= d.nextId
    && (forall k | k in d.tickets :: k in db.tickets && LosesCreator(db.tickets[k], d.tickets[k]))
    && (forall n | n in d.notifications :: n in db.notifications && d.notifications[n] == db.notifications[n])
  }

  lemma RemovalEdits(db: Db, id: Id)
    ensures EditsTenancy(db, UserRemoved(db, id))
    ensures EditsTenancy(db, TenantRemoved(db, id))
  {}

  lemma RoleChangeEdits(db: Db, c: Claims, id: Id, role: Role, level: Option<Level>)
    ensures EditsTenancy(db, UpdateUserRoleById(db, c, id, role, level).1)
  {
    if c.tenantId.Some? {
      RoleUpdateEdits(db, id, c.tenantId.value, role, level);
    }
  }

  lemma RoleUpdateEdits(db: Db, id: Id, tenantId: Id, role: Role, level: Option<Level>)
    ensures EditsTenancy(db, ChangeRoleForTenant(db, id, tenantId, role, level).1)
  {
    assert forall user :: EditsTenancy(db, UpdateUser(db, id, user));
  }

  lemma ProvisionEdits(db: Db, email: string, name: string, now: Time)
    ensures EditsTenancy(db, CreateTenantWithAdmin(db, email, name, now).1)
  {}

  lemma CreationEdits(
      db: Db, email: string, name: string, role: Role, tenantId: Option<Id>, level: Option<Level>, now: Time)
    ensures EditsTenancy(db, CreateUser(db, email, name, role, tenantId, level, now).1)
  {}

  lemma TenancyCallEdits(db: Db, call: Call)
    requires IsTenancy(call)
    ensures EditsTenancy(db, PerformTenancy(db, call).1)
  {
    match call
    case CreateTenant(email, name, now) => ProvisionEdits(db, email, name, now);
    case DeleteTenant(tenantId) => RemovalEdits(db, tenantId);
    case CreateAccount(c, email, name, role, level, now) =>
      CreationEdits(db, email, name, role, c.tenantId, level, now);
    case CreateIntegrationAdmin(email, name, now) =>
      CreationEdits(db, email, name, IntegrationAdmin, None, None, now);
    case ChangeRole(c, id, role, level) => RoleChangeEdits(db, c, id, role, level);
    case DeleteUser(_, id) => RemovalEdits(db, id);
    case DeleteIntegrationAdmin(id) => RemovalEdits(db, id);
  }

  lemma ModuleTablesKeepInv(db: Db, d: Db)
    requires Inv(db) && EditsModules(db, d)
    ensures Inv(d)
  {}

  // ---- Calls ----

  lemma CreateTenantKeepsInv(db: Db, email: string, name: string, now: Time)
    requires Inv(db)
    ensures Inv(CreateTenantWithAdmin(db, email, name, now).1)
  {
    if !EmailTaken(db, email) {
      TenantKeepsInv(db);
      assert !EmailTaken(AddTenant(db), email);
      InsertUserKeepsInv(AddTenant(db), FirstAdmin(db, email, name, now));
    }
  }

  lemma CreateUserKeepsInv(
      db: Db, email: string, name: string, role: Role, tenantId: Option<Id>, level: Option<Level>, now: Time)
    requires Inv(db) && (tenantId.Some? <==> role.Admin? || role.Analyst?)
    ensures Inv(CreateUser(db, email, name, role, tenantId, level, now).1)
  {
    if CreateUser(db, email, name, role, tenantId, level, now).0.Ok? {
      InsertUserKeepsInv(db, User(email, name, role, ResolveAnalystLevel(role, level).value, tenantId, None, now));
    }
  }

  lemma ChangeRoleKeepsInv(db: Db, c: Claims, id: Id, role: Role, level: Option<Level>)
    requires Inv(db)
    ensures Inv(UpdateUserRoleById(db, c, id, role, level).1)
  {
    if UpdateUserRoleById(db, c, id, role, level).0.Ok? {
      assert WellRoled(db.users[id]);
      UpdateUserKeepsInv(db, id, db.users[id].(role := role, level := ResolveAnalystLevel(role, level).value));
    }
  }

  lemma TenancyKeepsInv(db: Db, call: Call)
    requires Inv(db) && IsTenancy(call)
    ensures Inv(PerformTenancy(db, call).1)
  {
    match call
    case CreateTenant(email, name, now) => CreateTenantKeepsInv(db, email, name, now);
    case DeleteTenant(tenantId) => DeleteTenantKeepsInv(db, tenantId);
    case CreateAccount(c, email, name, role, level, now) => CreateAccountKeepsInv(db, c, email, name, role, level, now);
    case CreateIntegrationAdmin(email, name, now) =>
      CreateUserKeepsInv(db, email, name, IntegrationAdmin, None, None, now);
    case ChangeRole(c, id, role, level) => ChangeRoleKeepsInv(db, c, id, role, level);
    case DeleteUser(c, id) => DeleteUserKeepsInv(db, c, id);
    case DeleteIntegrationAdmin(id) => UserRemovedKeepsInv(db, id);
  }

  lemma DeleteTenantKeepsInv(db: Db, id: Id)
    requires Inv(db)
    ensures Inv(DeleteTenantWithUsers(db, id).1)
  {
    TenantRemovedKeepsInv(db, id);
  }

  lemma CreateAccountKeepsInv(
      db: Db, c: Claims, email: string, name: string, role: Role, level: Option<Level>, now: Time)
    requires Inv(db)
    ensures Inv(CreateUserByAdmin(db, c, email, name, role, level, now).1)
  {
    if c.tenantId.Some? && (role.Admin? || role.Analyst?) {
      CreateUserKeepsInv(db, email, name, role, c.tenantId, level, now);
    }
  }

  lemma DeleteUserKeepsInv(db: Db, c: Claims, id: Id)
    requires Inv(db)
    ensures Inv(DeleteUserById(db, c, id).1)
  {
    UserRemovedKeepsInv(db, id);
  }

  lemma ResetKeepsInv(db: Db, id: Id, refused: bool)
    requires Inv(db) && id in db.users
    ensures Inv(ApplyPasswordReset(db, id, refused).1)
  {
    HistoryKeepsInv(db, id);
    UpdateUserKeepsInv(AddHistory(db, id), id, db.users[id].(pendingSince := None));
  }

  lemma EditKeepsInv(db: Db, c: Claims, id: Id, email: Option<string>, name: Option<string>)
    requires Inv(db)
    ensures Inv(UpdateUserById(db, c, id, email, name).1)
  {
    var (r, d) := UpdateUserById(db, c, id, email, name);
    if r.Ok? {
      UpdateUserKeepsInv(db, id, d.users[id]);
    }
  }

  lemma AccountKeepsInv(db: Db, call: Call)
    requires Inv(db) && IsAccount(call)
    ensures Inv(PerformAccount(db, call).1)
  {
    match call
    case EditProfile(c, id, email, name) => EditKeepsInv(db, c, id, email, name);
    case ResetPassword(c, id, refused) => if id in db.users { ResetKeepsInv(db, id, refused); }
    case ResetIntegrationAdmin(id, refused) => if id in db.users { ResetKeepsInv(db, id, refused); }
    case ForgotPassword(email, now) =>
      forall u | u in db.users ensures Inv(MarkPending(db, u, now)) {
        UpdateUserKeepsInv(db, u, db.users[u].(pendingSince := Some(now)));
      }
    case RequestOwnChange(c, now) =>
      if c.userId in db.users {
        UpdateUserKeepsInv(db, c.userId, db.users[c.userId].(pendingSince := Some(now)));
      }
    case ChangeOwnPassword(c) => if c.userId in db.users { HistoryKeepsInv(db, c.userId); }
    case Login(id) => if id in db.users { TokenKeepsInv(db, id); }
  }

  /** Everyone the recipients query selects may hear about the tenant's tickets. */
  lemma RecipientsMayHear(db: Db, creator: Id, tenantId: Id, category: Category, u: Id)
    requires Inv(db) && u in Recipients(db, creator, tenantId, category)
    ensures MayHear(db, u, tenantId)
  {}

  lemma RaiseTicketKeepsInv(db: Db, c: Claims, title: string, category: Category, m: Option<ModuleName>, rows: seq<Id>)
    requires Inv(db)
    requires c.tenantId.Some? ==> Enumerates(rows, Recipients(db, c.userId, c.tenantId.value, category))
    ensures Inv(CreateTicket(db, c, title, category, m, rows).1)
    ensures CreateTicket(db, c, title, category, m, rows).0 != Err(Internal)
  {
    if MayRaise(c) && c.tenantId.Some? && category.Modules? == m.Some? && InTenant(db, c.userId, c.tenantId.value) {
      NewTicketKeepsInv(db, c.userId, c.tenantId.value, title, category, m, rows);
    }
  }

  lemma NewTicketKeepsInv(
      db: Db, creator: Id, tenantId: Id, title: string, category: Category, m: Option<ModuleName>, rows: seq<Id>)
    requires Inv(db) && InTenant(db, creator, tenantId) && category.Modules? == m.Some?
    requires Enumerates(rows, Recipients(db, creator, tenantId, category))
    ensures var d := InsertTicket(db, NewTicket(db, creator, tenantId, title, category, m));
            && Inv(Notify(d, rows, db.nextId, TicketCreated).1)
            && Notify(d, rows, db.nextId, TicketCreated).0.Ok?
  {
    var d := InsertTicket(db, NewTicket(db, creator, tenantId, title, category, m));
    InsertTicketKeepsInv(db, NewTicket(db, creator, tenantId, title, category, m));
    forall u | u in rows ensures MayHear(d, u, tenantId) {
      RecipientsMayHear(db, creator, tenantId, category, u);
    }
    assert AllMayHear(d, rows, db.nextId);
    NotifyKeepsInv(d, rows, db.nextId, TicketCreated);
  }

  lemma CreatorMayHear(db: Db, id: Id, status: Status, actor: Id)
    requires Inv(db) && id in db.tickets && db.tickets[id].createdById.Some?
    ensures AllMayHear(SetStatus(db, id, status, actor), [db.tickets[id].createdById.value], id)
  {
    assert MayHear(db, db.tickets[id].createdById.value, db.tickets[id].tenantId);
  }

  lemma MoveTicketKeepsInv(db: Db, c: Claims, id: Id, status: Status)
    requires Inv(db)
    ensures Inv(UpdateStatus(db, c, id, status).1)
    ensures UpdateStatus(db, c, id, status).0 != Err(Internal)
  {
    MoveShape(db, c, id, status);
    if id in db.tickets {
      SetStatusKeepsInv(db, id, status, c.userId);
      if db.tickets[id].createdById.Some? {
        CreatorMayHear(db, id, status, c.userId);
        NotifyKeepsInv(SetStatus(db, id, status, c.userId),
                       [db.tickets[id].createdById.value], id, TicketStatusChanged);
      }
    }
  }

  lemma TicketKeepsInv(db: Db, call: Call)
    requires Inv(db) && Possible(db, call) && !IsTenancy(call) && !IsAccount(call) && !IsModule(call)
    ensures Inv(PerformTicket(db, call).1)
  {
    match call
    case RaiseTicket(c, title, category, m, rows) => RaiseTicketKeepsInv(db, c, title, category, m, rows);
    case MoveTicket(c, id, status) => MoveTicketKeepsInv(db, c, id, status);
    case ReadOne(c, id, now) => MarkAsKeepsInv(db, {id}, now);
    case ReadAll(c, now) => MarkAsKeepsInv(db, UnreadOf(db, c.userId), now);
  }

  lemma ModuleKeepsInv(db: Db, call: Call)
    requires Inv(db) && IsModule(call)
    ensures Inv(PerformModule(db, call).1)
  {
    ModuleCallEdits(db, call);
    ModuleTablesKeepInv(db, PerformModule(db, call).1);
  }

  /** Every call, with any claims, keeps the global invariant. */
  lemma StepKeepsInv(db: Db, call: Call)
    requires Inv(db)
    ensures Inv(Step(db, call))
  {
    if Possible(db, call) {
      if IsTenancy(call) {
        TenancyKeepsInv(db, call);
      } else if IsAccount(call) {
        AccountKeepsInv(db, call);
      } else if IsModule(call) {
        ModuleKeepsInv(db, call);
      } else {
        TicketKeepsInv(db, call);
      }
    }
  }

  lemma {:induction false} RunKeepsInv(db: Db, calls: seq<Call>)
    requires Inv(db)
    ensures Inv(Run(db, calls))
    decreases |calls|
  {
    if calls != [] {
      StepKeepsInv(db, calls[0]);
      RunKeepsInv(Step(db, calls[0]), calls[1..]);
    }
  }

  lemma SeededIsInv(db: Db)
    requires Seeded(db)
    ensures Inv(db)
  {}

  /**
   From every store the API can reach, deleting an existing tenant succeeds: no query meets a RESTRICT, nothing dangles
   afterwards, and what remains is exactly the rows that do not belong to the tenant.
   */
  lemma TenantDeletionAlwaysSucceeds(seed: Db, calls: seq<Call>, id: Id)
    requires Seeded(seed) && id in Run(seed, calls).tenants
    ensures var db := Run(seed, calls);
            && DeleteTenantQueries(db, id) == Some(TenantRemoved(db, id))
            && DeleteTenantWithUsers(db, id) == (Ok(Done), TenantRemoved(db, id))
            && ForeignKeys(TenantRemoved(db, id))
            && (forall k | k in db.tickets && db.tickets[k].tenantId != id ::
                  k in TenantRemoved(db, id).tickets && TenantRemoved(db, id).tickets[k] == db.tickets[k])
            && TenantRemoved(db, id).launches == db.launches
  {
    var db := Run(seed, calls);
    SeededIsInv(seed);
    RunKeepsInv(seed, calls);
    NeverEntangled(db, id);
    DeletionSucceedsIff(db, id);
    OthersUntouched(db, id);
    RemovalKeepsForeignKeys(db, id);
  }
}
