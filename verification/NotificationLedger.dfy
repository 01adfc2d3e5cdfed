/** Accounting of notifications over whole runs: each user's unread count is rows created minus rows read or deleted. */
module NotificationLedger {
  import opened Common
  import opened Schema
  import opened Invariants
  import opened Deletion
  import opened Members
  import opened Tenants
  import opened Tickets
  import opened Backend

  type Rows = map<Id, Notification>

  function Unreads(rows: Rows, u: Id): set<Id> {
    set n | n in rows && rows[n].userId == u && rows[n].readAt.None?
  }

  /** The rows of a user that are in the later table and were not in the earlier one. */
  function NewRows(before: Rows, after: Rows, u: Id): set<Id> {
    set n | n in after && n !in before && after[n].userId == u
  }

  // ---- What each call creates, reads and deletes ----

  /** The ids of the rows a call creates for the user. */
  function CreatedBy(db: Db, call: Call, u: Id): set<Id> {
    NewRows(db.notifications, Step(db, call).notifications, u)
  }

  /** Rows the user reads: the unread one they name, or all of theirs. */
  function ReadBy(db: Db, call: Call, u: Id): nat {
    if call.ReadOne? && call.claims.userId == u && call.id in Unreads(db.notifications, u) then 1
    else if call.ReadAll? && call.claims.userId == u then |Unreads(db.notifications, u)|
    else 0
  }

  /** Unread rows of the user that a deletion removes: about the tenant's tickets, or all of the deleted user's. */
  function DeletedOf(db: Db, call: Call, u: Id): nat {
    if call.DeleteTenant? && DeleteTenantWithUsers(db, call.tenantId).0.Ok? then
      |Unreads(db.notifications, u) * NotificationsAbout(db, TicketsOf(db, call.tenantId))|
    else if call.DeleteUser? && call.id == u && DeleteUserById(db, call.claims, u).0.Ok? then
      |Unreads(db.notifications, u)|
    else if call.DeleteIntegrationAdmin? && call.id == u && RemoveIntegrationAdmin(db, u).0.Ok? then
      |Unreads(db.notifications, u)|
    else 0
  }

  // ---- One call ----

  lemma Partition(a: set<Id>, b: set<Id>)
    ensures |a| == |a - b| + |a * b|
  {}

  /** The user's unread count grows by the rows created for them, less `gone`. */
  ghost predicate Balances(before: Rows, after: Rows, u: Id, gone: nat) {
    |Unreads(after, u)| + gone == |Unreads(before, u)| + |NewRows(before, after, u)|
  }

  lemma NothingNew(before: Rows, after: Rows, u: Id, gone: nat)
    requires after.Keys <= before.Keys && |Unreads(after, u)| + gone == |Unreads(before, u)|
    ensures Balances(before, after, u, gone)
  {
    assert NewRows(before, after, u) == {};
  }

  lemma InsertBalances(rows: Rows, first: Id, recipients: seq<Id>, ticketId: Id, kind: Kind, u: Id)
    requires forall n | n in rows :: n < first
    ensures Balances(rows, InsertRows(rows, first, recipients, ticketId, kind), u, 0)
  {
    var after := InsertRows(rows, first, recipients, ticketId, kind);
    assert Unreads(after, u) == Unreads(rows, u) + NewRows(rows, after, u);
    assert Unreads(rows, u) * NewRows(rows, after, u) == {};
  }

  lemma NotifyBalances(db: Db, recipients: seq<Id>, ticketId: Id, kind: Kind, u: Id)
    requires IdsOK(db)
    ensures Balances(db.notifications, Notify(db, recipients, ticketId, kind).1.notifications, u, 0)
  {
    NothingNew(db.notifications, db.notifications, u, 0);
    InsertBalances(db.notifications, db.nextId, Dedupe(recipients), ticketId, kind, u);
  }

  lemma RaiseBalances(db: Db, c: Claims, title: string, category: Category, m: Option<ModuleName>, rows: seq<Id>, u: Id)
    requires IdsOK(db)
    ensures Balances(db.notifications, CreateTicket(db, c, title, category, m, rows).1.notifications, u, 0)
  {
    RaiseShape(db, c, title, category, m, rows);
    if CreateTicket(db, c, title, category, m, rows).1 == db {
      NothingNew(db.notifications, db.notifications, u, 0);
    } else {
      var d1 := InsertTicket(db, NewTicket(db, c.userId, c.tenantId.value, title, category, m));
      assert IdsOK(d1);
      NotifyBalances(d1, rows, db.nextId, TicketCreated, u);
    }
  }

  lemma MoveBalances(db: Db, c: Claims, id: Id, status: Status, u: Id)
    requires IdsOK(db)
    ensures Balances(db.notifications, UpdateStatus(db, c, id, status).1.notifications, u, 0)
  {
    MoveShape(db, c, id, status);
    NothingNew(db.notifications, db.notifications, u, 0);
    if id in db.tickets && db.tickets[id].createdById.Some? {
      NotifyBalances(SetStatus(db, id, status, c.userId), [db.tickets[id].createdById.value], id,
                     TicketStatusChanged, u);
    }
  }

  lemma MarkAsReads(db: Db, read: set<Id>, now: Time, u: Id)
    ensures Unreads(MarkAs(db, read, now).notifications, u) == Unreads(db.notifications, u) - read
  {}

  /** A mark-read call changes at most the one row of the caller, and the count it returns is the new one. */
  lemma MarkReadIsExact(db: Db, c: Claims, id: Id, now: Time, u: Id)
    ensures var (r, d) := MarkRead(db, c, id, now);
            && Unreads(d.notifications, u) == Unreads(db.notifications, u) - (if u == c.userId then {id} else {})
            && (r.Ok? ==> r.value == Unread(|Unreads(d.notifications, c.userId)|))
  {
    var (r, d) := MarkRead(db, c, id, now);
    MarkAsReads(db, {id}, now, u);
    assert UnreadOf(d, c.userId) == Unreads(d.notifications, c.userId);
    assert Unreads(db.notifications, u) - {} == Unreads(db.notifications, u);
    assert d == db ==> id !in Unreads(db.notifications, c.userId);
    assert u != c.userId && r.Ok? ==> id !in Unreads(db.notifications, u);
  }

  /** Marking all leaves the caller nothing unread, so the constant zero it returns is exact; others are untouched. */
  lemma MarkAllReadIsExact(db: Db, c: Claims, now: Time, u: Id)
    ensures var (r, d) := MarkAllRead(db, c, now);
            && Unreads(d.notifications, u) == (if u == c.userId then {} else Unreads(db.notifications, u))
            && r == Ok(Unread(|Unreads(d.notifications, c.userId)|))
  {}

  lemma TicketCallBalances(db: Db, call: Call, u: Id)
    requires IdsOK(db) && !IsTenancy(call) && !IsAccount(call) && !IsModule(call)
    ensures Balances(db.notifications, PerformTicket(db, call).1.notifications, u, ReadBy(db, call, u))
  {
    match call
    case RaiseTicket(c, title, category, m, rows) => RaiseBalances(db, c, title, category, m, rows, u);
    case MoveTicket(c, id, status) => MoveBalances(db, c, id, status, u);
    case ReadOne(c, id, now) => ReadOneBalances(db, call, u);
    case ReadAll(c, now) => ReadAllBalances(db, call, u);
  }

  lemma ReadOneBalances(db: Db, call: Call, u: Id)
    requires call.ReadOne?
    ensures Balances(db.notifications, MarkRead(db, call.claims, call.id, call.now).1.notifications, u,
                     ReadBy(db, call, u))
  {
    MarkReadIsExact(db, call.claims, call.id, call.now, u);
    NothingNew(db.notifications, MarkRead(db, call.claims, call.id, call.now).1.notifications, u, ReadBy(db, call, u));
  }

  lemma ReadAllBalances(db: Db, call: Call, u: Id)
    requires call.ReadAll?
    ensures Balances(db.notifications, MarkAllRead(db, call.claims, call.now).1.notifications, u, ReadBy(db, call, u))
  {
    MarkAllReadIsExact(db, call.claims, call.now, u);
    NothingNew(db.notifications, MarkAllRead(db, call.claims, call.now).1.notifications, u, ReadBy(db, call, u));
  }

  lemma TenantRemovalBalance(db: Db, id: Id, u: Id)
    ensures |Unreads(TenantRemoved(db, id).notifications, u)|
            + |Unreads(db.notifications, u) * NotificationsAbout(db, TicketsOf(db, id))|
            == |Unreads(db.notifications, u)|
  {
    var about := NotificationsAbout(db, TicketsOf(db, id));
    Partition(Unreads(db.notifications, u), about);
    assert Unreads(TenantRemoved(db, id).notifications, u) == Unreads(db.notifications, u) - about;
  }

  lemma UserRemovalBalance(db: Db, id: Id, u: Id)
    ensures Unreads(UserRemoved(db, id).notifications, u) == if u == id then {} else Unreads(db.notifications, u)
  {}

  /** No row is new, and `removed` unread rows of the user are gone. */
  ghost predicate Loses(before: Db, after: Db, u: Id, removed: nat) {
    && after.notifications.Keys <= before.notifications.Keys
    && |Unreads(after.notifications, u)| + removed == |Unreads(before.notifications, u)|
  }

  lemma DeleteUserBalance(db: Db, c: Claims, id: Id, u: Id)
    ensures Loses(db, DeleteUserById(db, c, id).1, u,
                  if id == u && DeleteUserById(db, c, id).0.Ok? then |Unreads(db.notifications, u)| else 0)
  {
    UserRemovalBalance(db, id, u);
  }

  lemma DeleteIntegrationAdminBalance(db: Db, id: Id, u: Id)
    ensures Loses(db, RemoveIntegrationAdmin(db, id).1, u,
                  if id == u && RemoveIntegrationAdmin(db, id).0.Ok? then |Unreads(db.notifications, u)| else 0)
  {
    UserRemovalBalance(db, id, u);
  }

  lemma DeleteTenantBalance(db: Db, id: Id, u: Id)
    ensures Loses(db, DeleteTenantWithUsers(db, id).1, u,
                  if DeleteTenantWithUsers(db, id).0.Ok?
                  then |Unreads(db.notifications, u) * NotificationsAbout(db, TicketsOf(db, id))| else 0)
  {
    TenantRemovalBalance(db, id, u);
  }

  /** Neither notifications nor events are touched. */
  predicate SameLedger(db: Db, d: Db) {
    d.bus == db.bus && d.notifications == db.notifications && db.nextId <= d.nextId
  }

  lemma PlainTenancyLeavesLedger(db: Db, call: Call)
    requires call.CreateTenant? || call.CreateAccount? || call.CreateIntegrationAdmin? || call.ChangeRole?
    ensures SameLedger(db, PerformTenancy(db, call).1)
  {
    match call
    case CreateTenant(_, _, _) =>
    case CreateAccount(c, email, name, role, level, now) =>
      CreateUserLeavesLedger(db, email, name, role, c.tenantId, level, now);
    case CreateIntegrationAdmin(email, name, now) =>
      CreateUserLeavesLedger(db, email, name, IntegrationAdmin, None, None, now);
    case ChangeRole(c, id, role, level) => ChangeRoleLeavesLedger(db, c, id, role, level);
  }

  lemma CreateUserLeavesLedger(
      db: Db, email: string, name: string, role: Role, tenantId: Option<Id>, level: Option<Level>, now: Time)
    ensures SameLedger(db, CreateUser(db, email, name, role, tenantId, level, now).1)
  {}

  lemma ChangeRoleLeavesLedger(db: Db, c: Claims, id: Id, role: Role, level: Option<Level>)
    ensures SameLedger(db, UpdateUserRoleById(db, c, id, role, level).1)
  {}

  lemma TenancyBalance(db: Db, call: Call, u: Id)
    requires IsTenancy(call)
    ensures Loses(db, PerformTenancy(db, call).1, u, DeletedOf(db, call, u))
  {
    match call
    case DeleteTenant(id) => DeleteTenantBalance(db, id, u);
    case DeleteUser(c, id) => DeleteUserBalance(db, c, id, u);
    case DeleteIntegrationAdmin(id) => DeleteIntegrationAdminBalance(db, id, u);
    case _ => PlainTenancyLeavesLedger(db, call);
  }

  lemma AccountLeavesLedger(db: Db, call: Call)
    requires IsAccount(call)
    ensures SameLedger(db, PerformAccount(db, call).1)
  {
    match call
    case EditProfile(c, id, email, name) => EditLeavesLedger(db, c, id, email, name);
    case ResetPassword(c, id, refused) => ResetLeavesLedger(db, c, id, refused);
    case ResetIntegrationAdmin(id, refused) => ResetIntegrationLeavesLedger(db, id, refused);
    case ForgotPassword(email, now) => ForgotLeavesLedger(db, email, now);
    case RequestOwnChange(_, _) =>
    case ChangeOwnPassword(_) =>
    case Login(_) =>
  }

  lemma EditLeavesLedger(db: Db, c: Claims, id: Id, email: Option<string>, name: Option<string>)
    ensures SameLedger(db, UpdateUserById(db, c, id, email, name).1)
  {
    if c.tenantId.Some? {
      EditForTenantLeavesLedger(db, id, c.tenantId.value, email, name);
    }
  }

  lemma EditForTenantLeavesLedger(db: Db, id: Id, t: Id, email: Option<string>, name: Option<string>)
    ensures SameLedger(db, UpdateUserForTenant(db, id, t, email, name).1)
  {}

  lemma ResetIntegrationLeavesLedger(db: Db, id: Id, refused: bool)
    ensures SameLedger(db, ResetIntegrationAdminPassword(db, id, refused).1)
  {}

  lemma ResetLeavesLedger(db: Db, c: Claims, id: Id, refused: bool)
    ensures SameLedger(db, ResetUserPassword(db, c, id, refused).1)
  {}

  lemma ForgotLeavesLedger(db: Db, email: string, now: Time)
    ensures SameLedger(db, RequestPasswordReset(db, email, now).1)
  {}

  lemma ModuleLeavesLedger(db: Db, call: Call)
    requires IsModule(call)
    ensures SameLedger(db, PerformModule(db, call).1) && PerformModule(db, call).1.nextId == db.nextId
  {
    ModuleCallEdits(db, call);
  }

  /** After any call: unread + read + deleted = unread before + rows created. */
  lemma StepBalances(db: Db, call: Call, u: Id)
    requires IdsOK(db) && Possible(db, call)
    ensures |Unreads(Step(db, call).notifications, u)| + ReadBy(db, call, u) + DeletedOf(db, call, u)
            == |Unreads(db.notifications, u)| + |CreatedBy(db, call, u)|
  {
    var rows, after := db.notifications, Perform(db, call).1.notifications;
    if IsTenancy(call) {
      TenancyBalance(db, call, u);
      NothingNew(rows, after, u, DeletedOf(db, call, u));
    } else if IsAccount(call) {
      AccountLeavesLedger(db, call);
      NothingNew(rows, after, u, 0);
    } else if IsModule(call) {
      ModuleLeavesLedger(db, call);
      NothingNew(rows, after, u, 0);
    } else {
      TicketCallBalances(db, call, u);
    }
  }

  // ---- Whole runs ----

  datatype Totals = Totals(created: nat, read: nat, deleted: nat)

  /** Rows created for, read by and deleted from one user over a run. */
  function Count(db: Db, calls: seq<Call>, u: Id): Totals
    decreases |calls|
  {
    if calls == [] then Totals(0, 0, 0)
    else
      var rest := Count(Step(db, calls[0]), calls[1..], u);
      if !Possible(db, calls[0]) then rest
      else Totals(|CreatedBy(db, calls[0], u)| + rest.created, ReadBy(db, calls[0], u) + rest.read,
                  DeletedOf(db, calls[0], u) + rest.deleted)
  }

  /** Over any run each user's unread count is what it was, plus rows created for them, minus rows read and deleted. */
  lemma {:induction false} LedgerBalances(db: Db, calls: seq<Call>, u: Id)
    requires Inv(db)
    ensures var t := Count(db, calls, u);
            |Unreads(Run(db, calls).notifications, u)| + t.read + t.deleted
            == |Unreads(db.notifications, u)| + t.created
    decreases |calls|
  {
    if calls != [] {
      if Possible(db, calls[0]) {
        StepBalances(db, calls[0], u);
      }
      StepKeepsInv(db, calls[0]);
      LedgerBalances(Step(db, calls[0]), calls[1..], u);
    }
  }
}
