/** The relational schema: rows, the database value, its foreign keys, and deletion under RESTRICT and SET NULL. */
module Schema {
  import opened Common
  import opened ModuleUrl

  datatype Role = SuperAdmin | IntegrationAdmin | Admin | Analyst
  datatype Level = L1 | L2 | L3
  datatype ModuleName = SIEM | SOAR | CTI | EDR | DFIR | VM
  datatype Category = Modules | AccountAccess | Other
  datatype Status = Open | InProgress | Resolved
  datatype Kind = TicketCreated | TicketStatusChanged

  datatype User = User(
    email: string,
    name: string,
    role: Role,
    level: Option<Level>,
    tenantId: Option<Id>,
    pendingSince: Option<Time>,
    createdAt: Time)

  datatype Ticket = Ticket(
    tenantId: Id,
    createdById: Option<Id>,
    createdByName: string,
    createdByEmail: string,
    title: string,
    category: Category,
    moduleName: Option<ModuleName>,
    status: Status,
    statusChangedById: Option<Id>)

  datatype Notification = Notification(userId: Id, ticketId: Id, kind: Kind, readAt: Option<Time>)

  datatype Subscription = Subscription(isActive: bool, minLevel: Level)

  /** Audit row: snapshot columns, no relations. */
  datatype Launch = Launch(
    userId: Id,
    userEmail: string,
    role: Role,
    tenantId: Id,
    moduleName: ModuleName,
    targetUrl: string)

  /** What the process-wide emitter carries. */
  datatype Event = Event(userId: Id, notificationId: Id)

  /**
   All tables. `tokens` and `histories` keep only the owner column. `bus` is every event emitted so far. Ids are drawn
   from `nextId`, which stands for fresh UUIDs.
   */
  datatype Db = Db(
    tenants: set<Id>,
    users: map<Id, User>,
    tokens: map<Id, Id>,
    histories: map<Id, Id>,
    tickets: map<Id, Ticket>,
    notifications: map<Id, Notification>,
    subscriptions: map<(Id, ModuleName), Subscription>,
    endpoints: map<ModuleName, Endpoint>,
    launches: seq<Launch>,
    bus: seq<Event>,
    nextId: Id)

  // ---- Foreign keys ----

  ghost predicate OwnersExist(users: map<Id, User>, owners: map<Id, Id>) {
    forall r | r in owners :: owners[r] in users
  }

  ghost predicate TenantsOfUsersExist(tenants: set<Id>, users: map<Id, User>) {
    forall u | u in users && users[u].tenantId.Some? :: users[u].tenantId.value in tenants
  }

  ghost predicate TicketKeysExist(tenants: set<Id>, users: map<Id, User>, tickets: map<Id, Ticket>) {
    forall k | k in tickets ::
      tickets[k].tenantId in tenants && (tickets[k].createdById.Some? ==> tickets[k].createdById.value in users)
  }

  ghost predicate NotificationKeysExist(users: map<Id, User>, tickets: map<Id, Ticket>,
      notifications: map<Id, Notification>) {
    forall n | n in notifications :: notifications[n].userId in users && notifications[n].ticketId in tickets
  }

  ghost predicate SubscriptionKeysExist(tenants: set<Id>, subscriptions: map<(Id, ModuleName), Subscription>) {
    forall s | s in subscriptions :: s.0 in tenants
  }

  /** Nothing dangles: every foreign key column of every table points at an existing row. */
  ghost predicate ForeignKeys(db: Db) {
    && TenantsOfUsersExist(db.tenants, db.users)
    && OwnersExist(db.users, db.tokens)
    && OwnersExist(db.users, db.histories)
    && TicketKeysExist(db.tenants, db.users, db.tickets)
    && NotificationKeysExist(db.users, db.tickets, db.notifications)
    && SubscriptionKeysExist(db.tenants, db.subscriptions)
  }

  // ---- Deletion as the database performs it; None is a foreign key violation ----

  function NullCreators(tickets: map<Id, Ticket>, gone: set<Id>): map<Id, Ticket> {
    map k | k in tickets ::
      if tickets[k].createdById.Some? && tickets[k].createdById.value in gone
      then tickets[k].(createdById := None) else tickets[k]
  }

  function DeleteNotifications(db: Db, gone: set<Id>): Db {
    db.(notifications := db.notifications - gone)
  }

  /** Notification.ticketId is RESTRICT. */
  function DeleteTickets(db: Db, gone: set<Id>): Option<Db> {
    if exists n | n in db.notifications :: db.notifications[n].ticketId in gone then None
    else Some(db.(tickets := db.tickets - gone))
  }

  /** The owner columns of tokens, histories and notifications are RESTRICT; Ticket.createdById is SET NULL. */
  function DeleteUsers(db: Db, gone: set<Id>): Option<Db> {
    if (exists r | r in db.tokens :: db.tokens[r] in gone)
       || (exists r | r in db.histories :: db.histories[r] in gone)
       || (exists n | n in db.notifications :: db.notifications[n].userId in gone)
    then None
    else Some(db.(users := db.users - gone, tickets := NullCreators(db.tickets, gone)))
  }

  /** Ticket.tenantId and TenantModule.tenantId are RESTRICT; User.tenantId is SET NULL. */
  function DeleteTenantRow(db: Db, id: Id): Option<Db> {
    if (exists k | k in db.tickets :: db.tickets[k].tenantId == id)
       || (exists s | s in db.subscriptions :: s.0 == id)
    then None
    else Some(db.(
      tenants := db.tenants - {id},
      users := map u | u in db.users ::
        if db.users[u].tenantId == Some(id) then db.users[u].(tenantId := None) else db.users[u]))
  }

  // ---- Row selections used by several services ----

  predicate InTenant(db: Db, u: Id, tenantId: Id) {
    u in db.users && db.users[u].tenantId == Some(tenantId)
  }

  predicate IsAdminOf(db: Db, u: Id, tenantId: Id) {
    InTenant(db, u, tenantId) && db.users[u].role.Admin?
  }

  function UsersOf(db: Db, tenantId: Id): set<Id> {
    set u | u in db.users && db.users[u].tenantId == Some(tenantId)
  }

  function AdminsOf(db: Db, tenantId: Id): set<Id> {
    set u | u in db.users && IsAdminOf(db, u, tenantId)
  }

  function TicketsOf(db: Db, tenantId: Id): set<Id> {
    set k | k in db.tickets && db.tickets[k].tenantId == tenantId
  }

  function OwnedBy(owners: map<Id, Id>, users: set<Id>): set<Id> {
    set r | r in owners && owners[r] in users
  }

  function NotificationsFor(db: Db, users: set<Id>): set<Id> {
    set n | n in db.notifications && db.notifications[n].userId in users
  }

  function NotificationsAbout(db: Db, tickets: set<Id>): set<Id> {
    set n | n in db.notifications && db.notifications[n].ticketId in tickets
  }

  predicate EmailTaken(db: Db, email: string) {
    exists u | u in db.users :: db.users[u].email == email
  }

  // ---- Access tokens ----

  /** The claims of an access token; they may be up to 15 minutes older than the user's row. */
  datatype Claims = Claims(userId: Id, role: Role, level: Option<Level>, tenantId: Option<Id>)

  /** The claims a token signed now would carry. */
  function ClaimsOf(db: Db, u: Id): Claims
    requires u in db.users
  {
    Claims(u, db.users[u].role, db.users[u].level, db.users[u].tenantId)
  }

  predicate Current(db: Db, c: Claims) {
    c.userId in db.users && c == ClaimsOf(db, c.userId)
  }

  /** What a successful call answers, as far as the properties need it. */
  datatype Reply =
    | Done
    | Created(id: Id)
    | Redirect(url: string)
    | Unread(unread: nat)

  type Answer = Result<Reply>
}
