/**
 Tenant isolation: no call made with another tenant's token, however old, touches anything that belongs to a tenant.
 */
module Isolation {
  import opened Common
  import opened Schema
  import opened Invariants
  import opened Deletion
  import opened Members
  import opened Tickets
  import opened ModuleAccess
  import opened Backend
  import opened EventStreams
  import opened AccountHistory

  // ---- What belongs to a tenant ----

  ghost predicate SameUsers(db: Db, d: Db, t: Id) {
    forall u :: (InTenant(d, u, t) <==> InTenant(db, u, t)) && (InTenant(db, u, t) ==> d.users[u] == db.users[u])
  }

  predicate OfTenant(tickets: map<Id, Ticket>, k: Id, t: Id) {
    k in tickets && tickets[k].tenantId == t
  }

  ghost predicate SameTickets(db: Db, d: Db, t: Id) {
    forall k :: (OfTenant(d.tickets, k, t) <==> OfTenant(db.tickets, k, t))
                && (OfTenant(db.tickets, k, t) ==> d.tickets[k] == db.tickets[k])
  }

  /** A notification addressed to a user of the tenant. */
  predicate ForTenant(db: Db, n: Id, t: Id) {
    n in db.notifications && InTenant(db, db.notifications[n].userId, t)
  }

  ghost predicate SameNotifications(db: Db, d: Db, t: Id) {
    forall n :: (ForTenant(d, n, t) <==> ForTenant(db, n, t))
                && (ForTenant(db, n, t) ==> d.notifications[n] == db.notifications[n])
  }

  ghost predicate SameSubscriptions(db: Db, d: Db, t: Id) {
    forall m :: ((t, m) in d.subscriptions <==> (t, m) in db.subscriptions)
                && ((t, m) in db.subscriptions ==> d.subscriptions[(t, m)] == db.subscriptions[(t, m)])
  }

  /** Sessions and password history of the tenant's users. */
  ghost predicate SameOwned(users: map<Id, User>, before: map<Id, Id>, after: map<Id, Id>, t: Id) {
    forall r :: (r in after && Member(users, after[r], t)) <==> (r in before && Member(users, before[r], t))
  }

  predicate Member(users: map<Id, User>, u: Id, t: Id) {
    u in users && users[u].tenantId == Some(t)
  }

  function AuditOf(launches: seq<Launch>, t: Id): seq<Launch> {
    if launches == [] then []
    else
      var last := launches[|launches| - 1];
      AuditOf(launches[..|launches| - 1], t) + (if last.tenantId == t then [last] else [])
  }

  /** Everything that belongs to the tenant is as it was. */
  ghost predicate Untouched(db: Db, d: Db, t: Id) {
    && (t in d.tenants <==> t in db.tenants)
    && SameUsers(db, d, t) && SameTickets(db, d, t) && SameNotifications(db, d, t) && SameSubscriptions(db, d, t)
    && SameOwned(db.users, db.tokens, d.tokens, t) && SameOwned(db.users, db.histories, d.histories, t)
    && AuditOf(d.launches, t) == AuditOf(db.launches, t)
  }

  // ---- Tokens of another tenant ----

  /** The claims were signed for this account in this tenant; role and level may be out of date, or the account gone. */
  predicate Genuine(db: Db, c: Claims) {
    c.userId in db.users ==> db.users[c.userId].tenantId == c.tenantId
  }

  predicate CarriesClaims(call: Call) {
    call.SetLevel? || call.LaunchCall? || call.CreateAccount? || call.ChangeRole? || call.DeleteUser?
    || call.EditProfile?
    || call.ResetPassword? || call.RequestOwnChange? || call.ChangeOwnPassword? || call.RaiseTicket? || call.MoveTicket?
    || call.ReadOne? || call.ReadAll?
  }

  /** A call by an Admin or Analyst of some other tenant. */
  predicate Foreign(db: Db, call: Call, t: Id) {
    && CarriesClaims(call) && (call.claims.role.Admin? || call.claims.role.Analyst?)
    && call.claims.tenantId.Some? && call.claims.tenantId.value != t && Genuine(db, call.claims)
  }

  // ---- Genuine claims stay genuine ----

  /** No call moves an account to another tenant or gives its id to another, so a token never lies about that. */
  lemma {:induction false} GenuineForever(db: Db, calls: seq<Call>, c: Claims)
    requires Inv(db) && Genuine(db, c) && c.userId < db.nextId
    ensures Genuine(Run(db, calls), c)
    decreases |calls|
  {
    if calls != [] {
      StepKeepsGenuine(db, calls[0], c);
      StepKeepsInv(db, calls[0]);
      GenuineForever(Step(db, calls[0]), calls[1..], c);
    }
  }

  lemma StepKeepsGenuine(db: Db, call: Call, c: Claims)
    requires Inv(db) && Genuine(db, c) && c.userId < db.nextId
    ensures Genuine(Step(db, call), c) && c.userId < Step(db, call).nextId
  {
    StepAnnounces(db, call);
    StepFollows(db, call);
  }

  // ---- Row edits ----

  lemma InsertUserIsPrivate(db: Db, user: User, s: Id, t: Id)
    requires Inv(db) && s != t && user.tenantId == Some(s)
    ensures Untouched(db, InsertUser(db, user), t)
  {
    assert db.nextId !in db.users;
  }

  lemma UpdateUserIsPrivate(db: Db, id: Id, user: User, s: Id, t: Id)
    requires s != t && InTenant(db, id, s) && user.tenantId == Some(s)
    ensures Untouched(db, UpdateUser(db, id, user), t)
  {}

  lemma HistoryIsPrivate(db: Db, id: Id, s: Id, t: Id)
    requires IdsOK(db) && s != t && InTenant(db, id, s)
    ensures Untouched(db, AddHistory(db, id), t)
  {}

  lemma RemovalIsPrivate(db: Db, id: Id, s: Id, t: Id)
    requires Inv(db) && s != t && InTenant(db, id, s)
    ensures Untouched(db, UserRemoved(db, id), t)
  {
    RemovedTicketsStay(db, id, s, t);
    assert SameUsers(db, UserRemoved(db, id), t) && SameSubscriptions(db, UserRemoved(db, id), t);
    RemovedOwnedStay(db, id, s, t);
  }

  lemma RemovedTicketsStay(db: Db, id: Id, s: Id, t: Id)
    requires TicketsOK(db.users, db.tickets) && s != t && InTenant(db, id, s)
    ensures SameTickets(db, UserRemoved(db, id), t)
  {}

  lemma RemovedOwnedStay(db: Db, id: Id, s: Id, t: Id)
    requires s != t && InTenant(db, id, s)
    ensures SameNotifications(db, UserRemoved(db, id), t)
    ensures SameOwned(db.users, db.tokens, UserRemoved(db, id).tokens, t)
    ensures SameOwned(db.users, db.histories, UserRemoved(db, id).histories, t)
  {}

  lemma TicketIsPrivate(db: Db, k: Id, ticket: Ticket, nextId: Id, s: Id, t: Id)
    requires s != t && ticket.tenantId == s && (k in db.tickets ==> db.tickets[k].tenantId == s)
    ensures Untouched(db, db.(tickets := db.tickets[k := ticket], nextId := nextId), t)
  {}

  lemma DeliverIsPrivate(db: Db, unique: seq<Id>, ticketId: Id, kind: Kind, t: Id)
    requires IdsOK(db) && forall i | 0 <= i < |unique| :: !InTenant(db, unique[i], t)
    ensures Untouched(db, Deliver(db, unique, ticketId, kind), t)
  {}

  lemma NotifyIsPrivate(db: Db, recipients: seq<Id>, ticketId: Id, kind: Kind, t: Id)
    requires IdsOK(db) && forall u | u in recipients :: !InTenant(db, u, t)
    ensures Untouched(db, Notify(db, recipients, ticketId, kind).1, t)
  {
    var unique := Dedupe(recipients);
    DedupeIsSet(recipients);
    forall i | 0 <= i < |unique| ensures !InTenant(db, unique[i], t) {
      assert unique[i] in unique;
    }
    NothingTouched(db, t);
    DeliverIsPrivate(db, unique, ticketId, kind, t);
  }

  lemma MarksArePrivate(db: Db, read: set<Id>, now: Time, t: Id)
    requires forall n | n in read :: !ForTenant(db, n, t)
    ensures Untouched(db, MarkAs(db, read, now), t)
  {}

  lemma LaunchIsPrivate(db: Db, row: Launch, t: Id)
    requires row.tenantId != t
    ensures Untouched(db, db.(launches := db.launches + [row]), t)
  {
    assert (db.launches + [row])[..|db.launches|] == db.launches;
  }

  lemma NothingTouched(db: Db, t: Id)
    ensures Untouched(db, db, t)
  {}

  lemma UntouchedCompose(a: Db, b: Db, c: Db, t: Id)
    requires Untouched(a, b, t) && Untouched(b, c, t)
    ensures Untouched(a, c, t)
  {}

  // ---- Calls ----

  lemma CreateIsPrivate(
      db: Db, email: string, name: string, role: Role, tenantId: Option<Id>, level: Option<Level>, now: Time, t: Id)
    requires Inv(db) && tenantId.Some? && tenantId.value != t
    ensures Untouched(db, CreateUser(db, email, name, role, tenantId, level, now).1, t)
  {
    NothingTouched(db, t);
    if CreateUser(db, email, name, role, tenantId, level, now).0.Ok? {
      var user := User(email, name, role, ResolveAnalystLevel(role, level).value, tenantId, None, now);
      InsertUserIsPrivate(db, user, tenantId.value, t);
    }
  }

  lemma RoleChangeIsPrivate(db: Db, id: Id, s: Id, role: Role, level: Option<Level>, t: Id)
    requires s != t
    ensures Untouched(db, ChangeRoleForTenant(db, id, s, role, level).1, t)
  {
    var (r, d) := ChangeRoleForTenant(db, id, s, role, level);
    NothingTouched(db, t);
    if r.Ok? {
      UpdateUserIsPrivate(db, id, d.users[id], s, t);
    }
  }

  lemma EditIsPrivate(db: Db, id: Id, s: Id, email: Option<string>, name: Option<string>, t: Id)
    requires s != t
    ensures Untouched(db, UpdateUserForTenant(db, id, s, email, name).1, t)
  {
    var (r, d) := UpdateUserForTenant(db, id, s, email, name);
    NothingTouched(db, t);
    if r.Ok? {
      UpdateUserIsPrivate(db, id, d.users[id], s, t);
    }
  }

  lemma ResetIsPrivate(db: Db, id: Id, s: Id, refused: bool, t: Id)
    requires Inv(db) && s != t
    ensures Untouched(db, ResetPasswordForTenant(db, id, s, refused).1, t)
  {
    NothingTouched(db, t);
    if InTenant(db, id, s) {
      var d1 := AddHistory(db, id);
      var user := db.users[id].(pendingSince := None);
      HistoryIsPrivate(db, id, s, t);
      UpdateUserIsPrivate(d1, id, user, s, t);
      UntouchedCompose(db, d1, UpdateUser(d1, id, user), t);
    }
  }

  lemma RaiseIsPrivate(
      db: Db, c: Claims, title: string, category: Category, m: Option<ModuleName>, rows: seq<Id>, t: Id)
    requires Inv(db) && c.tenantId.Some? && c.tenantId.value != t
    requires Enumerates(rows, Recipients(db, c.userId, c.tenantId.value, category))
    ensures Untouched(db, CreateTicket(db, c, title, category, m, rows).1, t)
  {
    var s := c.tenantId.value;
    RaiseShape(db, c, title, category, m, rows);
    NothingTouched(db, t);
    if CreateTicket(db, c, title, category, m, rows).1 != db {
      var ticket := NewTicket(db, c.userId, s, title, category, m);
      var d1 := InsertTicket(db, ticket);
      assert db.nextId !in db.tickets && IdsOK(d1);
      TicketIsPrivate(db, db.nextId, ticket, db.nextId + 1, s, t);
      forall u | u in rows ensures !InTenant(d1, u, t) {
        RecipientsMayHear(db, c.userId, s, category, u);
      }
      NotifyIsPrivate(d1, rows, db.nextId, TicketCreated, t);
      UntouchedCompose(db, d1, Notify(d1, rows, db.nextId, TicketCreated).1, t);
    }
  }

  /** Who moves a ticket with tenant claims moves one of that tenant. */
  lemma MovedIsOwn(db: Db, c: Claims, id: Id, status: Status)
    requires (c.role.Admin? || c.role.Analyst?) && UpdateStatus(db, c, id, status).1 != db
    ensures id in db.tickets && c.tenantId == Some(db.tickets[id].tenantId)
  {}

  lemma MoveIsPrivate(db: Db, c: Claims, id: Id, status: Status, t: Id)
    requires Inv(db) && (c.role.Admin? || c.role.Analyst?) && c.tenantId.Some? && c.tenantId.value != t
    ensures Untouched(db, UpdateStatus(db, c, id, status).1, t)
  {
    MoveShape(db, c, id, status);
    NothingTouched(db, t);
    if UpdateStatus(db, c, id, status).1 != db {
      MovedIsOwn(db, c, id, status);
      var d1, creator := SetStatus(db, id, status, c.userId), db.tickets[id].createdById;
      TicketIsPrivate(db, id, d1.tickets[id], db.nextId, c.tenantId.value, t);
      if creator.Some? {
        NotifyIsPrivate(d1, [creator.value], id, TicketStatusChanged, t);
        UntouchedCompose(db, d1, Notify(d1, [creator.value], id, TicketStatusChanged).1, t);
      }
    }
  }

  lemma TenancyIsPrivate(db: Db, call: Call, t: Id)
    requires Inv(db) && Foreign(db, call, t) && IsTenancy(call)
    ensures Untouched(db, PerformTenancy(db, call).1, t)
  {
    var s := call.claims.tenantId.value;
    NothingTouched(db, t);
    match call
    case CreateAccount(c, email, name, role, level, now) =>
      CreateIsPrivate(db, email, name, role, c.tenantId, level, now, t);
    case ChangeRole(c, id, role, level) => RoleChangeIsPrivate(db, id, s, role, level, t);
    case DeleteUser(c, id) =>
      if InTenant(db, id, s) {
        RemovalIsPrivate(db, id, s, t);
      }
  }

  lemma AccountCallIsPrivate(db: Db, call: Call, t: Id)
    requires Inv(db) && Foreign(db, call, t) && IsAccount(call)
    ensures Untouched(db, PerformAccount(db, call).1, t)
  {
    var s := call.claims.tenantId.value;
    NothingTouched(db, t);
    match call
    case EditProfile(c, id, email, name) => EditIsPrivate(db, id, s, email, name, t);
    case ResetPassword(c, id, refused) => ResetIsPrivate(db, id, s, refused, t);
    case RequestOwnChange(c, now) =>
      if c.userId in db.users {
        UpdateUserIsPrivate(db, c.userId, db.users[c.userId].(pendingSince := Some(now)), s, t);
      }
    case ChangeOwnPassword(c) =>
      if c.userId in db.users {
        HistoryIsPrivate(db, c.userId, s, t);
      }
  }

  lemma ModuleCallIsPrivate(db: Db, call: Call, t: Id)
    requires Foreign(db, call, t) && IsModule(call)
    ensures Untouched(db, PerformModule(db, call).1, t)
  {
    NothingTouched(db, t);
    match call
    case SetLevel(_, _, _) =>
    case LaunchCall(c, m) =>
      var d := LaunchModule(db, c, m).1;
      if d != db {
        LaunchIsPrivate(db, d.launches[|db.launches|], t);
      }
  }

  lemma TicketCallIsPrivate(db: Db, call: Call, t: Id)
    requires Inv(db) && Foreign(db, call, t) && Possible(db, call)
         && !IsTenancy(call) && !IsAccount(call) && !IsModule(call)
    ensures Untouched(db, PerformTicket(db, call).1, t)
  {
    NothingTouched(db, t);
    match call
    case RaiseTicket(c, title, category, m, rows) => RaiseIsPrivate(db, c, title, category, m, rows, t);
    case MoveTicket(c, id, status) => MoveIsPrivate(db, c, id, status, t);
    case ReadOne(c, id, now) =>
      if id in db.notifications && db.notifications[id].userId == c.userId {
        MarksArePrivate(db, {id}, now, t);
      }
    case ReadAll(c, now) => MarksArePrivate(db, UnreadOf(db, c.userId), now, t);
  }

  lemma ForeignCallIsPrivate(db: Db, call: Call, t: Id)
    requires Inv(db) && Foreign(db, call, t)
    ensures Untouched(db, Step(db, call), t)
  {
    NothingTouched(db, t);
    if Possible(db, call) {
      if IsTenancy(call) {
        TenancyIsPrivate(db, call, t);
      } else if IsAccount(call) {
        AccountCallIsPrivate(db, call, t);
      } else if IsModule(call) {
        ModuleCallIsPrivate(db, call, t);
      } else {
        TicketCallIsPrivate(db, call, t);
      }
    }
  }

  // ---- Runs ----

  predicate ForeignRun(db: Db, calls: seq<Call>, t: Id)
    decreases |calls|
  {
    calls == [] || (Foreign(db, calls[0], t) && ForeignRun(Step(db, calls[0]), calls[1..], t))
  }

  /**
   Over any run of calls by Admins and Analysts of other tenants, whether their tokens are up to date or not, the
   tenant's accounts, sessions, password history, tickets, notifications, subscriptions and launch audit stay exactly
   as they were.
   */
  lemma {:induction false} TenantsAreIsolated(db: Db, calls: seq<Call>, t: Id)
    requires Inv(db) && ForeignRun(db, calls, t)
    ensures Untouched(db, Run(db, calls), t)
    decreases |calls|
  {
    if calls == [] {
      NothingTouched(db, t);
    } else {
      ForeignCallIsPrivate(db, calls[0], t);
      StepKeepsInv(db, calls[0]);
      TenantsAreIsolated(Step(db, calls[0]), calls[1..], t);
      UntouchedCompose(db, Step(db, calls[0]), Run(db, calls), t);
    }
  }
}
