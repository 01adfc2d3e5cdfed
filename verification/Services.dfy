/**
 The services as they run on the tables: each method goes through the source's queries in order, mutating the database
 object, and is proved to do exactly what the transition system says.
 */
module Services {
  import opened Common
  import opened Schema
  import opened ModuleUrl
  import opened Deletion
  import opened Routing
  import opened Invariants
  import Effects
  import TicketFlow
  import LaunchAudit
  import Members
  import Tenants
  import Tickets
  import ModuleAccess

  /** The tables, the event emitter's log and the id supply. */
  class Database {
    var tenants: set<Id>
    var users: map<Id, User>
    var tokens: map<Id, Id>
    var histories: map<Id, Id>
    var tickets: map<Id, Ticket>
    var notifications: map<Id, Notification>
    var subscriptions: map<(Id, ModuleName), Subscription>
    var endpoints: map<ModuleName, Endpoint>
    var launches: seq<Launch>
    var bus: seq<Event>
    var nextId: Id

    function State(): Db
      reads this
    {
      Db(tenants, users, tokens, histories, tickets, notifications, subscriptions, endpoints, launches, bus, nextId)
    }

    constructor (d: Db)
      ensures State() == d
    {
      tenants, users, tokens, histories := d.tenants, d.users, d.tokens, d.histories;
      tickets, notifications, subscriptions := d.tickets, d.notifications, d.subscriptions;
      endpoints, launches, bus, nextId := d.endpoints, d.launches, d.bus, d.nextId;
    }

    /** Undo everything since the snapshot: how a failed transaction ends. */
    method Rollback(d: Db)
      modifies this
      ensures State() == d
    {
      tenants, users, tokens, histories := d.tenants, d.users, d.tokens, d.histories;
      tickets, notifications, subscriptions := d.tickets, d.notifications, d.subscriptions;
      endpoints, launches, bus, nextId := d.endpoints, d.launches, d.bus, d.nextId;
    }

    method DeleteTicketRows(gone: set<Id>) returns (ok: bool)
      modifies this`tickets
      ensures match DeleteTickets(old(State()), gone)
              case Some(d) => ok && State() == d
              case None => !ok && State() == old(State())
    {
      if exists n | n in notifications :: notifications[n].ticketId in gone {
        return false;
      }
      tickets := tickets - gone;
      return true;
    }

    method DeleteUserRows(gone: set<Id>) returns (ok: bool)
      modifies this`users, this`tickets
      ensures match DeleteUsers(old(State()), gone)
              case Some(d) => ok && State() == d
              case None => !ok && State() == old(State())
    {
      if (exists r | r in tokens :: tokens[r] in gone)
         || (exists r | r in histories :: histories[r] in gone)
         || (exists n | n in notifications :: notifications[n].userId in gone) {
        return false;
      }
      users, tickets := users - gone, NullCreators(tickets, gone);
      return true;
    }

    method DeleteTenantOnly(id: Id) returns (ok: bool)
      modifies this`tenants, this`users
      ensures match DeleteTenantRow(old(State()), id)
              case Some(d) => ok && State() == d
              case None => !ok && State() == old(State())
    {
      if (exists k | k in tickets :: tickets[k].tenantId == id) || (exists s | s in subscriptions :: s.0 == id) {
        return false;
      }
      var d := DeleteTenantRow(State(), id);
      tenants, users := d.value.tenants, d.value.users;
      return true;
    }

    /** The rows a query selects, in whatever order the database returns them. */
    method FindMany(selected: set<Id>) returns (rows: seq<Id>)
      ensures Tickets.Enumerates(rows, selected)
    {
      rows := [];
      var rest := selected;
      while rest != {}
        invariant rest <= selected
        invariant forall u :: u in rows <==> u in selected && u !in rest
        decreases |rest|
      {
        var u :| u in rest;
        rows, rest := rows + [u], rest - {u};
      }
    }

    /** findFirst over a tenant's Admins, ordered by createdAt and id. */
    method FindFirstAdmin(t: Id) returns (first: Option<Id>)
      ensures first.Some? ==> Earliest(State(), first.value, t) && IsFirstAdmin(State(), first.value, t)
      ensures first.None? ==> AdminsOf(State(), t) == {}
    {
      var admins := AdminsOf(State(), t);
      var rows := FindMany(admins);
      first := None;
      for i := 0 to |rows|
        invariant first.None? <==> i == 0
        invariant first.Some? ==> first.value in admins
        invariant first.Some? ==> forall k | 0 <= k < i :: rows[k] in users && NotLater(State(), first.value, rows[k])
      {
        assert rows[i] in admins;
        if first.None? || NotLater(State(), rows[i], first.value) {
          first := Some(rows[i]);
        }
      }
      if first.Some? {
        forall v | v in users && IsAdminOf(State(), v, t) ensures NotLater(State(), first.value, v) {
          assert v in rows;
        }
        FirstIsEarliest(State(), first.value, t);
      } else {
        forall u | u in users ensures !IsAdminOf(State(), u, t) {
          assert u !in rows;
        }
      }
    }
  }

  class TenantsService {
    const db: Database

    constructor (db: Database)
      ensures this.db == db
    {
      this.db := db;
    }

    method CreateTenantWithAdmin(email: string, name: string, now: Time) returns (r: Answer)
      modifies db
      ensures (r, db.State()) == Tenants.CreateTenantWithAdmin(old(db.State()), email, name, now)
      ensures IdsOK(old(db.State())) ==> Effects.TenantCreated(old(db.State()), db.State(), r, email, name, now)
    {
      if IdsOK(db.State()) {
        Effects.CreateTenantCreatesBoth(db.State(), email, name, now);
      }
      var before := db.State();
      var tenant := db.nextId;
      db.tenants, db.nextId := db.tenants + {tenant}, db.nextId + 1;
      if EmailTaken(db.State(), email) {
        db.Rollback(before);
        return Err(Conflict);
      }
      var admin := User(email, name, Admin, None, Some(tenant), None, now);
      db.users, db.nextId := db.users[db.nextId := admin], db.nextId + 1;
      return Ok(Created(tenant));
    }

    /** Seven ordered deletes in one transaction. */
    method DeleteTenantWithUsers(id: Id) returns (r: Answer)
      requires ForeignKeys(db.State())
      modifies db
      ensures (r, db.State()) == Tenants.DeleteTenantWithUsers(old(db.State()), id)
    {
      if id !in db.tenants {
        return Err(NotFound);
      }
      var before := db.State();
      DeletionSucceedsIff(before, id);
      db.notifications := db.notifications - NotificationsAbout(db.State(), TicketsOf(db.State(), id));
      var ok := db.DeleteTicketRows(TicketsOf(db.State(), id));
      if ok {
        db.subscriptions := map s | s in db.subscriptions && s.0 != id :: db.subscriptions[s];
        assert ClearTickets(before, id) == Some(db.State());
        ok := ClearUsersAndTenant(id);
      }
      if !ok {
        db.Rollback(before);
        return Err(Internal);
      }
      return Ok(Done);
    }

    /** The last four of the seven. */
    method ClearUsersAndTenant(id: Id) returns (ok: bool)
      modifies db`tokens, db`histories, db`users, db`tickets, db`tenants
      ensures match ClearUsers(old(db.State()), id)
              case None => !ok
              case Some(d) => ok == DeleteTenantRow(d, id).Some? && (ok ==> DeleteTenantRow(d, id) == Some(db.State()))
    {
      db.tokens := db.tokens - OwnedBy(db.tokens, UsersOf(db.State(), id));
      db.histories := db.histories - OwnedBy(db.histories, UsersOf(db.State(), id));
      ok := db.DeleteUserRows(UsersOf(db.State(), id));
      if ok {
        ok := db.DeleteTenantOnly(id);
      }
    }

    method ActivateModule(tenantId: Id, m: ModuleName) returns (r: Answer)
      modifies db`subscriptions
      ensures (r, db.State()) == Tenants.ActivateModule(old(db.State()), tenantId, m)
      ensures Effects.ModuleActivated(old(db.State()), db.State(), r, tenantId, m)
    {
      Effects.ActivationStartsAtTheDefault(db.State(), tenantId, m);
      if tenantId !in db.tenants {
        return Err(NotFound);
      }
      if (tenantId, m) in db.subscriptions {
        return Err(Conflict);
      }
      db.subscriptions := db.subscriptions[(tenantId, m) := Subscription(true, Tenants.DefaultMinLevel(m))];
      return Ok(Done);
    }
  }

  class UsersService {
    const db: Database

    constructor (db: Database)
      ensures this.db == db
    {
      this.db := db;
    }

    method CreateUser(email: string, name: string, role: Role, tenantId: Option<Id>, level: Option<Level>, now: Time)
      returns (r: Answer)
      modifies db`users, db`nextId
      ensures (r, db.State()) == Members.CreateUser(old(db.State()), email, name, role, tenantId, level, now)
      ensures Effects.UserCreated(old(db.State()), db.State(), r, email, name, role, tenantId, level, now)
    {
      Effects.CreateUserCreatesOne(db.State(), email, name, role, tenantId, level, now);
      if role.SuperAdmin? {
        return Err(Forbidden);
      }
      var resolved := Members.ResolveAnalystLevel(role, level);
      if resolved.Err? {
        return Err(resolved.error);
      }
      if EmailTaken(db.State(), email) {
        return Err(Conflict);
      }
      if tenantId.Some? && tenantId.value !in db.tenants {
        return Err(Internal);
      }
      var id := db.nextId;
      db.users := db.users[id := User(email, name, role, resolved.value, tenantId, None, now)];
      db.nextId := id + 1;
      return Ok(Created(id));
    }

    /** Four deletes in one transaction, which never has to be rolled back. */
    method RemoveUserForTenant(id: Id, tenantId: Id) returns (r: Answer)
      modifies db
      ensures (r, db.State()) == Members.RemoveUserForTenant(old(db.State()), id, tenantId)
      ensures r == if InTenant(old(db.State()), id, tenantId) then Ok(Done) else Err(NotFound)
      ensures if r.Ok? then Effects.OnlyUserGone(old(db.State()), db.State(), id) else db.State() == old(db.State())
    {
      Effects.RemovalForgets(db.State(), id);
      if !InTenant(db.State(), id, tenantId) {
        return Err(NotFound);
      }
      RemovalAlwaysSucceeds(db.State(), id);
      db.tokens := db.tokens - OwnedBy(db.tokens, {id});
      db.histories := db.histories - OwnedBy(db.histories, {id});
      db.notifications := db.notifications - NotificationsFor(db.State(), {id});
      var ok := db.DeleteUserRows({id});
      assert ok;
      return Ok(Done);
    }

    method ChangeRoleForTenant(id: Id, tenantId: Id, role: Role, level: Option<Level>) returns (r: Answer)
      modifies db`users
      ensures (r, db.State()) == Members.ChangeRoleForTenant(old(db.State()), id, tenantId, role, level)
      ensures Effects.RoleChanged(old(db.State()), db.State(), r, id, tenantId, role, level)
    {
      Effects.RoleChangeSparesAnAdmin(db.State(), id, tenantId, role, level);
      var resolved := Members.ResolveAnalystLevel(role, level);
      if resolved.Err? {
        return Err(resolved.error);
      }
      if !InTenant(db.State(), id, tenantId) {
        return Err(NotFound);
      }
      var user := db.users[id];
      if user.role.Admin? && !role.Admin? {
        var adminCount := |AdminsOf(db.State(), tenantId)|;
        if adminCount <= 1 {
          return Err(Conflict);
        }
      }
      db.users := db.users[id := user.(role := role, level := resolved.value)];
      return Ok(Done);
    }

    /** Whether the caller is the tenant's first Admin and anybody else of the tenant has a pending request. */
    method HasPendingPasswordRequestsForAdmin(adminId: Id, tenantId: Id) returns (pending: bool)
      ensures pending <==> HasPendingForAdmin(db.State(), adminId, tenantId)
      ensures pending <==>
              Earliest(db.State(), adminId, tenantId) && exists u | u in db.users ::
                u != adminId && db.users[u].tenantId == Some(tenantId) && db.users[u].pendingSince.Some?
    {
      IndicatorsTell(db.State(), adminId, tenantId);
      var first := db.FindFirstAdmin(tenantId);
      if first != Some(adminId) {
        OnlyOneIsEarliest(adminId, tenantId, first);
        return false;
      }
      var pendingCount :=
        |set u | u in db.users && InTenant(db.State(), u, tenantId) && u != adminId && Pending(db.State(), u)|;
      return pendingCount > 0;
    }

    lemma OnlyOneIsEarliest(admin: Id, tenantId: Id, first: Option<Id>)
      requires first != Some(admin)
      requires first.Some? ==> IsFirstAdmin(db.State(), first.value, tenantId)
      requires first.None? ==> AdminsOf(db.State(), tenantId) == {}
      ensures !IsFirstAdmin(db.State(), admin, tenantId)
    {
      if IsFirstAdmin(db.State(), admin, tenantId) {
        assert admin in AdminsOf(db.State(), tenantId);
        FirstAdminUnique(db.State(), admin, first.value, tenantId);
      }
    }

    /** The loop over pending Admins that stops at the first one who is their tenant's first Admin. */
    method HasPendingFirstAdminRequest() returns (pending: bool)
      ensures pending <==> TenantAdminsFlag(db.State())
      ensures pending <==> exists u, t | u in db.users :: Earliest(db.State(), u, t) && db.users[u].pendingSince.Some?
    {
      IndicatorsTell(db.State(), 0, 0);
      var selected := set u | u in db.users && db.users[u].role.Admin? && Pending(db.State(), u);
      var pendingAdmins := db.FindMany(selected);
      for i := 0 to |pendingAdmins|
        invariant forall k | 0 <= k < i :: pendingAdmins[k] !in SuperQueue(db.State())
      {
        var admin := pendingAdmins[i];
        assert admin in selected;
        if db.users[admin].tenantId.Some? {
          var first := db.FindFirstAdmin(db.users[admin].tenantId.value);
          if first == Some(admin) {
            assert admin in SuperQueue(db.State());
            return true;
          }
          OnlyOneIsEarliest(admin, db.users[admin].tenantId.value, first);
        }
      }
      forall u ensures u !in SuperQueue(db.State()) {
        if u in selected {
          assert u in pendingAdmins;
        }
      }
      return false;
    }
  }

  class UsersController {
    const users: UsersService

    constructor (users: UsersService)
      ensures this.users == users
    {
      this.users := users;
    }

    method UpdateUserRoleById(c: Claims, id: Id, role: Role, level: Option<Level>) returns (r: Answer)
      modifies users.db`users
      ensures (r, users.db.State()) == Members.UpdateUserRoleById(old(users.db.State()), c, id, role, level)
      ensures Effects.RoleChangedBy(old(users.db.State()), users.db.State(), r, c, id, role, level)
    {
      Effects.RoleChangeStaysInTenant(users.db.State(), c, id, role, level);
      if !c.role.Admin? {
        return Err(Forbidden);
      }
      if !role.Admin? && !role.Analyst? {
        return Err(BadRequest);
      }
      if c.tenantId.None? || id == c.userId {
        return Err(Forbidden);
      }
      r := users.ChangeRoleForTenant(id, c.tenantId.value, role, level);
    }

    method DeleteUserById(c: Claims, id: Id) returns (r: Answer)
      modifies users.db
      ensures (r, users.db.State()) == Members.DeleteUserById(old(users.db.State()), c, id)
      ensures Effects.UserDeleted(old(users.db.State()), users.db.State(), r, c, id)
    {
      Effects.DeletionForgetsTheUser(users.db.State(), c, id);
      if !c.role.Admin? || c.tenantId.None? || id == c.userId {
        return Err(Forbidden);
      }
      r := users.RemoveUserForTenant(id, c.tenantId.value);
    }
  }

  class NotificationsService {
    const db: Database

    constructor (db: Database)
      ensures this.db == db
    {
      this.db := db;
    }

    /** The distinct ids of a list, as `new Set` keeps them. */
    method Unique(ids: seq<Id>) returns (unique: seq<Id>)
      ensures unique == Tickets.Dedupe(ids)
    {
      unique := [];
      for i := 0 to |ids|
        invariant unique == Tickets.Dedupe(ids[..i])
      {
        assert ids[..i + 1][..i] == ids[..i];
        if ids[i] !in ids[..i] {
          unique := unique + [ids[i]];
        }
      }
      assert ids[..|ids|] == ids;
    }

    /** Stores one row per distinct recipient, then emits one event per row. */
    method Notify(recipients: seq<Id>, ticketId: Id, kind: Kind) returns (r: Result<()>)
      modifies db`notifications, db`bus, db`nextId
      ensures (r, db.State()) == Tickets.Notify(old(db.State()), recipients, ticketId, kind)
    {
      var unique := Unique(recipients);
      if unique == [] {
        return Ok(());
      }
      if !Tickets.KeysExist(db.State(), unique, ticketId) {
        return Err(Internal);
      }
      StoreAndEmit(unique, ticketId, kind);
      return Ok(());
    }

    method StoreAndEmit(unique: seq<Id>, ticketId: Id, kind: Kind)
      modifies db`notifications, db`bus, db`nextId
      ensures db.State() == Tickets.Deliver(old(db.State()), unique, ticketId, kind)
    {
      var first := db.nextId;
      db.notifications := Tickets.InsertRows(db.notifications, first, unique, ticketId, kind);
      db.nextId := first + |unique|;
      Emit(first, unique);
    }

    /** One event for each created row, to that row's user. */
    method Emit(first: Id, unique: seq<Id>)
      requires forall i | 0 <= i < |unique| ::
          first + i in db.notifications && db.notifications[first + i].userId == unique[i]
      modifies db`bus
      ensures db.bus == old(db.bus) + Tickets.EventsFor(first, unique)
    {
      for i := 0 to |unique|
        invariant db.bus == old(db.bus) + Tickets.EventsFor(first, unique[..i])
      {
        assert unique[..i + 1] == unique[..i] + [unique[i]];
        var created := db.notifications[first + i];
        db.bus := db.bus + [Event(created.userId, first + i)];
        assert Tickets.EventsFor(first, unique[..i + 1])
            == Tickets.EventsFor(first, unique[..i]) + [Event(unique[i], first + i)];
      }
      assert unique[..|unique|] == unique;
    }

    method MarkRead(c: Claims, id: Id, now: Time) returns (r: Answer)
      modifies db`notifications
      ensures (r, db.State()) == Tickets.MarkRead(old(db.State()), c, id, now)
      ensures Effects.OneRead(old(db.State()), db.State(), r, c, id, now)
    {
      Effects.MarkReadReadsOne(db.State(), c, id, now);
      var matched := id in db.notifications && db.notifications[id].userId == c.userId;
      var count := if matched && db.notifications[id].readAt.None? then 1 else 0;
      if count == 1 {
        db.notifications := Tickets.MarkAs(db.State(), {id}, now).notifications;
      } else if !matched {
        return Err(NotFound);
      }
      return Ok(Unread(|Tickets.UnreadOf(db.State(), c.userId)|));
    }

    method MarkAllRead(c: Claims, now: Time) returns (r: Answer)
      modifies db`notifications
      ensures (r, db.State()) == Tickets.MarkAllRead(old(db.State()), c, now)
      ensures Effects.AllRead(old(db.State()), db.State(), r, c, now)
    {
      Effects.MarkAllReadReadsOwn(db.State(), c, now);
      db.notifications := Tickets.MarkAs(db.State(), Tickets.UnreadOf(db.State(), c.userId), now).notifications;
      return Ok(Unread(0));
    }
  }

  class TicketsService {
    const db: Database
    const notifications: NotificationsService

    constructor (db: Database, notifications: NotificationsService)
      requires notifications.db == db
      ensures this.db == db && this.notifications == notifications
    {
      this.db := db;
      this.notifications := notifications;
    }

    /** `rows` is what the recipients query returned. */
    method Create(c: Claims, title: string, category: Category, m: Option<ModuleName>)
      returns (r: Answer, rows: seq<Id>)
      requires notifications.db == db
      modifies db`tickets, db`notifications, db`bus, db`nextId
      ensures r.Ok? || r.error.Internal? ==>
                c.tenantId.Some?
                && Tickets.Enumerates(rows, Tickets.Recipients(old(db.State()), c.userId, c.tenantId.value, category))
      ensures (r, db.State()) == Tickets.CreateTicket(old(db.State()), c, title, category, m, rows)
      ensures Inv(old(db.State())) ==> TicketFlow.Raised(old(db.State()), db.State(), r, c, title, category, m)
    {
      ghost var before := db.State();
      rows := [];
      if !Tickets.MayRaise(c) || c.tenantId.None? {
        r := Err(Forbidden);
      } else if category.Modules? != m.Some? {
        r := Err(BadRequest);
      } else if !InTenant(db.State(), c.userId, c.tenantId.value) {
        r := Err(Forbidden);
      } else {
        r, rows := StoreAndNotify(c.userId, c.tenantId.value, title, category, m);
      }
      if Inv(before) {
        TicketFlow.RaiseDoes(before, c, title, category, m, rows);
      }
    }

    /** The part of `create` after its checks. */
    method StoreAndNotify(creator: Id, tenantId: Id, title: string, category: Category, m: Option<ModuleName>)
      returns (r: Answer, rows: seq<Id>)
      requires notifications.db == db && creator in db.users
      modifies db`tickets, db`notifications, db`bus, db`nextId
      ensures Tickets.Enumerates(rows, Tickets.Recipients(old(db.State()), creator, tenantId, category))
      ensures var stored := Tickets.InsertTicket(
                old(db.State()), Tickets.NewTicket(old(db.State()), creator, tenantId, title, category, m));
              var (sent, d) := Tickets.Notify(stored, rows, old(db.nextId), TicketCreated);
              db.State() == d && r == if sent.Ok? then Ok(Created(old(db.nextId))) else Err(sent.error)
    {
      var id := db.nextId;
      db.tickets := db.tickets[id := Tickets.NewTicket(db.State(), creator, tenantId, title, category, m)];
      db.nextId := id + 1;
      rows := db.FindMany(Tickets.Recipients(db.State(), creator, tenantId, category));
      var sent := notifications.Notify(rows, id, TicketCreated);
      r := if sent.Ok? then Ok(Created(id)) else Err(sent.error);
    }

    method UpdateStatus(c: Claims, id: Id, status: Status) returns (r: Answer)
      requires notifications.db == db
      modifies db`tickets, db`notifications, db`bus, db`nextId
      ensures (r, db.State()) == Tickets.UpdateStatus(old(db.State()), c, id, status)
      ensures Inv(old(db.State())) ==> TicketFlow.Moved(old(db.State()), db.State(), r, c, id, status)
    {
      if Inv(db.State()) {
        TicketFlow.MoveDoes(db.State(), c, id, status);
      }
      if c.role.SuperAdmin? {
        return Err(Forbidden);
      }
      var found := Tickets.FindOne(db.State(), c, id);
      if found.Err? {
        return Err(found.error);
      }
      var ticket := found.value;
      if ticket.status == status {
        return Err(Conflict);
      }
      if Tickets.CanHandle(c, ticket) {
        if !Tickets.HandlerTransition(ticket.status, status) {
          return Err(Conflict);
        }
      } else if ticket.createdById == Some(c.userId) {
        if !status.Resolved? {
          return Err(Forbidden);
        }
      } else {
        // Whoever sees a ticket may handle it or created it.
        assert false;
      }
      db.tickets := db.tickets[id := ticket.(status := status, statusChangedById := Some(c.userId))];
      if ticket.createdById.Some? && ticket.createdById.value != c.userId {
        var sent := notifications.Notify([ticket.createdById.value], id, TicketStatusChanged);
        if sent.Err? {
          return Err(sent.error);
        }
      }
      return Ok(Done);
    }
  }

  /** One step of the list loop. */
  lemma UnfoldList(d: Db, tenantId: Id, role: Role, level: Option<Level>, names: seq<ModuleName>,
                   list: seq<ModuleAccess.AvailableModule>, entry: seq<ModuleAccess.AvailableModule>)
    requires names != []
    requires entry == if ModuleAccess.Listed(d, tenantId, role, level, names[0])
                      then [ModuleAccess.Describe(d, tenantId, names[0])] else []
    ensures list + ModuleAccess.ListAmong(d, tenantId, role, level, names)
            == (list + entry) + ModuleAccess.ListAmong(d, tenantId, role, level, names[1..])
  {
    assert ModuleAccess.ListAmong(d, tenantId, role, level, names)
        == entry + ModuleAccess.ListAmong(d, tenantId, role, level, names[1..]);
    Regroup(list, entry, ModuleAccess.ListAmong(d, tenantId, role, level, names[1..]));
  }

  class ModuleAccessService {
    const db: Database

    constructor (db: Database)
      ensures this.db == db
    {
      this.db := db;
    }

    method ListForUser(tenantId: Id, role: Role, level: Option<Level>) returns (list: seq<ModuleAccess.AvailableModule>)
      ensures list == ModuleAccess.ListForUser(db.State(), tenantId, role, level)
      ensures LaunchAudit.Lists(db.State(), list, tenantId, role, level)
    {
      LaunchAudit.ListForUserLists(db.State(), tenantId, role, level);
      list := ListAmong(tenantId, role, level, ModuleAccess.MODULE_NAMES);
    }

    /** Filter and map over the tenant's active subscriptions, in the given order of modules. */
    method ListAmong(tenantId: Id, role: Role, level: Option<Level>, names: seq<ModuleName>)
      returns (list: seq<ModuleAccess.AvailableModule>)
      ensures list == ModuleAccess.ListAmong(db.State(), tenantId, role, level, names)
    {
      list := [];
      ghost var d, rest := db.State(), names;
      for i := 0 to |names|
        invariant rest == names[i..]
        invariant ModuleAccess.ListAmong(d, tenantId, role, level, names)
                  == list + ModuleAccess.ListAmong(d, tenantId, role, level, rest)
      {
        var entry := Entry(tenantId, role, level, names[i]);
        UnfoldList(d, tenantId, role, level, rest, list, entry);
        list, rest := list + entry, rest[1..];
      }
    }

    /** What one module contributes to the list: nothing, or its description. */
    method Entry(tenantId: Id, role: Role, level: Option<Level>, m: ModuleName)
      returns (entry: seq<ModuleAccess.AvailableModule>)
      ensures entry == if ModuleAccess.Listed(db.State(), tenantId, role, level, m)
                       then [ModuleAccess.Describe(db.State(), tenantId, m)] else []
    {
      if (tenantId, m) !in db.subscriptions || !db.subscriptions[(tenantId, m)].isActive {
        return [];
      }
      var minLevel := db.subscriptions[(tenantId, m)].minLevel;
      if role.Admin? || (level.Some? && ModuleAccess.MeetsMinLevel(level.value, minLevel)) {
        var configured := ModuleAccess.HasUrl(db.State(), m);
        return [ModuleAccess.AvailableModule(m, minLevel, configured, configured)];
      }
      return [];
    }

    method Launch(c: Claims, m: ModuleName) returns (r: Answer)
      modifies db`launches
      ensures (r, db.State()) == ModuleAccess.LaunchModule(old(db.State()), c, m)
      ensures Effects.LaunchRecorded(old(db.State()), db.State(), r, c, m)
    {
      Effects.LaunchRecordsOne(db.State(), c, m);
      if !c.role.Admin? && !c.role.Analyst? {
        return Err(Forbidden);
      }
      if c.tenantId.None? {
        return Err(Forbidden);
      }
      var tenantId := c.tenantId.value;
      if !InTenant(db.State(), c.userId, tenantId) {
        return Err(Forbidden);
      }
      var user := db.users[c.userId];
      if (tenantId, m) !in db.subscriptions || !db.subscriptions[(tenantId, m)].isActive {
        return Err(NotFound);
      }
      var subscription := db.subscriptions[(tenantId, m)];
      var allowed := user.role.Admin? || (user.role.Analyst? && user.level.Some?
                                          && ModuleAccess.MeetsMinLevel(user.level.value, subscription.minLevel));
      if !allowed {
        return Err(Forbidden);
      }
      var url := if m in db.endpoints then BuildModuleUrl(db.endpoints[m]) else None;
      if url.None? {
        return Err(Conflict);
      }
      db.launches := db.launches + [Schema.Launch.Launch(c.userId, user.email, user.role, tenantId, m, url.value)];
      return Ok(Redirect(url.value));
    }

    method SetMinLevel(c: Claims, m: ModuleName, minLevel: Level) returns (r: Answer)
      modifies db`subscriptions
      ensures (r, db.State()) == ModuleAccess.SetMinLevel(old(db.State()), c, m, minLevel)
      ensures Effects.LevelSet(old(db.State()), db.State(), r, c, m, minLevel)
    {
      Effects.SetMinLevelIsPrivate(db.State(), c, m, minLevel);
      if !c.role.Admin? || c.tenantId.None? {
        return Err(Forbidden);
      }
      if (c.tenantId.value, m) !in db.subscriptions {
        return Err(NotFound);
      }
      var s := db.subscriptions[(c.tenantId.value, m)];
      db.subscriptions := db.subscriptions[(c.tenantId.value, m) := s.(minLevel := minLevel)];
      return Ok(Done);
    }
  }
}
