/** Tenant and user deletion: the ordered queries, what they amount to, and exactly when the database allows them. */
module Deletion {
  import opened Common
  import opened Schema
  import opened Invariants

  // ---- What the database refuses ----

  /** RESTRICT refuses a deletion exactly when just taking the rows away would leave a key dangling. */
  lemma RestrictGuardsTickets(db: Db, gone: set<Id>)
    requires ForeignKeys(db)
    ensures var plain := db.(tickets := db.tickets - gone);
            DeleteTickets(db, gone) == if ForeignKeys(plain) then Some(plain) else None
  {
    var plain := db.(tickets := db.tickets - gone);
    if n :| n in db.notifications && db.notifications[n].ticketId in gone {
      assert plain.notifications[n].ticketId !in plain.tickets;
    }
  }

  /** The same for accounts, whose tickets lose their creator first. */
  lemma RestrictGuardsUsers(db: Db, gone: set<Id>)
    requires ForeignKeys(db)
    ensures var plain := db.(users := db.users - gone, tickets := NullCreators(db.tickets, gone));
            DeleteUsers(db, gone) == if ForeignKeys(plain) then Some(plain) else None
  {}

  /** The same for a tenant, whose users lose it first. */
  lemma RestrictGuardsTenants(db: Db, id: Id, users: map<Id, User>)
    requires ForeignKeys(db) && users.Keys == db.users.Keys
    requires forall u | u in users ::
               users[u] == db.users[u].(tenantId := if db.users[u].tenantId == Some(id) then None
                                                    else db.users[u].tenantId)
    ensures var plain := db.(tenants := db.tenants - {id}, users := users);
            DeleteTenantRow(db, id) == if ForeignKeys(plain) then Some(plain) else None
  {
    var plain := db.(tenants := db.tenants - {id}, users := users);
    if DeleteTenantRow(db, id).Some? {
      assert DeleteTenantRow(db, id).value.users == users;
    }
    if k :| k in db.tickets && db.tickets[k].tenantId == id {
      assert plain.tickets[k].tenantId !in plain.tenants;
    }
    if s :| s in db.subscriptions && s.0 == id {
      assert s in plain.subscriptions && s.0 !in plain.tenants;
    }
  }

  // ---- deleteTenantWithUsers ----

  /** The first three queries: notifications about the tenant's tickets, its tickets, its subscriptions. */
  function ClearTickets(db: Db, id: Id): Option<Db> {
    var d1 := DeleteNotifications(db, NotificationsAbout(db, TicketsOf(db, id)));
    match DeleteTickets(d1, TicketsOf(d1, id))
    case None => None
    case Some(d2) => Some(d2.(subscriptions := map s | s in d2.subscriptions && s.0 != id :: d2.subscriptions[s]))
  }

  /** The next three: refresh tokens and password history of the tenant's users, then the users. */
  function ClearUsers(db: Db, id: Id): Option<Db> {
    var d4 := db.(tokens := db.tokens - OwnedBy(db.tokens, UsersOf(db, id)));
    var d5 := d4.(histories := d4.histories - OwnedBy(d4.histories, UsersOf(d4, id)));
    DeleteUsers(d5, UsersOf(d5, id))
  }

  /** The whole transaction; None means it was rolled back. */
  function DeleteTenantQueries(db: Db, id: Id): Option<Db> {
    match ClearTickets(db, id)
    case None => None
    case Some(d3) =>
      match ClearUsers(d3, id)
      case None => None
      case Some(d6) => DeleteTenantRow(d6, id)
  }

  /** What remains: every row that does not belong to the tenant, with creators from the tenant set to null. */
  function TenantRemoved(db: Db, id: Id): Db {
    var gone := UsersOf(db, id);
    db.(tenants := db.tenants - {id},
    users := db.users - gone,
    tokens := db.tokens - OwnedBy(db.tokens, gone),
    histories := db.histories - OwnedBy(db.histories, gone),
    tickets := NullCreators(db.tickets - TicketsOf(db, id), gone),
    notifications := db.notifications - NotificationsAbout(db, TicketsOf(db, id)),
    subscriptions := map s | s in db.subscriptions && s.0 != id :: db.subscriptions[s])
  }

  /** A user of the tenant has a notification about some other tenant's ticket. */
  predicate Entangled(db: Db, id: Id) {
    exists n | n in db.notifications ::
      InTenant(db, db.notifications[n].userId, id) && db.notifications[n].ticketId !in TicketsOf(db, id)
  }

  lemma ClearTicketsSucceeds(db: Db, id: Id)
    ensures ClearTickets(db, id)
            == Some(db.(notifications := db.notifications - NotificationsAbout(db, TicketsOf(db, id)),
                        tickets := db.tickets - TicketsOf(db, id),
                        subscriptions := map s | s in db.subscriptions && s.0 != id :: db.subscriptions[s]))
  {}

  lemma ClearUsersSucceedsIff(db: Db, id: Id)
    ensures var gone := UsersOf(db, id);
            ClearUsers(db, id)
            == if NotificationsFor(db, gone) != {} then None
               else Some(db.(users := db.users - gone,
                             tokens := db.tokens - OwnedBy(db.tokens, gone),
                             histories := db.histories - OwnedBy(db.histories, gone),
                             tickets := NullCreators(db.tickets, gone)))
  {
    var gone := UsersOf(db, id);
    var d4 := db.(tokens := db.tokens - OwnedBy(db.tokens, gone));
    var d5 := d4.(histories := d4.histories - OwnedBy(d4.histories, gone));
    assert UsersOf(d4, id) == gone && UsersOf(d5, id) == gone;
    if n :| n in NotificationsFor(db, gone) {
      assert d5.notifications[n].userId in gone;
    } else {
      assert forall n | n in d5.notifications :: n !in NotificationsFor(db, gone);
    }
  }

  /**
   In the given order no deletion meets a RESTRICT on its own tenant's rows; the transaction fails exactly when a user
   of the tenant is still notified about another tenant's ticket, and otherwise leaves exactly `TenantRemoved`.
   */
  lemma DeletionSucceedsIff(db: Db, id: Id)
    requires ForeignKeys(db)
    ensures DeleteTenantQueries(db, id) == if Entangled(db, id) then None else Some(TenantRemoved(db, id))
  {
    ClearTicketsSucceeds(db, id);
    var d3 := ClearTickets(db, id).value;
    var gone := UsersOf(db, id);
    assert UsersOf(d3, id) == gone;
    ClearUsersSucceedsIff(d3, id);
    EntangledIff(db, d3, id);
    if !Entangled(db, id) {
      LastRow(d3, ClearUsers(d3, id).value, id);
    }
  }

  lemma EntangledIff(db: Db, d3: Db, id: Id)
    requires d3.notifications == db.notifications - NotificationsAbout(db, TicketsOf(db, id))
    ensures Entangled(db, id) <==> NotificationsFor(d3, UsersOf(db, id)) != {}
  {
    if n :| n in db.notifications && InTenant(db, db.notifications[n].userId, id)
            && db.notifications[n].ticketId !in TicketsOf(db, id) {
      assert n in NotificationsFor(d3, UsersOf(db, id));
    }
  }

  /** With the children gone the tenant row goes, and SET NULL finds no user to touch. */
  lemma LastRow(d3: Db, d6: Db, id: Id)
    requires d6.users == d3.users - UsersOf(d3, id) && d6.tenants == d3.tenants
    requires d6.tickets.Keys == d3.tickets.Keys && d6.subscriptions == d3.subscriptions
    requires forall k | k in d3.tickets :: d3.tickets[k].tenantId == d6.tickets[k].tenantId != id
    requires forall s | s in d3.subscriptions :: s.0 != id
    ensures DeleteTenantRow(d6, id) == Some(d6.(tenants := d6.tenants - {id}))
  {
    assert forall k | k in d6.tickets :: d6.tickets[k].tenantId != id;
    assert forall s | s in d6.subscriptions :: s.0 != id;
    assert forall u | u in d6.users :: u !in UsersOf(d3, id);
    assert DeleteTenantRow(d6, id).value.users == d6.users;
  }

  /** The cross-service invariant rules the entanglement out. */
  lemma NeverEntangled(db: Db, id: Id)
    requires Inv(db)
    ensures !Entangled(db, id)
  {}

  /** Exactly the rows go whose owner was in the tenant. */
  ghost predicate OwnersSpared(users: map<Id, User>, before: map<Id, Id>, after: map<Id, Id>, id: Id) {
    && (forall r | r in before && before[r] in users :: r in after <==> users[before[r]].tenantId != Some(id))
    && (forall r | r in after :: r in before && after[r] == before[r])
  }

  /**
   Under the invariant a deletion removes the tenant and nothing of anybody else: rows of other tenants, of the
   platform-wide accounts, and every launch audit are untouched.
   */
  lemma OthersUntouched(db: Db, id: Id)
    requires Inv(db)
    ensures var d := TenantRemoved(db, id);
            && d.tenants == db.tenants - {id}
            && (forall u | u in db.users :: u in d.users <==> db.users[u].tenantId != Some(id))
            && (forall u | u in d.users :: d.users[u] == db.users[u])
            && (forall k | k in db.tickets :: k in d.tickets <==> db.tickets[k].tenantId != id)
            && (forall k | k in d.tickets :: d.tickets[k] == db.tickets[k])
            && (forall n | n in db.notifications ::
                  n in d.notifications <==> db.notifications[n].ticketId !in TicketsOf(db, id))
            && (forall n | n in d.notifications :: d.notifications[n] == db.notifications[n])
            && (forall s | s in db.subscriptions && s.0 != id ::
                  s in d.subscriptions && d.subscriptions[s] == db.subscriptions[s])
            && d.launches == db.launches && d.endpoints == db.endpoints && d.bus == db.bus
            && OwnersSpared(db.users, db.tokens, d.tokens, id) && OwnersSpared(db.users, db.histories, d.histories, id)
  {
    var d := TenantRemoved(db, id);
    forall k | k in d.tickets ensures d.tickets[k] == db.tickets[k] {
      var creator := db.tickets[k].createdById;
      assert creator.Some? ==> db.users[creator.value].tenantId == Some(db.tickets[k].tenantId);
    }
  }

  lemma RemovalKeepsForeignKeys(db: Db, id: Id)
    requires Inv(db)
    ensures ForeignKeys(TenantRemoved(db, id))
  {}

  lemma TenantRemovedKeepsInv(db: Db, id: Id)
    requires Inv(db)
    ensures Inv(TenantRemoved(db, id))
  {
    OthersUntouched(db, id);
    RemovalKeepsForeignKeys(db, id);
  }

  // ---- removeUserForTenant, removeIntegrationAdmin ----

  /** The four queries of a user removal; None means it was rolled back. */
  function RemoveUserQueries(db: Db, id: Id): Option<Db> {
    var d1 := db.(tokens := db.tokens - OwnedBy(db.tokens, {id}));
    var d2 := d1.(histories := d1.histories - OwnedBy(d1.histories, {id}));
    var d3 := DeleteNotifications(d2, NotificationsFor(d2, {id}));
    DeleteUsers(d3, {id})
  }

  function UserRemoved(db: Db, id: Id): Db {
    db.(users := db.users - {id},
    tokens := db.tokens - OwnedBy(db.tokens, {id}),
    histories := db.histories - OwnedBy(db.histories, {id}),
    notifications := db.notifications - NotificationsFor(db, {id}),
    tickets := NullCreators(db.tickets, {id}))
  }

  /** Removing a user never meets a RESTRICT; their tickets stay, without a creator. */
  lemma RemovalAlwaysSucceeds(db: Db, id: Id)
    ensures RemoveUserQueries(db, id) == Some(UserRemoved(db, id))
  {}

  lemma UserRemovedKeepsForeignKeys(db: Db, id: Id)
    requires ForeignKeys(db)
    ensures ForeignKeys(UserRemoved(db, id))
  {}

  lemma UserRemovedKeepsInv(db: Db, id: Id)
    requires Inv(db)
    ensures Inv(UserRemoved(db, id))
  {
    UserRemovedKeepsForeignKeys(db, id);
    assert IdsOK(UserRemoved(db, id));
    UserRemovedKeepsRows(db, id);
  }

  lemma UserRemovedKeepsRows(db: Db, id: Id)
    requires RowsOK(db)
    ensures RowsOK(UserRemoved(db, id))
  {
  }
}
