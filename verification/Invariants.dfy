/** What every reachable database satisfies, and how each kind of row edit keeps it. */
module Invariants {
  import opened Common
  import opened Schema

  /** Exactly Admins and Analysts have a tenant; exactly Analysts have a level. */
  predicate WellRoled(u: User) {
    (u.tenantId.Some? <==> u.role.Admin? || u.role.Analyst?) && (u.level.Some? <==> u.role.Analyst?)
  }

  ghost predicate UsersOK(users: map<Id, User>) {
    && (forall u | u in users :: WellRoled(users[u]))
    && forall u, v | u in users && v in users && users[u].email == users[v].email :: u == v
  }

  /** A ticket names a module exactly when it is about modules, and its creator, if any, is in its tenant. */
  ghost predicate TicketsOK(users: map<Id, User>, tickets: map<Id, Ticket>) {
    forall k | k in tickets ::
      && (tickets[k].category.Modules? <==> tickets[k].moduleName.Some?)
      && forall u | u in users && tickets[k].createdById == Some(u) :: users[u].tenantId == Some(tickets[k].tenantId)
  }

  /** A notified user is in the ticket's tenant or in none. */
  ghost predicate NotificationsOK(users: map<Id, User>, tickets: map<Id, Ticket>,
      notifications: map<Id, Notification>) {
    forall n | n in notifications && notifications[n].userId in users && notifications[n].ticketId in tickets ::
      users[notifications[n].userId].tenantId.Some? ==>
        users[notifications[n].userId].tenantId.value == tickets[notifications[n].ticketId].tenantId
  }

  ghost predicate IdsOK(db: Db) {
    && (forall t | t in db.tenants :: t < db.nextId)
    && (forall u | u in db.users :: u < db.nextId)
    && (forall r | r in db.tokens :: r < db.nextId)
    && (forall r | r in db.histories :: r < db.nextId)
    && (forall k | k in db.tickets :: k < db.nextId)
    && (forall n | n in db.notifications :: n < db.nextId)
  }

  /** Every id was drawn, and no key dangles. */
  ghost predicate KeysOK(db: Db) {
    IdsOK(db) && ForeignKeys(db)
  }

  /** What the rows say fits together. */
  ghost predicate RowsOK(db: Db) {
    && UsersOK(db.users)
    && TicketsOK(db.users, db.tickets)
    && NotificationsOK(db.users, db.tickets, db.notifications)
  }

  ghost predicate Inv(db: Db) {
    KeysOK(db) && RowsOK(db)
  }

  /** Every tenant has at least one Admin. */
  ghost predicate Administered(db: Db) {
    forall t | t in db.tenants :: exists u :: IsAdminOf(db, u, t)
  }
}
