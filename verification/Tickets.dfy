/** TicketsService and NotificationsService on the store: visibility, the status machine, recipients, delivery. */
module Tickets {
  import opened Common
  import opened Schema

  // ---- Notifications ----

  /** The elements of a list without repetitions, in order of first occurrence. */
  function Dedupe(ids: seq<Id>): seq<Id> {
    if ids == [] then []
    else
      var init, last := ids[..|ids| - 1], ids[|ids| - 1];
      if last in init then Dedupe(init) else Dedupe(init) + [last]
  }

  /** createManyAndReturn: one unread row per recipient, with consecutive ids. */
  function InsertRows(rows: map<Id, Notification>, first: Id, recipients: seq<Id>, ticketId: Id, kind: Kind)
    : (r: map<Id, Notification>)
    ensures forall n :: n in r <==> n in rows || first <= n < first + |recipients|
    ensures forall n | n in r ::
      r[n] ==
        if first <= n < first + |recipients| then Notification(recipients[n - first], ticketId, kind, None) else rows[n]
    decreases |recipients|
  {
    if recipients == [] then rows
    else
      var k := |recipients| - 1;
      InsertRows(rows, first, recipients[..k], ticketId, kind)
      [first + k := Notification(recipients[k], ticketId, kind, None)]
  }

  /** The event emitted for each created row, in the order of the rows. */
  function EventsFor(first: Id, recipients: seq<Id>): seq<Event> {
    seq(|recipients|, i requires 0 <= i < |recipients| => Event(recipients[i], first + i))
  }

  function Deliver(db: Db, unique: seq<Id>, ticketId: Id, kind: Kind): Db {
    db.(notifications := InsertRows(db.notifications, db.nextId, unique, ticketId, kind),
    bus := db.bus + EventsFor(db.nextId, unique),
    nextId := db.nextId + |unique|)
  }

  predicate KeysExist(db: Db, ids: seq<Id>, ticketId: Id) {
    ticketId in db.tickets && forall i | 0 <= i < |ids| :: ids[i] in db.users
  }

  function Notify(db: Db, recipients: seq<Id>, ticketId: Id, kind: Kind): (Result<()>, Db) {
    var unique := Dedupe(recipients);
    if unique == [] then (Ok(()), db)
    else if !KeysExist(db, unique, ticketId) then (Err(Internal), db)
    else (Ok(()), Deliver(db, unique, ticketId, kind))
  }

  function UnreadOf(db: Db, u: Id): set<Id> {
    set n | n in db.notifications && db.notifications[n].userId == u && db.notifications[n].readAt.None?
  }

  function MarkAs(db: Db, read: set<Id>, now: Time): Db {
    db.(notifications := map n | n in db.notifications ::
      if n in read then db.notifications[n].(readAt := Some(now)) else db.notifications[n])
  }

  /** Only an unread row of the caller changes; a missing or foreign id answers NotFound. */
  function MarkRead(db: Db, c: Claims, id: Id, now: Time): (Answer, Db) {
    if id !in db.notifications || db.notifications[id].userId != c.userId then (Err(NotFound), db)
    else
      var d := if db.notifications[id].readAt.None? then MarkAs(db, {id}, now) else db;
      (Ok(Unread(|UnreadOf(d, c.userId)|)), d)
  }

  function MarkAllRead(db: Db, c: Claims, now: Time): (Answer, Db) {
    (Ok(Unread(0)), MarkAs(db, UnreadOf(db, c.userId), now))
  }

  // ---- Tickets ----

  predicate HandlerTransition(from: Status, to: Status) {
    match from
    case Open => to.InProgress? || to.Resolved?
    case InProgress => to.Open? || to.Resolved?
    case Resolved => to.Open?
  }

  /** Admin: their tenant's tickets. Analyst: their own. Integration Admin: tickets about modules. */
  predicate VisibleTo(c: Claims, t: Ticket) {
    match c.role
    case Admin => c.tenantId == Some(t.tenantId)
    case Analyst => c.tenantId == Some(t.tenantId) && t.createdById == Some(c.userId)
    case IntegrationAdmin => t.category.Modules?
    case SuperAdmin => false
  }

  predicate CanHandle(c: Claims, t: Ticket) {
    (c.role.Admin? && c.tenantId == Some(t.tenantId)) || (c.role.IntegrationAdmin? && t.category.Modules?)
  }

  function FindOne(db: Db, c: Claims, id: Id): Result<Ticket> {
    if id in db.tickets && VisibleTo(c, db.tickets[id]) then Ok(db.tickets[id]) else Err(NotFound)
  }

  /** The accounts the recipients query selects: the tenant's Admins, and for modules every Integration Admin. */
  function Recipients(db: Db, creator: Id, tenantId: Id, category: Category): set<Id> {
    set u | u in db.users && u != creator
            && ((db.users[u].tenantId == Some(tenantId) && db.users[u].role.Admin?)
                || (category.Modules? && db.users[u].role.IntegrationAdmin?))
  }

  /** `rows` is some order in which the database may return exactly the accounts of `selected`. */
  predicate Enumerates(rows: seq<Id>, selected: set<Id>) {
    (forall u | u in rows :: u in selected) && (forall u | u in selected :: u in rows)
  }

  function NewTicket(
      db: Db, creator: Id, tenantId: Id, title: string, category: Category, m: Option<ModuleName>): Ticket
    requires creator in db.users
  {
    Ticket(tenantId, Some(creator), db.users[creator].name, db.users[creator].email, title, category, m, Open, None)
  }

  function InsertTicket(db: Db, t: Ticket): Db {
    db.(tickets := db.tickets[db.nextId := t], nextId := db.nextId + 1)
  }

  predicate MayRaise(c: Claims) {
    c.role.Admin? || c.role.Analyst?
  }

  /** `rows` is the answer to the recipients query. */
  function CreateTicket(db: Db, c: Claims, title: string, category: Category, m: Option<ModuleName>, rows: seq<Id>)
    : (Answer, Db)
  {
    if !MayRaise(c) then (Err(Forbidden), db)
    else if c.tenantId.None? then (Err(Forbidden), db)
    else if category.Modules? != m.Some? then (Err(BadRequest), db)
    else if !InTenant(db, c.userId, c.tenantId.value) then (Err(Forbidden), db)
    else
      var id := db.nextId;
      var d1 := InsertTicket(db, NewTicket(db, c.userId, c.tenantId.value, title, category, m));
      match Notify(d1, rows, id, TicketCreated)
      case (Ok(_), d2) => (Ok(Created(id)), d2)
      case (Err(e), d2) => (Err(e), d2)
  }

  function SetStatus(db: Db, id: Id, status: Status, actor: Id): Db
    requires id in db.tickets
  {
    db.(tickets := db.tickets[id := db.tickets[id].(status := status, statusChangedById := Some(actor))])
  }

  /** Whether the caller may move a ticket they can see to `status`. */
  function MoveError(c: Claims, t: Ticket, status: Status): Option<Error> {
    if t.status == status then Some(Conflict)
    else if CanHandle(c, t) then (if HandlerTransition(t.status, status) then None else Some(Conflict))
    else if t.createdById == Some(c.userId) then (if status.Resolved? then None else Some(Forbidden))
    else Some(Forbidden)
  }

  function UpdateStatus(db: Db, c: Claims, id: Id, status: Status): (Answer, Db) {
    if c.role.SuperAdmin? then (Err(Forbidden), db)
    else
      match FindOne(db, c, id)
      case Err(e) => (Err(e), db)
      case Ok(t) =>
        match MoveError(c, t, status)
        case Some(e) => (Err(e), db)
        case None =>
          var d1 := SetStatus(db, id, status, c.userId);
          if t.createdById.None? || t.createdById.value == c.userId then (Ok(Done), d1)
          else
            match Notify(d1, [t.createdById.value], id, TicketStatusChanged)
            case (Ok(_), d2) => (Ok(Done), d2)
            case (Err(e), d2) => (Err(e), d2)
  }

  /** Raising a ticket either changes nothing, or inserts it and notifies. */
  lemma RaiseShape(db: Db, c: Claims, title: string, category: Category, m: Option<ModuleName>, rows: seq<Id>)
    ensures var d := CreateTicket(db, c, title, category, m, rows).1;
            || d == db
            || (c.tenantId.Some? && InTenant(db, c.userId, c.tenantId.value)
                && d == Notify(InsertTicket(db, NewTicket(db, c.userId, c.tenantId.value, title, category, m)),
                               rows, db.nextId,
                               TicketCreated).1)
  {}

  /** A move either changes nothing, or sets the status, or sets it and notifies the creator. */
  lemma MoveShape(db: Db, c: Claims, id: Id, status: Status)
    ensures var d := UpdateStatus(db, c, id, status).1;
            || d == db
            || (id in db.tickets
                && (d == SetStatus(db, id, status, c.userId)
                    || (db.tickets[id].createdById.Some?
                        && d == Notify(SetStatus(db, id, status, c.userId), [db.tickets[id].createdById.value], id,
                                       TicketStatusChanged).1)))
  {}
}
