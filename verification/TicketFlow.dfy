/** Who hears about a ticket, who may move it, and which status histories are possible. */
module TicketFlow {
  import opened Common
  import opened Schema
  import opened Invariants
  import opened Tickets
  import opened Backend

  // ---- Recipients ----

  /** The rows a call added. */
  predicate NewRow(before: Db, after: Db, n: Id) {
    n in after.notifications && n !in before.notifications
  }

  /** With well-formed accounts the query selects exactly those whose current claims can handle the ticket. */
  lemma RecipientsAreHandlers(db: Db, creator: Id, t: Ticket, u: Id)
    requires UsersOK(db.users) && u in db.users
    ensures u in Recipients(db, creator, t.tenantId, t.category)
            <==> u != creator && CanHandle(ClaimsOf(db, u), t)
  {}

  /** The added rows are one unread row about the ticket for each of `who`. */
  ghost predicate OneRowEach(before: Db, after: Db, who: seq<Id>, ticketId: Id, kind: Kind) {
    && (forall n | NewRow(before, after, n) ::
          after.notifications[n] == Notification(after.notifications[n].userId, ticketId, kind, None)
          && after.notifications[n].userId in who)
    && (forall u | u in who :: exists n :: NewRow(before, after, n) && after.notifications[n].userId == u)
    && (forall n, k | NewRow(before, after, n) && NewRow(before, after, k)
                      && after.notifications[n].userId == after.notifications[k].userId :: n == k)
  }

  /** Delivery stores one row per recipient of a repetition-free list. */
  lemma DeliveredRows(db: Db, unique: seq<Id>, ticketId: Id, kind: Kind)
    requires IdsOK(db) && forall i, j | 0 <= i < j < |unique| :: unique[i] != unique[j]
    ensures OneRowEach(db, Deliver(db, unique, ticketId, kind), unique, ticketId, kind)
  {
    var d := Deliver(db, unique, ticketId, kind);
    forall u | u in unique ensures exists n :: NewRow(db, d, n) && d.notifications[n].userId == u {
      var i :| 0 <= i < |unique| && unique[i] == u;
      assert NewRow(db, d, db.nextId + i);
    }
  }

  /** notify stores exactly one row per distinct recipient, whatever repetitions the list has. */
  lemma NotifyStoresOneRowEach(db: Db, recipients: seq<Id>, ticketId: Id, kind: Kind)
    requires IdsOK(db) && Notify(db, recipients, ticketId, kind).0.Ok?
    ensures OneRowEach(db, Notify(db, recipients, ticketId, kind).1, recipients, ticketId, kind)
  {
    DedupeIsSet(recipients);
    if Dedupe(recipients) != [] {
      DeliveredRows(db, Dedupe(recipients), ticketId, kind);
    } else {
      assert forall u :: u !in recipients;
    }
  }

  /** What a successful creation leaves: the ticket, the same accounts, one row for each selected recipient. */
  lemma CreationDelivers(db: Db, c: Claims, title: string, category: Category, m: Option<ModuleName>, rows: seq<Id>)
    requires IdsOK(db) && CreateTicket(db, c, title, category, m, rows).0.Ok?
    ensures c.userId in db.users && c.tenantId.Some?
    ensures var d := CreateTicket(db, c, title, category, m, rows).1;
            && d.users == db.users
            && db.nextId in d.tickets
            && d.tickets[db.nextId] == NewTicket(db, c.userId, c.tenantId.value, title, category, m)
            && OneRowEach(db, d, rows, db.nextId, TicketCreated)
  {
    var d1 := InsertTicket(db, NewTicket(db, c.userId, c.tenantId.value, title, category, m));
    assert IdsOK(d1);
    NotifyStoresOneRowEach(d1, rows, db.nextId, TicketCreated);
    var d := Notify(d1, rows, db.nextId, TicketCreated).1;
    assert forall n :: NewRow(db, d, n) <==> NewRow(d1, d, n);
  }

  /**
   A new ticket notifies exactly the users who can handle it, minus its creator, with one stored row each, and each of
   them could fetch the ticket at that moment.
   */
  lemma NewTicketNotifiesHandlers(
      db: Db, c: Claims, title: string, category: Category, m: Option<ModuleName>, rows: seq<Id>, u: Id)
    requires Inv(db) && c.tenantId.Some?
    requires Enumerates(rows, Recipients(db, c.userId, c.tenantId.value, category))
    requires CreateTicket(db, c, title, category, m, rows).0.Ok? && u in db.users
    ensures var d := CreateTicket(db, c, title, category, m, rows).1;
            var id := db.nextId;
            && u in d.users && id in d.tickets && OneRowEach(db, d, rows, id, TicketCreated)
            && ((exists n :: NewRow(db, d, n) && d.notifications[n].userId == u)
                <==> u != c.userId && CanHandle(ClaimsOf(d, u), d.tickets[id]))
            && (u != c.userId && CanHandle(ClaimsOf(d, u), d.tickets[id]) ==> FindOne(d, ClaimsOf(d, u), id).Ok?)
  {
    CreationDelivers(db, c, title, category, m, rows);
    var d := CreateTicket(db, c, title, category, m, rows).1;
    var t := d.tickets[db.nextId];
    RecipientsAreHandlers(db, c.userId, t, u);
    RowMeansRecipient(db, d, rows, db.nextId, u);
    if CanHandle(ClaimsOf(d, u), t) {
      HandlersSee(d, ClaimsOf(d, u), db.nextId);
    }
  }

  lemma RowMeansRecipient(db: Db, d: Db, rows: seq<Id>, ticketId: Id, u: Id)
    requires OneRowEach(db, d, rows, ticketId, TicketCreated)
    ensures (exists n :: NewRow(db, d, n) && d.notifications[n].userId == u) <==> u in rows
  {}

  lemma HandlersSee(db: Db, c: Claims, id: Id)
    requires id in db.tickets && CanHandle(c, db.tickets[id])
    ensures FindOne(db, c, id).Ok?
  {}

  // ---- Raising tickets ----

  /** Who may raise what, in the order in which refusals are given. */
  ghost predicate RaiseAnswer(db: Db, r: Answer, c: Claims, category: Category, m: Option<ModuleName>) {
    var mayTry, fits := (c.role.Admin? || c.role.Analyst?) && c.tenantId.Some?, category.Modules? <==> m.Some?;
    && (r.Ok? <==> mayTry && fits && InTenant(db, c.userId, c.tenantId.value))
    && (r == Err(BadRequest) <==> mayTry && !fits)
    && (r.Err? ==> r.error.BadRequest? || r.error.Forbidden?)
  }

  /** One new ticket, open, as asked for, with a snapshot of its author; every other ticket is as it was. */
  ghost predicate OneTicketMore(before: Db, after: Db, id: Id, c: Claims, title: string, category: Category,
                                m: Option<ModuleName>)
  {
    && id !in before.tickets && after.tickets.Keys == before.tickets.Keys + {id}
    && (forall k | k in before.tickets :: after.tickets[k] == before.tickets[k])
    && c.userId in before.users && c.tenantId.Some?
    && var u, t := before.users[c.userId], after.tickets[id];
       && t.tenantId == c.tenantId.value && t.createdById == Some(c.userId)
       && t.createdByName == u.name && t.createdByEmail == u.email
       && t.title == title && t.category == category && t.moduleName == m
       && t.status == Open && t.statusChangedById.None?
  }

  lemma NotifyKeepsTickets(db: Db, recipients: seq<Id>, ticketId: Id, kind: Kind)
    ensures var d := Notify(db, recipients, ticketId, kind).1; d.tickets == db.tickets && d.users == db.users
  {}

  lemma RaiseAnswers(db: Db, c: Claims, title: string, category: Category, m: Option<ModuleName>, rows: seq<Id>)
    requires CreateTicket(db, c, title, category, m, rows).0 != Err(Internal)
    ensures var (r, d) := CreateTicket(db, c, title, category, m, rows);
            && RaiseAnswer(db, r, c, category, m)
            && (r.Err? ==> d == db) && (r.Ok? ==> r == Ok(Created(db.nextId)) && d != db)
  {
    NotifyKeepsTickets(db, rows, db.nextId, TicketCreated);
  }

  lemma RaiseStores(db: Db, c: Claims, title: string, category: Category, m: Option<ModuleName>, rows: seq<Id>)
    requires IdsOK(db) && CreateTicket(db, c, title, category, m, rows).1 != db
    ensures OneTicketMore(db, CreateTicket(db, c, title, category, m, rows).1, db.nextId, c, title, category, m)
  {
    RaiseShape(db, c, title, category, m, rows);
    var d1 := InsertTicket(db, NewTicket(db, c.userId, c.tenantId.value, title, category, m));
    NotifyKeepsTickets(d1, rows, db.nextId, TicketCreated);
    assert db.nextId !in db.tickets;
  }

  /** A refused ticket leaves nothing; an accepted one is stored as asked. */
  lemma RaiseIff(db: Db, c: Claims, title: string, category: Category, m: Option<ModuleName>, rows: seq<Id>)
    requires Inv(db)
    requires c.tenantId.Some? ==> Enumerates(rows, Recipients(db, c.userId, c.tenantId.value, category))
    ensures var (r, d) := CreateTicket(db, c, title, category, m, rows);
            && RaiseAnswer(db, r, c, category, m)
            && (r.Err? ==> d == db)
            && (r.Ok? ==> r.value.Created? && OneTicketMore(db, d, r.value.id, c, title, category, m))
  {
    RaiseTicketKeepsInv(db, c, title, category, m, rows);
    RaiseAnswers(db, c, title, category, m, rows);
    if CreateTicket(db, c, title, category, m, rows).0.Ok? {
      RaiseStores(db, c, title, category, m, rows);
    }
  }

  /**
   Who sees a new ticket: its author, the tenant's Admins, and, if it is about a module, the Integration Admins;
   no other Analyst of the tenant, and nobody of another tenant.
   */
  lemma NewTicketIsSeenBy(
      db: Db, c: Claims, title: string, category: Category, m: Option<ModuleName>, rows: seq<Id>, v: Claims)
    requires Inv(db) && c.tenantId.Some?
    requires Enumerates(rows, Recipients(db, c.userId, c.tenantId.value, category))
    requires CreateTicket(db, c, title, category, m, rows).0.Ok?
    ensures var (r, d) := CreateTicket(db, c, title, category, m, rows);
            && r.value.Created? && r.value.id in d.tickets
            && (FindOne(d, v, r.value.id)
                == if (v.tenantId == c.tenantId && (v.role.Admin? || (v.role.Analyst? && v.userId == c.userId)))
                      || (v.role.IntegrationAdmin? && category.Modules?)
                   then Ok(d.tickets[r.value.id]) else Err(NotFound))
  {
    RaiseIff(db, c, title, category, m, rows);
  }

  /** Everybody who handles the new ticket, but its author, has one new unread row about it, and nobody else has. */
  ghost predicate HandlersTold(before: Db, after: Db, id: Id, author: Id) {
    && id in after.tickets
    && (forall n | NewRow(before, after, n) ::
          after.notifications[n] == Notification(after.notifications[n].userId, id, TicketCreated, None))
    && (forall n, k | NewRow(before, after, n) && NewRow(before, after, k)
                      && after.notifications[n].userId == after.notifications[k].userId :: n == k)
    && (forall u :: (exists n :: NewRow(before, after, n) && after.notifications[n].userId == u)
                    <==> u in before.users && u != author && Handles(ClaimsOf(before, u), after.tickets[id]))
  }

  /** What a caller who raises a ticket may rely on. */
  ghost predicate Raised(before: Db, after: Db, r: Answer, c: Claims, title: string, category: Category,
                         m: Option<ModuleName>)
  {
    && RaiseAnswer(before, r, c, category, m)
    && (r.Err? ==> after == before)
    && (r.Ok? ==> r.value.Created? && OneTicketMore(before, after, r.value.id, c, title, category, m)
                  && HandlersTold(before, after, r.value.id, c.userId))
  }

  lemma HandlersAreTold(db: Db, c: Claims, title: string, category: Category, m: Option<ModuleName>, rows: seq<Id>)
    requires Inv(db) && c.tenantId.Some?
    requires Enumerates(rows, Recipients(db, c.userId, c.tenantId.value, category))
    requires CreateTicket(db, c, title, category, m, rows).0.Ok?
    ensures HandlersTold(db, CreateTicket(db, c, title, category, m, rows).1, db.nextId, c.userId)
  {
    CreationDelivers(db, c, title, category, m, rows);
    var d, id := CreateTicket(db, c, title, category, m, rows).1, db.nextId;
    forall u ensures (exists n :: NewRow(db, d, n) && d.notifications[n].userId == u)
                     <==> u in db.users && u != c.userId && Handles(ClaimsOf(db, u), d.tickets[id]) {
      RowMeansRecipient(db, d, rows, id, u);
      if u in db.users {
        RecipientsAreHandlers(db, c.userId, d.tickets[id], u);
      }
    }
  }

  lemma RaiseDoes(db: Db, c: Claims, title: string, category: Category, m: Option<ModuleName>, rows: seq<Id>)
    requires Inv(db)
    requires var r := CreateTicket(db, c, title, category, m, rows).0;
             r.Ok? || r.error.Internal? ==>
               c.tenantId.Some? && Enumerates(rows, Recipients(db, c.userId, c.tenantId.value, category))
    ensures var (r, d) := CreateTicket(db, c, title, category, m, rows); Raised(db, d, r, c, title, category, m)
  {
    var r := CreateTicket(db, c, title, category, m, rows).0;
    if r.Ok? || r.error.Internal? {
      RaiseTicketKeepsInv(db, c, title, category, m, rows);
    }
    RaiseAnswers(db, c, title, category, m, rows);
    if r.Ok? {
      RaiseStores(db, c, title, category, m, rows);
      HandlersAreTold(db, c, title, category, m, rows);
    }
  }

  // ---- Moving tickets ----

  /** The Admins of its tenant handle a ticket, and the Integration Admins those about modules. */
  predicate Handles(c: Claims, t: Ticket) {
    (c.role.Admin? && c.tenantId == Some(t.tenantId)) || (c.role.IntegrationAdmin? && t.category.Modules?)
  }

  predicate IsAuthor(c: Claims, t: Ticket) {
    c.role.Analyst? && c.tenantId == Some(t.tenantId) && t.createdById == Some(c.userId)
  }

  /** Every change of status but the one from RESOLVED straight to IN_PROGRESS. */
  predicate LegalMove(from: Status, to: Status) {
    from != to && !(from.Resolved? && to.InProgress?)
  }

  /** A handler may make every legal move, an author may resolve; anybody else does not see the ticket. */
  ghost predicate MoveAnswer(db: Db, r: Answer, c: Claims, id: Id, status: Status) {
    if c.role.SuperAdmin? then r == Err(Forbidden)
    else if id !in db.tickets || !(Handles(c, db.tickets[id]) || IsAuthor(c, db.tickets[id])) then r == Err(NotFound)
    else
      var t := db.tickets[id];
      if Handles(c, t) then r == if LegalMove(t.status, status) then Ok(Done) else Err(Conflict)
      else r == if t.status == status then Err(Conflict) else if status.Resolved? then Ok(Done) else Err(Forbidden)
  }

  lemma MoveAnswers(db: Db, c: Claims, id: Id, status: Status)
    requires UpdateStatus(db, c, id, status).0 != Err(Internal)
    ensures MoveAnswer(db, UpdateStatus(db, c, id, status).0, c, id, status)
  {}

  /** One ticket has this status, set by this account, and no other column of any ticket differs. */
  predicate StatusSet(before: Db, after: Db, id: Id, status: Status, actor: Id) {
    && id in before.tickets
    && after.tickets == before.tickets[id := before.tickets[id].(status := status, statusChangedById := Some(actor))]
  }

  lemma MoveStores(db: Db, c: Claims, id: Id, status: Status)
    requires UpdateStatus(db, c, id, status).0 != Err(Internal)
    ensures var (r, d) := UpdateStatus(db, c, id, status);
            if r.Err? then d == db else StatusSet(db, d, id, status, c.userId)
  {
    if id in db.tickets && db.tickets[id].createdById.Some? {
      var creator := db.tickets[id].createdById.value;
      NotifyKeepsTickets(SetStatus(db, id, status, c.userId), [creator], id, TicketStatusChanged);
    }
  }

  /** Who moves what, and that a move sets the status and who set it, and no other column of any ticket. */
  lemma MoveIff(db: Db, c: Claims, id: Id, status: Status)
    requires Inv(db)
    ensures var (r, d) := UpdateStatus(db, c, id, status);
            && MoveAnswer(db, r, c, id, status)
            && (if r.Err? then d == db else StatusSet(db, d, id, status, c.userId))
  {
    MoveTicketKeepsInv(db, c, id, status);
    MoveAnswers(db, c, id, status);
    MoveStores(db, c, id, status);
  }

  /** Whether the move is somebody else's and there still is a creator to tell. */
  predicate TellsCreator(t: Ticket, mover: Id) {
    t.createdById.Some? && t.createdById.value != mover
  }

  /** A move by somebody else tells the creator, once; a creator's own move, or one without a creator, tells nobody. */
  lemma MoveTellsTheCreator(db: Db, c: Claims, id: Id, status: Status)
    requires Inv(db) && UpdateStatus(db, c, id, status).0.Ok?
    ensures id in db.tickets
    ensures var t, d := db.tickets[id], UpdateStatus(db, c, id, status).1;
            if TellsCreator(t, c.userId) then OneRowEach(db, d, [t.createdById.value], id, TicketStatusChanged)
            else forall n :: !NewRow(db, d, n)
  {
    var t, d1 := db.tickets[id], SetStatus(db, id, status, c.userId);
    if TellsCreator(t, c.userId) {
      MoveTicketKeepsInv(db, c, id, status);
      NotifyStoresOneRowEach(d1, [t.createdById.value], id, TicketStatusChanged);
      var d := Notify(d1, [t.createdById.value], id, TicketStatusChanged).1;
      assert forall n :: NewRow(db, d, n) <==> NewRow(d1, d, n);
    }
  }

  /** What a caller who moves a ticket may rely on. */
  ghost predicate Moved(before: Db, after: Db, r: Answer, c: Claims, id: Id, status: Status) {
    && MoveAnswer(before, r, c, id, status)
    && (r.Err? ==> after == before)
    && (r.Ok? ==>
          && StatusSet(before, after, id, status, c.userId)
          && var t := before.tickets[id];
             if TellsCreator(t, c.userId)
             then OneRowEach(before, after, [t.createdById.value], id, TicketStatusChanged)
             else forall n :: !NewRow(before, after, n))
  }

  lemma MoveDoes(db: Db, c: Claims, id: Id, status: Status)
    requires Inv(db)
    ensures var (r, d) := UpdateStatus(db, c, id, status); Moved(db, d, r, c, id, status)
  {
    MoveIff(db, c, id, status);
    if UpdateStatus(db, c, id, status).0.Ok? {
      MoveTellsTheCreator(db, c, id, status);
    }
  }

  /** Whoever sees a ticket may handle it or created it, so the last refusal of updateStatus is never reached. */
  lemma VisibleMayActOrCreated(c: Claims, t: Ticket)
    requires VisibleTo(c, t)
    ensures CanHandle(c, t) || t.createdById == Some(c.userId)
  {}

  /** An Analyst moves only their own ticket, only to RESOLVED, and never out of it. */
  lemma AnalystsOnlyWithdraw(db: Db, c: Claims, id: Id, status: Status)
    requires c.role.Analyst? && UpdateStatus(db, c, id, status).1 != db
    ensures id in db.tickets && db.tickets[id].createdById == Some(c.userId)
    ensures status.Resolved? && !db.tickets[id].status.Resolved?
  {}

  /** The status of a ticket that exists before and after a call is unchanged or moved along one edge. */
  predicate StatusMoves(db: Db, d: Db, k: Id)
    requires k in db.tickets && k in d.tickets
  {
    d.tickets[k].status == db.tickets[k].status || HandlerTransition(db.tickets[k].status, d.tickets[k].status)
  }

  lemma TenancyMovesNoTicket(db: Db, call: Call, k: Id)
    requires IsTenancy(call) && k in PerformTenancy(db, call).1.tickets
    ensures k in db.tickets && PerformTenancy(db, call).1.tickets[k].status == db.tickets[k].status
  {
    TenancyCallEdits(db, call);
  }

  lemma AccountMovesNoTicket(db: Db, call: Call)
    requires IsAccount(call)
    ensures PerformAccount(db, call).1.tickets == db.tickets
  {
    AccountCallEdits(db, call);
  }

  lemma TicketCallMovesAlongEdges(db: Db, call: Call, k: Id)
    requires IdsOK(db) && !IsTenancy(call) && !IsAccount(call) && !IsModule(call)
    requires k in db.tickets
    ensures k in PerformTicket(db, call).1.tickets && StatusMoves(db, PerformTicket(db, call).1, k)
  {
    match call
    case RaiseTicket(c, title, category, m, rows) => RaiseShape(db, c, title, category, m, rows);
    case MoveTicket(c, id, status) => MoveMovesAlongEdge(db, c, id, status, k);
    case ReadOne(_, _, _) =>
    case ReadAll(_, _) =>
  }

  lemma MoveMovesAlongEdge(db: Db, c: Claims, id: Id, status: Status, k: Id)
    requires k in db.tickets
    ensures k in UpdateStatus(db, c, id, status).1.tickets && StatusMoves(db, UpdateStatus(db, c, id, status).1, k)
  {
    MoveShape(db, c, id, status);
  }

  lemma StepMovesAlongEdges(db: Db, call: Call, k: Id)
    requires IdsOK(db) && k in db.tickets && k in Step(db, call).tickets
    ensures StatusMoves(db, Step(db, call), k)
  {
    if Possible(db, call) {
      if IsTenancy(call) {
        TenancyMovesNoTicket(db, call, k);
      } else if IsAccount(call) {
        AccountMovesNoTicket(db, call);
      } else if !IsModule(call) {
        TicketCallMovesAlongEdges(db, call, k);
      }
    }
  }

  /** The statuses a ticket takes on along a run, after the one it starts with, while it exists. */
  function History(db: Db, calls: seq<Call>, k: Id): seq<Status>
    decreases |calls|
  {
    if calls == [] then []
    else
      var d := Step(db, calls[0]);
      if k !in db.tickets || k !in d.tickets then []
      else (if d.tickets[k].status != db.tickets[k].status then [d.tickets[k].status] else []) +
           History(d, calls[1..], k)
  }

  /** Each status differs from the one before it, and IN_PROGRESS never follows RESOLVED directly. */
  predicate IsPath(from: Status, path: seq<Status>)
    decreases |path|
  {
    path == [] ||
    (from != path[0] && !(from.Resolved? && path[0].InProgress?) && IsPath(path[0], path[1..]))
  }

  /**
   In every run a ticket's statuses form a path in the transition graph: no repetition, and never directly from
   RESOLVED to IN_PROGRESS.
   */
  lemma {:induction false} StatusHistoryIsPath(db: Db, calls: seq<Call>, k: Id)
    requires Inv(db) && k in db.tickets
    ensures IsPath(db.tickets[k].status, History(db, calls, k))
    decreases |calls|
  {
    if calls != [] {
      var d := Step(db, calls[0]);
      if k in d.tickets {
        StepMovesAlongEdges(db, calls[0], k);
        StepKeepsInv(db, calls[0]);
        StatusHistoryIsPath(d, calls[1..], k);
        var moved := if d.tickets[k].status != db.tickets[k].status then [d.tickets[k].status] else [];
        assert (moved + History(d, calls[1..], k))[|moved|..] == History(d, calls[1..], k);
      }
    }
  }
}
