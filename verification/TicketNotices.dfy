/** Over whole runs: a ticket's creator is told of exactly the moves others make, and its text never changes. */
module TicketNotices {
  import opened Common
  import opened Schema
  import opened Invariants
  import opened Tickets
  import opened Backend
  import opened TicketFlow

  /** The rows about a change of the ticket's status that are in the later store and were not in the earlier one. */
  function NewNotices(db: Db, d: Db, k: Id): set<Id> {
    set n | n in d.notifications && n !in db.notifications
            && d.notifications[n].ticketId == k && d.notifications[n].kind == TicketStatusChanged
  }

  /** The ticket's status was changed by somebody other than its creator, who still exists. */
  predicate MovedByOther(db: Db, d: Db, k: Id) {
    && k in db.tickets && k in d.tickets && d.tickets[k].status != db.tickets[k].status
    && db.tickets[k].createdById.Some? && d.tickets[k].statusChangedById != db.tickets[k].createdById
  }

  /** Between the two stores the creator of the ticket is told of what happened to it, and nobody else is. */
  ghost predicate CreatorTold(db: Db, d: Db, k: Id) {
    && |NewNotices(db, d, k)| == (if MovedByOther(db, d, k) then 1 else 0)
    && forall n | n in NewNotices(db, d, k) ::
         k in db.tickets && db.tickets[k].createdById == Some(d.notifications[n].userId)
  }

  lemma NobodyTold(db: Db, d: Db, k: Id)
    requires d.notifications.Keys <= db.notifications.Keys
    requires k in db.tickets && k in d.tickets ==> d.tickets[k].status == db.tickets[k].status
    ensures CreatorTold(db, d, k)
  {
    assert NewNotices(db, d, k) == {};
  }

  lemma RaiseTells(db: Db, c: Claims, title: string, category: Category, m: Option<ModuleName>, rows: seq<Id>, k: Id)
    requires Inv(db)
    ensures CreatorTold(db, CreateTicket(db, c, title, category, m, rows).1, k)
  {
    var d := CreateTicket(db, c, title, category, m, rows).1;
    NobodyTold(db, db, k);
    if d != db {
      RaiseShape(db, c, title, category, m, rows);
      RaiseStores(db, c, title, category, m, rows);
      assert NewNotices(db, d, k) == {};
    }
  }

  lemma MoveTells(db: Db, c: Claims, id: Id, status: Status, k: Id)
    requires Inv(db)
    ensures CreatorTold(db, UpdateStatus(db, c, id, status).1, k)
  {
    MoveIff(db, c, id, status);
    if UpdateStatus(db, c, id, status).0.Ok? {
      MoveChangesStatus(db, c, id, status);
      MoveTellsTheCreator(db, c, id, status);
      ToldAfterMove(db, UpdateStatus(db, c, id, status).1, id, status, c.userId, k);
    } else {
      NobodyTold(db, db, k);
    }
  }

  lemma ToldAfterMove(db: Db, d: Db, id: Id, status: Status, mover: Id, k: Id)
    requires id in db.tickets && db.tickets[id].status != status
    requires d.tickets == db.tickets[id := db.tickets[id].(status := status, statusChangedById := Some(mover))]
    requires if TellsCreator(db.tickets[id], mover)
             then OneRowEach(db, d, [db.tickets[id].createdById.value], id, TicketStatusChanged)
             else forall n :: !NewRow(db, d, n)
    ensures CreatorTold(db, d, k)
  {
    if TellsCreator(db.tickets[id], mover) {
      OneNotice(db, d, db.tickets[id].createdById.value, id, k);
    } else {
      forall n ensures n !in NewNotices(db, d, k) {
        assert !NewRow(db, d, n);
      }
      assert NewNotices(db, d, k) == {};
    }
  }

  lemma MoveChangesStatus(db: Db, c: Claims, id: Id, status: Status)
    requires Inv(db) && UpdateStatus(db, c, id, status).0.Ok?
    ensures id in db.tickets && db.tickets[id].status != status
  {}

  lemma OneNotice(db: Db, d: Db, creator: Id, id: Id, k: Id)
    requires OneRowEach(db, d, [creator], id, TicketStatusChanged)
    ensures |NewNotices(db, d, k)| == if k == id then 1 else 0
    ensures forall n | n in NewNotices(db, d, k) :: d.notifications[n].userId == creator
  {
    assert creator in [creator];
    var n: Id :| NewRow(db, d, n) && d.notifications[n].userId == creator;
    forall x | NewRow(db, d, x) ensures x == n {
      assert d.notifications[x].userId in [creator];
    }
    assert NewNotices(db, d, k) == if k == id then {n} else {};
  }

  lemma TicketCallTells(db: Db, call: Call, k: Id)
    requires Inv(db) && !IsTenancy(call) && !IsAccount(call) && !IsModule(call)
    ensures CreatorTold(db, PerformTicket(db, call).1, k)
  {
    match call
    case RaiseTicket(c, title, category, m, rows) => RaiseTells(db, c, title, category, m, rows, k);
    case MoveTicket(c, id, status) => MoveTells(db, c, id, status, k);
    case ReadOne(c, id, now) => NobodyTold(db, MarkRead(db, c, id, now).1, k);
    case ReadAll(c, now) => NobodyTold(db, MarkAllRead(db, c, now).1, k);
  }

  lemma TenancyTells(db: Db, call: Call, k: Id)
    requires IsTenancy(call)
    ensures CreatorTold(db, PerformTenancy(db, call).1, k)
  {
    TenancyCallEdits(db, call);
    NobodyTold(db, PerformTenancy(db, call).1, k);
  }

  lemma AccountTells(db: Db, call: Call, k: Id)
    requires IsAccount(call)
    ensures CreatorTold(db, PerformAccount(db, call).1, k)
  {
    AccountCallEdits(db, call);
    NobodyTold(db, PerformAccount(db, call).1, k);
  }

  lemma ModuleTells(db: Db, call: Call, k: Id)
    requires IsModule(call)
    ensures CreatorTold(db, PerformModule(db, call).1, k)
  {
    ModuleCallEdits(db, call);
    NobodyTold(db, PerformModule(db, call).1, k);
  }

  lemma StepTells(db: Db, call: Call, k: Id)
    requires Inv(db)
    ensures CreatorTold(db, Step(db, call), k)
  {
    if !Possible(db, call) {
      NobodyTold(db, db, k);
    } else if IsTenancy(call) {
      TenancyTells(db, call, k);
    } else if IsAccount(call) {
      AccountTells(db, call, k);
    } else if IsModule(call) {
      ModuleTells(db, call, k);
    } else {
      TicketCallTells(db, call, k);
    }
  }

  /** How many notices of a changed status are created about the ticket along a run. */
  function Notices(db: Db, calls: seq<Call>, k: Id): nat
    decreases |calls|
  {
    if calls == [] then 0 else |NewNotices(db, Step(db, calls[0]), k)| + Notices(Step(db, calls[0]), calls[1..], k)
  }

  /** How often along a run its status is changed by somebody other than its creator. */
  function MovesByOthers(db: Db, calls: seq<Call>, k: Id): nat
    decreases |calls|
  {
    if calls == [] then 0
    else (if MovedByOther(db, Step(db, calls[0]), k) then 1 else 0) + MovesByOthers(Step(db, calls[0]), calls[1..], k)
  }

  /** Over any run a ticket's notices match, one to one, its changes of status by others than its creator. */
  lemma {:induction false} NoticesMatchMoves(db: Db, calls: seq<Call>, k: Id)
    requires Inv(db)
    ensures Notices(db, calls, k) == MovesByOthers(db, calls, k)
    decreases |calls|
  {
    if calls != [] {
      StepTells(db, calls[0], k);
      StepKeepsInv(db, calls[0]);
      NoticesMatchMoves(Step(db, calls[0]), calls[1..], k);
    }
  }

  // ---- What a ticket says ----

  /** Everything but the status, who set it, and a creator who has been deleted. */
  predicate SameText(t: Ticket, u: Ticket) {
    && u == t.(createdById := u.createdById, status := u.status, statusChangedById := u.statusChangedById)
    && (u.createdById == t.createdById || u.createdById.None?)
  }

  /** Old tickets say what they said, and new ones have ids that were not drawn before. */
  ghost predicate TextsFixed(db: Db, d: Db) {
    db.nextId <= d.nextId
    && forall k | k in d.tickets :: if k in db.tickets then SameText(db.tickets[k], d.tickets[k]) else db.nextId <= k
  }

  lemma TicketCallFixesTexts(db: Db, call: Call)
    requires Inv(db) && !IsTenancy(call) && !IsAccount(call) && !IsModule(call)
    ensures TextsFixed(db, PerformTicket(db, call).1)
  {
    match call
    case RaiseTicket(c, title, category, m, rows) => RaiseFixesTexts(db, c, title, category, m, rows);
    case MoveTicket(c, id, status) => MoveFixesTexts(db, c, id, status);
    case ReadOne(_, _, _) =>
    case ReadAll(_, _) =>
  }

  lemma RaiseFixesTexts(db: Db, c: Claims, title: string, category: Category, m: Option<ModuleName>, rows: seq<Id>)
    requires Inv(db)
    ensures TextsFixed(db, CreateTicket(db, c, title, category, m, rows).1)
  {
    RaiseShape(db, c, title, category, m, rows);
    if CreateTicket(db, c, title, category, m, rows).1 != db {
      RaiseStores(db, c, title, category, m, rows);
    }
  }

  lemma MoveFixesTexts(db: Db, c: Claims, id: Id, status: Status)
    requires Inv(db)
    ensures TextsFixed(db, UpdateStatus(db, c, id, status).1)
  {
    MoveShape(db, c, id, status);
    MoveIff(db, c, id, status);
  }

  lemma TenancyFixesTexts(db: Db, call: Call)
    requires IsTenancy(call)
    ensures TextsFixed(db, PerformTenancy(db, call).1)
  {
    TenancyCallEdits(db, call);
  }

  lemma AccountFixesTexts(db: Db, call: Call)
    requires IsAccount(call)
    ensures TextsFixed(db, PerformAccount(db, call).1)
  {
    AccountCallEdits(db, call);
  }

  lemma ModuleFixesTexts(db: Db, call: Call)
    requires IsModule(call)
    ensures TextsFixed(db, PerformModule(db, call).1)
  {
    ModuleCallEdits(db, call);
  }

  lemma StepFixesTexts(db: Db, call: Call)
    requires Inv(db)
    ensures TextsFixed(db, Step(db, call))
  {
    if Possible(db, call) {
      if IsTenancy(call) {
        TenancyFixesTexts(db, call);
      } else if IsAccount(call) {
        AccountFixesTexts(db, call);
      } else if IsModule(call) {
        ModuleFixesTexts(db, call);
      } else {
        TicketCallFixesTexts(db, call);
      }
    }
  }

  lemma TextsFixedCompose(a: Db, b: Db, c: Db)
    requires TextsFixed(a, b) && TextsFixed(b, c) && IdsOK(a)
    ensures forall k | k in a.tickets && k in c.tickets :: SameText(a.tickets[k], c.tickets[k])
    ensures TextsFixed(a, c)
  {}

  /**
   Over any run a ticket keeps its tenant, title, category, module and the name and email of its author as they were
   when it was raised, also after the author's profile was edited or the account deleted.
   */
  lemma {:induction false} TicketTextIsFixed(db: Db, calls: seq<Call>)
    requires Inv(db)
    ensures TextsFixed(db, Run(db, calls))
    decreases |calls|
  {
    if calls != [] {
      StepFixesTexts(db, calls[0]);
      StepKeepsInv(db, calls[0]);
      TicketTextIsFixed(Step(db, calls[0]), calls[1..]);
      TextsFixedCompose(db, Step(db, calls[0]), Run(db, calls));
    }
  }
}
