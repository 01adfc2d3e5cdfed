/** Open event streams against the rows the calls create, and the finality of reads, over whole runs. */
module EventStreams {
  import opened Common
  import opened Schema
  import opened Invariants
  import opened Tickets
  import opened Backend
  import opened NotificationLedger

  /** streamForUser: the ids of the events that pass the user filter, in order. */
  function StreamOf(events: seq<Event>, u: Id): seq<Id> {
    if events == [] then []
    else
      var last := events[|events| - 1];
      StreamOf(events[..|events| - 1], u) + (if last.userId == u then [last.notificationId] else [])
  }

  /** The ids of the rows created for the user along a run, whatever became of them later. */
  function CreatedAlong(db: Db, calls: seq<Call>, u: Id): set<Id>
    decreases |calls|
  {
    if calls == [] then {} else CreatedBy(db, calls[0], u) + CreatedAlong(Step(db, calls[0]), calls[1..], u)
  }

  // ---- What one call announces ----

  /** The events name ids from `from` to before `to`, in rising order. */
  ghost predicate InOrder(events: seq<Event>, from: Id, to: Id) {
    && (forall i | 0 <= i < |events| :: from <= events[i].notificationId < to)
    && (forall i, j | 0 <= i < j < |events| :: events[i].notificationId < events[j].notificationId)
  }

  /** The events are exactly the new rows, each with its owner. */
  ghost predicate NamesNewRows(events: seq<Event>, before: Rows, after: Rows) {
    && (forall i | 0 <= i < |events| :: events[i].notificationId in NewRows(before, after, events[i].userId))
    && (forall u, n | n in NewRows(before, after, u) :: Event(u, n) in events)
  }

  /** The log grew at its end by one event per new row, in the order of the rows. */
  ghost predicate Announces(before: Db, after: Db) {
    && |before.bus| <= |after.bus| && after.bus[..|before.bus|] == before.bus && before.nextId <= after.nextId
    && InOrder(after.bus[|before.bus|..], before.nextId, after.nextId)
    && NamesNewRows(after.bus[|before.bus|..], before.notifications, after.notifications)
  }

  lemma QuietAnnounces(before: Db, after: Db)
    requires after.bus == before.bus && before.nextId <= after.nextId
         && after.notifications.Keys <= before.notifications.Keys
    ensures Announces(before, after)
  {
    assert after.bus[|before.bus|..] == [];
  }

  lemma DeliverNamesNewRows(rows: Rows, first: Id, unique: seq<Id>, ticketId: Id, kind: Kind)
    requires forall n | n in rows :: n < first
    ensures NamesNewRows(EventsFor(first, unique), rows, InsertRows(rows, first, unique, ticketId, kind))
  {
    var after, events := InsertRows(rows, first, unique, ticketId, kind), EventsFor(first, unique);
    forall i | 0 <= i < |events| ensures events[i].notificationId in NewRows(rows, after, events[i].userId) {
      assert events[i] == Event(unique[i], first + i);
    }
    forall u, n | n in NewRows(rows, after, u) ensures Event(u, n) in events {
      assert first <= n < first + |unique| && events[n - first] == Event(u, n);
    }
  }

  lemma DeliverAnnounces(db: Db, unique: seq<Id>, ticketId: Id, kind: Kind)
    requires IdsOK(db)
    ensures Announces(db, Deliver(db, unique, ticketId, kind))
  {
    assert Deliver(db, unique, ticketId, kind).bus[|db.bus|..] == EventsFor(db.nextId, unique);
    DeliverNamesNewRows(db.notifications, db.nextId, unique, ticketId, kind);
  }

  lemma NotifyAnnounces(db: Db, recipients: seq<Id>, ticketId: Id, kind: Kind)
    requires IdsOK(db)
    ensures Announces(db, Notify(db, recipients, ticketId, kind).1)
  {
    QuietAnnounces(db, db);
    DeliverAnnounces(db, Dedupe(recipients), ticketId, kind);
  }

  /** A ticket row drawn or edited first does not change what is announced. */
  lemma TicketEditAnnounces(db: Db, d1: Db, d: Db)
    requires Announces(d1, d) && d1.bus == db.bus && d1.notifications == db.notifications && db.nextId <= d1.nextId
    ensures Announces(db, d)
  {}

  lemma RaiseAnnounces(db: Db, c: Claims, title: string, category: Category, m: Option<ModuleName>, rows: seq<Id>)
    requires IdsOK(db)
    ensures Announces(db, CreateTicket(db, c, title, category, m, rows).1)
  {
    RaiseShape(db, c, title, category, m, rows);
    QuietAnnounces(db, db);
    if CreateTicket(db, c, title, category, m, rows).1 != db {
      var d1 := InsertTicket(db, NewTicket(db, c.userId, c.tenantId.value, title, category, m));
      assert IdsOK(d1);
      NotifyAnnounces(d1, rows, db.nextId, TicketCreated);
      TicketEditAnnounces(db, d1, Notify(d1, rows, db.nextId, TicketCreated).1);
    }
  }

  lemma MoveAnnounces(db: Db, c: Claims, id: Id, status: Status)
    requires IdsOK(db)
    ensures Announces(db, UpdateStatus(db, c, id, status).1)
  {
    MoveShape(db, c, id, status);
    QuietAnnounces(db, db);
    if id in db.tickets {
      var d1 := SetStatus(db, id, status, c.userId);
      QuietAnnounces(db, d1);
      if db.tickets[id].createdById.Some? {
        var rows := [db.tickets[id].createdById.value];
        NotifyAnnounces(d1, rows, id, TicketStatusChanged);
        TicketEditAnnounces(db, d1, Notify(d1, rows, id, TicketStatusChanged).1);
      }
    }
  }

  /** Rows may go; the log and the id supply are as they were. */
  predicate DropsRows(db: Db, d: Db) {
    d.nextId == db.nextId && d.bus == db.bus && forall n | n in d.notifications ::
      n in db.notifications && d.notifications[n] == db.notifications[n]
  }

  lemma RemovalDropsRows(db: Db, call: Call)
    requires call.DeleteTenant? || call.DeleteUser? || call.DeleteIntegrationAdmin?
    ensures DropsRows(db, PerformTenancy(db, call).1)
  {}

  lemma TenancyAnnounces(db: Db, call: Call)
    requires IsTenancy(call)
    ensures Announces(db, PerformTenancy(db, call).1)
  {
    if call.DeleteTenant? || call.DeleteUser? || call.DeleteIntegrationAdmin? {
      RemovalDropsRows(db, call);
    } else {
      PlainTenancyLeavesLedger(db, call);
    }
    QuietAnnounces(db, PerformTenancy(db, call).1);
  }

  lemma TicketCallAnnounces(db: Db, call: Call)
    requires IdsOK(db) && !IsTenancy(call) && !IsAccount(call) && !IsModule(call)
    ensures Announces(db, PerformTicket(db, call).1)
  {
    match call
    case RaiseTicket(c, title, category, m, rows) => RaiseAnnounces(db, c, title, category, m, rows);
    case MoveTicket(c, id, status) => MoveAnnounces(db, c, id, status);
    case ReadOne(c, id, now) => QuietAnnounces(db, MarkRead(db, c, id, now).1);
    case ReadAll(c, now) => QuietAnnounces(db, MarkAllRead(db, c, now).1);
  }

  /** Every call announces exactly the rows it creates. */
  lemma StepAnnounces(db: Db, call: Call)
    requires IdsOK(db)
    ensures Announces(db, Step(db, call))
  {
    if !Possible(db, call) {
      QuietAnnounces(db, db);
    } else if IsTenancy(call) {
      TenancyAnnounces(db, call);
    } else if IsAccount(call) {
      AccountLeavesLedger(db, call);
      QuietAnnounces(db, Step(db, call));
    } else if IsModule(call) {
      ModuleLeavesLedger(db, call);
      QuietAnnounces(db, Step(db, call));
    } else {
      TicketCallAnnounces(db, call);
    }
  }

  // ---- Streams over runs ----

  ghost predicate Rising(ids: seq<Id>) {
    forall i, j | 0 <= i < j < |ids| :: ids[i] < ids[j]
  }

  /** A filtered log holds exactly the user's events, in the order of the log. */
  lemma {:induction false} StreamIsFilter(events: seq<Event>, u: Id)
    requires forall i, j | 0 <= i < j < |events| :: events[i].notificationId < events[j].notificationId
    ensures forall n :: n in StreamOf(events, u) <==> Event(u, n) in events
    ensures Rising(StreamOf(events, u))
  {
    if events != [] {
      var init, last := events[..|events| - 1], events[|events| - 1];
      StreamIsFilter(init, u);
      assert events == init + [last];
      var prev := StreamOf(init, u);
      forall i | 0 <= i < |prev| ensures prev[i] < last.notificationId {
        assert prev[i] in prev && Event(u, prev[i]) in init;
      }
      assert Rising(prev + (if last.userId == u then [last.notificationId] else []));
    }
  }

  lemma {:induction false} StreamAppends(a: seq<Event>, b: seq<Event>, u: Id)
    ensures StreamOf(a + b, u) == StreamOf(a, u) + StreamOf(b, u)
    decreases |b|
  {
    if b == [] {
      assert a + b == a;
    } else {
      var k := |b| - 1;
      StreamAppends(a, b[..k], u);
      assert (a + b)[..|a| + k] == a + b[..k];
    }
  }

  /** Between two states a user's stream carried exactly the ids of `created`, each once and in rising order. */
  ghost predicate Carried(before: Db, after: Db, created: set<Id>, u: Id) {
    && |before.bus| <= |after.bus| && after.bus[..|before.bus|] == before.bus && before.nextId <= after.nextId
    && var stream := StreamOf(after.bus[|before.bus|..], u);
       && Rising(stream)
       && (forall n :: n in stream <==> n in created)
       && (forall n | n in created :: before.nextId <= n < after.nextId)
  }

  /** One call adds to a user's stream exactly the rows it creates for them. */
  lemma StepStreams(db: Db, call: Call, u: Id)
    requires IdsOK(db)
    ensures Carried(db, Step(db, call), CreatedBy(db, call, u), u)
  {
    StepAnnounces(db, call);
    StreamIsFilter(Step(db, call).bus[|db.bus|..], u);
  }

  lemma CarriedCompose(a: Db, b: Db, c: Db, x: set<Id>, y: set<Id>, u: Id)
    requires Carried(a, b, x, u) && Carried(b, c, y, u)
    ensures Carried(a, c, x + y, u)
  {
    Glue(a.bus, b.bus, c.bus, u);
    var first, second := StreamOf(b.bus[|a.bus|..], u), StreamOf(c.bus[|b.bus|..], u);
    assert forall i | 0 <= i < |first| :: first[i] in first;
    assert forall i | 0 <= i < |second| :: second[i] in second;
    assert Rising(first + second);
  }

  lemma {:induction false} RisingSize(ids: seq<Id>, s: set<Id>)
    requires Rising(ids) && forall n :: n in ids <==> n in s
    ensures |ids| == |s|
    decreases |ids|
  {
    if ids == [] {
      assert s == {};
    } else {
      var k := |ids| - 1;
      assert ids == ids[..k] + [ids[k]];
      RisingSize(ids[..k], s - {ids[k]});
    }
  }

  /**
   A stream a user opens now carries, by the end of any run, exactly the rows created for that user since, those deleted
   again included, each once and in the order they were created.
   */
  lemma {:induction false} StreamCarriesOwnRows(db: Db, calls: seq<Call>, u: Id)
    requires Inv(db)
    ensures Carried(db, Run(db, calls), CreatedAlong(db, calls, u), u)
    decreases |calls|
  {
    if calls == [] {
      assert db.bus[|db.bus|..] == [];
    } else {
      var d := Step(db, calls[0]);
      StepStreams(db, calls[0], u);
      StepKeepsInv(db, calls[0]);
      StreamCarriesOwnRows(d, calls[1..], u);
      CarriedCompose(db, d, Run(d, calls[1..]), CreatedBy(db, calls[0], u), CreatedAlong(d, calls[1..], u), u);
    }
  }

  /** The ledger's count of created rows is the length of the stream. */
  lemma {:induction false} StreamLengthIsCreated(db: Db, calls: seq<Call>, u: Id)
    requires Inv(db)
    ensures var d := Run(db, calls);
            |db.bus| <= |d.bus| && |StreamOf(d.bus[|db.bus|..], u)| == Count(db, calls, u).created
    decreases |calls|
  {
    if calls == [] {
      assert db.bus[|db.bus|..] == [];
    } else {
      var d := Step(db, calls[0]);
      var e := Run(d, calls[1..]);
      StepStreams(db, calls[0], u);
      StepKeepsInv(db, calls[0]);
      StreamCarriesOwnRows(d, calls[1..], u);
      StreamLengthIsCreated(d, calls[1..], u);
      RisingSize(StreamOf(d.bus[|db.bus|..], u), CreatedBy(db, calls[0], u));
      Glue(db.bus, d.bus, e.bus, u);
      assert !Possible(db, calls[0]) ==> CreatedBy(db, calls[0], u) == {};
    }
  }

  /** What a stream carries from `a` on is what it carries from `a` to `b` and then from `b` on. */
  lemma Glue(a: seq<Event>, b: seq<Event>, c: seq<Event>, u: Id)
    requires |a| <= |b| <= |c| && b[..|a|] == a && c[..|b|] == b
    ensures c[..|a|] == a && StreamOf(c[|a|..], u) == StreamOf(b[|a|..], u) + StreamOf(c[|b|..], u)
  {
    assert c[..|a|] == c[..|b|][..|a|];
    assert c[|a|..] == b[|a|..] + c[|b|..];
    StreamAppends(b[|a|..], c[|b|..], u);
  }

  // ---- Reads are final ----

  /** A row that stays keeps its owner and ticket, and its read mark once it has one; no old id is used again. */
  ghost predicate RowsSettle(before: Rows, after: Rows, nextId: Id) {
    forall n | n in after && n < nextId ::
      && n in before
      && after[n].userId == before[n].userId && after[n].ticketId == before[n].ticketId
      && after[n].kind == before[n].kind
      && (before[n].readAt.Some? ==> after[n] == before[n])
  }

  lemma InsertSettles(rows: Rows, first: Id, unique: seq<Id>, ticketId: Id, kind: Kind)
    ensures RowsSettle(rows, InsertRows(rows, first, unique, ticketId, kind), first)
  {}

  lemma NotifySettles(db: Db, recipients: seq<Id>, ticketId: Id, kind: Kind, nextId: Id)
    requires nextId <= db.nextId
    ensures RowsSettle(db.notifications, Notify(db, recipients, ticketId, kind).1.notifications, nextId)
  {
    InsertSettles(db.notifications, db.nextId, Dedupe(recipients), ticketId, kind);
  }

  lemma MoveSettles(db: Db, c: Claims, id: Id, status: Status)
    ensures RowsSettle(db.notifications, UpdateStatus(db, c, id, status).1.notifications, db.nextId)
  {
    MoveShape(db, c, id, status);
    if id in db.tickets && db.tickets[id].createdById.Some? {
      var recipients := [db.tickets[id].createdById.value];
      NotifySettles(SetStatus(db, id, status, c.userId), recipients, id, TicketStatusChanged, db.nextId);
    }
  }

  lemma RaiseSettles(db: Db, c: Claims, title: string, category: Category, m: Option<ModuleName>, rows: seq<Id>)
    ensures RowsSettle(db.notifications, CreateTicket(db, c, title, category, m, rows).1.notifications, db.nextId)
  {
    RaiseShape(db, c, title, category, m, rows);
    if CreateTicket(db, c, title, category, m, rows).1 != db {
      var d1 := InsertTicket(db, NewTicket(db, c.userId, c.tenantId.value, title, category, m));
      NotifySettles(d1, rows, db.nextId, TicketCreated, db.nextId);
    }
  }

  lemma MarkSettles(db: Db, read: set<Id>, now: Time)
    requires forall n | n in read && n in db.notifications :: db.notifications[n].readAt.None?
    ensures RowsSettle(db.notifications, MarkAs(db, read, now).notifications, db.nextId)
  {}

  lemma TicketCallSettles(db: Db, call: Call)
    requires !IsTenancy(call) && !IsAccount(call) && !IsModule(call)
    ensures RowsSettle(db.notifications, PerformTicket(db, call).1.notifications, db.nextId)
  {
    match call
    case RaiseTicket(c, title, category, m, rows) => RaiseSettles(db, c, title, category, m, rows);
    case MoveTicket(c, id, status) => MoveSettles(db, c, id, status);
    case ReadOne(_, id, now) =>
      if id in db.notifications && db.notifications[id].readAt.None? {
        MarkSettles(db, {id}, now);
      }
    case ReadAll(c, now) => MarkSettles(db, UnreadOf(db, c.userId), now);
  }

  lemma StepSettles(db: Db, call: Call)
    ensures RowsSettle(db.notifications, Step(db, call).notifications, db.nextId)
  {
    if !Possible(db, call) {
    } else if IsTenancy(call) {
      if call.DeleteTenant? || call.DeleteUser? || call.DeleteIntegrationAdmin? {
        RemovalDropsRows(db, call);
      } else {
        PlainTenancyLeavesLedger(db, call);
      }
    } else if IsAccount(call) {
      AccountLeavesLedger(db, call);
    } else if IsModule(call) {
      ModuleLeavesLedger(db, call);
    } else {
      TicketCallSettles(db, call);
    }
  }

  /** Along a run, rows that were there before only go away or get their one read mark, and no id is used twice. */
  lemma {:induction false} RunSettles(db: Db, calls: seq<Call>)
    requires Inv(db)
    ensures RowsSettle(db.notifications, Run(db, calls).notifications, db.nextId)
    decreases |calls|
  {
    if calls != [] {
      StepSettles(db, calls[0]);
      StepKeepsInv(db, calls[0]);
      StepAnnounces(db, calls[0]);
      RunSettles(Step(db, calls[0]), calls[1..]);
    }
  }

  /** `readAt` is written once: a read notification never changes again while it exists. */
  lemma ReadIsFinal(db: Db, calls: seq<Call>, n: Id)
    requires Inv(db) && n in db.notifications && db.notifications[n].readAt.Some? && n in Run(db, calls).notifications
    ensures Run(db, calls).notifications[n] == db.notifications[n]
  {
    RunSettles(db, calls);
  }
}
