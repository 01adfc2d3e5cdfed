/** What a session can count on: which refreshes succeed, how long a token lasts, that regular use keeps it alive. */
module Sessions {
  import opened Common
  import opened TokenTable
  import opened PurgeSimulation

  // ---- One refresh ----

  /** Live, not past its expiry, and its owner still exists. */
  predicate MayRefresh(rows: Table, users: set<Id>, now: Time, raw: Id) {
    raw in rows && rows[raw].revokedAt.None? && now <= rows[raw].expiresAt && rows[raw].userId in users
  }

  /** The presented token points at its successor, which has a full week; every other row stays. */
  ghost predicate Rotated(before: Table, after: Table, now: Time, raw: Id, newId: Id)
    requires raw in before
  {
    && after.Keys == before.Keys + {newId}
    && after[newId] == Token(before[raw].userId, before[raw].familyId, now + 7 * 24 * 60 * 60 * 1000, None, None)
    && after[raw] == before[raw].(revokedAt := Some(now), replacedBy := Some(newId))
    && forall t | t in before && t != raw :: after[t] == before[t]
  }

  /** Every token of the family is revoked, those revoked earlier keep their time, and every other family stays. */
  ghost predicate FamilyRevoked(before: Table, after: Table, now: Time, family: Id) {
    && after.Keys == before.Keys
    && forall t | t in before ::
         after[t] == if before[t].familyId == family && before[t].revokedAt.None?
                     then before[t].(revokedAt := Some(now)) else before[t]
  }

  lemma RefreshIff(rows: Table, users: set<Id>, now: Time, raw: Id, newId: Id)
    requires newId !in rows && newId != raw
    ensures var (r, after) := AtomicRefresh(rows, users, now, raw, newId);
            && r == (if MayRefresh(rows, users, now, raw) then Accepted(newId) else Rejected)
            && (r.Accepted? ==> Rotated(rows, after, now, raw, newId))
            && (r.Rejected? ==> if raw in rows && rows[raw].revokedAt.Some?
                                then FamilyRevoked(rows, after, now, rows[raw].familyId) else after == rows)
  {}

  // ---- A token that is left alone ----

  function After(s: State, actions: seq<Action>): State
    decreases |actions|
  {
    if actions == [] then s else After(Step(s, actions[0]), actions[1..])
  }

  /** Ids are fresh, and no request presents a token of the family of `t`. */
  predicate LeavesAlone(s: State, a: Action, t: Id, family: Id) {
    match a
    case Login(_, newId, f) => newId !in s.rows && newId != t && f != family
    case Refresh(raw, newId) =>
      newId !in s.rows && newId != raw && newId != t && !(raw in s.rows && s.rows[raw].familyId == family)
    case Logout(raw) => !(raw in s.rows && s.rows[raw].familyId == family)
    case _ => true
  }

  predicate LeftAlone(s: State, actions: seq<Action>, t: Id, family: Id)
    decreases |actions|
  {
    actions == [] || (LeavesAlone(s, actions[0], t, family) && LeftAlone(Step(s, actions[0]), actions[1..], t, family))
  }

  /** How much time passes. */
  function Elapsed(actions: seq<Action>): nat {
    if actions == [] then 0
    else (if actions[0].Tick? then actions[0].elapsed else 0) + Elapsed(actions[1..])
  }

  /** A row that is gone does not come back. */
  lemma {:induction false} GoneStaysGone(s: State, actions: seq<Action>, t: Id, family: Id)
    requires t !in s.rows && LeftAlone(s, actions, t, family)
    ensures t !in After(s, actions).rows
    decreases |actions|
  {
    if actions != [] {
      GoneStaysGone(Step(s, actions[0]), actions[1..], t, family);
    }
  }

  /** One action elsewhere leaves the token as it is, unless its owner goes or it has expired. */
  lemma OneActionElsewhere(s: State, a: Action, t: Id)
    requires t in s.rows && s.rows[t].userId in s.users && LeavesAlone(s, a, t, s.rows[t].familyId)
    ensures var d, row := Step(s, a), s.rows[t];
            && d.now == s.now + (if a.Tick? then a.elapsed else 0)
            && (t in d.rows ==> d.rows[t] == row && row.userId in d.users)
            && (t in d.rows <==> a != RemoveUser(row.userId) && (a.Purge? ==> s.now <= row.expiresAt))
  {}

  /**
   Whatever else happens, logins, refreshes, replays, logouts and purges included, a live token that nobody presents is
   accepted later exactly if it has not expired by then and its owner has not been removed meanwhile.
   */
  lemma {:induction false} TokenLasts(s: State, t: Id, actions: seq<Action>, newId: Id)
    requires t in s.rows && s.rows[t].revokedAt.None? && s.rows[t].userId in s.users
    requires LeftAlone(s, actions, t, s.rows[t].familyId)
    ensures var e := After(s, actions);
            && e.now == s.now + Elapsed(actions)
            && (AtomicRefresh(e.rows, e.users, e.now, t, newId).0 == Accepted(newId)
                <==> e.now <= s.rows[t].expiresAt && RemoveUser(s.rows[t].userId) !in actions)
    decreases |actions|
  {
    if actions != [] {
      var a, d := actions[0], Step(s, actions[0]);
      OneActionElsewhere(s, a, t);
      ClockMoves(d, actions[1..]);
      if t in d.rows {
        TokenLasts(d, t, actions[1..], newId);
        assert actions == [a] + actions[1..];
      } else {
        GoneStaysGone(d, actions[1..], t, s.rows[t].familyId);
        assert a == RemoveUser(s.rows[t].userId) ==> actions[0] in actions;
      }
    }
  }

  lemma {:induction false} ClockMoves(s: State, actions: seq<Action>)
    ensures After(s, actions).now == s.now + Elapsed(actions)
    decreases |actions|
  {
    if actions != [] {
      ClockMoves(Step(s, actions[0]), actions[1..]);
    }
  }

  /** Hence a login's token is good for a week to the millisecond, as long as the account exists. */
  lemma LoginLastsAWeek(s: State, userId: Id, t: Id, family: Id, actions: seq<Action>, newId: Id)
    requires userId in s.users && LeftAlone(Step(s, Login(userId, t, family)), actions, t, family)
    ensures var e := After(Step(s, Login(userId, t, family)), actions);
            AtomicRefresh(e.rows, e.users, e.now, t, newId).0 == Accepted(newId)
            <==> Elapsed(actions) <= 7 * 24 * 60 * 60 * 1000 && RemoveUser(userId) !in actions
  {
    TokenLasts(Step(s, Login(userId, t, family)), t, actions, newId);
  }

  // ---- A session in regular use ----

  /** What happens elsewhere before the client refreshes again, and the id of the successor it gets. */
  datatype Visit = Visit(meanwhile: seq<Action>, newId: Id)

  function AfterVisit(s: State, t: Id, v: Visit): State {
    Step(After(s, v.meanwhile), Refresh(t, v.newId))
  }

  /** Nobody else presents a token of the family, and the owner is not removed. */
  predicate OwnSession(s: State, t: Id, family: Id, owner: Id, visits: seq<Visit>)
    decreases |visits|
  {
    visits == [] ||
    (var v := visits[0];
     && LeftAlone(s, v.meanwhile, t, family) && RemoveUser(owner) !in v.meanwhile
     && v.newId !in After(s, v.meanwhile).rows && v.newId != t
     && OwnSession(AfterVisit(s, t, v), v.newId, family, owner, visits[1..]))
  }

  /** Each visit comes within a week of the one before. */
  predicate Weekly(visits: seq<Visit>) {
    forall k | 0 <= k < |visits| :: Elapsed(visits[k].meanwhile) <= 7 * 24 * 60 * 60 * 1000
  }

  /** Every visit is answered with the successor. */
  predicate AllAccepted(s: State, t: Id, visits: seq<Visit>)
    decreases |visits|
  {
    visits == [] ||
    (var v, e := visits[0], After(s, visits[0].meanwhile);
     && AtomicRefresh(e.rows, e.users, e.now, t, v.newId).0 == Accepted(v.newId)
     && AllAccepted(AfterVisit(s, t, v), v.newId, visits[1..]))
  }

  lemma OneVisit(s: State, t: Id, v: Visit)
    requires t in s.rows && s.rows[t] == Fresh(s.rows[t].userId, s.rows[t].familyId, s.now)
    requires s.rows[t].userId in s.users && OwnSession(s, t, s.rows[t].familyId, s.rows[t].userId, [v])
    ensures var e, d, row := After(s, v.meanwhile), AfterVisit(s, t, v), s.rows[t];
            && (AtomicRefresh(e.rows, e.users, e.now, t, v.newId).0 == Accepted(v.newId)
                <==> Elapsed(v.meanwhile) <= 7 * 24 * 60 * 60 * 1000)
            && (Elapsed(v.meanwhile) <= 7 * 24 * 60 * 60 * 1000 ==>
                  && v.newId in d.rows && d.rows[v.newId] == Fresh(row.userId, row.familyId, d.now)
                  && row.userId in d.users)
  {
    TokenLasts(s, t, v.meanwhile, v.newId);
    var e := After(s, v.meanwhile);
    TokenUnchanged(s, t, v.meanwhile);
    RefreshIff(e.rows, e.users, e.now, t, v.newId);
  }

  /**
   A session never ends under a client that uses it: all its refreshes are accepted exactly if none comes more than a
   week after the one before.
   */
  lemma {:induction false} SessionLivesOn(s: State, t: Id, visits: seq<Visit>)
    requires t in s.rows && s.rows[t] == Fresh(s.rows[t].userId, s.rows[t].familyId, s.now)
    requires s.rows[t].userId in s.users && OwnSession(s, t, s.rows[t].familyId, s.rows[t].userId, visits)
    ensures AllAccepted(s, t, visits) <==> Weekly(visits)
    decreases |visits|
  {
    if visits != [] {
      var v := visits[0];
      OneVisit(s, t, v);
      if Elapsed(v.meanwhile) <= 7 * 24 * 60 * 60 * 1000 {
        SessionLivesOn(AfterVisit(s, t, v), v.newId, visits[1..]);
        assert visits == [v] + visits[1..];
      }
    }
  }

  /** While it lasts the row itself does not change. */
  lemma {:induction false} TokenUnchanged(s: State, t: Id, actions: seq<Action>)
    requires t in s.rows && s.rows[t].userId in s.users && LeftAlone(s, actions, t, s.rows[t].familyId)
    ensures var e := After(s, actions); t in e.rows ==> e.rows[t] == s.rows[t] && s.rows[t].userId in e.users
    decreases |actions|
  {
    if actions != [] {
      OneActionElsewhere(s, actions[0], t);
      if t in Step(s, actions[0]).rows {
        TokenUnchanged(Step(s, actions[0]), t, actions[1..]);
      } else {
        GoneStaysGone(Step(s, actions[0]), actions[1..], t, s.rows[t].familyId);
      }
    }
  }
}
