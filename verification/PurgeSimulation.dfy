/**
 What the nightly purge of expired tokens can and cannot change, with each refresh taken as one atomic step: every
 refresh accepted without purges is still accepted with purges inserted anywhere. The converse fails, because a purged
 row no longer betrays its replay.
 */
module PurgeSimulation {
  import opened Common
  import opened TokenTable

  datatype State = State(now: Time, users: set<Id>, rows: Table)

  datatype Action =
    | Tick(elapsed: nat)
    | AddUser(userId: Id)
    | RemoveUser(userId: Id)
    | Login(userId: Id, newId: Id, family: Id)
    | Refresh(raw: Id, newId: Id)
    | Logout(raw: Id)
    | Purge

  function Step(s: State, a: Action): State {
    match a
    case Tick(elapsed) => s.(now := s.now + elapsed)
    case AddUser(userId) => s.(users := s.users + {userId})
    case RemoveUser(userId) => s.(users := s.users - {userId}, rows := DropUser(s.rows, userId))
    case Login(userId, newId, family) =>
      if userId in s.users then s.(rows := s.rows[newId := Fresh(userId, family, s.now)]) else s
    case Refresh(raw, newId) => s.(rows := AtomicRefresh(s.rows, s.users, s.now, raw, newId).1)
    case Logout(raw) => s.(rows := RevokeOne(s.rows, raw, s.now))
    case Purge => s.(rows := PurgeExpired(s.rows, s.now))
  }

  /** The answers to the refreshes of a run, in order. */
  function Outcomes(s: State, actions: seq<Action>): seq<Outcome>
    decreases |actions|
  {
    if actions == [] then []
    else
      var rest := Outcomes(Step(s, actions[0]), actions[1..]);
      match actions[0]
      case Refresh(raw, newId) => [AtomicRefresh(s.rows, s.users, s.now, raw, newId).0] + rest
      case _ => rest
  }

  function WithoutPurges(actions: seq<Action>): seq<Action> {
    if actions == [] then []
    else if actions[0].Purge? then WithoutPurges(actions[1..])
    else [actions[0]] + WithoutPurges(actions[1..])
  }

  /** Ids and login families are drawn fresh: never drawn before and never presented before. */
  predicate FreshDraws(used: set<Id>, families: set<Id>, actions: seq<Action>)
    decreases |actions|
  {
    actions == [] ||
    match actions[0]
    case Login(_, newId, family) =>
      newId !in used && family !in families && FreshDraws(used + {newId}, families + {family}, actions[1..])
    case Refresh(raw, newId) =>
      newId !in used && newId != raw && FreshDraws(used + {newId, raw}, families, actions[1..])
    case _ => FreshDraws(used, families, actions[1..])
  }

  // ---- The simulation relation ----

  predicate Usable(s: State, t: Id) {
    t in s.rows && s.rows[t].revokedAt.None? && s.rows[t].expiresAt >= s.now
  }

  /** No token of the family can be refreshed any more. */
  ghost predicate Cold(s: State, f: Id) {
    forall t | t in s.rows && s.rows[t].familyId == f :: !Usable(s, t)
  }

  predicate SameMint(a: Token, b: Token) {
    a.userId == b.userId && a.familyId == b.familyId && a.expiresAt == b.expiresAt
  }

  /** `p` ran with purges, `s` without: how a row of `s` appears in `p`. */
  ghost predicate RowSimulated(s: State, p: State, t: Id)
    requires t in s.rows
  {
    if t in p.rows then
      && SameMint(s.rows[t], p.rows[t])
      && (p.rows[t].revokedAt.Some? ==> s.rows[t].revokedAt.Some? || Cold(s, s.rows[t].familyId))
    else s.rows[t].expiresAt < s.now
  }

  ghost predicate Simulates(s: State, p: State, used: set<Id>, families: set<Id>) {
    && s.now == p.now && s.users == p.users
    && s.rows.Keys <= used && p.rows.Keys <= used
    && (forall t | t in s.rows :: s.rows[t].familyId in families && RowSimulated(s, p, t))
    && (forall t | t in p.rows :: p.rows[t].familyId in families)
    && (forall t | t in p.rows && t !in s.rows :: Cold(s, p.rows[t].familyId))
  }

  /** The heart of the matter: what the purge-free run accepts, the purged run accepts. */
  lemma AcceptanceTransfers(s: State, p: State, used: set<Id>, families: set<Id>, raw: Id, newId: Id)
    requires Simulates(s, p, used, families)
    requires AtomicRefresh(s.rows, s.users, s.now, raw, newId).0.Accepted?
    ensures AtomicRefresh(p.rows, p.users, p.now, raw, newId).0 == Accepted(newId)
  {}

  /** Families only cool down: every later row set with no new usable row of the family is cold too. */
  lemma StaysCold(s: State, s': State, f: Id)
    requires Cold(s, f) && s.now <= s'.now
    requires forall t | t in s'.rows && s'.rows[t].familyId == f ::
               t in s.rows && SameMint(s.rows[t], s'.rows[t]) &&
                  (s.rows[t].revokedAt.Some? ==> s'.rows[t].revokedAt.Some?)
    ensures Cold(s', f)
  {}

  lemma LoginSimulated(s: State, p: State, used: set<Id>, families: set<Id>, userId: Id, newId: Id, family: Id)
    requires Simulates(s, p, used, families) && newId !in used && family !in families
    ensures Simulates(Step(s, Login(userId, newId, family)), Step(p, Login(userId, newId, family)),
                      used + {newId}, families + {family})
  {}

  lemma LogoutSimulated(s: State, p: State, used: set<Id>, families: set<Id>, raw: Id)
    requires Simulates(s, p, used, families)
    ensures Simulates(Step(s, Logout(raw)), Step(p, Logout(raw)), used, families)
  {}

  lemma ClockAndUsersSimulated(s: State, p: State, used: set<Id>, families: set<Id>, a: Action)
    requires Simulates(s, p, used, families) && (a.Tick? || a.AddUser? || a.RemoveUser?)
    ensures Simulates(Step(s, a), Step(p, a), used, families)
  {}

  lemma PurgeSimulated(s: State, p: State, used: set<Id>, families: set<Id>)
    requires Simulates(s, p, used, families)
    ensures Simulates(s, Step(p, Purge), used, families)
  {}

  /** A refresh both runs accept. */
  lemma BothAccept(s: State, p: State, used: set<Id>, families: set<Id>, raw: Id, newId: Id)
    requires Simulates(s, p, used, families) && newId !in used && newId != raw
    requires AtomicRefresh(s.rows, s.users, s.now, raw, newId).0.Accepted?
    ensures Simulates(Step(s, Refresh(raw, newId)), Step(p, Refresh(raw, newId)), used + {newId, raw}, families)
  {
    AcceptanceTransfers(s, p, used, families, raw, newId);
    var s', p' := Step(s, Refresh(raw, newId)), Step(p, Refresh(raw, newId));
    assert Usable(s, raw);
    forall f | Cold(s, f) ensures Cold(s', f) {
      assert s.rows[raw].familyId != f;
      StaysCold(s, s', f);
    }
    forall t | t in s'.rows ensures RowSimulated(s', p', t) {
      if t != newId {
        assert RowSimulated(s, p, t);
      }
    }
  }

  /** A refresh the purge-free run rejects leaves the presented token's family cold, unless both runs reject alike. */
  lemma RejectionCools(s: State, p: State, used: set<Id>, families: set<Id>, raw: Id, newId: Id)
    requires Simulates(s, p, used, families) && newId !in used && newId != raw
    requires AtomicRefresh(s.rows, s.users, s.now, raw, newId).0.Rejected?
    requires Step(p, Refresh(raw, newId)) != p
    ensures raw in p.rows && Cold(Step(s, Refresh(raw, newId)), p.rows[raw].familyId)
  {}

  lemma RejectionSimulated(s: State, p: State, used: set<Id>, families: set<Id>, raw: Id, newId: Id)
    requires Simulates(s, p, used, families) && newId !in used && newId != raw
    requires AtomicRefresh(s.rows, s.users, s.now, raw, newId).0.Rejected?
    ensures Simulates(Step(s, Refresh(raw, newId)), Step(p, Refresh(raw, newId)), used + {newId, raw}, families)
  {
    var s', p' := Step(s, Refresh(raw, newId)), Step(p, Refresh(raw, newId));
    forall f | Cold(s, f) ensures Cold(s', f) {
      StaysCold(s, s', f);
    }
    if p' != p {
      RejectionCools(s, p, used, families, raw, newId);
    }
    forall t | t in s'.rows ensures RowSimulated(s', p', t) {
      RejectedRow(s, p, used, families, raw, newId, t);
    }
  }

  lemma RejectedRow(s: State, p: State, used: set<Id>, families: set<Id>, raw: Id, newId: Id, t: Id)
    requires Simulates(s, p, used, families) && newId !in used && newId != raw
    requires AtomicRefresh(s.rows, s.users, s.now, raw, newId).0.Rejected? && t in s.rows
    requires forall f | Cold(s, f) :: Cold(Step(s, Refresh(raw, newId)), f)
    requires Step(p, Refresh(raw, newId)) != p ==>
               raw in p.rows && Cold(Step(s, Refresh(raw, newId)), p.rows[raw].familyId)
    ensures t in Step(s, Refresh(raw, newId)).rows
    ensures RowSimulated(Step(s, Refresh(raw, newId)), Step(p, Refresh(raw, newId)), t)
  {
    assert RowSimulated(s, p, t);
  }

  /**
   Purging is a one-way simulation: for any run with purges anywhere, the run without them makes the same refreshes,
   and each one it accepts is accepted, with the same successor, in the run with purges.
   */
  lemma {:induction false} PurgingLosesNoAcceptance(
      s: State, p: State, used: set<Id>, families: set<Id>, actions: seq<Action>)
    requires Simulates(s, p, used, families) && FreshDraws(used, families, actions)
    ensures var plain, purged := Outcomes(s, WithoutPurges(actions)), Outcomes(p, actions);
            |plain| == |purged| && forall k | 0 <= k < |plain| && plain[k].Accepted? :: purged[k] == plain[k]
    decreases |actions|
  {
    if actions != [] {
      var a, rest := actions[0], actions[1..];
      match a
      case Purge =>
        PurgeSimulated(s, p, used, families);
        PurgingLosesNoAcceptance(s, Step(p, Purge), used, families, rest);
      case Login(userId, newId, family) =>
        LoginSimulated(s, p, used, families, userId, newId, family);
        PurgingLosesNoAcceptance(Step(s, a), Step(p, a), used + {newId}, families + {family}, rest);
      case Logout(raw) =>
        LogoutSimulated(s, p, used, families, raw);
        PurgingLosesNoAcceptance(Step(s, a), Step(p, a), used, families, rest);
      case Refresh(raw, newId) =>
        if AtomicRefresh(s.rows, s.users, s.now, raw, newId).0.Accepted? {
          BothAccept(s, p, used, families, raw, newId);
          AcceptanceTransfers(s, p, used, families, raw, newId);
        } else {
          RejectionSimulated(s, p, used, families, raw, newId);
        }
        PurgingLosesNoAcceptance(Step(s, a), Step(p, a), used + {newId, raw}, families, rest);
      case _ =>
        ClockAndUsersSimulated(s, p, used, families, a);
        PurgingLosesNoAcceptance(Step(s, a), Step(p, a), used, families, rest);
    }
  }

  /** From an empty table, for every run. */
  lemma PurgingIsOneWaySimulation(users: set<Id>, now: Time, actions: seq<Action>)
    requires FreshDraws({}, {}, actions)
    ensures var s := State(now, users, map[]);
            var plain, purged := Outcomes(s, WithoutPurges(actions)), Outcomes(s, actions);
            |plain| == |purged| && forall k | 0 <= k < |plain| && plain[k].Accepted? :: purged[k] == plain[k]
  {
    var s := State(now, users, map[]);
    PurgingLosesNoAcceptance(s, s, {}, {}, actions);
  }

  /** A row a purge removes could not be refreshed at that moment, nor at any later one, in whatever table it sat. */
  lemma PurgedRowWasUseless(rows: Table, cutoff: Time, t: Id, later: Table, users: set<Id>, now: Time, newId: Id)
    requires t in rows && t !in PurgeExpired(rows, cutoff) && cutoff <= now
    requires t in later ==> SameMint(later[t], rows[t])
    ensures AtomicRefresh(later, users, now, t, newId).0 == Rejected
  {}

  // ---- What purging does lose ----

  /** The presented token is revoked and about to be purged, while its family still has a token that is neither. */
  predicate ReplayForgotten(rows: Table, now: Time, raw: Id) {
    && raw in rows && rows[raw].revokedAt.Some? && rows[raw].expiresAt < now
    && exists t | t in rows ::
         rows[t].familyId == rows[raw].familyId && rows[t].revokedAt.None? && rows[t].expiresAt >= now
  }

  /** Purging before a refresh and purging after it agree exactly when no replay is forgotten. */
  lemma PurgeCommutesIff(rows: Table, users: set<Id>, now: Time, raw: Id, newId: Id)
    requires newId !in rows
    ensures var (outcome, after) := AtomicRefresh(rows, users, now, raw, newId);
            AtomicRefresh(PurgeExpired(rows, now), users, now, raw, newId) == (outcome, PurgeExpired(after, now))
            <==> !ReplayForgotten(rows, now, raw)
  {
    var (outcome, after) := AtomicRefresh(rows, users, now, raw, newId);
    var purged := PurgeExpired(rows, now);
    var (outcome', after') := AtomicRefresh(purged, users, now, raw, newId);
    if ReplayForgotten(rows, now, raw) {
      var t :| t in rows && rows[t].familyId == rows[raw].familyId && rows[t].revokedAt.None?
               && rows[t].expiresAt >= now;
      assert PurgeExpired(after, now)[t].revokedAt == Some(now) && after'[t].revokedAt.None?;
    } else {
      assert after' == PurgeExpired(after, now);
    }
  }

  /**
   The converse simulation fails. After a login, a refresh and a wait past the first token's expiry, a replay of that
   token and then a refresh of its successor: without the purge the replay kills the family, with it the refresh
   is accepted.
   */
  lemma PurgingForgetsReplays(rows: Table, users: set<Id>, now: Time, raw: Id, live: Id, a: Id, b: Id)
    requires ReplayForgotten(rows, now, raw) && raw != live && a !in rows
    requires live in rows && rows[live].familyId == rows[raw].familyId && rows[live].revokedAt.None?
    requires rows[live].expiresAt >= now && rows[live].userId in users
    ensures var s := State(now, users, rows);
            && Outcomes(s, [Refresh(raw, a), Refresh(live, b)]) == [Rejected, Rejected]
            && Outcomes(s, [Purge, Refresh(raw, a), Refresh(live, b)]) == [Rejected, Accepted(b)]
  {
    var s := State(now, users, rows);
    var purged := State(now, users, PurgeExpired(rows, now));
    TwoRefreshes(s, raw, a, live, b);
    TwoRefreshes(purged, raw, a, live, b);
    assert [Purge, Refresh(raw, a), Refresh(live, b)][1..] == [Refresh(raw, a), Refresh(live, b)];
  }

  lemma TwoRefreshes(s: State, raw: Id, a: Id, live: Id, b: Id)
    ensures var (first, rows) := AtomicRefresh(s.rows, s.users, s.now, raw, a);
            Outcomes(s, [Refresh(raw, a), Refresh(live, b)]) == [first, AtomicRefresh(rows, s.users, s.now, live, b).0]
  {
    var rest := [Refresh(live, b)];
    assert [Refresh(raw, a), Refresh(live, b)][1..] == rest && rest[1..] == [];
    var s1 := Step(s, Refresh(raw, a));
    assert Outcomes(s1, rest) == [AtomicRefresh(s1.rows, s1.users, s1.now, live, b).0];
  }

  /** The premises are met in practice: a login, a refresh a minute later, and a wait past the first token's expiry. */
  lemma ReplaysAreForgotten(userId: Id, family: Id, first: Id, second: Id, now: Time)
    requires first != second
    ensures var s0 := State(now, {userId}, map[]);
            var s1 := Step(Step(s0, Login(userId, first, family)), Tick(MINUTE));
            var s2 := Step(Step(s1, Refresh(first, second)), Tick(REFRESH_TOKEN_TTL));
            && ReplayForgotten(s2.rows, s2.now, first)
            && second in s2.rows && s2.rows[second] == Fresh(userId, family, now + MINUTE)
  {
    var s0 := State(now, {userId}, map[]);
    var s1 := Step(Step(s0, Login(userId, first, family)), Tick(MINUTE));
    var s2 := Step(Step(s1, Refresh(first, second)), Tick(REFRESH_TOKEN_TTL));
    assert s2.rows[second].revokedAt.None? && s2.rows[second].expiresAt >= s2.now;
  }
}
