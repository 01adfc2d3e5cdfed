/**
 What the rotation protocol guarantees in every interleaving: one live token per family, dead families stay dead,
 each token is exchanged at most once, and the replacement pointers of a family form one path.
 */
module RotationSafety {
  import opened Common
  import opened TokenTable
  import opened Rotation

  predicate LiveIssued(s: State, f: Id, t: Id) {
    Issued(s.minted, s.chains, t) && s.minted[t].familyId == f && Live(s.rows, t)
  }

  /** The family exists and none of its issued tokens is usable. Tokens minted but not yet issued do not count. */
  ghost predicate Dead(s: State, f: Id) {
    f in s.chains && forall t :: !LiveIssued(s, f, t)
  }

  /** The token whose conditional update returns count 1 in this step, if any. */
  function Exchanged(s: State, a: Action): Option<Id> {
    if Enabled(s, a) && a.Advance? && s.requests[a.request].pc.Swapping? && Live(s.rows, s.requests[a.request].raw)
    then Some(s.requests[a.request].raw) else None
  }

  /** How often the conditional update on `t` returns count 1 along a run. */
  function Exchanges(s: State, actions: seq<Action>, t: Id): nat
    decreases |actions|
  {
    if actions == [] then 0
    else (if Exchanged(s, actions[0]) == Some(t) then 1 else 0) + Exchanges(Step(s, actions[0]), actions[1..], t)
  }

  /** How often a conditional update in family `f` returns count 1 along a run. */
  function FamilyExchanges(s: State, actions: seq<Action>, f: Id): nat
    decreases |actions|
  {
    if actions == [] then 0
    else
      (match Exchanged(s, actions[0])
       case Some(t) => if s.rows[t].familyId == f then 1 else 0
       case None => 0)
      + FamilyExchanges(Step(s, actions[0]), actions[1..], f)
  }

  // ---- At most one live token per family ----

  /** In every reachable state a family has at most one issued, unrevoked token: the last of its chain. */
  lemma AtMostOneLive(users: set<Id>, now: Time, actions: seq<Action>, f: Id, t: Id, u: Id)
    ensures var s := Run(Init(users, now), actions);
            LiveIssued(s, f, t) && LiveIssued(s, f, u) ==> t == u
  {
    var s := Run(Init(users, now), actions);
    RunKeepsInv(Init(users, now), actions);
    if LiveIssued(s, f, t) && LiveIssued(s, f, u) {
      LiveIsLast(s.rows, s.minted, s.chains, t);
      LiveIsLast(s.rows, s.minted, s.chains, u);
    }
  }

  // ---- Family death is absorbing ----

  /** Steps issue a token only by a login, in a new family, or by exchanging a live token of the same family. */
  lemma NothingComesBack(s: State, a: Action, f: Id, t: Id)
    requires Inv(s) && f in s.chains && LiveIssued(Step(s, a), f, t)
    ensures LiveIssued(s, f, t) || (Exchanged(s, a).Some? && LiveIssued(s, f, Exchanged(s, a).value))
  {
    if Enabled(s, a) && a.Advance? {
      var q := s.requests[a.request];
      assert RequestOK(s, q);
      if q.pc.Minting? || q.pc.LoginMinting? {
        assert Ordered(f, s.chains[f], s.minted);
      }
    }
  }

  lemma DeathIsKept(s: State, a: Action, f: Id)
    requires Inv(s) && Dead(s, f)
    ensures Dead(Step(s, a), f)
    ensures Exchanged(s, a).Some? ==> s.rows[Exchanged(s, a).value].familyId != f
  {
    if Exchanged(s, a).Some? {
      assert RequestOK(s, s.requests[a.request]);
      assert !LiveIssued(s, f, Exchanged(s, a).value);
    }
    forall t ensures !LiveIssued(Step(s, a), f, t) {
      if LiveIssued(Step(s, a), f, t) {
        NothingComesBack(s, a, f, t);
      }
    }
  }

  /**
   From a state in which a family is dead, whatever requests are still in flight, it stays dead and no conditional
   update in it ever returns count 1 again.
   */
  lemma {:induction false} DeathIsAbsorbing(s: State, actions: seq<Action>, f: Id)
    requires Inv(s) && Dead(s, f)
    ensures Dead(Run(s, actions), f) && FamilyExchanges(s, actions, f) == 0
    decreases |actions|
  {
    if actions != [] {
      DeathIsKept(s, actions[0], f);
      StepKeepsInv(s, actions[0]);
      DeathIsAbsorbing(Step(s, actions[0]), actions[1..], f);
    }
  }

  /** The replay kill and the lost-race kill both leave the family dead, even with tokens minted but not issued. */
  lemma KillLeavesFamilyDead(s: State, request: Id, newId: Id, family: Id, at: Time)
    requires Inv(s) && Enabled(s, Advance(request, newId, family, at)) && s.requests[request].pc.Killing?
    ensures Dead(Step(s, Advance(request, newId, family, at)), s.requests[request].pc.familyId)
  {}

  /** Logging out of the live token of a family leaves the family dead. */
  lemma LogoutLeavesFamilyDead(s: State, t: Id, at: Time)
    requires Inv(s) && Enabled(s, Logout(t, at)) && Issued(s.minted, s.chains, t) && Live(s.rows, t)
    ensures Dead(Step(s, Logout(t, at)), s.minted[t].familyId)
  {
    var f, s' := s.minted[t].familyId, Step(s, Logout(t, at));
    forall u ensures !LiveIssued(s', f, u) {
      if LiveIssued(s', f, u) {
        LiveIsLast(s.rows, s.minted, s.chains, t);
        LiveIsLast(s.rows, s.minted, s.chains, u);
      }
    }
  }

  // ---- Each token is exchanged at most once; revocation is written once ----

  /** A token that was minted and is no longer usable: revoked, or its row is gone. */
  predicate Spent(s: State, t: Id) {
    t in s.minted && !Live(s.rows, t)
  }

  lemma SpentIsKept(s: State, a: Action, t: Id)
    requires Inv(s) && Spent(s, t)
    ensures Spent(Step(s, a), t)
    ensures t in Step(s, a).rows ==> t in s.rows && Step(s, a).rows[t] == s.rows[t]
  {
    if Enabled(s, a) && a.Advance? {
      assert RequestOK(s, s.requests[a.request]);
    }
  }

  /** `revokedAt` and `replacedByTokenId` never change once written, and a deleted row never comes back. */
  lemma {:induction false} RevocationIsFinal(s: State, actions: seq<Action>, t: Id)
    requires Inv(s) && Spent(s, t)
    ensures var s' := Run(s, actions);
            Spent(s', t) && (t in s'.rows ==> t in s.rows && s'.rows[t] == s.rows[t])
    decreases |actions|
  {
    if actions != [] {
      SpentIsKept(s, actions[0], t);
      StepKeepsInv(s, actions[0]);
      RevocationIsFinal(Step(s, actions[0]), actions[1..], t);
    }
  }

  /** Over any run, at most one conditional update on a given token succeeds; none does once it is spent. */
  lemma {:induction false} ExchangedAtMostOnce(s: State, actions: seq<Action>, t: Id)
    requires Inv(s)
    ensures Exchanges(s, actions, t) <= 1
    ensures Spent(s, t) ==> Exchanges(s, actions, t) == 0
    decreases |actions|
  {
    if actions != [] {
      var a := actions[0];
      StepKeepsInv(s, a);
      ExchangedAtMostOnce(Step(s, a), actions[1..], t);
      if Spent(s, t) {
        SpentIsKept(s, a, t);
      }
      if Exchanged(s, a) == Some(t) {
        assert RequestOK(s, s.requests[a.request]);
        assert Spent(Step(s, a), t);
      }
    }
  }

  // ---- The replacement pointers ----

  /** The token reached from `t` by following `replacedByTokenId` k times. */
  function Follow(rows: Table, t: Id, k: nat): Option<Id>
    decreases k
  {
    if k == 0 then Some(t)
    else if t in rows && rows[t].replacedBy.Some? then Follow(rows, rows[t].replacedBy.value, k - 1)
    else None
  }

  /** A pointer leads from one token of a chain to the next one. */
  lemma PointerIsNext(s: State, t: Id) returns (i: nat)
    requires Inv(s) && t in s.rows && s.rows[t].replacedBy.Some?
    ensures s.rows[t].familyId in s.chains
    ensures var c := s.chains[s.rows[t].familyId];
            i + 1 < |c| && c[i] == t && s.rows[t].replacedBy == Some(c[i + 1])
  {
    assert Issued(s.minted, s.chains, t);
    var f := s.rows[t].familyId;
    var c := s.chains[f];
    assert Ordered(f, c, s.minted) && Linked(c, s.rows);
    i :| 0 <= i < |c| && c[i] == t;
    assert s.rows[c[i]].replacedBy == Some(c[i + 1]);
  }

  /** A token stands in one chain, at one place. */
  lemma ChainsShareNothing(s: State, f: Id, i: nat, g: Id, j: nat)
    requires Inv(s) && f in s.chains && g in s.chains && i < |s.chains[f]| && j < |s.chains[g]|
    requires s.chains[f][i] == s.chains[g][j]
    ensures f == g && i == j
  {
    assert Ordered(f, s.chains[f], s.minted) && Ordered(g, s.chains[g], s.minted);
    assert s.minted[s.chains[f][i]].familyId == f && s.minted[s.chains[g][j]].familyId == g;
  }

  /** No two rows name the same successor. */
  lemma ReplacementIsInjective(s: State, t: Id, u: Id)
    requires Inv(s) && t in s.rows && u in s.rows
    requires s.rows[t].replacedBy.Some? && s.rows[t].replacedBy == s.rows[u].replacedBy
    ensures t == u
  {
    var i := PointerIsNext(s, t);
    var j := PointerIsNext(s, u);
    ChainsShareNothing(s, s.rows[t].familyId, i + 1, s.rows[u].familyId, j + 1);
  }

  /** The stored token at this place of the list points at the next one, which is stored; the last points nowhere. */
  predicate PointsOn(c: seq<Id>, rows: Table, i: nat) {
    i < |c| && c[i] in rows ==>
      if i + 1 < |c| then c[i + 1] in rows && rows[c[i]].replacedBy == Some(c[i + 1]) else rows[c[i]].replacedBy.None?
  }

  lemma InnerPointer(c: seq<Id>, rows: Table, i: nat)
    requires Linked(c, rows) && i + 1 < |c|
    ensures PointsOn(c, rows, i)
  {}

  lemma LastPointer(rows: Table, minted: map<Id, Mint>, chains: map<Id, seq<Id>>, f: Id)
    requires Core(rows, minted, chains) && f in chains && |chains[f]| > 0
    ensures PointsOn(chains[f], rows, |chains[f]| - 1)
  {
    assert Ordered(f, chains[f], minted);
  }

  lemma ChainPointsOn(s: State, f: Id, i: nat)
    requires Inv(s) && f in s.chains
    ensures PointsOn(s.chains[f], s.rows, i)
  {
    if i + 1 < |s.chains[f]| {
      InnerPointer(s.chains[f], s.rows, i);
    } else if i < |s.chains[f]| {
      LastPointer(s.rows, s.minted, s.chains, f);
    }
  }

  lemma {:induction false} FollowList(c: seq<Id>, rows: Table, i: nat, k: nat)
    requires (forall a: nat :: PointsOn(c, rows, a)) && i < |c| && c[i] in rows
    ensures Follow(rows, c[i], k) == if i + k < |c| then Some(c[i + k]) else None
    decreases k
  {
    if k != 0 {
      assert PointsOn(c, rows, i);
      if i + 1 < |c| {
        FollowList(c, rows, i + 1, k - 1);
      }
    }
  }

  /**
   The chain of a family is the path its pointers spell out: from any token still stored, k pointers lead to the
   token issued k places later, and the walk ends exactly at the last issued token.
   */
  lemma PointersSpellTheChain(s: State, f: Id, i: nat, k: nat)
    requires Inv(s) && f in s.chains && i < |s.chains[f]| && s.chains[f][i] in s.rows
    ensures Follow(s.rows, s.chains[f][i], k)
            == if i + k < |s.chains[f]| then Some(s.chains[f][i + k]) else None
  {
    forall a: nat ensures PointsOn(s.chains[f], s.rows, a) {
      ChainPointsOn(s, f, a);
    }
    FollowList(s.chains[f], s.rows, i, k);
  }

  /** Following pointers never returns to the start. */
  lemma PointersAreAcyclic(s: State, t: Id, k: nat)
    requires Inv(s) && t in s.rows && k > 0
    ensures Follow(s.rows, t, k) != Some(t)
  {
    if s.rows[t].replacedBy.Some? {
      var i := PointerIsNext(s, t);
      var f := s.rows[t].familyId;
      PointersSpellTheChain(s, f, i, k);
      assert Ordered(f, s.chains[f], s.minted);
    }
  }

  /** Of two tokens of a chain, the earlier being stored, the later is stored too and expires no earlier. */
  lemma StoredOnChain(s: State, f: Id, i: nat, j: nat)
    requires Inv(s) && f in s.chains && i < j < |s.chains[f]| && s.chains[f][i] in s.rows
    ensures var t, u := s.chains[f][i], s.chains[f][j];
            u in s.rows && s.rows[t].revokedAt.Some? && s.rows[t].expiresAt <= s.rows[u].expiresAt
  {
    StoredSuffix(s.rows, s.minted, f, s.chains[f], i, j);
  }

  lemma StoredSuffix(rows: Table, minted: map<Id, Mint>, f: Id, c: seq<Id>, i: nat, j: nat)
    requires RowsRecorded(rows, minted) && Ordered(f, c, minted) && Linked(c, rows)
    requires i < j < |c| && c[i] in rows
    ensures c[j] in rows && rows[c[i]].revokedAt.Some? && rows[c[i]].expiresAt <= rows[c[j]].expiresAt
  {}

  /**
   Reachable states, in terms of the rows alone: the stored tokens of a chain are a suffix of it, expiry never
   decreases from one token to any later one, and all but the last are revoked.
   */
  lemma FamiliesArePaths(users: set<Id>, now: Time, actions: seq<Action>, f: Id, i: nat, j: nat)
    requires var s := Run(Init(users, now), actions);
             f in s.chains && i < j < |s.chains[f]| && s.chains[f][i] in s.rows
    ensures var s := Run(Init(users, now), actions);
            && s.chains[f][j] in s.rows
            && s.rows[s.chains[f][i]].expiresAt <= s.rows[s.chains[f][j]].expiresAt
            && s.rows[s.chains[f][i]].revokedAt.Some?
            && Follow(s.rows, s.chains[f][i], j - i) == Some(s.chains[f][j])
  {
    RunKeepsInv(Init(users, now), actions);
    StoredOnChain(Run(Init(users, now), actions), f, i, j);
    PointersSpellTheChain(Run(Init(users, now), actions), f, i, j - i);
  }

  // ---- A request that runs alone ----

  /** What a refresh leaves behind, read off a state in which it has finished. */
  ghost predicate Delivered(s: State, request: Id, result: (Outcome, Table)) {
    request in s.requests && s.requests[request].pc == Finished(result.0) && s.rows == result.1
  }

  lemma UnfoldRun(s: State, a: Action, rest: seq<Action>)
    ensures Run(s, [a] + rest) == Run(Step(s, a), rest)
  {}

  lemma {:induction false} FinishedStays(s: State, request: Id, actions: seq<Action>)
    requires request in s.requests && s.requests[request].pc.Finished?
    requires forall a | a in actions :: a.Advance? && a.request == request
    ensures Run(s, actions) == s
    decreases |actions|
  {
    if actions != [] {
      assert actions[0] in actions && Step(s, actions[0]) == s;
      FinishedStays(s, request, actions[1..]);
    }
  }

  /** From the owner found to the answer. */
  lemma SoloMint(s: State, go: Action, last: Action)
    requires go.Advance? && Enabled(s, go) && go.at == s.now && last.Advance? && last == go.(newId := last.newId)
    requires last.newId !in s.used && last.newId != go.newId
    requires s.requests[go.request].pc.Stamping? && s.requests[go.request].raw != go.newId
    requires var q := s.requests[go.request];
             && Live(s.rows, q.raw) && q.pc.row == s.rows[q.raw]
             && q.pc.row.expiresAt >= s.now && q.pc.row.userId in s.users
    ensures Delivered(Run(s, [go, go, last]), go.request,
                      AtomicRefresh(s.rows, s.users, s.now, s.requests[go.request].raw, go.newId))
  {
    var s1 := Step(s, go);
    var s2 := Step(s1, go);
    UnfoldRun(s, go, [go, last]);
    UnfoldRun(s1, go, [last]);
    UnfoldRun(s2, last, []);
    assert s2.requests[go.request].pc == Swapping(s.rows[s.requests[go.request].raw], go.newId);
  }

  /** From a successful expiry check to the answer. */
  lemma SoloExchange(s: State, go: Action, last: Action)
    requires go.Advance? && Enabled(s, go) && go.at == s.now && last.Advance? && last == go.(newId := last.newId)
    requires last.newId !in s.used && last.newId != go.newId
    requires s.requests[go.request].pc.LookingUp? && s.requests[go.request].raw != go.newId
    requires var q := s.requests[go.request];
             Live(s.rows, q.raw) && q.pc.row == s.rows[q.raw] && q.pc.row.expiresAt >= s.now
    ensures Delivered(Run(s, [go, go, go, last]), go.request,
                      AtomicRefresh(s.rows, s.users, s.now, s.requests[go.request].raw, go.newId))
  {
    var s1 := Step(s, go);
    UnfoldRun(s, go, [go, go, last]);
    if s1.requests[go.request].pc.Finished? {
      FinishedStays(s1, go.request, [go, go, last]);
    } else {
      SoloMint(s1, go, last);
    }
  }

  /** From the row read to the answer. */
  lemma SoloCheck(s: State, go: Action, last: Action)
    requires go.Advance? && Enabled(s, go) && go.at == s.now && last.Advance? && last == go.(newId := last.newId)
    requires last.newId !in s.used && last.newId != go.newId
    requires s.requests[go.request].pc.Checking? && s.requests[go.request].raw != go.newId
    requires var q := s.requests[go.request]; q.raw in s.rows && q.pc.row == s.rows[q.raw]
    ensures Delivered(Run(s, [go, go, go, go, last]), go.request,
                      AtomicRefresh(s.rows, s.users, s.now, s.requests[go.request].raw, go.newId))
  {
    var s1 := Step(s, go);
    UnfoldRun(s, go, [go, go, go, last]);
    match s1.requests[go.request].pc
    case LookingUp(_) => SoloExchange(s1, go, last);
    case Killing(_) =>
      UnfoldRun(s1, go, [go, go, last]);
      FinishedStays(Step(s1, go), go.request, [go, go, last]);
    case Finished(_) => FinishedStays(s1, go.request, [go, go, go, last]);
  }

  /**
   When no other action interleaves, the protocol steps of one refresh add up to `AtomicRefresh`: same outcome, same
   table. `spare` is the id the last slot would have drawn.
   */
  lemma SoloRefreshIsAtomic(s: State, request: Id, raw: Id, newId: Id, spare: Id, family: Id)
    requires Enabled(s, BeginRefresh(request, raw)) && family !in s.chains
    requires newId !in s.used && spare !in s.used && newId != raw && spare != raw && newId != spare
    ensures var go := Advance(request, newId, family, s.now);
            Delivered(Run(s, [BeginRefresh(request, raw), go, go, go, go, go, go.(newId := spare)]), request,
                      AtomicRefresh(s.rows, s.users, s.now, raw, newId))
  {
    var go := Advance(request, newId, family, s.now);
    var last := go.(newId := spare);
    var s1 := Step(s, BeginRefresh(request, raw));
    var s2 := Step(s1, go);
    UnfoldRun(s, BeginRefresh(request, raw), [go, go, go, go, go, last]);
    UnfoldRun(s1, go, [go, go, go, go, last]);
    if raw in s.rows {
      SoloCheck(s2, go, last);
    } else {
      FinishedStays(s2, request, [go, go, go, go, last]);
    }
  }

  const WEEK: int := 7 * 24 * 60 * 60 * 1000

  function FirstToken(s: State, userId: Id, newId: Id, family: Id): (Outcome, Table) {
    if userId !in s.users then (Rejected, s.rows)
    else (Accepted(newId), s.rows[newId := Token(userId, family, s.now + WEEK, None, None)])
  }

  /** From the owner looked up to the answer. */
  lemma SoloLoginMint(s: State, go: Action, userId: Id)
    requires go.Advance? && Enabled(s, go) && s.requests[go.request].pc == LoginMinting(userId, s.now + WEEK)
    ensures Delivered(Step(s, go), go.request, FirstToken(s, userId, go.newId, go.family))
  {}

  /** Beginning a login and stamping its token touch the login's own request only. */
  lemma SoloLoginStamp(s: State, request: Id, userId: Id, go: Action)
    requires Enabled(s, BeginLogin(request, userId)) && go.Advance? && go.request == request
    requires Enabled(Step(s, BeginLogin(request, userId)), go)
    ensures var s2 := Step(Step(s, BeginLogin(request, userId)), go);
            && s2 == s.(requests := s2.requests)
            && request in s2.requests && s2.requests[request].pc == LoginMinting(userId, s.now + WEEK)
  {}

  lemma SoloLoginSteps(s: State, go: Action, last: Action)
    ensures Run(s, [go, last]) == Step(Step(s, go), last)
  {
    UnfoldRun(s, go, [last]);
    UnfoldRun(Step(s, go), last, []);
  }

  /** A login that runs alone starts a new family with one token that is good for a week. */
  lemma SoloLoginIsAtomic(s: State, request: Id, userId: Id, newId: Id, spare: Id, family: Id)
    requires Enabled(s, BeginLogin(request, userId)) && family !in s.chains
    requires newId !in s.used && spare !in s.used && spare != newId
    ensures var go := Advance(request, spare, family, s.now);
            Delivered(Run(s, [BeginLogin(request, userId), go, go.(newId := newId)]), request,
                      FirstToken(s, userId, newId, family))
  {
    var go := Advance(request, spare, family, s.now);
    var last := go.(newId := newId);
    var s1 := Step(s, BeginLogin(request, userId));
    var s2 := Step(s1, go);
    UnfoldRun(s, BeginLogin(request, userId), [go, last]);
    SoloLoginSteps(s1, go, last);
    SoloLoginStamp(s, request, userId, go);
    SoloLoginMint(s2, last, userId);
  }
}
