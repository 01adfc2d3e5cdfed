/**
 Refresh-token rotation as a concurrent protocol. Each database query of AuthService is one atomic step; any number
 of requests are in flight, each holding the row snapshot it read and its own program counter. `used`, `minted` and
 `chains` are history: they record raw values already drawn, every row ever inserted, and for each family the issued
 tokens in order of issue. A token is issued when its login inserted it or when its refresh won the conditional update.
 */
module Rotation {
  import opened Common
  import opened TokenTable

  datatype Pc =
    | Reading                                 // about to findUnique by token hash
    | Checking(row: Token)                    // holds the row; no query in between
    | LookingUp(row: Token)                   // about to load the owner
    | Stamping(row: Token)                    // about to compute expiresAt
    | Minting(row: Token, expiresAt: Time)    // about to insert the successor
    | Swapping(row: Token, successor: Id)     // about to run the conditional update
    | Killing(familyId: Id)                   // about to revoke the whole family
    | LoginStamping(userId: Id)
    | LoginMinting(userId: Id, expiresAt: Time)
    | Finished(outcome: Outcome)

  datatype Request = Request(raw: Id, pc: Pc)

  datatype Mint = Mint(userId: Id, familyId: Id, expiresAt: Time)

  datatype State = State(
    now: Time,
    users: set<Id>,
    rows: Table,
    requests: map<Id, Request>,
    used: set<Id>,
    minted: map<Id, Mint>,
    chains: map<Id, seq<Id>>)

  datatype Action =
    | Tick(elapsed: nat)
    | AddUser(userId: Id)
    | RemoveUser(userId: Id)
    | Purge(cutoff: Time)
    | Logout(raw: Id, at: Time)
    | BeginLogin(request: Id, userId: Id)
    | BeginRefresh(request: Id, raw: Id)
    | Advance(request: Id, newId: Id, family: Id, at: Time)

  function Init(users: set<Id>, now: Time): State {
    State(now, users, map[], map[], {}, map[], map[])
  }

  function ChainOf(chains: map<Id, seq<Id>>, f: Id): seq<Id> {
    if f in chains then chains[f] else []
  }

  predicate Issued(minted: map<Id, Mint>, chains: map<Id, seq<Id>>, t: Id) {
    t in minted && minted[t].familyId in chains && t in chains[minted[t].familyId]
  }

  /**
   Clients present issued raw values, or strings that never match a row. Request ids, raw values and login families
   are fresh, and a timestamp written by a query was read from the clock at or before it.
   */
  predicate Enabled(s: State, a: Action) {
    match a
    case Tick(_) => true
    case AddUser(_) => true
    case RemoveUser(_) => true
    case Purge(cutoff) => cutoff <= s.now
    case Logout(raw, at) => at <= s.now
    case BeginLogin(request, _) => request !in s.requests
    case BeginRefresh(request, raw) => request !in s.requests && (Issued(s.minted, s.chains, raw) || raw !in s.used)
    case Advance(request, newId, family, at) =>
      request in s.requests && newId !in s.used && family !in s.chains && at <= s.now
  }

  function Goto(s: State, request: Id, pc: Pc): State
    requires request in s.requests
  {
    s.(requests := s.requests[request := s.requests[request].(pc := pc)])
  }

  function Insert(s: State, t: Id, userId: Id, familyId: Id, expiresAt: Time): State {
    s.(rows := s.rows[t := Token(userId, familyId, expiresAt, None, None)],
    used := s.used + {t},
    minted := s.minted[t := Mint(userId, familyId, expiresAt)])
  }

  /** One query (or one stretch of local code) of one request. */
  function AdvanceStep(s: State, request: Id, newId: Id, family: Id, at: Time): State
    requires request in s.requests
  {
    var raw := s.requests[request].raw;
    match s.requests[request].pc
    case Reading =>
      Goto(s, request, if raw in s.rows then Checking(s.rows[raw]) else Finished(Rejected))
    case Checking(row) =>
      Goto(s, request,
           if row.revokedAt.Some? then Killing(row.familyId)
           else if row.expiresAt < s.now then Finished(Rejected)
           else LookingUp(row))
    case LookingUp(row) =>
      Goto(s, request, if row.userId in s.users then Stamping(row) else Finished(Rejected))
    case Stamping(row) =>
      Goto(s, request, Minting(row, s.now + REFRESH_TOKEN_TTL))
    case Minting(row, expiresAt) =>
      // The insert fails on its foreign key when the owner has been deleted meanwhile.
      if row.userId !in s.users then Goto(s, request, Finished(Rejected))
      else Goto(Insert(s, newId, row.userId, row.familyId, expiresAt), request, Swapping(row, newId))
    case Swapping(row, successor) =>
      if Live(s.rows, raw) then
        Goto(s.(rows := Exchange(s.rows, raw, at, successor),
             chains := s.chains[row.familyId := ChainOf(s.chains, row.familyId) + [successor]]),
             request, Finished(Accepted(successor)))
      else Goto(s, request, Killing(row.familyId))
    case Killing(familyId) =>
      Goto(s.(rows := RevokeFamily(s.rows, familyId, at)), request, Finished(Rejected))
    case LoginStamping(userId) =>
      Goto(s, request, LoginMinting(userId, s.now + REFRESH_TOKEN_TTL))
    case LoginMinting(userId, expiresAt) =>
      if userId !in s.users then Goto(s, request, Finished(Rejected))
      else Goto(Insert(s, newId, userId, family, expiresAt).(chains := s.chains[family := [newId]]),
                request, Finished(Accepted(newId)))
    case Finished(_) => s
  }

  function Step(s: State, a: Action): State {
    if !Enabled(s, a) then s else
    match a
    case Tick(elapsed) => s.(now := s.now + elapsed)
    case AddUser(userId) => s.(users := s.users + {userId})
    case RemoveUser(userId) => s.(users := s.users - {userId}, rows := DropUser(s.rows, userId))
    case Purge(cutoff) => s.(rows := PurgeExpired(s.rows, cutoff))
    case Logout(raw, at) => s.(rows := RevokeOne(s.rows, raw, at))
    case BeginLogin(request, userId) =>
      s.(requests := s.requests[request := Request(0, LoginStamping(userId))])
    case BeginRefresh(request, raw) =>
      s.(requests := s.requests[request := Request(raw, Reading)], used := s.used + {raw})
    case Advance(request, newId, family, at) => AdvanceStep(s, request, newId, family, at)
  }

  function Run(s: State, actions: seq<Action>): State
    decreases |actions|
  {
    if actions == [] then s else Run(Step(s, actions[0]), actions[1..])
  }

  // ---- The inductive invariant, one predicate per concern ----

  ghost predicate RowsRecorded(rows: Table, minted: map<Id, Mint>) {
    forall t | t in rows :: t in minted && minted[t] == Mint(rows[t].userId, rows[t].familyId, rows[t].expiresAt)
  }

  /** Along a family's chain: no token twice, one owner, expiry never decreases. */
  ghost predicate Ordered(f: Id, c: seq<Id>, minted: map<Id, Mint>) {
    && |c| > 0
    && (forall i | 0 <= i < |c| :: c[i] in minted && minted[c[i]].familyId == f)
    && forall i, j | 0 <= i < j < |c| ::
        && c[i] != c[j]
        && minted[c[i]].userId == minted[c[j]].userId
        && minted[c[i]].expiresAt <= minted[c[j]].expiresAt
  }

  /**
   Every token of a chain but the last has been exchanged for the next one, and deletions only ever removed a
   prefix of the chain.
   */
  ghost predicate Linked(c: seq<Id>, rows: Table) {
    && (forall i | 0 <= i < |c| - 1 && c[i] in rows :: rows[c[i]].revokedAt.Some?)
    && (forall i {:trigger rows[c[i]].replacedBy} | 0 <= i < |c| - 1 && c[i] in rows ::
          rows[c[i]].replacedBy == Some(c[i + 1]))
    && forall i, j | 0 <= i < j < |c| && c[i] in rows :: c[j] in rows
  }

  /** Neither the last token of a chain nor one that was never issued names a successor. */
  ghost predicate SuccessorsOnlyInside(rows: Table, minted: map<Id, Mint>, chains: map<Id, seq<Id>>) {
    && (forall f | f in chains && |chains[f]| > 0 && chains[f][|chains[f]| - 1] in rows ::
          rows[chains[f][|chains[f]| - 1]].replacedBy.None?)
    && (forall t {:trigger Issued(minted, chains, t)} | t in rows && !Issued(minted, chains, t) ::
          rows[t].replacedBy.None?)
  }

  ghost predicate Core(rows: Table, minted: map<Id, Mint>, chains: map<Id, seq<Id>>) {
    && RowsRecorded(rows, minted)
    && (forall f | f in chains :: Ordered(f, chains[f], minted) && Linked(chains[f], rows))
    && SuccessorsOnlyInside(rows, minted, chains)
  }

  predicate Holds(s: State, raw: Id, row: Token) {
    Issued(s.minted, s.chains, raw) && s.minted[raw] == Mint(row.userId, row.familyId, row.expiresAt)
  }

  /** What a request in flight may rely on at each program counter. */
  predicate RequestOK(s: State, q: Request) {
    match q.pc
    case Reading => q.raw in s.used && (q.raw in s.minted ==> Issued(s.minted, s.chains, q.raw))
    case Checking(row) => Holds(s, q.raw, row)
    case LookingUp(row) => Holds(s, q.raw, row)
    case Stamping(row) => Holds(s, q.raw, row)
    case Minting(row, expiresAt) =>
      Holds(s, q.raw, row) && row.expiresAt <= expiresAt <= s.now + REFRESH_TOKEN_TTL
    case Swapping(row, successor) =>
      && Holds(s, q.raw, row)
      && successor in s.minted
      && !Issued(s.minted, s.chains, successor)
      && s.minted[successor].userId == row.userId
      && s.minted[successor].familyId == row.familyId
      && row.expiresAt <= s.minted[successor].expiresAt
      && (q.raw in s.rows ==> successor in s.rows && s.rows[successor].replacedBy.None?)
    case Killing(familyId) => familyId in s.chains
    case LoginMinting(_, expiresAt) => expiresAt <= s.now + REFRESH_TOKEN_TTL
    case _ => true
  }

  ghost predicate SwapsDistinct(requests: map<Id, Request>) {
    forall q, r | q in requests && r in requests && q != r && requests[q].pc.Swapping? && requests[r].pc.Swapping? ::
      requests[q].pc.successor != requests[r].pc.successor
  }

  ghost predicate Flight(s: State) {
    && (forall r | r in s.requests :: RequestOK(s, s.requests[r]))
    && SwapsDistinct(s.requests)
    && s.minted.Keys <= s.used
    && forall t | t in s.minted :: s.minted[t].expiresAt <= s.now + REFRESH_TOKEN_TTL
  }

  ghost predicate Inv(s: State) {
    Core(s.rows, s.minted, s.chains) && Flight(s)
  }

  // ---- Revocations: logout, replay kill, lost race ----

  /** `after` is `before` with some revocation times filled in. */
  ghost predicate OnlyRevokes(before: Table, after: Table) {
    && before.Keys == after.Keys
    && forall t | t in before ::
        || after[t] == before[t]
        || (before[t].revokedAt.None? && after[t].revokedAt.Some?
            && after[t] == before[t].(revokedAt := after[t].revokedAt))
  }

  lemma RevocationKeepsInv(s: State, rows: Table)
    requires Inv(s) && OnlyRevokes(s.rows, rows)
    ensures Inv(s.(rows := rows))
  {
    RevocationKeepsCore(s.rows, s.minted, s.chains, rows);
    RevocationKeepsFlight(s, rows);
  }

  lemma RevocationKeepsCore(rows: Table, minted: map<Id, Mint>, chains: map<Id, seq<Id>>, after: Table)
    requires Core(rows, minted, chains) && OnlyRevokes(rows, after)
    ensures Core(after, minted, chains)
  {
    forall f | f in chains ensures Linked(chains[f], after) {
      assert Linked(chains[f], rows);
    }
  }

  lemma RevocationKeepsFlight(s: State, rows: Table)
    requires Inv(s) && OnlyRevokes(s.rows, rows)
    ensures Flight(s.(rows := rows))
  {
    var s' := s.(rows := rows);
    forall r | r in s'.requests ensures RequestOK(s', s'.requests[r]) {
      assert RequestOK(s, s.requests[r]);
    }
  }

  // ---- Deletions: purge, user removal ----

  /** `after` keeps some rows, and never drops a token without its ancestors. */
  ghost predicate DropsAncestorsFirst(before: Table, after: Table) {
    && (forall t | t in after :: t in before && after[t] == before[t])
    && forall t, u | t in after && u in before && before[t].userId == before[u].userId
                     && before[t].expiresAt <= before[u].expiresAt :: u in after
  }

  lemma DeletionKeepsCore(rows: Table, minted: map<Id, Mint>, chains: map<Id, seq<Id>>, after: Table)
    requires Core(rows, minted, chains) && DropsAncestorsFirst(rows, after)
    ensures Core(after, minted, chains)
  {}

  lemma DeletionKeepsFlight(s: State, after: Table)
    requires Inv(s) && DropsAncestorsFirst(s.rows, after)
    ensures Flight(s.(rows := after))
  {}

  // ---- Requests ----

  /** Moving one request to a program counter whose facts hold leaves the others alone. */
  lemma GotoKeepsFlight(s: State, request: Id, pc: Pc)
    requires Flight(s) && request in s.requests
    requires RequestOK(s, s.requests[request].(pc := pc)) && !pc.Swapping?
    ensures Flight(Goto(s, request, pc))
  {}

  lemma NewTokenKeepsChain(f: Id, c: seq<Id>, rows: Table, minted: map<Id, Mint>, t: Id, row: Token, m: Mint)
    requires Ordered(f, c, minted) && Linked(c, rows) && t !in minted
    ensures Ordered(f, c, minted[t := m]) && Linked(c, rows[t := row])
  {}

  lemma InsertKeepsCore(s: State, t: Id, userId: Id, familyId: Id, expiresAt: Time)
    requires Inv(s) && t !in s.used
    ensures var s' := Insert(s, t, userId, familyId, expiresAt); Core(s'.rows, s'.minted, s'.chains)
  {
    var s' := Insert(s, t, userId, familyId, expiresAt);
    forall f | f in s.chains ensures Ordered(f, s.chains[f], s'.minted) && Linked(s.chains[f], s'.rows) {
      NewTokenKeepsChain(f, s.chains[f], s.rows, s.minted, t, s'.rows[t], s'.minted[t]);
    }
    forall u | u in s'.rows && !Issued(s'.minted, s'.chains, u) ensures s'.rows[u].replacedBy.None? {
      assert Issued(s.minted, s.chains, u) ==> Issued(s'.minted, s'.chains, u);
    }
  }

  /** A freshly drawn id is not in any chain, so minting issues nothing by itself. */
  lemma InsertIssuesNothing(s: State, t: Id, userId: Id, familyId: Id, expiresAt: Time)
    requires Inv(s) && t !in s.used
    ensures var s' := Insert(s, t, userId, familyId, expiresAt);
            forall u :: Issued(s'.minted, s'.chains, u) <==> Issued(s.minted, s.chains, u)
  {}

  lemma InsertKeepsFlight(s: State, t: Id, userId: Id, familyId: Id, expiresAt: Time)
    requires Inv(s) && t !in s.used && expiresAt <= s.now + REFRESH_TOKEN_TTL
    ensures Flight(Insert(s, t, userId, familyId, expiresAt))
  {
    var s' := Insert(s, t, userId, familyId, expiresAt);
    InsertIssuesNothing(s, t, userId, familyId, expiresAt);
    forall r | r in s'.requests ensures RequestOK(s', s'.requests[r]) {
      assert RequestOK(s, s.requests[r]);
    }
  }

  /** The token a swap succeeds on is the last of its chain. */
  lemma LiveIsLast(rows: Table, minted: map<Id, Mint>, chains: map<Id, seq<Id>>, t: Id)
    requires Core(rows, minted, chains) && Issued(minted, chains, t) && Live(rows, t)
    ensures var c := chains[minted[t].familyId]; |c| > 0 && t == c[|c| - 1]
  {}

  /** Appending the successor of a chain's live last token. */
  lemma ExtendChain(f: Id, c: seq<Id>, rows: Table, minted: map<Id, Mint>, n: Id, at: Time)
    requires Ordered(f, c, minted) && Linked(c, rows)
    requires Live(rows, c[|c| - 1]) && n !in c && n in minted && n in rows
    requires minted[n].familyId == f && minted[n].userId == minted[c[|c| - 1]].userId
    requires minted[c[|c| - 1]].expiresAt <= minted[n].expiresAt
    ensures Ordered(f, c + [n], minted)
    ensures Linked(c + [n], Exchange(rows, c[|c| - 1], at, n))
  {}

  lemma ElsewhereUntouched(f: Id, g: Id, c: seq<Id>, rows: Table, minted: map<Id, Mint>, t: Id, row: Token)
    requires Ordered(g, c, minted) && Linked(c, rows)
    requires t in rows && t in minted && minted[t].familyId == f && f != g
    ensures Linked(c, rows[t := row])
  {}

  /** The token at the end of its chain is exchanged for one that was minted and not issued. */
  ghost predicate Exchanging(rows: Table, minted: map<Id, Mint>, chains: map<Id, seq<Id>>, t: Id, n: Id) {
    && Issued(minted, chains, t) && Live(rows, t)
    && n in minted && n in rows && rows[n].replacedBy.None? && !Issued(minted, chains, n)
    && minted[n].familyId == minted[t].familyId && minted[n].userId == minted[t].userId
    && minted[t].expiresAt <= minted[n].expiresAt
  }

  lemma SwapKeepsChain(rows: Table, minted: map<Id, Mint>, chains: map<Id, seq<Id>>, t: Id, n: Id, at: Time, g: Id)
    requires Core(rows, minted, chains) && Exchanging(rows, minted, chains, t, n) && g in chains
    ensures var f := minted[t].familyId;
            var c := if g == f then chains[f] + [n] else chains[g];
            Ordered(g, c, minted) && Linked(c, Exchange(rows, t, at, n))
  {
    var f := minted[t].familyId;
    LiveIsLast(rows, minted, chains, t);
    if g == f {
      ExtendChain(f, chains[f], rows, minted, n, at);
    } else {
      ElsewhereUntouched(f, g, chains[g], rows, minted, t, Exchange(rows, t, at, n)[t]);
    }
  }

  lemma SwapKeepsSuccessors(rows: Table, minted: map<Id, Mint>, chains: map<Id, seq<Id>>, t: Id, n: Id, at: Time)
    requires Core(rows, minted, chains) && Exchanging(rows, minted, chains, t, n)
    ensures var f := minted[t].familyId;
            SuccessorsOnlyInside(Exchange(rows, t, at, n), minted, chains[f := chains[f] + [n]])
  {
    var f := minted[t].familyId;
    var rows', chains' := Exchange(rows, t, at, n), chains[f := chains[f] + [n]];
    assert Issued(minted, chains', t);
    forall u | u in rows' && !Issued(minted, chains', u) ensures rows'[u].replacedBy.None? {
      assert Issued(minted, chains, u) ==> Issued(minted, chains', u);
    }
    forall g | g in chains && g != f && |chains[g]| > 0 ensures chains[g][|chains[g]| - 1] != t {
      assert Ordered(g, chains[g], minted);
    }
  }

  lemma SwapKeepsCore(rows: Table, minted: map<Id, Mint>, chains: map<Id, seq<Id>>, t: Id, n: Id, at: Time)
    requires Core(rows, minted, chains) && Exchanging(rows, minted, chains, t, n)
    ensures var f := minted[t].familyId;
            Core(Exchange(rows, t, at, n), minted, chains[f := chains[f] + [n]])
  {
    var f := minted[t].familyId;
    var rows', chains' := Exchange(rows, t, at, n), chains[f := chains[f] + [n]];
    forall g | g in chains' ensures Ordered(g, chains'[g], minted) && Linked(chains'[g], rows') {
      SwapKeepsChain(rows, minted, chains, t, n, at, g);
    }
    SwapKeepsSuccessors(rows, minted, chains, t, n, at);
  }

  lemma SwapKeepsFlight(s: State, request: Id, at: Time)
    requires Inv(s) && request in s.requests && s.requests[request].pc.Swapping?
    requires Live(s.rows, s.requests[request].raw)
    ensures Flight(AdvanceStep(s, request, 0, 0, at))
  {
    var q := s.requests[request];
    var n, f := q.pc.successor, q.pc.row.familyId;
    var s' := AdvanceStep(s, request, 0, 0, at);
    assert RequestOK(s, q);
    assert forall t :: Issued(s'.minted, s'.chains, t) <==> Issued(s.minted, s.chains, t) || t == n;
    forall r | r in s'.requests ensures RequestOK(s', s'.requests[r]) {
      assert RequestOK(s, s.requests[r]);
    }
  }

  lemma LoginKeepsInv(s: State, request: Id, newId: Id, family: Id, at: Time)
    requires Inv(s) && request in s.requests && s.requests[request].pc.LoginMinting?
    requires newId !in s.used && family !in s.chains
    ensures Inv(AdvanceStep(s, request, newId, family, at))
  {
    var LoginMinting(userId, expiresAt) := s.requests[request].pc;
    assert RequestOK(s, s.requests[request]);
    if userId !in s.users {
      GotoKeepsFlight(s, request, Finished(Rejected));
    } else {
      InsertKeepsCore(s, newId, userId, family, expiresAt);
      InsertKeepsFlight(s, newId, userId, family, expiresAt);
      OpenFamily(Insert(s, newId, userId, family, expiresAt), request, newId, family);
    }
  }

  /** A login's token becomes the first of a new chain. */
  lemma OpenFamily(s: State, request: Id, t: Id, family: Id)
    requires Inv(s) && request in s.requests && family !in s.chains
    requires t in s.minted && s.minted[t].familyId == family && t in s.rows && s.rows[t].replacedBy.None?
    requires forall r | r in s.requests && s.requests[r].pc.Swapping? :: s.requests[r].pc.successor != t
    ensures Inv(Goto(s.(chains := s.chains[family := [t]]), request, Finished(Accepted(t))))
  {
    var s' := s.(chains := s.chains[family := [t]]);
    OpenKeepsCore(s.rows, s.minted, s.chains, t, family);
    OpenKeepsFlight(s, t, family);
    GotoKeepsFlight(s', request, Finished(Accepted(t)));
  }

  lemma OpenKeepsCore(rows: Table, minted: map<Id, Mint>, chains: map<Id, seq<Id>>, t: Id, family: Id)
    requires Core(rows, minted, chains) && family !in chains
    requires t in minted && minted[t].familyId == family && t in rows && rows[t].replacedBy.None?
    ensures Core(rows, minted, chains[family := [t]])
  {
    forall u | u in rows && !Issued(minted, chains[family := [t]], u) ensures rows[u].replacedBy.None? {
      assert Issued(minted, chains, u) ==> Issued(minted, chains[family := [t]], u);
    }
  }

  lemma OpenKeepsFlight(s: State, t: Id, family: Id)
    requires Inv(s) && family !in s.chains && t in s.minted && s.minted[t].familyId == family
    requires forall r | r in s.requests && s.requests[r].pc.Swapping? :: s.requests[r].pc.successor != t
    ensures Flight(s.(chains := s.chains[family := [t]]))
  {
    var s' := s.(chains := s.chains[family := [t]]);
    assert forall u :: Issued(s'.minted, s'.chains, u) <==> Issued(s.minted, s.chains, u) || u == t by {
      forall f | f in s.chains ensures t !in s.chains[f] {
        assert Ordered(f, s.chains[f], s.minted);
      }
    }
    forall r | r in s'.requests ensures RequestOK(s', s'.requests[r]) {
      assert RequestOK(s, s.requests[r]);
    }
  }

  lemma SwapKeepsInv(s: State, request: Id, at: Time)
    requires Inv(s) && request in s.requests && s.requests[request].pc.Swapping?
    ensures Inv(AdvanceStep(s, request, 0, 0, at))
  {
    var q := s.requests[request];
    assert RequestOK(s, q);
    if Live(s.rows, q.raw) {
      SwapKeepsCore(s.rows, s.minted, s.chains, q.raw, q.pc.successor, at);
      SwapKeepsFlight(s, request, at);
    } else {
      GotoKeepsFlight(s, request, Killing(q.pc.row.familyId));
    }
  }

  lemma MintKeepsInv(s: State, request: Id, newId: Id, at: Time)
    requires Inv(s) && request in s.requests && s.requests[request].pc.Minting? && newId !in s.used
    ensures Inv(AdvanceStep(s, request, newId, 0, at))
  {
    var Minting(row, expiresAt) := s.requests[request].pc;
    assert RequestOK(s, s.requests[request]);
    if row.userId !in s.users {
      GotoKeepsFlight(s, request, Finished(Rejected));
    } else {
      var m := Insert(s, newId, row.userId, row.familyId, expiresAt);
      InsertKeepsCore(s, newId, row.userId, row.familyId, expiresAt);
      InsertKeepsFlight(s, newId, row.userId, row.familyId, expiresAt);
      InsertIssuesNothing(s, newId, row.userId, row.familyId, expiresAt);
      StartSwap(m, request, row, newId);
    }
  }

  lemma StartSwap(s: State, request: Id, row: Token, n: Id)
    requires Flight(s) && request in s.requests
    requires RequestOK(s, s.requests[request].(pc := Swapping(row, n)))
    requires forall r | r in s.requests && s.requests[r].pc.Swapping? :: s.requests[r].pc.successor != n
    ensures Flight(Goto(s, request, Swapping(row, n)))
  {}

  lemma AdvanceKeepsInv(s: State, request: Id, newId: Id, family: Id, at: Time)
    requires Inv(s) && request in s.requests && newId !in s.used && family !in s.chains && at <= s.now
    ensures Inv(AdvanceStep(s, request, newId, family, at))
  {
    var q := s.requests[request];
    var s' := AdvanceStep(s, request, newId, family, at);
    assert RequestOK(s, q);
    match q.pc
    case Reading =>
      GotoKeepsFlight(s, request, s'.requests[request].pc);
    case Checking(_) => GotoKeepsFlight(s, request, s'.requests[request].pc);
    case LookingUp(_) => GotoKeepsFlight(s, request, s'.requests[request].pc);
    case Stamping(_) => GotoKeepsFlight(s, request, s'.requests[request].pc);
    case Minting(_, _) => MintKeepsInv(s, request, newId, at);
    case Swapping(_, _) => SwapKeepsInv(s, request, at);
    case Killing(familyId) =>
      RevocationKeepsInv(s, RevokeFamily(s.rows, familyId, at));
      GotoKeepsFlight(s.(rows := RevokeFamily(s.rows, familyId, at)), request, Finished(Rejected));
    case LoginStamping(_) => GotoKeepsFlight(s, request, s'.requests[request].pc);
    case LoginMinting(_, _) => LoginKeepsInv(s, request, newId, family, at);
    case Finished(_) =>
  }

  lemma BeginKeepsFlight(s: State, request: Id, q: Request)
    requires Flight(s) && request !in s.requests && !q.pc.Swapping?
    requires RequestOK(s.(used := s.used + {q.raw}), q)
    ensures Flight(s.(requests := s.requests[request := q], used := s.used + {q.raw}))
    ensures q.pc.LoginStamping? ==> Flight(s.(requests := s.requests[request := q]))
  {
    forall r | r in s.requests ensures RequestOK(s.(requests := s.requests[request := q]), s.requests[r])
                                    && RequestOK(s.(requests := s.requests[request := q], used := s.used + {q.raw}),
                                                   s.requests[r]) {
      assert RequestOK(s, s.requests[r]);
    }
  }

  lemma TickKeepsFlight(s: State, elapsed: nat)
    requires Flight(s)
    ensures Flight(s.(now := s.now + elapsed))
  {}

  /** Users come and go without touching what the requests rely on. */
  lemma UsersKeepInv(s: State, users: set<Id>)
    requires Inv(s)
    ensures Inv(s.(users := users))
  {}

  lemma RemovalKeepsInv(s: State, userId: Id)
    requires Inv(s)
    ensures Inv(s.(users := s.users - {userId}, rows := DropUser(s.rows, userId)))
  {
    UsersKeepInv(s, s.users - {userId});
    DeletionKeepsInv(s.(users := s.users - {userId}), DropUser(s.rows, userId));
  }

  lemma DeletionKeepsInv(s: State, after: Table)
    requires Inv(s) && DropsAncestorsFirst(s.rows, after)
    ensures Inv(s.(rows := after))
  {
    DeletionKeepsCore(s.rows, s.minted, s.chains, after);
    DeletionKeepsFlight(s, after);
  }

  lemma StepKeepsInv(s: State, a: Action)
    requires Inv(s)
    ensures Inv(Step(s, a))
  {
    if Enabled(s, a) {
      match a
      case Tick(elapsed) => TickKeepsFlight(s, elapsed);
      case AddUser(userId) => UsersKeepInv(s, s.users + {userId});
      case RemoveUser(userId) => RemovalKeepsInv(s, userId);
      case Purge(cutoff) => DeletionKeepsInv(s, PurgeExpired(s.rows, cutoff));
      case Logout(raw, at) => RevocationKeepsInv(s, RevokeOne(s.rows, raw, at));
      case BeginLogin(request, userId) => BeginKeepsFlight(s, request, Request(0, LoginStamping(userId)));
      case BeginRefresh(request, raw) => BeginKeepsFlight(s, request, Request(raw, Reading));
      case Advance(request, newId, family, at) => AdvanceKeepsInv(s, request, newId, family, at);
    }
  }

  lemma {:induction false} RunKeepsInv(s: State, actions: seq<Action>)
    requires Inv(s)
    ensures Inv(Run(s, actions))
    decreases |actions|
  {
    if actions != [] {
      StepKeepsInv(s, actions[0]);
      RunKeepsInv(Step(s, actions[0]), actions[1..]);
    }
  }
}
