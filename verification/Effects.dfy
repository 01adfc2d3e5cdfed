/** What the caller of a service may rely on: which row changes, what stays fixed, which answers are possible. */
module Effects {
  import opened Common
  import opened Schema
  import opened Invariants
  import opened ModuleUrl
  import opened TokenTable
  import opened Deletion
  import Members
  import Tenants
  import Tickets
  import ModuleAccess

  // ---- Sessions ----

  /** Only the presented token can change, its other columns stay, and from now on presenting it is always refused. */
  ghost predicate LoggedOut(before: Table, after: Table, raw: Id, at: Time) {
    && after.Keys == before.Keys
    && (forall t | t in before && t != raw :: after[t] == before[t])
    && (raw in before ==> SameToken(before[raw], after[raw]))
    && (raw in before && before[raw].revokedAt.None? ==> after[raw].revokedAt == Some(at))
    && (forall users, now, newId :: AtomicRefresh(after, users, now, raw, newId).0 == Rejected)
  }

  /** Equal but for a revocation time that is filled in if it was missing. */
  predicate SameToken(a: Token, b: Token) {
    a.userId == b.userId && a.familyId == b.familyId && a.expiresAt == b.expiresAt && a.replacedBy == b.replacedBy
    && (a.revokedAt.Some? ==> b.revokedAt == a.revokedAt)
  }

  lemma LogoutEndsTheSession(rows: Table, raw: Id, at: Time)
    ensures LoggedOut(rows, RevokeOne(rows, raw, at), raw, at)
  {}

  // ---- Accounts ----

  ghost predicate DistinctEmails(users: map<Id, User>) {
    forall u, v | u in users && v in users && users[u].email == users[v].email :: u == v
  }

  /** At most the row of this user, and the id supply, differ. */
  ghost predicate OnlyUser(before: Db, after: Db, id: Id) {
    && after == before.(users := after.users, nextId := after.nextId)
    && forall u | u != id :: (u in after.users <==> u in before.users)
                             && (u in before.users ==> after.users[u] == before.users[u])
  }

  /** The account asked for, with nothing pending. */
  predicate IsNew(u: User, email: string, name: string, role: Role, tenantId: Option<Id>, level: Option<Level>,
                  now: Time)
  {
    u.email == email && u.name == name && u.role == role && u.tenantId == tenantId && u.level == level
    && u.createdAt == now && u.pendingSince.None?
  }

  ghost predicate UserCreated(before: Db, after: Db, r: Answer, email: string, name: string, role: Role,
                              tenantId: Option<Id>, level: Option<Level>, now: Time)
  {
    var fits := role.Analyst? <==> level.Some?;
    && (r.Ok? <==> !role.SuperAdmin? && fits && !EmailTaken(before, email)
                   && (tenantId.Some? ==> tenantId.value in before.tenants))
    && (r == Err(Forbidden) <==> role.SuperAdmin?)
    && (r == Err(BadRequest) <==> !role.SuperAdmin? && !fits)
    && (r == Err(Conflict) <==> !role.SuperAdmin? && fits && EmailTaken(before, email))
    && (r.Err? ==> after == before)
    && (r.Ok? ==>
          && r.value.Created? && before.nextId <= r.value.id < after.nextId
          && OnlyUser(before, after, r.value.id) && r.value.id in after.users
          && IsNew(after.users[r.value.id], email, name, role, tenantId, level, now))
    && (DistinctEmails(before.users) ==> DistinctEmails(after.users))
  }

  lemma CreateUserCreatesOne(
      db: Db, email: string, name: string, role: Role, tenantId: Option<Id>, level: Option<Level>, now: Time)
    ensures var (r, d) := Members.CreateUser(db, email, name, role, tenantId, level, now);
            UserCreated(db, d, r, email, name, role, tenantId, level, now)
  {}

  /** An Admin adds Admins and Analysts, and only to the tenant of the token. */
  ghost predicate AccountAdded(before: Db, after: Db, r: Answer, c: Claims, email: string, name: string, role: Role,
                               level: Option<Level>, now: Time)
  {
    && (r.Ok? ==> c.role.Admin? && c.tenantId.Some? && (role.Admin? || role.Analyst?))
    && (!c.role.Admin? ==> r == Err(Forbidden))
    && (c.role.Admin? && !role.Admin? && !role.Analyst? ==> r == Err(BadRequest))
    && (c.role.Admin? && c.tenantId.Some? && (role.Admin? || role.Analyst?) ==>
          UserCreated(before, after, r, email, name, role, c.tenantId, level, now))
    && (r.Err? ==> after == before)
  }

  lemma AdminAddsToOwnTenant(
      db: Db, c: Claims, email: string, name: string, role: Role, level: Option<Level>, now: Time)
    ensures var (r, d) := Members.CreateUserByAdmin(db, c, email, name, role, level, now);
            AccountAdded(db, d, r, c, email, name, role, level, now)
  {
    CreateUserCreatesOne(db, email, name, role, c.tenantId, level, now);
  }

  /** A tenant and its first Admin appear together, or, if the email is taken, neither does. */
  ghost predicate TenantCreated(before: Db, after: Db, r: Answer, email: string, name: string, now: Time) {
    && (r.Ok? <==> !EmailTaken(before, email))
    && (r.Err? ==> r == Err(Conflict) && after == before)
    && (r.Ok? ==>
          && r.value.Created? && after.tenants == before.tenants + {r.value.id} && AdminsOf(after, r.value.id) != {}
          && after == before.(tenants := after.tenants, users := after.users, nextId := after.nextId)
          && before.users.Keys <= after.users.Keys
          && (forall u | u in before.users :: after.users[u] == before.users[u])
          && (forall u, v | u in after.users && v in after.users && u !in before.users && v !in before.users :: u == v)
          && (forall u | u in after.users && u !in before.users ::
                IsNew(after.users[u], email, name, Admin, Some(r.value.id), None, now)))
  }

  lemma CreateTenantCreatesBoth(db: Db, email: string, name: string, now: Time)
    requires IdsOK(db)
    ensures var (r, d) := Tenants.CreateTenantWithAdmin(db, email, name, now); TenantCreated(db, d, r, email, name, now)
  {
    var (r, d) := Tenants.CreateTenantWithAdmin(db, email, name, now);
    assert r.Ok? ==> db.nextId + 1 in AdminsOf(d, db.nextId);
  }

  /** An Admin edits email and name of members of the own tenant; an email of somebody else is refused. */
  ghost predicate ProfileEdited(before: Db, after: Db, r: Answer, c: Claims, id: Id, email: Option<string>,
                                name: Option<string>)
  {
    var mayEdit := c.role.Admin? && c.tenantId.Some?;
    && (r == Err(Forbidden) <==> !mayEdit)
    && (r == Err(NotFound) <==> mayEdit && !InTenant(before, id, c.tenantId.value))
    && (r == Err(Conflict) <==> mayEdit && InTenant(before, id, c.tenantId.value) && email.Some?
                                && exists v | v in before.users :: v != id && before.users[v].email == email.value)
    && (r.Err? ==> after == before && (r.error.Forbidden? || r.error.NotFound? || r.error.Conflict?))
    && (r.Ok? ==>
          && OnlyUser(before, after, id) && id in before.users && id in after.users
          && var u, v := before.users[id], after.users[id];
             && v == u.(email := v.email, name := v.name)
             && (if email.Some? then v.email == email.value else v.email == u.email)
             && (if name.Some? then v.name == name.value else v.name == u.name))
  }

  lemma EditChangesTheProfile(db: Db, c: Claims, id: Id, email: Option<string>, name: Option<string>)
    ensures var (r, d) := Members.UpdateUserById(db, c, id, email, name); ProfileEdited(db, d, r, c, id, email, name)
  {}

  /** Role and level of one member change, nothing else; a tenant that had an Admin still has one. */
  ghost predicate RoleChanged(before: Db, after: Db, r: Answer, id: Id, tenantId: Id,
            role: Role, level: Option<Level>) {
    var fits, member := role.Analyst? <==> level.Some?, InTenant(before, id, tenantId);
    && (r.Ok? <==> fits && member
                   && (IsAdminOf(before, id, tenantId) && !role.Admin? ==> AdminsOf(before, tenantId) - {id} != {}))
    && (r == Err(BadRequest) <==> !fits)
    && (r == Err(NotFound) <==> fits && !member)
    && (r.Err? ==> after == before && (r.error.BadRequest? || r.error.NotFound? || r.error.Conflict?))
    && (r.Ok? ==>
          && OnlyUser(before, after, id) && id in after.users
          && after.users[id] == before.users[id].(role := role, level := level))
    && (AdminsOf(before, tenantId) != {} ==> AdminsOf(after, tenantId) != {})
    && (forall t | t != tenantId :: AdminsOf(after, t) == AdminsOf(before, t))
  }

  lemma RoleChangeSparesAnAdmin(db: Db, id: Id, tenantId: Id, role: Role, level: Option<Level>)
    ensures var (r, d) := Members.ChangeRoleForTenant(db, id, tenantId, role, level);
            RoleChanged(db, d, r, id, tenantId, role, level)
  {
    var (r, d) := Members.ChangeRoleForTenant(db, id, tenantId, role, level);
    if IsAdminOf(db, id, tenantId) {
      LastAdminIff(AdminsOf(db, tenantId), id);
    }
    if r.Ok? && AdminsOf(db, tenantId) != {} {
      AnotherAdminStays(db, d, id, tenantId);
    }
  }

  /** The count guard of a demotion: at most one Admin, the target being one, means no other. */
  lemma LastAdminIff(admins: set<Id>, id: Id)
    requires id in admins
    ensures |admins| <= 1 <==> admins - {id} == {}
  {
    assert admins == (admins - {id}) + {id};
  }

  lemma AnotherAdminStays(db: Db, d: Db, id: Id, tenantId: Id)
    requires AdminsOf(db, tenantId) != {} && OnlyUser(db, d, id)
         && InTenant(db, id, tenantId) && InTenant(d, id, tenantId)
    requires !db.users[id].role.Admin? || d.users[id].role.Admin? || |AdminsOf(db, tenantId)| > 1
    ensures AdminsOf(d, tenantId) != {}
  {
    var admins := AdminsOf(db, tenantId);
    if d.users[id].role.Admin? {
      assert id in AdminsOf(d, tenantId);
    } else {
      assert |{id}| == 1 && admins != {id};
      var v :| v in admins && v != id;
      assert v in AdminsOf(d, tenantId);
    }
  }

  /** An Admin never changes their own role or anybody's outside their tenant, and the row they leave is well formed. */
  ghost predicate RoleChangedBy(before: Db, after: Db, r: Answer, c: Claims, id: Id, role: Role, level: Option<Level>) {
    var passes := c.role.Admin? && (role.Admin? || role.Analyst?) && c.tenantId.Some? && id != c.userId;
    && (passes ==> RoleChanged(before, after, r, id, c.tenantId.value, role, level))
    && (!passes ==> r == if c.role.Admin? && !role.Admin? && !role.Analyst? then Err(BadRequest) else Err(Forbidden))
    && (r.Err? ==> after == before)
    && (c.userId in before.users ==> c.userId in after.users && after.users[c.userId] == before.users[c.userId])
    && (r.Ok? ==> id in after.users && WellRoled(after.users[id]))
    && (forall t | AdminsOf(before, t) != {} :: AdminsOf(after, t) != {})
  }

  lemma RoleChangeStaysInTenant(db: Db, c: Claims, id: Id, role: Role, level: Option<Level>)
    ensures var (r, d) := Members.UpdateUserRoleById(db, c, id, role, level);
            RoleChangedBy(db, d, r, c, id, role, level)
  {
    if c.tenantId.Some? {
      RoleChangeSparesAnAdmin(db, id, c.tenantId.value, role, level);
    }
  }

  /** No row of any table names the user any more. */
  ghost predicate Forgotten(db: Db, id: Id) {
    && id !in db.users
    && (forall r | r in db.tokens :: db.tokens[r] != id)
    && (forall r | r in db.histories :: db.histories[r] != id)
    && (forall n | n in db.notifications :: db.notifications[n].userId != id)
    && (forall k | k in db.tickets :: db.tickets[k].createdById != Some(id))
  }

  /** Tickets survive with their text and lose only this creator. */
  ghost predicate TicketsSurvive(before: map<Id, Ticket>, after: map<Id, Ticket>, id: Id) {
    after.Keys == before.Keys && forall k | k in before ::
      after[k] == before[k].(createdById := if before[k].createdById == Some(id) then None else before[k].createdById)
  }

  /** Every trace of the account is gone and everything else is as it was. */
  ghost predicate OnlyUserGone(before: Db, after: Db, id: Id) {
    && Forgotten(after, id) && after.users == before.users - {id}
    && TicketsSurvive(before.tickets, after.tickets, id)
    && (forall n | n in before.notifications && before.notifications[n].userId != id ::
          n in after.notifications && after.notifications[n] == before.notifications[n])
    && (forall n | n in after.notifications :: n in before.notifications)
    && (forall t | t in before.tokens && before.tokens[t] != id ::
          t in after.tokens && after.tokens[t] == before.tokens[t])
    && (forall t | t in before.histories && before.histories[t] != id ::
          t in after.histories && after.histories[t] == before.histories[t])
    && after.tenants == before.tenants && after.subscriptions == before.subscriptions
    && after.launches == before.launches && after.endpoints == before.endpoints && after.bus == before.bus
  }

  ghost predicate UserDeleted(before: Db, after: Db, r: Answer, c: Claims, id: Id) {
    var mayTry := c.role.Admin? && c.tenantId.Some? && id != c.userId;
    && (r == Err(Forbidden) <==> !mayTry)
    && (r == Err(NotFound) <==> mayTry && !InTenant(before, id, c.tenantId.value))
    && (r.Ok? <==> mayTry && InTenant(before, id, c.tenantId.value))
    && (r.Err? ==> after == before)
    && (r.Ok? ==> OnlyUserGone(before, after, id))
  }

  lemma RemovalForgets(db: Db, id: Id)
    ensures OnlyUserGone(db, UserRemoved(db, id), id)
  {}

  lemma DeletionForgetsTheUser(db: Db, c: Claims, id: Id)
    ensures var (r, d) := Members.DeleteUserById(db, c, id); UserDeleted(db, d, r, c, id)
  {
    RemovalForgets(db, id);
  }

  lemma IntegrationAdminIsForgotten(db: Db, id: Id)
    ensures var (r, d) := Members.RemoveIntegrationAdmin(db, id);
            && (r.Ok? <==> id in db.users && db.users[id].role.IntegrationAdmin?)
            && (r.Err? ==> r == Err(NotFound) && d == db)
            && (r.Ok? ==> OnlyUserGone(db, d, id))
  {
    RemovalForgets(db, id);
  }

  // ---- Password requests and resets ----

  /** The request of one account is recorded or cleared, and nothing else changes but what is added to the history. */
  ghost predicate OnlyPending(before: Db, after: Db, id: Id, pendingSince: Option<Time>) {
    && id in before.users && after.users.Keys == before.users.Keys
    && after.users[id] == before.users[id].(pendingSince := pendingSince)
    && (forall u | u in before.users && u != id :: after.users[u] == before.users[u])
    && after == before.(users := after.users, histories := after.histories, nextId := after.nextId)
  }

  /** A reset clears the request and leaves one more history row of the account. */
  ghost predicate ResetDone(before: Db, after: Db, r: Answer, id: Id, may: bool, refused: bool) {
    && (r.Ok? <==> may && !refused)
    && (may && refused ==> r == Err(Conflict))
    && (r.Err? ==> after == before)
    && (r.Ok? ==> OnlyPending(before, after, id, None) && before.histories.Keys <= after.histories.Keys
                  && (forall h | h in before.histories :: after.histories[h] == before.histories[h])
                  && (forall h | h in after.histories && h !in before.histories :: after.histories[h] == id)
                  && exists h :: h in after.histories && h !in before.histories)
  }

  /** The two reset paths: an Admin for a colleague in the tenant, a Super Admin for the only Admin of a tenant. */
  predicate MayReset(db: Db, c: Claims, id: Id) {
    || (c.role.Admin? && c.tenantId.Some? && id != c.userId && InTenant(db, id, c.tenantId.value))
    || (c.role.SuperAdmin? && id in db.users && db.users[id].role.Admin? && db.users[id].tenantId.Some?
        && AdminsOf(db, db.users[id].tenantId.value) == {id})
  }

  lemma ApplyResetIsDone(db: Db, id: Id, refused: bool)
    requires IdsOK(db) && id in db.users
    ensures var (r, d) := Members.ApplyPasswordReset(db, id, refused); ResetDone(db, d, r, id, true, refused)
  {
    var (r, d) := Members.ApplyPasswordReset(db, id, refused);
    assert !refused ==> db.nextId in d.histories && db.nextId !in db.histories;
  }

  lemma SoleAdminIff(admins: set<Id>, id: Id)
    requires id in admins
    ensures |admins| > 1 <==> admins != {id}
  {
    assert admins == (admins - {id}) + {id};
  }

  lemma ResetGoesThroughIff(db: Db, c: Claims, id: Id, refused: bool)
    requires IdsOK(db)
    ensures var (r, d) := Members.ResetUserPassword(db, c, id, refused);
            ResetDone(db, d, r, id, MayReset(db, c, id), refused)
  {
    if id in db.users {
      ApplyResetIsDone(db, id, refused);
      if db.users[id].role.Admin? && db.users[id].tenantId.Some? {
        assert id in AdminsOf(db, db.users[id].tenantId.value);
        SoleAdminIff(AdminsOf(db, db.users[id].tenantId.value), id);
      }
    }
  }

  lemma IntegrationResetGoesThroughIff(db: Db, id: Id, refused: bool)
    requires IdsOK(db)
    ensures var (r, d) := Members.ResetIntegrationAdminPassword(db, id, refused);
            ResetDone(db, d, r, id, id in db.users && db.users[id].role.IntegrationAdmin?, refused)
  {
    if id in db.users {
      ApplyResetIsDone(db, id, refused);
    }
  }

  /** The public route answers alike whatever it did; it records a request of the account with that email, if any. */
  ghost predicate Requested(before: Db, after: Db, r: Answer, email: string, now: Time) {
    && r == Ok(Done)
    && (forall u | u in before.users && before.users[u].email == email && !before.users[u].role.SuperAdmin? ::
          OnlyPending(before, after, u, Some(now)) && after.histories == before.histories)
    && ((forall u | u in before.users && before.users[u].email == email :: before.users[u].role.SuperAdmin?) ==>
          after == before)
  }

  lemma ForgottenPasswordIsRecorded(db: Db, email: string, now: Time)
    requires UsersOK(db.users)
    ensures var (r, d) := Members.RequestPasswordReset(db, email, now); Requested(db, d, r, email, now)
  {
    if u :| u in db.users && db.users[u].email == email {
      assert Members.UniqueEmail(db, u);
    }
  }

  lemma OwnRequestIsRecorded(db: Db, c: Claims, now: Time)
    ensures var (r, d) := Members.RequestOwnPasswordChange(db, c, now);
            && (r.Ok? <==> c.userId in db.users)
            && (r.Err? ==> d == db)
            && (r.Ok? ==> OnlyPending(db, d, c.userId, Some(now)) && d.histories == db.histories)
  {}

  // ---- Notifications ----

  /** A row keeps its owner, ticket and kind, and its read mark once it has one. */
  predicate ReadSince(a: Notification, b: Notification, now: Time) {
    a.userId == b.userId && a.ticketId == b.ticketId && a.kind == b.kind
    && b.readAt == if a.readAt.Some? then a.readAt else Some(now)
  }

  ghost predicate OnlyReads(before: Db, after: Db, read: set<Id>, now: Time) {
    && after == before.(notifications := after.notifications)
    && after.notifications.Keys == before.notifications.Keys
    && (forall n | n in before.notifications && n !in read :: after.notifications[n] == before.notifications[n])
    && (forall n | n in before.notifications && n in read ::
          ReadSince(before.notifications[n], after.notifications[n], now))
  }

  /** Succeeds exactly on a notification of the caller, which is read afterwards; no other row changes. */
  ghost predicate OneRead(before: Db, after: Db, r: Answer, c: Claims, id: Id, now: Time) {
    && (r.Ok? <==> id in before.notifications && before.notifications[id].userId == c.userId)
    && (r.Err? ==> r == Err(NotFound) && after == before)
    && (r.Ok? ==> OnlyReads(before, after, {id}, now) && r.value == Unread(|Tickets.UnreadOf(after, c.userId)|))
  }

  lemma MarkReadReadsOne(db: Db, c: Claims, id: Id, now: Time)
    ensures var (r, d) := Tickets.MarkRead(db, c, id, now); OneRead(db, d, r, c, id, now)
  {}

  /** Exactly the caller's rows are read, and the zero returned is their new unread count. */
  ghost predicate AllRead(before: Db, after: Db, r: Answer, c: Claims, now: Time) {
    && OnlyReads(before, after, (set n | n in before.notifications && before.notifications[n].userId == c.userId), now)
    && r == Ok(Unread(|Tickets.UnreadOf(after, c.userId)|))
  }

  lemma MarkAllReadReadsOwn(db: Db, c: Claims, now: Time)
    ensures var (r, d) := Tickets.MarkAllRead(db, c, now); AllRead(db, d, r, c, now)
  {
    assert Tickets.UnreadOf(Tickets.MarkAllRead(db, c, now).1, c.userId) == {};
  }

  // ---- Modules ----

  /** At most this subscription differs. */
  ghost predicate OnlySubscription(before: Db, after: Db, tenantId: Id, m: ModuleName) {
    && after == before.(subscriptions := after.subscriptions)
    && forall s | s != (tenantId, m) :: (s in after.subscriptions <==> s in before.subscriptions)
                                        && (s in before.subscriptions ==>
                                               after.subscriptions[s] == before.subscriptions[s])
  }

  lemma {:induction false} SameList(db: Db, d: Db, t: Id, role: Role, level: Option<Level>, names: seq<ModuleName>)
    requires d.endpoints == db.endpoints
    requires forall m :: ((t, m) in d.subscriptions <==> (t, m) in db.subscriptions)
                         && ((t, m) in db.subscriptions ==> d.subscriptions[(t, m)] == db.subscriptions[(t, m)])
    ensures ModuleAccess.ListAmong(d, t, role, level, names) == ModuleAccess.ListAmong(db, t, role, level, names)
  {
    if names != [] {
      SameList(db, d, t, role, level, names[1..]);
    }
  }

  /** What the users of other tenants are shown, among any modules, does not change. */
  ghost predicate OthersSeeTheSame(before: Db, after: Db, tenantId: Id) {
    forall t, role, level, names | t != tenantId ::
      ModuleAccess.ListAmong(after, t, role, level, names) == ModuleAccess.ListAmong(before, t, role, level, names)
  }

  lemma OneSubscriptionIsPrivate(before: Db, after: Db, tenantId: Id, m: ModuleName)
    requires OnlySubscription(before, after, tenantId, m)
    ensures OthersSeeTheSame(before, after, tenantId)
  {
    forall t, role, level, names | t != tenantId
      ensures ModuleAccess.ListAmong(after, t, role, level, names)
              == ModuleAccess.ListAmong(before, t, role, level, names)
    {
      SameList(before, after, t, role, level, names);
    }
  }

  /** Which Analysts a minimum level lets in, written out. */
  function OpenTo(minLevel: Level): set<Level> {
    match minLevel
    case L1 => {L1, L2, L3}
    case L2 => {L2, L3}
    case L3 => {L3}
  }

  /** Which Analysts have a module once a Super Admin has activated it. */
  function OpenAtFirst(m: ModuleName): set<Level> {
    match m
    case CTI => {L1, L2, L3}
    case VM => {L1, L2, L3}
    case SIEM => {L2, L3}
    case EDR => {L2, L3}
    case SOAR => {L3}
    case DFIR => {L3}
  }

  /** Admins and exactly the Analysts of these levels have the module. */
  ghost predicate OpenFor(db: Db, tenantId: Id, m: ModuleName, levels: set<Level>) {
    && (forall level :: ModuleAccess.Listed(db, tenantId, Admin, level, m))
    && (forall level :: ModuleAccess.Listed(db, tenantId, Analyst, Some(level), m) <==> level in levels)
  }

  ghost predicate Closed(db: Db, tenantId: Id, m: ModuleName) {
    forall role, level :: !ModuleAccess.Listed(db, tenantId, role, level, m)
  }

  lemma ListedFrom(db: Db, tenantId: Id, m: ModuleName)
    requires (tenantId, m) in db.subscriptions
    ensures var s := db.subscriptions[(tenantId, m)];
            if s.isActive then OpenFor(db, tenantId, m, OpenTo(s.minLevel)) else Closed(db, tenantId, m)
  {}

  /** From activation on, Admins and exactly the Analysts of the module's first levels have it. */
  ghost predicate ModuleActivated(before: Db, after: Db, r: Answer, tenantId: Id, m: ModuleName) {
    && (r.Ok? <==> tenantId in before.tenants && (tenantId, m) !in before.subscriptions)
    && (r == Err(NotFound) <==> tenantId !in before.tenants)
    && (r == Err(Conflict) <==> tenantId in before.tenants && (tenantId, m) in before.subscriptions)
    && (r.Err? ==> after == before)
    && OnlySubscription(before, after, tenantId, m) && OthersSeeTheSame(before, after, tenantId)
    && (r.Ok? ==> OpenFor(after, tenantId, m, OpenAtFirst(m)))
  }

  lemma ActivationStartsAtTheDefault(db: Db, tenantId: Id, m: ModuleName)
    ensures var (r, d) := Tenants.ActivateModule(db, tenantId, m); ModuleActivated(db, d, r, tenantId, m)
  {
    var d := Tenants.ActivateModule(db, tenantId, m).1;
    ActivationEdits(db, tenantId, m);
    OneSubscriptionIsPrivate(db, d, tenantId, m);
    if tenantId in db.tenants && (tenantId, m) !in db.subscriptions {
      ListedFrom(d, tenantId, m);
    }
  }

  lemma ActivationEdits(db: Db, tenantId: Id, m: ModuleName)
    ensures var (r, d) := Tenants.ActivateModule(db, tenantId, m);
            && (r.Ok? <==> tenantId in db.tenants && (tenantId, m) !in db.subscriptions)
            && (r.Err? ==> d == db && r == if tenantId in db.tenants then Err(Conflict) else Err(NotFound))
            && OnlySubscription(db, d, tenantId, m)
            && (r.Ok? ==> (tenantId, m) in d.subscriptions && d.subscriptions[(tenantId, m)].isActive
                          && OpenTo(d.subscriptions[(tenantId, m)].minLevel) == OpenAtFirst(m))
  {}

  /** Switching a subscription off hides the module from everybody, switching it on restores it with its level. */
  ghost predicate ModuleSwitched(before: Db, after: Db, r: Answer, tenantId: Id, m: ModuleName,
                                 isActive: Option<bool>)
  {
    && (r.Ok? <==> tenantId in before.tenants && (tenantId, m) in before.subscriptions)
    && (r.Err? ==> r == Err(NotFound) && after == before)
    && (r.Ok? ==>
          var s := before.subscriptions[(tenantId, m)];
          && OnlySubscription(before, after, tenantId, m) && OthersSeeTheSame(before, after, tenantId)
          && (if (if isActive.Some? then isActive.value else s.isActive)
              then OpenFor(after, tenantId, m, OpenTo(s.minLevel)) else Closed(after, tenantId, m)))
  }

  lemma SwitchKeepsTheLevel(db: Db, tenantId: Id, m: ModuleName, isActive: Option<bool>)
    ensures var (r, d) := Tenants.UpdateModule(db, tenantId, m, isActive);
            ModuleSwitched(db, d, r, tenantId, m, isActive)
  {
    var (r, d) := Tenants.UpdateModule(db, tenantId, m, isActive);
    if r.Ok? {
      OneSubscriptionIsPrivate(db, d, tenantId, m);
      ListedFrom(d, tenantId, m);
    }
  }

  /** Removing a subscription hides the module from everybody, so that it can be activated afresh. */
  ghost predicate ModuleRemoved(before: Db, after: Db, r: Answer, tenantId: Id, m: ModuleName) {
    && (r.Ok? <==> tenantId in before.tenants && (tenantId, m) in before.subscriptions)
    && (r.Err? ==> r == Err(NotFound) && after == before)
    && (r.Ok? ==>
          && (tenantId, m) !in after.subscriptions && Closed(after, tenantId, m)
          && OnlySubscription(before, after, tenantId, m) && OthersSeeTheSame(before, after, tenantId))
  }

  lemma RemovalClosesTheModule(db: Db, tenantId: Id, m: ModuleName)
    ensures var (r, d) := Tenants.DeactivateModule(db, tenantId, m); ModuleRemoved(db, d, r, tenantId, m)
  {
    var (r, d) := Tenants.DeactivateModule(db, tenantId, m);
    if r.Ok? {
      OneSubscriptionIsPrivate(db, d, tenantId, m);
    }
  }

  /** An active module is then for Admins and exactly the Analysts of these levels; other tenants see no change. */
  ghost predicate LevelSet(before: Db, after: Db, r: Answer, c: Claims, m: ModuleName, minLevel: Level) {
    && (r.Ok? <==> c.role.Admin? && c.tenantId.Some? && (c.tenantId.value, m) in before.subscriptions)
    && (r == Err(Forbidden) <==> !c.role.Admin? || c.tenantId.None?)
    && (r.Err? ==> after == before && (r.error.Forbidden? || r.error.NotFound?))
    && (r.Ok? ==>
          var t := c.tenantId.value;
          && OnlySubscription(before, after, t, m) && OthersSeeTheSame(before, after, t)
          && (if before.subscriptions[(t, m)].isActive then OpenFor(after, t, m, OpenTo(minLevel))
              else Closed(after, t, m)))
  }

  lemma SetMinLevelIsPrivate(db: Db, c: Claims, m: ModuleName, minLevel: Level)
    ensures var (r, d) := ModuleAccess.SetMinLevel(db, c, m, minLevel); LevelSet(db, d, r, c, m, minLevel)
  {
    var (r, d) := ModuleAccess.SetMinLevel(db, c, m, minLevel);
    if r.Ok? {
      OneSubscriptionIsPrivate(db, d, c.tenantId.value, m);
      ListedFrom(d, c.tenantId.value, m);
    }
  }

  /** Only an Integration Admin sets an endpoint, only to an acceptable value, and only the one named. */
  ghost predicate EndpointSet(before: Db, after: Db, r: Answer, c: Claims, m: ModuleName, e: Endpoint) {
    && (r.Ok? <==> c.role.IntegrationAdmin? && DtoAccepts(e) && m in before.endpoints)
    && (r == Err(Forbidden) <==> !c.role.IntegrationAdmin?)
    && (r == Err(BadRequest) <==> c.role.IntegrationAdmin? && !DtoAccepts(e))
    && (r.Err? ==> after == before && (r.error.Forbidden? || r.error.BadRequest? || r.error.NotFound?))
    && (r.Ok? ==> after == before.(endpoints := after.endpoints) && after.endpoints.Keys == before.endpoints.Keys
                  && after.endpoints[m] == e && forall n | n in before.endpoints && n != m ::
                    after.endpoints[n] == before.endpoints[n])
  }

  lemma EndpointIsSet(db: Db, c: Claims, m: ModuleName, e: Endpoint)
    ensures var (r, d) := ModuleAccess.UpdateEndpoint(db, c, m, e); EndpointSet(db, d, r, c, m, e)
  {}

  /** Who may not launch gets which refusal. */
  ghost predicate LaunchRefused(db: Db, r: Answer, c: Claims, m: ModuleName) {
    var tokenFits := (c.role.Admin? || c.role.Analyst?) && c.tenantId.Some? && InTenant(db, c.userId, c.tenantId.value);
    && (!tokenFits ==> r == Err(Forbidden))
    && (tokenFits ==>
          var t, u := c.tenantId.value, db.users[c.userId];
          var active := (t, m) in db.subscriptions && db.subscriptions[(t, m)].isActive;
          && (r == Err(NotFound) <==> !active)
          && (active ==>
                var fits := u.role.Admin?
                            || (u.role.Analyst? && u.level.Some?
                                && u.level.value in OpenTo(db.subscriptions[(t, m)].minLevel));
                && (r == Err(Forbidden) <==> !fits)
                && (r.Ok? <==> fits && ModuleAccess.HasUrl(db, m))
                && (r == Err(Conflict) <==> fits && !ModuleAccess.HasUrl(db, m))))
  }

  /** A successful launch leaves one audit row, with the account's present role and email and the URL returned. */
  ghost predicate LaunchRecorded(before: Db, after: Db, r: Answer, c: Claims, m: ModuleName) {
    && LaunchRefused(before, r, c, m)
    && (r.Err? ==> after == before)
    && (r.Ok? ==>
          && r.value.Redirect? && c.tenantId.Some? && InTenant(before, c.userId, c.tenantId.value)
          && after == before.(launches := after.launches)
          && |after.launches| == |before.launches| + 1 && before.launches <= after.launches
          && var u, row := before.users[c.userId], after.launches[|before.launches|];
             && row.userId == c.userId && row.userEmail == u.email && row.role == u.role
             && row.tenantId == c.tenantId.value && row.moduleName == m && row.targetUrl == r.value.url)
  }

  lemma LaunchRecordsOne(db: Db, c: Claims, m: ModuleName)
    ensures var (r, d) := ModuleAccess.LaunchModule(db, c, m); LaunchRecorded(db, d, r, c, m)
  {
    LaunchAnswers(db, c, m);
  }

  lemma LaunchAnswers(db: Db, c: Claims, m: ModuleName)
    ensures LaunchRefused(db, ModuleAccess.LaunchModule(db, c, m).0, c, m)
  {}
}
