/** The module list and the launch agree, and the audit records the launches one to one. */
module LaunchAudit {
  import opened Common
  import opened Schema
  import opened ModuleUrl
  import opened Invariants
  import opened Members
  import opened ModuleAccess
  import opened Effects
  import opened Tickets
  import opened Backend

  lemma {:induction false} ListedAmong(
      db: Db, tenantId: Id, role: Role, level: Option<Level>, names: seq<ModuleName>, m: ModuleName)
    ensures (exists a :: a in ListAmong(db, tenantId, role, level, names) && a.moduleName == m)
            <==> m in names && Listed(db, tenantId, role, level, m)
    ensures forall a | a in ListAmong(db, tenantId, role, level, names) ::
              Listed(db, tenantId, role, level, a.moduleName) && a == Describe(db, tenantId, a.moduleName)
  {
    if names != [] {
      ListedAmong(db, tenantId, role, level, names[1..], m);
      var head := if Listed(db, tenantId, role, level, names[0]) then [Describe(db, tenantId, names[0])] else [];
      var tail := ListAmong(db, tenantId, role, level, names[1..]);
      assert ListAmong(db, tenantId, role, level, names) == head + tail;
      if m == names[0] && head != [] {
        assert head[0] in head + tail;
      }
      if a :| a in tail && a.moduleName == m {
        assert a in head + tail;
      }
    }
  }

  predicate Launchable(db: Db, tenantId: Id, role: Role, level: Option<Level>, m: ModuleName) {
    exists a :: a in ListForUser(db, tenantId, role, level) && a.moduleName == m && a.canLaunch
  }

  /**
   Whatever a tenant user's token says, a launch succeeds exactly when the list for their present role and level shows
   the module as launchable and the account is still in the token's tenant.
   */
  lemma LaunchFollowsTheRow(db: Db, c: Claims, m: ModuleName)
    requires UsersOK(db.users) && (c.role.Admin? || c.role.Analyst?) && c.tenantId.Some?
    ensures LaunchModule(db, c, m).0.Ok?
            <==> InTenant(db, c.userId, c.tenantId.value)
                 && Launchable(db, c.tenantId.value, db.users[c.userId].role, db.users[c.userId].level, m)
  {
    if InTenant(db, c.userId, c.tenantId.value) {
      var u := db.users[c.userId];
      assert WellRoled(u);
      ListShows(db, c.tenantId.value, u.role, u.level, m);
    }
  }

  lemma ListShows(db: Db, tenantId: Id, role: Role, level: Option<Level>, m: ModuleName)
    ensures Launchable(db, tenantId, role, level, m) <==> Listed(db, tenantId, role, level, m) && HasUrl(db, m)
  {
    InModuleNames(m);
    ListedAmong(db, tenantId, role, level, MODULE_NAMES, m);
  }

  lemma InModuleNames(m: ModuleName)
    ensures m in MODULE_NAMES
  {
    assert MODULE_NAMES[0] == SIEM && MODULE_NAMES[1] == SOAR && MODULE_NAMES[2] == CTI;
    assert MODULE_NAMES[3] == EDR && MODULE_NAMES[4] == DFIR && MODULE_NAMES[5] == VM;
  }

  /**
   For a tenant user with current claims, a module is shown as launchable exactly when launching it succeeds in that
   state.
   */
  lemma ListAgreesWithLaunch(db: Db, c: Claims, m: ModuleName)
    requires UsersOK(db.users) && Current(db, c) && c.tenantId.Some?
    ensures Launchable(db, c.tenantId.value, c.role, c.level, m) <==> LaunchModule(db, c, m).0.Ok?
  {
    assert WellRoled(db.users[c.userId]);
    LaunchFollowsTheRow(db, c, m);
  }

  /** What the list says of a module: its level, whether it has an address, and that it is launchable exactly then. */
  lemma ListDescribes(db: Db, tenantId: Id, role: Role, level: Option<Level>)
    ensures forall a | a in ListForUser(db, tenantId, role, level) ::
              && (tenantId, a.moduleName) in db.subscriptions
              && a.minLevel == db.subscriptions[(tenantId, a.moduleName)].minLevel
              && (a.configured <==> HasUrl(db, a.moduleName)) && (a.canLaunch <==> a.configured)
  {
    ListedAmong(db, tenantId, role, level, MODULE_NAMES, SIEM);
  }

  /** Enum order of the modules. */
  function Place(m: ModuleName): nat {
    match m
    case SIEM => 0
    case SOAR => 1
    case CTI => 2
    case EDR => 3
    case DFIR => 4
    case VM => 5
  }

  ghost predicate InPlace(names: seq<ModuleName>) {
    forall i, j | 0 <= i < j < |names| :: Place(names[i]) < Place(names[j])
  }

  function Names(list: seq<AvailableModule>): seq<ModuleName> {
    seq(|list|, i requires 0 <= i < |list| => list[i].moduleName)
  }

  ghost predicate PlacedFrom(place: nat, names: seq<ModuleName>) {
    forall i | 0 <= i < |names| :: place <= Place(names[i])
  }

  lemma InPlaceWith(m: ModuleName, names: seq<ModuleName>)
    requires InPlace(names) && PlacedFrom(Place(m) + 1, names)
    ensures InPlace([m] + names)
  {}

  /** The list is sorted by module, each at most once. */
  lemma {:induction false} ListIsSorted(
      db: Db, tenantId: Id, role: Role, level: Option<Level>, names: seq<ModuleName>, place: nat)
    requires InPlace(names) && PlacedFrom(place, names)
    ensures var shown := Names(ListAmong(db, tenantId, role, level, names)); InPlace(shown) && PlacedFrom(place, shown)
  {
    if names != [] {
      var rest := names[1..];
      assert forall i | 0 <= i < |rest| :: rest[i] == names[i + 1];
      ListIsSorted(db, tenantId, role, level, rest, Place(names[0]) + 1);
      var tail := ListAmong(db, tenantId, role, level, rest);
      InPlaceWith(names[0], Names(tail));
      if Listed(db, tenantId, role, level, names[0]) {
        NamesOfCons(Describe(db, tenantId, names[0]), tail);
      } else {
        assert [] + tail == tail;
      }
    }
  }

  lemma NamesOfCons(a: AvailableModule, list: seq<AvailableModule>)
    ensures Names([a] + list) == [a.moduleName] + Names(list)
  {}

  lemma ListForUserIsSorted(db: Db, tenantId: Id, role: Role, level: Option<Level>)
    ensures InPlace(Names(ListForUser(db, tenantId, role, level)))
  {
    assert InPlace(MODULE_NAMES);
    ListIsSorted(db, tenantId, role, level, MODULE_NAMES, 0);
  }

  /** Admins see every active module, Analysts those open to their level. */
  predicate Shown(db: Db, tenantId: Id, role: Role, level: Option<Level>, m: ModuleName) {
    && (tenantId, m) in db.subscriptions && db.subscriptions[(tenantId, m)].isActive
    && (role.Admin? || (level.Some? && level.value in OpenTo(db.subscriptions[(tenantId, m)].minLevel)))
  }

  /** Exactly the modules shown, each once, in their order, each with its level and whether it can be launched. */
  ghost predicate Lists(db: Db, list: seq<AvailableModule>, tenantId: Id, role: Role, level: Option<Level>) {
    && InPlace(Names(list))
    && (forall m :: Shown(db, tenantId, role, level, m) <==> exists a :: a in list && a.moduleName == m)
    && (forall a | a in list ::
          && (tenantId, a.moduleName) in db.subscriptions
          && a.minLevel == db.subscriptions[(tenantId, a.moduleName)].minLevel
          && (a.configured <==> HasUrl(db, a.moduleName)) && (a.canLaunch <==> HasUrl(db, a.moduleName)))
  }

  lemma ListForUserLists(db: Db, tenantId: Id, role: Role, level: Option<Level>)
    ensures Lists(db, ListForUser(db, tenantId, role, level), tenantId, role, level)
  {
    ListForUserIsSorted(db, tenantId, role, level);
    ListDescribes(db, tenantId, role, level);
    forall m ensures Shown(db, tenantId, role, level, m)
                     <==> exists a :: a in ListForUser(db, tenantId, role, level) && a.moduleName == m {
      InModuleNames(m);
      ListedAmong(db, tenantId, role, level, MODULE_NAMES, m);
    }
  }

  /**
   Once an Admin has set the minimum level of an active, configured module: Analysts of the levels L1, L2 and L3, or
   L2 and L3, or L3 alone launch it, and so do Admins; everybody else of the tenant is refused.
   */
  lemma LevelDecidesLaunches(db: Db, c: Claims, m: ModuleName, minLevel: Level, who: Claims)
    requires UsersOK(db.users) && HasUrl(db, m) && SetMinLevel(db, c, m, minLevel).0.Ok?
    requires db.subscriptions[(c.tenantId.value, m)].isActive
    requires (who.role.Admin? || who.role.Analyst?) && who.tenantId == c.tenantId
    requires InTenant(db, who.userId, c.tenantId.value)
    ensures var u, r := db.users[who.userId], LaunchModule(SetMinLevel(db, c, m, minLevel).1, who, m).0;
            if u.role.Admin? || (u.level.Some? && u.level.value in OpenTo(minLevel)) then r.Ok? else r == Err(Forbidden)
  {
    assert WellRoled(db.users[who.userId]);
    LaunchAnswers(SetMinLevel(db, c, m, minLevel).1, who, m);
  }

  /** One level up. */
  function Above(l: Level): Level {
    match l
    case L1 => L2
    case L2 => L3
    case L3 => L3
  }

  /** Who is promoted by a level, or to Admin, keeps every launch they had. */
  lemma PromotionKeepsLaunches(db: Db, who: Claims, m: ModuleName)
    requires LaunchModule(db, who, m).0.Ok?
    ensures var u := db.users[who.userId];
            u.level.Some? ==>
              var higher := UpdateUser(db, who.userId, u.(level := Some(Above(u.level.value))));
              LaunchModule(higher, who, m).0.Ok?
    ensures LaunchModule(UpdateUser(db, who.userId, db.users[who.userId].(role := Admin, level := None)), who, m).0.Ok?
  {}

  /** The audit row due for a call: one for a launch answered with a URL, carrying that URL and the user's snapshot. */
  function AuditDue(db: Db, call: Call): seq<Launch> {
    if call.LaunchCall? && call.claims.userId in db.users && call.claims.tenantId.Some? then
      var u := db.users[call.claims.userId];
      match Perform(db, call).0
      case Ok(Redirect(url)) =>
        [Launch(call.claims.userId, u.email, u.role, call.claims.tenantId.value, call.moduleName, url)]
      case _ => []
    else []
  }

  function Launched(db: Db, calls: seq<Call>): seq<Launch>
    decreases |calls|
  {
    if calls == [] then [] else AuditDue(db, calls[0]) + Launched(Step(db, calls[0]), calls[1..])
  }

  lemma TenancyAuditsNothing(db: Db, call: Call)
    requires IsTenancy(call)
    ensures PerformTenancy(db, call).1.launches == db.launches && PerformTenancy(db, call).1.endpoints == db.endpoints
  {
    TenancyCallEdits(db, call);
  }

  lemma AccountAuditsNothing(db: Db, call: Call)
    requires IsAccount(call)
    ensures PerformAccount(db, call).1.launches == db.launches && PerformAccount(db, call).1.endpoints == db.endpoints
  {
    AccountCallEdits(db, call);
  }

  lemma TicketAuditsNothing(db: Db, call: Call)
    requires !IsTenancy(call) && !IsAccount(call) && !IsModule(call)
    ensures PerformTicket(db, call).1.launches == db.launches && PerformTicket(db, call).1.endpoints == db.endpoints
  {
    match call
    case RaiseTicket(c, title, category, m, rows) => RaiseShape(db, c, title, category, m, rows);
    case MoveTicket(c, id, status) => MoveShape(db, c, id, status);
    case ReadOne(_, _, _) =>
    case ReadAll(_, _) =>
  }

  lemma ModuleAudits(db: Db, call: Call)
    requires IsModule(call)
    ensures PerformModule(db, call).1.launches == db.launches + AuditDue(db, call)
    ensures call.LaunchCall? && PerformModule(db, call).0.Ok? ==> |AuditDue(db, call)| == 1
  {
    assert db.launches + [] == db.launches;
  }

  lemma NothingDue(db: Db, call: Call)
    ensures !call.LaunchCall? || !Possible(db, call) ==> db.launches + AuditDue(db, call) == db.launches
    ensures !call.LaunchCall? ==> AuditDue(db, call) == []
  {}

  /** A successful launch adds exactly one row; no other call, and no refused launch, adds any. */
  lemma StepAudits(db: Db, call: Call)
    ensures Step(db, call).launches == db.launches + AuditDue(db, call)
    ensures |AuditDue(db, call)| == if call.LaunchCall? && Perform(db, call).0.Ok? then 1 else 0
  {
    NothingDue(db, call);
    if IsTenancy(call) {
      TenancyAuditsNothing(db, call);
    } else if IsAccount(call) {
      AccountAuditsNothing(db, call);
    } else if IsModule(call) {
      ModuleAudits(db, call);
    } else {
      TicketAuditsNothing(db, call);
    }
  }

  /**
   Over any run, with deletions of users and tenants included, the audit table grows by exactly one row per successful
   launch, in order, and each row's target is the URL that launch returned.
   */
  lemma {:induction false} AuditMatchesLaunches(db: Db, calls: seq<Call>)
    ensures Run(db, calls).launches == db.launches + Launched(db, calls)
    decreases |calls|
  {
    if calls == [] {
      assert db.launches + [] == db.launches;
    } else {
      var d := Step(db, calls[0]);
      StepAudits(db, calls[0]);
      AuditMatchesLaunches(d, calls[1..]);
      Regroup(db.launches, AuditDue(db, calls[0]), Launched(d, calls[1..]));
    }
  }

  // ---- Endpoints and the URLs that launches answer ----

  predicate Sets(call: Call, m: ModuleName) {
    call.SetEndpoint? && call.moduleName == m
  }

  lemma StepKeepsEndpoint(db: Db, call: Call, m: ModuleName)
    requires m in db.endpoints && !Sets(call, m)
    ensures m in Step(db, call).endpoints && Step(db, call).endpoints[m] == db.endpoints[m]
  {
    if IsTenancy(call) {
      TenancyAuditsNothing(db, call);
    } else if IsAccount(call) {
      AccountAuditsNothing(db, call);
    } else if IsModule(call) {
      ModuleKeepsEndpoint(db, call, m);
    } else {
      TicketAuditsNothing(db, call);
    }
  }

  lemma ModuleKeepsEndpoint(db: Db, call: Call, m: ModuleName)
    requires m in db.endpoints && IsModule(call) && !Sets(call, m)
    ensures m in PerformModule(db, call).1.endpoints && PerformModule(db, call).1.endpoints[m] == db.endpoints[m]
  {}

  lemma {:induction false} RunKeepsEndpoint(db: Db, calls: seq<Call>, m: ModuleName)
    requires m in db.endpoints && forall k | 0 <= k < |calls| :: !Sets(calls[k], m)
    ensures m in Run(db, calls).endpoints && Run(db, calls).endpoints[m] == db.endpoints[m]
    decreases |calls|
  {
    if calls != [] {
      StepKeepsEndpoint(db, calls[0], m);
      RunKeepsEndpoint(Step(db, calls[0]), calls[1..], m);
    }
  }

  lemma LaunchReachesTheEndpoint(db: Db, who: Claims, m: ModuleName, e: Endpoint)
    requires m in db.endpoints && db.endpoints[m] == e && DtoAccepts(e)
    ensures var (r, _) := LaunchModule(db, who, m);
            && r != Err(Conflict)
            && (r.Ok? ==> r.value.Redirect? && ParseModuleUrl(r.value.url) == Some(e))
  {
    AcceptedHosts(e);
    BuildModuleUrlRoundTrip(e);
  }

  /**
   After an Integration Admin has set an endpoint, and until it is set again, whatever else happens, every launch of
   the module answers a URL from which exactly that endpoint can be read back.
   */
  lemma LaunchesReachTheEndpoint(db: Db, c: Claims, m: ModuleName, e: Endpoint, calls: seq<Call>, who: Claims)
    requires UpdateEndpoint(db, c, m, e).0.Ok? && forall k | 0 <= k < |calls| :: !Sets(calls[k], m)
    ensures var (r, _) := LaunchModule(Run(UpdateEndpoint(db, c, m, e).1, calls), who, m);
            && r != Err(Conflict)
            && (r.Ok? ==> r.value.Redirect? && ParseModuleUrl(r.value.url) == Some(e))
  {
    RunKeepsEndpoint(UpdateEndpoint(db, c, m, e).1, calls, m);
    LaunchReachesTheEndpoint(Run(UpdateEndpoint(db, c, m, e).1, calls), who, m, e);
  }
}
