/** ModuleAccessService on the store: what a user is shown, what they may launch, and the launch audit. */
module ModuleAccess {
  import opened Common
  import opened Schema
  import opened ModuleUrl

  function Rank(l: Level): nat {
    match l
    case L1 => 1
    case L2 => 2
    case L3 => 3
  }

  predicate MeetsMinLevel(level: Level, minLevel: Level) {
    Rank(level) >= Rank(minLevel)
  }

  datatype AvailableModule = AvailableModule(moduleName: ModuleName, minLevel: Level, configured: bool, canLaunch: bool)

  /** Enum order, which is the order of `orderBy: { moduleName: 'asc' }`. */
  const MODULE_NAMES: seq<ModuleName> := [SIEM, SOAR, CTI, EDR, DFIR, VM]

  predicate HasUrl(db: Db, m: ModuleName) {
    m in db.endpoints && BuildModuleUrl(db.endpoints[m]).Some?
  }

  /** The active subscriptions of the tenant that the role and level let through. */
  predicate Listed(db: Db, tenantId: Id, role: Role, level: Option<Level>, m: ModuleName) {
    && (tenantId, m) in db.subscriptions && db.subscriptions[(tenantId, m)].isActive
    && (role.Admin? || (level.Some? && MeetsMinLevel(level.value, db.subscriptions[(tenantId, m)].minLevel)))
  }

  function Describe(db: Db, tenantId: Id, m: ModuleName): AvailableModule
    requires (tenantId, m) in db.subscriptions
  {
    AvailableModule(m, db.subscriptions[(tenantId, m)].minLevel, HasUrl(db, m), HasUrl(db, m))
  }

  function ListAmong(db: Db, tenantId: Id, role: Role, level: Option<Level>, names: seq<ModuleName>)
    : seq<AvailableModule> {
    if names == [] then []
    else
      (if Listed(db, tenantId, role, level, names[0]) then [Describe(db, tenantId, names[0])] else [])
      + ListAmong(db, tenantId, role, level, names[1..])
  }

  function ListForUser(db: Db, tenantId: Id, role: Role, level: Option<Level>): seq<AvailableModule> {
    ListAmong(db, tenantId, role, level, MODULE_NAMES)
  }

  /** The launch re-reads role and level from the user's row. */
  predicate Allowed(u: User, s: Subscription) {
    u.role.Admin? || (u.role.Analyst? && u.level.Some? && MeetsMinLevel(u.level.value, s.minLevel))
  }

  function LaunchModule(db: Db, c: Claims, m: ModuleName): (Answer, Db) {
    if !c.role.Admin? && !c.role.Analyst? then (Err(Forbidden), db)
    else if c.tenantId.None? then (Err(Forbidden), db)
    else
      var tenantId := c.tenantId.value;
      if !InTenant(db, c.userId, tenantId) then (Err(Forbidden), db)
      else if (tenantId, m) !in db.subscriptions || !db.subscriptions[(tenantId, m)].isActive then (Err(NotFound), db)
      else if !Allowed(db.users[c.userId], db.subscriptions[(tenantId, m)]) then (Err(Forbidden), db)
      else if !HasUrl(db, m) then (Err(Conflict), db)
      else
        var u, url := db.users[c.userId], BuildModuleUrl(db.endpoints[m]).value;
        (Ok(Redirect(url)), db.(launches := db.launches + [Launch(c.userId, u.email, u.role, tenantId, m, url)]))
  }

  function SetMinLevel(db: Db, c: Claims, m: ModuleName, minLevel: Level): (Answer, Db) {
    if !c.role.Admin? then (Err(Forbidden), db)
    else if c.tenantId.None? then (Err(Forbidden), db)
    else if (c.tenantId.value, m) !in db.subscriptions then (Err(NotFound), db)
    else
      var s := db.subscriptions[(c.tenantId.value, m)];
      (Ok(Done), db.(subscriptions := db.subscriptions[(c.tenantId.value, m) := s.(minLevel := minLevel)]))
  }

  function UpdateEndpoint(db: Db, c: Claims, m: ModuleName, e: Endpoint): (Answer, Db) {
    if !c.role.IntegrationAdmin? then (Err(Forbidden), db)
    else if !DtoAccepts(e) then (Err(BadRequest), db)
    else if m !in db.endpoints then (Err(NotFound), db)
    else (Ok(Done), db.(endpoints := db.endpoints[m := e]))
  }
}
