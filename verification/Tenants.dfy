/** TenantsService on the store: provisioning, deletion, and the module subscriptions of a tenant. */
module Tenants {
  import opened Common
  import opened Schema
  import opened Members
  import opened Deletion

  /** The level a module starts at when a Super Admin activates it. */
  function DefaultMinLevel(m: ModuleName): Level {
    match m
    case CTI => L1
    case VM => L1
    case SIEM => L2
    case EDR => L2
    case SOAR => L3
    case DFIR => L3
  }

  /** Tenant and first Admin in one transaction: a taken email leaves neither. */
  function CreateTenantWithAdmin(db: Db, email: string, name: string, now: Time): (Answer, Db) {
    if EmailTaken(db, email) then (Err(Conflict), db)
    else (Ok(Created(db.nextId)), InsertUser(AddTenant(db), FirstAdmin(db, email, name, now)))
  }

  function AddTenant(db: Db): Db {
    db.(tenants := db.tenants + {db.nextId}, nextId := db.nextId + 1)
  }

  function FirstAdmin(db: Db, email: string, name: string, now: Time): User {
    User(email, name, Role.Admin, None, Some(db.nextId), None, now)
  }

  function DeleteTenantWithUsers(db: Db, id: Id): (Answer, Db) {
    if id !in db.tenants then (Err(NotFound), db)
    else if Entangled(db, id) then (Err(Internal), db)
    else (Ok(Done), TenantRemoved(db, id))
  }

  function ActivateModule(db: Db, tenantId: Id, m: ModuleName): (Answer, Db) {
    if tenantId !in db.tenants then (Err(NotFound), db)
    else if (tenantId, m) in db.subscriptions then (Err(Conflict), db)
    else (Ok(Done), SetSubscription(db, tenantId, m, Subscription(true, DefaultMinLevel(m))))
  }

  function SetSubscription(db: Db, tenantId: Id, m: ModuleName, s: Subscription): Db {
    db.(subscriptions := db.subscriptions[(tenantId, m) := s])
  }

  function UpdateModule(db: Db, tenantId: Id, m: ModuleName, isActive: Option<bool>): (Answer, Db) {
    if tenantId !in db.tenants then (Err(NotFound), db)
    else if (tenantId, m) !in db.subscriptions then (Err(NotFound), db)
    else
      var s := db.subscriptions[(tenantId, m)];
      (Ok(Done), SetSubscription(db, tenantId, m, if isActive.Some? then s.(isActive := isActive.value) else s))
  }

  function DeactivateModule(db: Db, tenantId: Id, m: ModuleName): (Answer, Db) {
    if tenantId !in db.tenants then (Err(NotFound), db)
    else if (tenantId, m) !in db.subscriptions then (Err(NotFound), db)
    else (Ok(Done), db.(subscriptions := db.subscriptions - {(tenantId, m)}))
  }
}
