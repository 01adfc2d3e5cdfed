/** Accounts and membership: what UsersService does to the store, and the checks UsersController makes before it. */
module Members {
  import opened Common
  import opened Schema
  import opened Deletion

  /** Every Analyst has a level and no other role has one. */
  function ResolveAnalystLevel(role: Role, level: Option<Level>): (r: Result<Option<Level>>)
    ensures r.Ok? ==> r.value == level && (r.value.Some? <==> role.Analyst?)
    ensures r.Err? ==> r.error.BadRequest?
    ensures r.Ok? <==> (role.Analyst? <==> level.Some?)
  {
    if role.Analyst? then (if level.None? then Err(BadRequest) else Ok(level))
    else if level.Some? then Err(BadRequest)
    else Ok(None)
  }

  // ---- UsersService ----

  function CreateUser(
      db: Db, email: string, name: string, role: Role, tenantId: Option<Id>, level: Option<Level>, now: Time)
    : (Answer, Db)
  {
    if role.SuperAdmin? then (Err(Forbidden), db)
    else
      match ResolveAnalystLevel(role, level)
      case Err(e) => (Err(e), db)
      case Ok(resolved) =>
        if EmailTaken(db, email) then (Err(Conflict), db)
        else if tenantId.Some? && tenantId.value !in db.tenants then (Err(Internal), db)
        else (Ok(Created(db.nextId)), InsertUser(db, User(email, name, role, resolved, tenantId, None, now)))
  }

  function InsertUser(db: Db, user: User): Db {
    db.(users := db.users[db.nextId := user], nextId := db.nextId + 1)
  }

  /** A change of one existing row. */
  function UpdateUser(db: Db, id: Id, user: User): Db {
    db.(users := db.users[id := user])
  }

  predicate EmailOfAnother(db: Db, id: Id, email: string) {
    exists u | u in db.users :: u != id && db.users[u].email == email
  }

  /** A profile edit; an email that is somebody else's violates the unique index. */
  function UpdateUserForTenant(db: Db, id: Id, tenantId: Id, email: Option<string>, name: Option<string>)
    : (Answer, Db) {
    if !InTenant(db, id, tenantId) then (Err(NotFound), db)
    else if email.Some? && EmailOfAnother(db, id, email.value) then (Err(Conflict), db)
    else
      var user := db.users[id];
      (Ok(Done), UpdateUser(db, id, user.(email := if email.Some? then email.value else user.email,
                                          name := if name.Some? then name.value else user.name)))
  }

  function RemoveUserForTenant(db: Db, id: Id, tenantId: Id): (Answer, Db) {
    if !InTenant(db, id, tenantId) then (Err(NotFound), db) else (Ok(Done), UserRemoved(db, id))
  }

  function ChangeRoleForTenant(db: Db, id: Id, tenantId: Id, role: Role, level: Option<Level>): (Answer, Db) {
    match ResolveAnalystLevel(role, level)
    case Err(e) => (Err(e), db)
    case Ok(resolved) =>
      if !InTenant(db, id, tenantId) then (Err(NotFound), db)
      else if db.users[id].role.Admin? && !role.Admin? && |AdminsOf(db, tenantId)| <= 1 then (Err(Conflict), db)
      else (Ok(Done), UpdateUser(db, id, db.users[id].(role := role, level := resolved)))
  }

  /** applyPasswordReset on the store: a history row is added and the pending request is cleared. */
  function ApplyPasswordReset(db: Db, id: Id, refused: bool): (Answer, Db)
    requires id in db.users
  {
    if refused then (Err(Conflict), db)
    else (Ok(Done), UpdateUser(AddHistory(db, id), id, db.users[id].(pendingSince := None)))
  }

  function AddHistory(db: Db, id: Id): Db {
    db.(histories := db.histories[db.nextId := id], nextId := db.nextId + 1)
  }

  function ResetPasswordForTenant(db: Db, id: Id, tenantId: Id, refused: bool): (Answer, Db) {
    if !InTenant(db, id, tenantId) then (Err(NotFound), db) else ApplyPasswordReset(db, id, refused)
  }

  function ResetSoleAdminPassword(db: Db, id: Id, refused: bool): (Answer, Db) {
    if id !in db.users || !db.users[id].role.Admin? || db.users[id].tenantId.None? then (Err(NotFound), db)
    else if |AdminsOf(db, db.users[id].tenantId.value)| > 1 then (Err(Conflict), db)
    else ApplyPasswordReset(db, id, refused)
  }

  predicate IsIntegrationAdmin(db: Db, id: Id) {
    id in db.users && db.users[id].role.IntegrationAdmin?
  }

  function ResetIntegrationAdminPassword(db: Db, id: Id, refused: bool): (Answer, Db) {
    if !IsIntegrationAdmin(db, id) then (Err(NotFound), db) else ApplyPasswordReset(db, id, refused)
  }

  function RemoveIntegrationAdmin(db: Db, id: Id): (Answer, Db) {
    if !IsIntegrationAdmin(db, id) then (Err(NotFound), db) else (Ok(Done), UserRemoved(db, id))
  }

  function MarkPending(db: Db, id: Id, now: Time): Db
    requires id in db.users
  {
    UpdateUser(db, id, db.users[id].(pendingSince := Some(now)))
  }

  /** The forgot-password route answers the same whether or not it did anything. */
  function RequestPasswordReset(db: Db, email: string, now: Time): (Answer, Db) {
    if u :| u in db.users && db.users[u].email == email && UniqueEmail(db, u) then
      (Ok(Done), if db.users[u].role.SuperAdmin? then db else MarkPending(db, u, now))
    else (Ok(Done), db)
  }

  predicate UniqueEmail(db: Db, u: Id)
    requires u in db.users
  {
    forall v | v in db.users && db.users[v].email == db.users[u].email :: v == u
  }

  /** Updating a row that is gone is an uncaught database error. */
  function RequestOwnPasswordChange(db: Db, c: Claims, now: Time): (Answer, Db) {
    if c.userId !in db.users then (Err(Internal), db) else (Ok(Done), MarkPending(db, c.userId, now))
  }

  // ---- UsersController ----

  /** The body's role is validated to Admin or Analyst, the tenant comes from the caller's token. */
  function CreateUserByAdmin(
      db: Db, c: Claims, email: string, name: string, role: Role, level: Option<Level>, now: Time)
    : (Answer, Db)
  {
    if !c.role.Admin? then (Err(Forbidden), db)
    else if !role.Admin? && !role.Analyst? then (Err(BadRequest), db)
    else if c.tenantId.None? then (Err(Forbidden), db)
    else CreateUser(db, email, name, role, c.tenantId, level, now)
  }

  function UpdateUserById(db: Db, c: Claims, id: Id, email: Option<string>, name: Option<string>): (Answer, Db) {
    if !c.role.Admin? then (Err(Forbidden), db)
    else if c.tenantId.None? then (Err(Forbidden), db)
    else UpdateUserForTenant(db, id, c.tenantId.value, email, name)
  }

  function UpdateUserRoleById(db: Db, c: Claims, id: Id, role: Role, level: Option<Level>): (Answer, Db) {
    if !c.role.Admin? then (Err(Forbidden), db)
    else if !role.Admin? && !role.Analyst? then (Err(BadRequest), db)
    else if c.tenantId.None? then (Err(Forbidden), db)
    else if id == c.userId then (Err(Forbidden), db)
    else ChangeRoleForTenant(db, id, c.tenantId.value, role, level)
  }

  /** What the delete route checks: Admin claims with a tenant, and another account of that tenant as target. */
  predicate MayDelete(db: Db, c: Claims, id: Id) {
    c.role.Admin? && c.tenantId.Some? && id != c.userId && InTenant(db, id, c.tenantId.value)
  }

  function DeleteUserById(db: Db, c: Claims, id: Id): (Answer, Db) {
    if !c.role.Admin? then (Err(Forbidden), db)
    else if c.tenantId.None? then (Err(Forbidden), db)
    else if id == c.userId then (Err(Forbidden), db)
    else RemoveUserForTenant(db, id, c.tenantId.value)
  }

  function ResetUserPassword(db: Db, c: Claims, id: Id, refused: bool): (Answer, Db) {
    if c.role.SuperAdmin? then ResetSoleAdminPassword(db, id, refused)
    else if !c.role.Admin? then (Err(Forbidden), db)
    else if c.tenantId.None? then (Err(Forbidden), db)
    else if id == c.userId then (Err(Forbidden), db)
    else ResetPasswordForTenant(db, id, c.tenantId.value, refused)
  }
}
