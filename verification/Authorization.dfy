/** Which roles each route is for, and that a refusal leaves no trace. */
module Authorization {
  import opened Common
  import opened Schema
  import opened Invariants
  import opened Backend
  import opened TicketFlow

  /** The calls that carry a caller's token and are not for every role. */
  predicate Guarded(call: Call) {
    call.SetLevel? || call.SetEndpoint? || call.LaunchCall? || call.CreateAccount? || call.ChangeRole?
    || call.DeleteUser? || call.EditProfile? || call.ResetPassword? || call.RaiseTicket? || call.MoveTicket?
  }

  /** Who a route is for. */
  function MeantFor(call: Call): set<Role>
    requires Guarded(call)
  {
    match call
    case SetLevel(_, _, _) => {Admin}
    case SetEndpoint(_, _, _) => {IntegrationAdmin}
    case LaunchCall(_, _) => {Admin, Analyst}
    case CreateAccount(_, _, _, _, _, _) => {Admin}
    case ChangeRole(_, _, _, _) => {Admin}
    case DeleteUser(_, _) => {Admin}
    case EditProfile(_, _, _, _) => {Admin}
    case ResetPassword(_, _, _) => {Admin, SuperAdmin}
    case RaiseTicket(_, _, _, _, _) => {Admin, Analyst}
    case MoveTicket(_, _, _) => {Admin, Analyst, IntegrationAdmin}
  }

  /** A token of a role that a route is not for is answered Forbidden, whatever else it and the call say. */
  lemma OtherRolesAreForbidden(db: Db, call: Call)
    requires Guarded(call) && call.claims.role !in MeantFor(call)
    ensures Perform(db, call) == (Err(Forbidden), db)
  {}

  /** The target of a call that works inside the caller's tenant. */
  predicate Targets(call: Call) {
    call.ChangeRole? || call.DeleteUser? || call.EditProfile? || (call.ResetPassword? && call.claims.role.Admin?)
  }

  /** Whoever an Admin's call changes, deletes or resets is a member of the tenant in the Admin's token. */
  lemma AdminsActInTheirTenant(db: Db, call: Call)
    requires Targets(call) && Perform(db, call).0.Ok?
    ensures call.claims.role.Admin? && call.claims.tenantId.Some? && InTenant(db, call.id, call.claims.tenantId.value)
    ensures !call.EditProfile? ==> call.id != call.claims.userId
  {}

  lemma TenancyRefusals(db: Db, call: Call)
    requires IsTenancy(call) && PerformTenancy(db, call).0.Err?
    ensures PerformTenancy(db, call).1 == db
  {}

  lemma AccountRefusals(db: Db, call: Call)
    requires IsAccount(call) && PerformAccount(db, call).0.Err?
    ensures PerformAccount(db, call).1 == db
  {}

  lemma ModuleRefusals(db: Db, call: Call)
    requires IsModule(call) && PerformModule(db, call).0.Err?
    ensures PerformModule(db, call).1 == db
  {}

  lemma TicketRefusals(db: Db, call: Call)
    requires Inv(db) && Possible(db, call) && !IsTenancy(call) && !IsAccount(call) && !IsModule(call)
    requires PerformTicket(db, call).0.Err?
    ensures PerformTicket(db, call).1 == db
  {
    match call
    case RaiseTicket(c, title, category, m, rows) => RaiseIff(db, c, title, category, m, rows);
    case MoveTicket(c, id, status) => MoveIff(db, c, id, status);
    case ReadOne(_, _, _) =>
    case ReadAll(_, _) =>
  }

  /** In every reachable store a call that is answered with an error has changed nothing. */
  lemma RefusalLeavesNoTrace(db: Db, call: Call)
    requires Inv(db) && Perform(db, call).0.Err?
    ensures Step(db, call) == db
  {
    if Possible(db, call) {
      if IsTenancy(call) {
        TenancyRefusals(db, call);
      } else if IsAccount(call) {
        AccountRefusals(db, call);
      } else if IsModule(call) {
        ModuleRefusals(db, call);
      } else {
        TicketRefusals(db, call);
      }
    }
  }
}
