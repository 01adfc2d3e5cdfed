/** Pending password requests: each one is shown to exactly one party, and none is lost. */
module Routing {
  import opened Common
  import opened Schema
  import opened Invariants

  predicate Pending(db: Db, u: Id) {
    u in db.users && db.users[u].pendingSince.Some?
  }

  /** orderBy createdAt, then id. */
  predicate NotLater(db: Db, u: Id, v: Id)
    requires u in db.users && v in db.users
  {
    db.users[u].createdAt < db.users[v].createdAt || (db.users[u].createdAt == db.users[v].createdAt && u <= v)
  }

  /** What findFirst over the tenant's Admins returns. */
  predicate IsFirstAdmin(db: Db, a: Id, t: Id) {
    IsAdminOf(db, a, t) && forall v | v in db.users && IsAdminOf(db, v, t) :: NotLater(db, a, v)
  }

  /** The accounts the count query of hasPendingPasswordRequestsForAdmin selects for this caller. */
  function AdminQueue(db: Db, a: Id, t: Id): set<Id> {
    if IsFirstAdmin(db, a, t) then set u | u in db.users && InTenant(db, u, t) && u != a && Pending(db, u) else {}
  }

  /** The Admins at which the loop of hasPendingFirstAdminRequest answers true. */
  function SuperQueue(db: Db): set<Id> {
    set u | u in db.users && Pending(db, u) && db.users[u].role.Admin? && db.users[u].tenantId.Some?
            && IsFirstAdmin(db, u, db.users[u].tenantId.value)
  }

  predicate HasPendingForAdmin(db: Db, a: Id, t: Id) {
    AdminQueue(db, a, t) != {}
  }

  predicate TenantAdminsFlag(db: Db) {
    SuperQueue(db) != {}
  }

  predicate IntegrationAdminsFlag(db: Db) {
    exists u | u in db.users :: db.users[u].role.IntegrationAdmin? && Pending(db, u)
  }

  /** (createdAt, id) is a total order, so the first Admin is unique. */
  lemma FirstAdminUnique(db: Db, a: Id, b: Id, t: Id)
    requires IsFirstAdmin(db, a, t) && IsFirstAdmin(db, b, t)
    ensures a == b
  {}

  /** No Admin of the tenant was created before this one, and of those created with it none has a smaller id. */
  predicate Earliest(db: Db, a: Id, t: Id) {
    && a in db.users && db.users[a].role.Admin? && db.users[a].tenantId == Some(t)
    && forall v | v in db.users && db.users[v].role.Admin? && db.users[v].tenantId == Some(t) ::
         db.users[a].createdAt <= db.users[v].createdAt && (db.users[v].createdAt == db.users[a].createdAt ==> a <= v)
  }

  lemma FirstIsEarliest(db: Db, a: Id, t: Id)
    ensures IsFirstAdmin(db, a, t) <==> Earliest(db, a, t)
  {
    if IsFirstAdmin(db, a, t) {
      forall v | v in db.users && IsAdminOf(db, v, t)
        ensures db.users[a].createdAt <= db.users[v].createdAt
        ensures db.users[v].createdAt == db.users[a].createdAt ==> a <= v
      {
        assert NotLater(db, a, v);
      }
    }
  }

  /** Whose request an Admin's indicator and the Super Admins' flag stand for, written out. */
  lemma IndicatorsTell(db: Db, a: Id, t: Id)
    ensures HasPendingForAdmin(db, a, t) <==>
            Earliest(db, a, t) && exists u | u in db.users ::
              u != a && db.users[u].tenantId == Some(t) && db.users[u].pendingSince.Some?
    ensures TenantAdminsFlag(db) <==>
            exists u, s | u in db.users :: Earliest(db, u, s) && db.users[u].pendingSince.Some?
  {
    FirstIsEarliest(db, a, t);
    if u :| u in db.users && u != a && db.users[u].tenantId == Some(t) && db.users[u].pendingSince.Some?
            && IsFirstAdmin(db, a, t) {
      assert u in AdminQueue(db, a, t);
    }
    if u, s :| u in db.users && Earliest(db, u, s) && db.users[u].pendingSince.Some? {
      FirstIsEarliest(db, u, s);
      assert u in SuperQueue(db);
    }
    if TenantAdminsFlag(db) {
      var u :| u in SuperQueue(db);
      FirstIsEarliest(db, u, db.users[u].tenantId.value);
    }
  }

  lemma {:induction false} EarliestOf(db: Db, admins: set<Id>) returns (a: Id)
    requires admins != {} && forall u | u in admins :: u in db.users
    ensures a in admins && forall v | v in admins :: NotLater(db, a, v)
    decreases |admins|
  {
    var u :| u in admins;
    if admins == {u} {
      a := u;
    } else {
      assert admins == {u} + (admins - {u});
      var b := EarliestOf(db, admins - {u});
      a := if NotLater(db, u, b) then u else b;
      forall v | v in admins ensures NotLater(db, a, v) {
        assert v == u || v in admins - {u};
      }
    }
  }

  lemma FirstAdminExists(db: Db, t: Id) returns (a: Id)
    requires Administered(db) && t in db.tenants
    ensures IsFirstAdmin(db, a, t)
  {
    var u :| IsAdminOf(db, u, t);
    assert u in AdminsOf(db, t);
    a := EarliestOf(db, AdminsOf(db, t));
    forall v | v in db.users && IsAdminOf(db, v, t) ensures NotLater(db, a, v) {
      assert v in AdminsOf(db, t);
    }
  }

  /**
   Each pending tenant user is counted exactly once: by the indicator of their tenant's first Admin, and of nobody
   else, or by the Super Admins' flag, never by both.
   */
  lemma RoutedExactlyOnce(db: Db, u: Id, t: Id)
    requires Inv(db) && Administered(db) && InTenant(db, u, t) && Pending(db, u)
    ensures u in SuperQueue(db) <==> !exists a :: u in AdminQueue(db, a, t)
    ensures forall a, b | u in AdminQueue(db, a, t) && u in AdminQueue(db, b, t) :: a == b
    ensures forall a, s | u in AdminQueue(db, a, s) :: s == t
  {
    var a := FirstAdminExists(db, t);
    if u == a {
      assert u in SuperQueue(db);
      forall b | u in AdminQueue(db, b, t) ensures b == u {
        FirstAdminUnique(db, a, b, t);
      }
    } else {
      assert u in AdminQueue(db, a, t);
      if u in SuperQueue(db) {
        FirstAdminUnique(db, a, u, t);
      }
    }
    forall b, c | u in AdminQueue(db, b, t) && u in AdminQueue(db, c, t) ensures b == c {
      FirstAdminUnique(db, b, c, t);
    }
  }

  /** No request is lost: some indicator is on exactly when some tenant user or Integration Admin is pending. */
  lemma SomeIndicatorIffSomePending(db: Db)
    requires Inv(db) && Administered(db)
    ensures (exists a, t :: HasPendingForAdmin(db, a, t)) || TenantAdminsFlag(db) || IntegrationAdminsFlag(db)
            <==> exists u :: Pending(db, u) && !db.users[u].role.SuperAdmin?
  {
    if u :| Pending(db, u) && !db.users[u].role.SuperAdmin? {
      assert WellRoled(db.users[u]);
      if db.users[u].tenantId.Some? {
        var t := db.users[u].tenantId.value;
        RoutedExactlyOnce(db, u, t);
        if a :| u in AdminQueue(db, a, t) {
          assert HasPendingForAdmin(db, a, t);
        }
      }
    }
    if a, t :| HasPendingForAdmin(db, a, t) {
      var u :| u in AdminQueue(db, a, t);
      assert WellRoled(db.users[u]) && Pending(db, u);
    }
    if TenantAdminsFlag(db) {
      var u :| u in SuperQueue(db);
      assert Pending(db, u);
    }
  }
}
