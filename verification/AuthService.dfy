/**
 The credential and session services as they run, one call at a time: each method goes through the source's queries in
 order and is proved against the functions the other modules reason about.
 */
module AuthServices {
  import opened Common
  import opened Lockout
  import opened Passwords
  import opened TokenTable
  import Effects
  import Sessions

  /** User rows with their password history, plus the unique index on email. */
  class Accounts {
    var rows: map<Id, Account>
    var emails: map<string, Id>

    constructor ()
      ensures rows == map[] && emails == map[]
    {
      rows, emails := map[], map[];
    }

    predicate Known(email: string)
      reads this
    {
      email in emails && emails[email] in rows
    }

    /** update failedLoginAttempts { increment: 1 }, then the lock once the threshold is reached. */
    method RegisterFailedLogin(userId: Id, now: Time)
      requires userId in rows
      modifies this`rows
      ensures rows == old(rows)[userId := old(rows)[userId].(lock := RegisterFailure(old(rows)[userId].lock, now))]
    {
      var user := rows[userId];
      var attempts := user.lock.attempts + 1;
      rows := rows[userId := user.(lock := user.lock.(attempts := attempts))];
      if attempts >= LOCKOUT_THRESHOLD {
        rows := rows[userId := rows[userId].(lock := Lock(attempts, Some(now + LOCKOUT_DURATION)))];
      }
    }

    /** An unknown email, a wrong password and a locked account all answer Unauthorized. */
    method ValidateUser(email: string, password: string, checkedAt: Time, stampedAt: Time) returns (r: Result<Id>)
      modifies this`rows
      ensures !old(Known(email)) ==> r == Err(Unauthorized) && rows == old(rows)
      ensures old(Known(email)) ==>
                var user := old(rows)[emails[email]];
                var (verdict, lock) :=
                  Validate(user.lock, Attempt(Verify(user.digest, password), checkedAt, stampedAt));
                && rows == old(rows)[emails[email] := user.(lock := lock)]
                && r == if verdict.Success? then Ok(emails[email]) else Err(Unauthorized)
      ensures old(Known(email)) ==> 
                Admitted(old(rows)[emails[email]], rows[emails[email]], r.Ok?, password, checkedAt, stampedAt)
    {
      if !Known(email) {
        return Err(Unauthorized);
      }
      var userId := emails[email];
      var user := rows[userId];
      var isPasswordValid := Verify(user.digest, password);
      var isLocked := IsLocked(user.lock, checkedAt);
      if !isPasswordValid || isLocked {
        if !isLocked {
          RegisterFailedLogin(userId, stampedAt);
        }
        return Err(Unauthorized);
      }
      if user.lock.attempts > 0 || user.lock.lockedUntil.Some? {
        rows := rows[userId := user.(lock := Lock(0, None))];
      }
      return Ok(userId);
    }

    /**
     Admitted exactly with the right password outside a lock, which clears the slate; a wrong one outside a lock counts,
     and from the fifth on locks for 15 minutes; during a lock nothing changes.
     */
    static predicate Admitted(before: Account, after: Account, ok: bool, password: string, at: Time, stamp: Time) {
      var locked := before.lock.lockedUntil.Some? && at < before.lock.lockedUntil.value;
      && (ok <==> password == before.digest.password && !locked)
      && after == before.(lock := after.lock)
      && (ok ==> after.lock.attempts == 0 && after.lock.lockedUntil.None?)
      && (locked ==> after.lock == before.lock)
      && (!ok && !locked ==>
            && after.lock.attempts == before.lock.attempts + 1
            && after.lock.lockedUntil == if after.lock.attempts >= 5 then Some(stamp + 15 * 60 * 1000)
                                         else before.lock.lockedUntil)
    }

    /** The reuse check: the current digest, then a loop over the latest history rows. */
    method IsReused(userId: Id, password: string) returns (reused: bool)
      requires userId in rows
      ensures reused <==> Reused(rows[userId], password)
    {
      if Verify(rows[userId].digest, password) {
        return true;
      }
      var history := TakeLatest(rows[userId].history, PASSWORD_HISTORY_CHECK_LIMIT);
      for i := 0 to |history|
        invariant forall k | 0 <= k < i :: !Verify(history[k].digest, password)
      {
        if Verify(history[i].digest, password) {
          return true;
        }
      }
      return false;
    }

    method RecordPasswordHistory(userId: Id, digest: Digest, now: Time)
      requires userId in rows
      modifies this`rows
      ensures rows == old(rows)[userId :=
              old(rows)[userId].(history := old(rows)[userId].history + [Entry(now, digest)])]
    {
      rows := rows[userId := rows[userId].(history := rows[userId].history + [Entry(now, digest)])];
    }

    method ChangePassword(userId: Id, current: string, password: string, now: Time, salt: nat) returns (r: Result<()>)
      modifies this`rows
      ensures userId !in old(rows) ==> r == Err(NotFound) && rows == old(rows)
      ensures userId in old(rows) ==>
                var (answer, user) := Passwords.ChangePassword(old(rows)[userId], current, password, now, salt);
                r == answer && rows == old(rows)[userId := user]
      ensures userId in old(rows) && Chronicle(old(rows)[userId].history) ==>
                SelfChanged(old(rows)[userId], rows[userId], r, current, password)
    {
      if userId !in rows {
        return Err(NotFound);
      }
      var user := rows[userId];
      if Chronicle(user.history) {
        SelfChangeIff(user, current, password, now, salt);
      }
      if !user.mustChange {
        return Err(Forbidden);
      }
      if !Verify(user.digest, current) {
        return Err(Unauthorized);
      }
      var reused := IsReused(userId, password);
      if reused {
        return Err(Conflict);
      }
      RecordPasswordHistory(userId, user.digest, now);
      rows := rows[userId := rows[userId].(digest := Digest(password, salt), mustChange := false)];
      return Ok(());
    }

    method ApplyPasswordReset(userId: Id, password: string, now: Time, salt: nat) returns (r: Result<()>)
      requires userId in rows
      modifies this`rows
      ensures var (answer, user) := Passwords.ApplyPasswordReset(old(rows)[userId], password, now, salt);
              r == answer && rows == old(rows)[userId := user]
      ensures Chronicle(old(rows)[userId].history) ==> WasReset(old(rows)[userId], rows[userId], r, password)
    {
      var user := rows[userId];
      if Chronicle(user.history) {
        ResetIff(user, password, now, salt);
      }
      var reused := IsReused(userId, password);
      if reused {
        return Err(Conflict);
      }
      RecordPasswordHistory(userId, user.digest, now);
      rows := rows[userId := rows[userId].(digest := Digest(password, salt), mustChange := true, pendingSince := None,
                                          lock := Lock(0, None))];
      return Ok(());
    }
  }

  /** The refresh-token table and the session methods over it. */
  class AuthService {
    const accounts: Accounts
    var tokens: Table

    constructor (accounts: Accounts)
      ensures this.accounts == accounts && tokens == map[]
    {
      this.accounts := accounts;
      tokens := map[];
    }

    method IssueRefreshToken(userId: Id, familyId: Id, newId: Id, now: Time)
      modifies this`tokens
      ensures tokens == old(tokens)[newId := Fresh(userId, familyId, now)]
    {
      tokens := tokens[newId := Token(userId, familyId, now + REFRESH_TOKEN_TTL, None, None)];
    }

    /** The login route: validateUser, then a token in a new family. */
    method Login(email: string, password: string, now: Time, newId: Id, family: Id) returns (r: Result<Id>)
      modifies this`tokens, accounts`rows
      ensures r.Ok? <==> old(accounts.Known(email))
                         && Validate(old(accounts.rows)[accounts.emails[email]].lock,
                                     Attempt(Verify(old(accounts.rows)[accounts.emails[email]].digest,
                                              password), now, now)).0.Success?
      ensures r.Ok? ==> r == Ok(newId) && tokens == old(tokens)[newId := Fresh(accounts.emails[email], family, now)]
      ensures r.Err? ==> r == Err(Unauthorized) && tokens == old(tokens)
      ensures !old(accounts.Known(email)) ==> accounts.rows == old(accounts.rows)
      ensures old(accounts.Known(email)) ==>
                var user := old(accounts.rows)[accounts.emails[email]];
                accounts.rows == old(accounts.rows)[accounts.emails[email] := user.(lock :=
                  Validate(user.lock, Attempt(Verify(user.digest, password), now, now)).1)]
      ensures old(accounts.Known(email)) ==>
                var id := accounts.emails[email];
                Accounts.Admitted(old(accounts.rows)[id], accounts.rows[id], r.Ok?, password, now, now)
    {
      var user := accounts.ValidateUser(email, password, now, now);
      if user.Err? {
        return Err(user.error);
      }
      IssueRefreshToken(user.value, family, newId, now);
      return Ok(newId);
    }

    method Refresh(raw: Id, newId: Id, now: Time) returns (r: Result<Id>)
      requires newId !in tokens && newId != raw
      modifies this`tokens
      ensures (match AtomicRefresh(old(tokens), accounts.rows.Keys, now, raw, newId).0
               case Accepted(id) => r == Ok(id)
               case Rejected => r == Err(Unauthorized))
      ensures r == if Sessions.MayRefresh(old(tokens), accounts.rows.Keys, now, raw) then Ok(newId)
                   else Err(Unauthorized)
      ensures r.Ok? ==> Sessions.Rotated(old(tokens), tokens, now, raw, newId)
      ensures r.Err? ==> if raw in old(tokens) && old(tokens)[raw].revokedAt.Some?
                         then Sessions.FamilyRevoked(old(tokens), tokens, now, old(tokens)[raw].familyId)
                         else tokens == old(tokens)
      ensures tokens == AtomicRefresh(old(tokens), accounts.rows.Keys, now, raw, newId).1
    {
      Sessions.RefreshIff(tokens, accounts.rows.Keys, now, raw, newId);
      if raw !in tokens {
        return Err(Unauthorized);
      }
      var existing := tokens[raw];
      if existing.revokedAt.Some? {
        tokens := RevokeFamily(tokens, existing.familyId, now);
        return Err(Unauthorized);
      }
      if existing.expiresAt < now {
        return Err(Unauthorized);
      }
      if existing.userId !in accounts.rows {
        return Err(Unauthorized);
      }
      IssueRefreshToken(existing.userId, existing.familyId, newId, now);
      var count := if Live(tokens, raw) then 1 else 0;
      tokens := Exchange(tokens, raw, now, newId);
      if count == 0 {
        // The lost race: impossible for a call that runs alone, covered by the interleaving model.
        assert false;
      }
      return Ok(newId);
    }

    method Logout(raw: Id, now: Time)
      modifies this`tokens
      ensures tokens == RevokeOne(old(tokens), raw, now)
      ensures Effects.LoggedOut(old(tokens), tokens, raw, now)
    {
      Effects.LogoutEndsTheSession(tokens, raw, now);
      if Live(tokens, raw) {
        tokens := tokens[raw := tokens[raw].(revokedAt := Some(now))];
      }
    }

    /** The nightly job; the count is the number of rows it removed. */
    method CleanupExpiredRefreshTokens(now: Time) returns (count: nat)
      modifies this`tokens
      ensures tokens == PurgeExpired(old(tokens), now)
      ensures forall t | t in old(tokens) :: t in tokens <==> now <= old(tokens)[t].expiresAt
      ensures forall t | t in tokens :: t in old(tokens) && tokens[t] == old(tokens)[t]
      ensures count == |old(tokens)| - |tokens|
      ensures count > 0 <==> exists t | t in old(tokens) :: old(tokens)[t].expiresAt < now
    {
      var kept := PurgeExpired(tokens, now);
      assert kept.Keys <= tokens.Keys;
      SubsetSize(kept.Keys, tokens.Keys);
      count := |tokens.Keys| - |kept.Keys|;
      assert count > 0 <==> kept.Keys != tokens.Keys;
      tokens := kept;
    }
  }
}
