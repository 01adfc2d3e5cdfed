/**
 Password changes, admin resets and the reuse check of one account. A digest carries its password and a random salt:
 verification compares passwords, so two digests of one password differ but both verify it.
 */
module Passwords {
  import opened Common
  import opened Lockout

  /** How many history rows are checked besides the current password. */
  const PASSWORD_HISTORY_CHECK_LIMIT: nat := 4

  datatype Digest = Digest(password: string, salt: nat)

  predicate Verify(d: Digest, password: string) {
    d.password == password
  }

  /** One PasswordHistory row. */
  datatype Entry = Entry(createdAt: Time, digest: Digest)

  /** The credential columns of a User row together with its PasswordHistory rows. */
  datatype Account = Account(
    digest: Digest,
    mustChange: bool,
    lock: Lock,
    pendingSince: Option<Time>,
    history: seq<Entry>)

  // ---- findMany orderBy createdAt desc take n ----

  function LatestIndex(rows: seq<Entry>): (i: nat)
    requires rows != []
    ensures i < |rows| && forall k | 0 <= k < |rows| :: rows[k].createdAt <= rows[i].createdAt
  {
    if |rows| == 1 then 0
    else
      var i := LatestIndex(rows[..|rows| - 1]);
      if rows[i].createdAt <= rows[|rows| - 1].createdAt then |rows| - 1 else i
  }

  function TakeLatest(rows: seq<Entry>, n: nat): seq<Entry>
    decreases n
  {
    if n == 0 || rows == [] then []
    else
      var i := LatestIndex(rows);
      [rows[i]] + TakeLatest(rows[..i] + rows[i + 1..], n - 1)
  }

  predicate AnyVerifies(rows: seq<Entry>, password: string) {
    exists k | 0 <= k < |rows| :: Verify(rows[k].digest, password)
  }

  predicate Reused(a: Account, password: string) {
    Verify(a.digest, password) || AnyVerifies(TakeLatest(a.history, PASSWORD_HISTORY_CHECK_LIMIT), password)
  }

  // ---- The two ways a password changes ----

  /** The current digest goes to the history, the new one takes its place. */
  function Replace(a: Account, password: string, at: Time, salt: nat): Account {
    a.(digest := Digest(password, salt), history := a.history + [Entry(at, a.digest)])
  }

  function ChangePassword(a: Account, current: string, password: string, at: Time, salt: nat): (Result<()>, Account) {
    if !a.mustChange then (Err(Forbidden), a)
    else if !Verify(a.digest, current) then (Err(Unauthorized), a)
    else if Reused(a, password) then (Err(Conflict), a)
    else (Ok(()), Replace(a, password, at, salt).(mustChange := false))
  }

  function ApplyPasswordReset(a: Account, password: string, at: Time, salt: nat): (Result<()>, Account) {
    if Reused(a, password) then (Err(Conflict), a)
    else (Ok(()), Replace(a, password, at, salt).(mustChange := true, pendingSince := None, lock := Lock(0, None)))
  }

  /** The row createUser and createTenantWithAdmin insert. */
  function Created(password: string, salt: nat): Account {
    Account(Digest(password, salt), true, Lock(0, None), None, [])
  }

  // ---- Runs ----

  datatype Op =
    | SelfChange(current: string, password: string, at: Time, salt: nat)
    | AdminReset(password: string, at: Time, salt: nat)
    | RequestChange(at: Time)
    | LoginAttempt(password: string, at: Time)

  function Apply(a: Account, op: Op): (Result<()>, Account) {
    match op
    case SelfChange(current, password, at, salt) => ChangePassword(a, current, password, at, salt)
    case AdminReset(password, at, salt) => ApplyPasswordReset(a, password, at, salt)
    case RequestChange(at) => (Ok(()), a.(pendingSince := Some(at)))
    case LoginAttempt(password, at) =>
      var (verdict, lock) := Validate(a.lock, Attempt(Verify(a.digest, password), at, at));
      (if verdict.Success? then Ok(()) else Err(Unauthorized), a.(lock := lock))
  }

  function Run(a: Account, ops: seq<Op>): Account
    decreases |ops|
  {
    if ops == [] then a else Run(Apply(a, ops[0]).1, ops[1..])
  }

  predicate Replaces(op: Op) {
    op.SelfChange? || op.AdminReset?
  }

  /** The passwords set along a run, in order. */
  function Accepted(a: Account, ops: seq<Op>): seq<string>
    decreases |ops|
  {
    if ops == [] then []
    else
      var (r, a') := Apply(a, ops[0]);
      (if Replaces(ops[0]) && r.Ok? then [ops[0].password] else []) + Accepted(a', ops[1..])
  }

  /** History timestamps are distinct and follow the clock. */
  predicate Later(a: Account, ops: seq<Op>)
    decreases |ops|
  {
    ops == [] ||
    ((forall k | 0 <= k < |a.history| :: a.history[k].createdAt < ops[0].at) && Later(Apply(a, ops[0]).1, ops[1..]))
  }

  /** Every password the account ever had, oldest first, the current one last. */
  function Timeline(a: Account): seq<string> {
    seq(|a.history|, k requires 0 <= k < |a.history| => a.history[k].digest.password) + [a.digest.password]
  }

  ghost predicate Chronicle(rows: seq<Entry>) {
    forall i, j | 0 <= i < j < |rows| :: rows[i].createdAt < rows[j].createdAt
  }

  /** Any six consecutive passwords are pairwise distinct. */
  ghost predicate WindowsDistinct(t: seq<string>) {
    forall i, j | 0 <= i < j < |t| && j - i <= 5 :: t[i] != t[j]
  }

  /** On a history in time order the query returns the last rows, newest first. */
  lemma {:induction false} TakeLatestIsSuffix(rows: seq<Entry>, n: nat)
    requires Chronicle(rows)
    ensures var latest := TakeLatest(rows, n);
            && |latest| == (if n < |rows| then n else |rows|)
            && forall k | 0 <= k < |latest| :: latest[k] == rows[|rows| - 1 - k]
    decreases n
  {
    if n != 0 && rows != [] {
      var i, init := LatestIndex(rows), rows[..|rows| - 1];
      assert i == |rows| - 1;
      assert rows[..i] + rows[i + 1..] == init;
      TakeLatestIsSuffix(init, n - 1);
      var latest, rest := TakeLatest(rows, n), TakeLatest(init, n - 1);
      assert latest == [rows[i]] + rest;
      forall k | 0 <= k < |latest| ensures latest[k] == rows[|rows| - 1 - k] {
        if k > 0 {
          assert latest[k] == rest[k - 1] == init[|init| - k];
        }
      }
    }
  }

  /** `password` is one of the last five entries of the timeline. */
  ghost predicate Recent(t: seq<string>, password: string) {
    exists k | 0 <= k < |t| :: |t| - 5 <= k && t[k] == password
  }

  lemma TimelineAt(a: Account)
    ensures |Timeline(a)| == |a.history| + 1 && Timeline(a)[|a.history|] == a.digest.password
    ensures forall k | 0 <= k < |a.history| :: Timeline(a)[k] == a.history[k].digest.password
  {}

  /** Searching the last rows newest first finds what a search of those rows would. */
  lemma SuffixVerifies(rows: seq<Entry>, latest: seq<Entry>, password: string)
    requires |latest| <= |rows| && forall k | 0 <= k < |latest| :: latest[k] == rows[|rows| - 1 - k]
    ensures AnyVerifies(latest, password)
            <==> exists k | |rows| - |latest| <= k < |rows| :: rows[k].digest.password == password
  {
    if k :| |rows| - |latest| <= k < |rows| && rows[k].digest.password == password {
      assert Verify(latest[|rows| - 1 - k].digest, password);
    }
  }

  lemma LatestAreSearched(rows: seq<Entry>, n: nat, password: string)
    requires Chronicle(rows)
    ensures AnyVerifies(TakeLatest(rows, n), password)
            <==> exists k | 0 <= k < |rows| :: |rows| - n <= k && rows[k].digest.password == password
  {
    TakeLatestIsSuffix(rows, n);
    SuffixVerifies(rows, TakeLatest(rows, n), password);
  }

  /** A password is refused exactly when it is one of the last five the account had. */
  lemma ReusedIffRecent(a: Account, password: string)
    requires Chronicle(a.history)
    ensures Reused(a, password) <==> Recent(Timeline(a), password)
  {
    var t := Timeline(a);
    TimelineAt(a);
    LatestAreSearched(a.history, PASSWORD_HISTORY_CHECK_LIMIT, password);
    if k :| 0 <= k < |a.history| && |a.history| - 4 <= k && a.history[k].digest.password == password {
      assert t[k] == password;
    }
  }

  // ---- Which changes and resets go through ----

  function LastOf(t: seq<string>): string
    requires t != []
  {
    t[|t| - 1]
  }

  /** The password column takes the new password, the history gains exactly the old digest. */
  predicate Replaced(a: Account, after: Account, password: string) {
    && Verify(after.digest, password)
    && |after.history| == |a.history| + 1 && a.history <= after.history && after.history[|a.history|].digest == a.digest
  }

  /**
   A self-change succeeds exactly when a change is owed, the password given as current is the last one on the
   timeline, and the new one is not among the last five. It then settles what is owed and touches nothing else.
   */
  ghost predicate SelfChanged(a: Account, after: Account, r: Result<()>, current: string, password: string) {
    var known, recent := current == LastOf(Timeline(a)), Recent(Timeline(a), password);
    && (r.Ok? <==> a.mustChange && known && !recent)
    && (r == Err(Forbidden) <==> !a.mustChange)
    && (r == Err(Unauthorized) <==> a.mustChange && !known)
    && (r == Err(Conflict) <==> a.mustChange && known && recent)
    && (r.Err? ==> after == a)
    && (r.Ok? ==> Replaced(a, after, password) && !after.mustChange
                  && after.lock == a.lock && after.pendingSince == a.pendingSince)
  }

  lemma SelfChangeIff(a: Account, current: string, password: string, at: Time, salt: nat)
    requires Chronicle(a.history)
    ensures var (r, after) := ChangePassword(a, current, password, at, salt);
            SelfChanged(a, after, r, current, password)
  {
    TimelineAt(a);
    ReusedIffRecent(a, password);
  }

  /** A reset succeeds exactly when the password is not among the last five; it forces a change and lifts the lock. */
  ghost predicate WasReset(a: Account, after: Account, r: Result<()>, password: string) {
    && (r.Ok? <==> !Recent(Timeline(a), password))
    && (r.Err? ==> r == Err(Conflict) && after == a)
    && (r.Ok? ==> Replaced(a, after, password) && after.mustChange && after.pendingSince.None?
                  && after.lock.attempts == 0 && after.lock.lockedUntil.None?)
  }

  lemma ResetIff(a: Account, password: string, at: Time, salt: nat)
    requires Chronicle(a.history)
    ensures var (r, after) := ApplyPasswordReset(a, password, at, salt); WasReset(a, after, r, password)
  {
    ReusedIffRecent(a, password);
  }

  /** A replacement appends to the timeline; nothing else touches it. */
  lemma ApplyExtendsTimeline(a: Account, op: Op)
    ensures var (r, a') := Apply(a, op);
            Timeline(a') == Timeline(a) + (if Replaces(op) && r.Ok? then [op.password] else [])
  {
    var (r, a') := Apply(a, op);
    if Replaces(op) && r.Ok? {
      assert a'.history == a.history + [Entry(op.at, a.digest)];
      assert Timeline(a') == Timeline(a) + [op.password];
    }
  }

  lemma ApplyKeepsWindows(a: Account, op: Op)
    requires Chronicle(a.history) && WindowsDistinct(Timeline(a))
    requires forall k | 0 <= k < |a.history| :: a.history[k].createdAt < op.at
    ensures Chronicle(Apply(a, op).1.history) && WindowsDistinct(Timeline(Apply(a, op).1))
  {
    var t := Timeline(a);
    ApplyExtendsTimeline(a, op);
    if Replaces(op) && Apply(a, op).0.Ok? {
      ReusedIffRecent(a, op.password);
      assert !Reused(a, op.password);
    }
  }

  /**
   The history rows together with the current digest are exactly the ordered list of all passwords the account had:
   a run appends the passwords it sets, in order.
   */
  lemma {:induction false} HistoryIsComplete(a: Account, ops: seq<Op>)
    ensures Timeline(Run(a, ops)) == Timeline(a) + Accepted(a, ops)
    decreases |ops|
  {
    if ops == [] {
      assert Timeline(a) + [] == Timeline(a);
    } else {
      var (r, a') := Apply(a, ops[0]);
      var added := if Replaces(ops[0]) && r.Ok? then [ops[0].password] else [];
      ApplyExtendsTimeline(a, ops[0]);
      HistoryIsComplete(a', ops[1..]);
      Regroup(Timeline(a), added, Accepted(a', ops[1..]));
    }
  }

  lemma {:induction false} ReuseWindow(a: Account, ops: seq<Op>)
    requires Chronicle(a.history) && WindowsDistinct(Timeline(a)) && Later(a, ops)
    ensures WindowsDistinct(Timeline(Run(a, ops)))
    decreases |ops|
  {
    if ops != [] {
      ApplyKeepsWindows(a, ops[0]);
      ReuseWindow(Apply(a, ops[0]).1, ops[1..]);
    }
  }

  /**
   Reuse window: for an account created through the API, along any run of self-changes, resets, requests and logins,
   any six consecutive passwords are pairwise distinct.
   */
  lemma ReuseWindowFromCreation(password: string, salt: nat, ops: seq<Op>)
    requires Later(Created(password, salt), ops)
    ensures WindowsDistinct([password] + Accepted(Created(password, salt), ops))
  {
    var a := Created(password, salt);
    ReuseWindow(a, ops);
    HistoryIsComplete(a, ops);
    assert Timeline(a) == [password];
  }

  lemma {:induction false} RunKeepsChronicle(a: Account, ops: seq<Op>)
    requires Chronicle(a.history) && Later(a, ops)
    ensures Chronicle(Run(a, ops).history)
    decreases |ops|
  {
    if ops != [] {
      ApplyKeepsChronicle(a, ops[0]);
      RunKeepsChronicle(Apply(a, ops[0]).1, ops[1..]);
    }
  }

  lemma ApplyKeepsChronicle(a: Account, op: Op)
    requires Chronicle(a.history) && forall k | 0 <= k < |a.history| :: a.history[k].createdAt < op.at
    ensures Chronicle(Apply(a, op).1.history)
  {}

  // ---- What a whole history decides ----

  /** Whether a change is owed after a run: the last accepted replacement, if any, was a reset. */
  function Owed(start: bool, a: Account, ops: seq<Op>): bool
    decreases |ops|
  {
    if ops == [] then start
    else
      var (r, a') := Apply(a, ops[0]);
      Owed(if Replaces(ops[0]) && r.Ok? then ops[0].AdminReset? else start, a', ops[1..])
  }

  lemma {:induction false} OwedIsMustChange(a: Account, ops: seq<Op>)
    ensures Run(a, ops).mustChange == Owed(a.mustChange, a, ops)
    decreases |ops|
  {
    if ops != [] {
      OwedIsMustChange(Apply(a, ops[0]).1, ops[1..]);
    }
  }

  /** Whether a request is pending after a run: the last request came after the last accepted reset. */
  function Asked(start: bool, a: Account, ops: seq<Op>): bool
    decreases |ops|
  {
    if ops == [] then start
    else
      var (r, a') := Apply(a, ops[0]);
      var now := if ops[0].RequestChange? then true else if ops[0].AdminReset? && r.Ok? then false else start;
      Asked(now, a', ops[1..])
  }

  lemma {:induction false} AskedIsPending(a: Account, ops: seq<Op>)
    ensures Run(a, ops).pendingSince.Some? == Asked(a.pendingSince.Some?, a, ops)
    decreases |ops|
  {
    if ops != [] {
      AskedIsPending(Apply(a, ops[0]).1, ops[1..]);
    }
  }

  /** What an operation means for the lock: a failed login misses, a successful one and an accepted reset clear. */
  function MarksOfOp(a: Account, op: Op): seq<Mark> {
    if op.LoginAttempt? then
      var attempt := Attempt(Verify(a.digest, op.password), op.at, op.at);
      MarkOf(Validate(a.lock, attempt).0, attempt)
    else if op.AdminReset? && Apply(a, op).0.Ok? then [Cleared]
    else []
  }

  function MarksAlong(a: Account, ops: seq<Op>): seq<Mark>
    decreases |ops|
  {
    if ops == [] then [] else MarksOfOp(a, ops[0]) + MarksAlong(Apply(a, ops[0]).1, ops[1..])
  }

  lemma OpKeepsTelling(marks: seq<Mark>, a: Account, op: Op)
    requires Tells(marks, a.lock)
    ensures Tells(marks + MarksOfOp(a, op), Apply(a, op).1.lock)
  {
    assert marks + [] == marks;
    match op
    case LoginAttempt(password, at) =>
      VerdictFollowsHistory(marks, a.lock, Attempt(Verify(a.digest, password), at, at));
    case AdminReset(_, _, _) => StreakGrows(marks, Cleared);
    case _ =>
  }

  lemma {:induction false} RunKeepsTelling(marks: seq<Mark>, a: Account, ops: seq<Op>)
    requires Tells(marks, a.lock)
    ensures Tells(marks + MarksAlong(a, ops), Run(a, ops).lock)
    decreases |ops|
  {
    if ops == [] {
      assert marks + [] == marks;
    } else {
      OpKeepsTelling(marks, a, ops[0]);
      RunKeepsTelling(marks + MarksOfOp(a, ops[0]), Apply(a, ops[0]).1, ops[1..]);
      Regroup(marks, MarksOfOp(a, ops[0]), MarksAlong(Apply(a, ops[0]).1, ops[1..]));
    }
  }

  /** The passwords an account created through the API has had after a run, the last one being current. */
  function PasswordsAfter(initial: string, salt: nat, ops: seq<Op>): seq<string> {
    [initial] + Accepted(Created(initial, salt), ops)
  }

  lemma TimelineAfter(initial: string, salt: nat, ops: seq<Op>)
    ensures Timeline(Run(Created(initial, salt), ops)) == PasswordsAfter(initial, salt, ops)
  {
    HistoryIsComplete(Created(initial, salt), ops);
    assert Timeline(Created(initial, salt)) == [initial];
  }

  /**
   After any run on an account created through the API, a self-change goes through exactly when no accepted self-change
   has happened since creation or the last accepted reset, it names the password that is current at that moment, and
   the new password is none of the last five.
   */
  lemma SelfChangeFollowsHistory(initial: string, salt: nat, ops: seq<Op>, op: Op)
    requires Later(Created(initial, salt), ops) && op.SelfChange?
    ensures var t := PasswordsAfter(initial, salt, ops);
            Apply(Run(Created(initial, salt), ops), op).0.Ok?
            <==> Owed(true, Created(initial, salt), ops) && op.current == LastOf(t) && !Recent(t, op.password)
  {
    var a := Run(Created(initial, salt), ops);
    RunKeepsChronicle(Created(initial, salt), ops);
    TimelineAfter(initial, salt, ops);
    OwedIsMustChange(Created(initial, salt), ops);
    SelfChangeIff(a, op.current, op.password, op.at, op.salt);
  }

  /**
   After any run a login goes through exactly when it gives the current password and the account is not locked: fewer
   than five failures were counted since the last success or reset, or the last of them is 15 minutes old.
   */
  lemma LoginFollowsHistory(initial: string, salt: nat, ops: seq<Op>, op: Op)
    requires op.LoginAttempt?
    ensures var a := Created(initial, salt);
            Apply(Run(a, ops), op).0.Ok?
            <==> op.password == LastOf(PasswordsAfter(initial, salt, ops)) && !LockedBy(MarksAlong(a, ops), op.at)
  {
    var a := Created(initial, salt);
    var b, marks := Run(a, ops), [] + MarksAlong(a, ops);
    RunKeepsTelling([], a, ops);
    assert marks == MarksAlong(a, ops);
    TimelineAfter(initial, salt, ops);
    TimelineAt(b);
    VerdictFollowsHistory(marks, b.lock, Attempt(Verify(b.digest, op.password), op.at, op.at));
  }

  // ---- Forced changes ----

  function SelfChanges(a: Account, ops: seq<Op>): nat
    decreases |ops|
  {
    if ops == [] then 0
    else
      var (r, a') := Apply(a, ops[0]);
      (if ops[0].SelfChange? && r.Ok? then 1 else 0) + SelfChanges(a', ops[1..])
  }

  function Resets(a: Account, ops: seq<Op>): nat
    decreases |ops|
  {
    if ops == [] then 0
    else
      var (r, a') := Apply(a, ops[0]);
      (if ops[0].AdminReset? && r.Ok? then 1 else 0) + Resets(a', ops[1..])
  }

  /** Resets of an account whose change was still forced. */
  function RepeatedResets(a: Account, ops: seq<Op>): nat
    decreases |ops|
  {
    if ops == [] then 0
    else
      var (r, a') := Apply(a, ops[0]);
      (if ops[0].AdminReset? && r.Ok? && a.mustChange then 1 else 0) + RepeatedResets(a', ops[1..])
  }

  /** Every forced change is owed to creation or to a reset, and is used up by exactly one self-change. */
  lemma {:induction false} ForcedChangesBalance(a: Account, ops: seq<Op>)
    ensures SelfChanges(a, ops) + (if Run(a, ops).mustChange then 1 else 0) + RepeatedResets(a, ops)
            == (if a.mustChange then 1 else 0) + Resets(a, ops)
    decreases |ops|
  {
    if ops != [] {
      ForcedChangesBalance(Apply(a, ops[0]).1, ops[1..]);
    }
  }

  /** For an account created through the API: self-changes plus a change still owed never exceed 1 plus the resets. */
  lemma SelfChangesNeverExceedResets(password: string, salt: nat, ops: seq<Op>)
    ensures var a := Created(password, salt);
            SelfChanges(a, ops) + (if Run(a, ops).mustChange then 1 else 0) <= 1 + Resets(a, ops)
  {
    ForcedChangesBalance(Created(password, salt), ops);
  }
}
