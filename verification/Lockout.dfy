/** The failed-login counter and lock of one account, one login attempt at a time. */
module Lockout {
  import opened Common

  const LOCKOUT_THRESHOLD: nat := 5
  const LOCKOUT_DURATION: int := 15 * MINUTE

  datatype Lock = Lock(attempts: nat, lockedUntil: Option<Time>)

  /** A login attempt reads the clock when it checks the lock and again, later, when it writes one. */
  datatype Attempt = Attempt(correct: bool, checkedAt: Time, stampedAt: Time)

  datatype Verdict =
    | Success   // password accepted
    | Counted   // wrong password on an unlocked account
    | Ignored   // refused because the account is locked, whatever the password

  predicate IsLocked(l: Lock, at: Time) {
    l.lockedUntil.Some? && l.lockedUntil.value > at
  }

  function RegisterFailure(l: Lock, stampedAt: Time): Lock {
    if l.attempts + 1 >= LOCKOUT_THRESHOLD
    then Lock(l.attempts + 1, Some(stampedAt + LOCKOUT_DURATION))
    else Lock(l.attempts + 1, l.lockedUntil)
  }

  /** validateUser for an existing account. */
  function Validate(l: Lock, a: Attempt): (Verdict, Lock) {
    if IsLocked(l, a.checkedAt) then (Ignored, l)
    else if !a.correct then (Counted, RegisterFailure(l, a.stampedAt))
    else (Success, Lock(0, None))
  }

  /** Attempts follow each other: each checks the lock no earlier than the previous one stamped. */
  predicate Chronological(from: Time, run: seq<Attempt>)
    decreases |run|
  {
    run == [] || (from <= run[0].checkedAt <= run[0].stampedAt && Chronological(run[0].stampedAt, run[1..]))
  }

  predicate NoSuccess(l: Lock, run: seq<Attempt>)
    decreases |run|
  {
    run == [] || (!Validate(l, run[0]).0.Success? && NoSuccess(Validate(l, run[0]).1, run[1..]))
  }

  /** When each counted failure of a run was checked. */
  function CountedTimes(l: Lock, run: seq<Attempt>): seq<Time>
    decreases |run|
  {
    if run == [] then []
    else
      var (verdict, l') := Validate(l, run[0]);
      (if verdict.Counted? then [run[0].checkedAt] else []) + CountedTimes(l', run[1..])
  }

  function Final(l: Lock, run: seq<Attempt>): Lock
    decreases |run|
  {
    if run == [] then l else Final(Validate(l, run[0]).1, run[1..])
  }

  /** Attempts made during a lock change nothing, with either password. */
  lemma LockedAttemptsChangeNothing(l: Lock, a: Attempt)
    requires IsLocked(l, a.checkedAt)
    ensures Validate(l, a) == (Ignored, l)
  {}

  /** Without success or reset the counter is the number of counted failures. */
  lemma {:induction false} CounterCounts(l: Lock, run: seq<Attempt>)
    requires NoSuccess(l, run)
    ensures Final(l, run).attempts == l.attempts + |CountedTimes(l, run)|
    decreases |run|
  {
    if run != [] {
      CounterCounts(Validate(l, run[0]).1, run[1..]);
    }
  }

  // ---- The lock as the history of the account tells it ----

  /** A counted failure, with the time a lock written for it starts, or something that clears the slate. */
  datatype Mark = Missed(at: Time) | Cleared

  /** The counted failures since the slate was last cleared. */
  function Streak(marks: seq<Mark>): seq<Time> {
    if marks == [] then []
    else
      var k := |marks| - 1;
      if marks[k].Cleared? then [] else Streak(marks[..k]) + [marks[k].at]
  }

  /** Five counted failures in a row lock the account for 15 minutes from the last of them. */
  predicate LockedBy(marks: seq<Mark>, at: Time) {
    var streak := Streak(marks);
    |streak| >= 5 && at < streak[|streak| - 1] + 15 * 60 * 1000
  }

  /** The counter is the length of the streak, and a lock is set exactly if that reached five. */
  predicate Tells(marks: seq<Mark>, l: Lock) {
    var streak := Streak(marks);
    l.attempts == |streak|
    && l.lockedUntil == if |streak| >= 5 then Some(streak[|streak| - 1] + 15 * 60 * 1000) else None
  }

  function MarkOf(verdict: Verdict, a: Attempt): seq<Mark> {
    match verdict
    case Success => [Cleared]
    case Counted => [Missed(a.stampedAt)]
    case Ignored => []
  }

  function Marks(l: Lock, run: seq<Attempt>): seq<Mark>
    decreases |run|
  {
    if run == [] then []
    else
      var (verdict, l') := Validate(l, run[0]);
      MarkOf(verdict, run[0]) + Marks(l', run[1..])
  }

  lemma StreakGrows(marks: seq<Mark>, m: Mark)
    ensures Streak(marks + [m]) == if m.Cleared? then [] else Streak(marks) + [m.at]
  {
    assert (marks + [m])[..|marks|] == marks;
  }

  /** An attempt is ignored exactly during the lock; otherwise the password alone decides. */
  lemma VerdictFollowsHistory(marks: seq<Mark>, l: Lock, a: Attempt)
    requires Tells(marks, l)
    ensures var verdict := Validate(l, a).0;
            && (verdict.Ignored? <==> LockedBy(marks, a.checkedAt))
            && (verdict.Success? <==> a.correct && !LockedBy(marks, a.checkedAt))
    ensures Tells(marks + MarkOf(Validate(l, a).0, a), Validate(l, a).1)
  {
    assert marks + [] == marks;
    StreakGrows(marks, Cleared);
    StreakGrows(marks, Missed(a.stampedAt));
  }

  /**
   Over any run, successes included: the counter is the number of failures counted since the last success, and the
   account has a lock exactly if those are at least five, ending 15 minutes after the last of them.
   */
  lemma {:induction false} LockFollowsHistory(marks: seq<Mark>, l: Lock, run: seq<Attempt>)
    requires Tells(marks, l)
    ensures Tells(marks + Marks(l, run), Final(l, run))
    decreases |run|
  {
    if run == [] {
      assert marks + [] == marks;
    } else {
      var (verdict, l') := Validate(l, run[0]);
      VerdictFollowsHistory(marks, l, run[0]);
      LockFollowsHistory(marks + MarkOf(verdict, run[0]), l', run[1..]);
      Regroup(marks, MarkOf(verdict, run[0]), Marks(l', run[1..]));
    }
  }

  ghost predicate Ascending(c: seq<Time>) {
    forall i, j | 0 <= i < j < |c| :: c[i] <= c[j]
  }

  ghost predicate Unlocked(l: Lock, from: Time, c: seq<Time>) {
    forall i | 0 <= i < |c| :: from <= c[i] && !IsLocked(l, c[i])
  }

  /** Counted failures come in order, none before `from`, and none while the initial lock lasts. */
  lemma {:induction false} TimesAreOrdered(l: Lock, from: Time, run: seq<Attempt>)
    requires Chronological(from, run) && NoSuccess(l, run)
    ensures Unlocked(l, from, CountedTimes(l, run)) && Ascending(CountedTimes(l, run))
    decreases |run|
  {
    if run != [] {
      TimesAreOrdered(Validate(l, run[0]).1, run[0].stampedAt, run[1..]);
    }
  }

  /** From the failure that reaches the threshold on, consecutive counted failures are at least 15 minutes apart. */
  lemma {:induction false} CountedFailuresAreSpaced(l: Lock, from: Time, run: seq<Attempt>, i: nat)
    requires Chronological(from, run) && NoSuccess(l, run)
    requires i + 1 < |CountedTimes(l, run)| && l.attempts + i + 1 >= LOCKOUT_THRESHOLD
    ensures CountedTimes(l, run)[i] + LOCKOUT_DURATION <= CountedTimes(l, run)[i + 1]
    decreases |run|
  {
    var (verdict, l') := Validate(l, run[0]);
    if verdict.Counted? {
      if i == 0 {
        assert l'.lockedUntil == Some(run[0].stampedAt + LOCKOUT_DURATION);
        TimesAreOrdered(l', run[0].stampedAt, run[1..]);
        assert !IsLocked(l', CountedTimes(l', run[1..])[0]);
      } else {
        CountedFailuresAreSpaced(l', run[0].stampedAt, run[1..], i - 1);
      }
    } else {
      CountedFailuresAreSpaced(l', run[0].stampedAt, run[1..], i);
    }
  }

  lemma {:induction false} SpacingAddsUp(l: Lock, from: Time, run: seq<Attempt>, k: nat)
    requires l.attempts == 0 && Chronological(from, run) && NoSuccess(l, run)
    requires LOCKOUT_THRESHOLD <= k < |CountedTimes(l, run)|
    ensures CountedTimes(l, run)[0] + (k - 4) * LOCKOUT_DURATION <= CountedTimes(l, run)[k]
    decreases k
  {
    CountedFailuresAreSpaced(l, from, run, k - 1);
    if k == LOCKOUT_THRESHOLD {
      TimesAreOrdered(l, from, run);
    } else {
      SpacingAddsUp(l, from, run, k - 1);
    }
  }

  /** How many entries of `c` lie within `span` of the first. */
  function Within(c: seq<Time>, first: Time, span: nat): nat {
    if c == [] then 0 else (if c[0] <= first + span then 1 else 0) + Within(c[1..], first, span)
  }

  lemma {:induction false} WithinIsPrefix(c: seq<Time>, first: Time, span: nat)
    requires Ascending(c)
    ensures Within(c, first, span) <= |c|
    ensures Within(c, first, span) > 0 ==> c[Within(c, first, span) - 1] <= first + span
  {
    if c != [] {
      WithinIsPrefix(c[1..], first, span);
      var n := Within(c[1..], first, span);
      assert n > 0 ==> c[0] <= c[n];
    }
  }

  /**
   Guess bound: starting from a zero counter, with no success and no reset, at most 5 + floor(T / 15 minutes) wrong
   passwords are counted within time T of the first.
   */
  lemma GuessBound(l: Lock, from: Time, run: seq<Attempt>, span: nat)
    requires l.attempts == 0 && Chronological(from, run) && NoSuccess(l, run)
    ensures var c := CountedTimes(l, run);
            c != [] ==> Within(c, c[0], span) <= LOCKOUT_THRESHOLD + span / LOCKOUT_DURATION
  {
    var c := CountedTimes(l, run);
    if c != [] {
      TimesAreOrdered(l, from, run);
      WithinIsPrefix(c, c[0], span);
      var n := Within(c, c[0], span);
      if n > LOCKOUT_THRESHOLD {
        SpacingAddsUp(l, from, run, n - 1);
        assert (n - 5) * LOCKOUT_DURATION <= span;
        assert n - 5 <= span / LOCKOUT_DURATION;
      }
    }
  }

  /** A guesser who fails five times at once and then as soon as each lock ends. */
  function Patient(start: Time, count: nat): seq<Attempt>
    decreases count
  {
    if count == 0 then [] else [Attempt(false, start, start)] + Patient(start + LOCKOUT_DURATION, count - 1)
  }

  lemma {:induction false} PatientIsCounted(l: Lock, start: Time, count: nat)
    requires l.attempts >= LOCKOUT_THRESHOLD - 1 && !IsLocked(l, start)
    ensures Chronological(start, Patient(start, count)) && NoSuccess(l, Patient(start, count))
    ensures |CountedTimes(l, Patient(start, count))| == count
    ensures forall i | 0 <= i < count :: CountedTimes(l, Patient(start, count))[i] == start + i * LOCKOUT_DURATION
    decreases count
  {
    if count > 0 {
      var run := Patient(start, count);
      assert run[1..] == Patient(start + LOCKOUT_DURATION, count - 1);
      var l' := Validate(l, run[0]).1;
      PatientIsCounted(l', start + LOCKOUT_DURATION, count - 1);
      ChronologicalEarlier(start, start + LOCKOUT_DURATION, run[1..]);
    }
  }

  lemma ChronologicalEarlier(from: Time, later: Time, run: seq<Attempt>)
    requires Chronological(later, run) && from <= later
    ensures Chronological(from, run)
  {}

  /** The bound is attained for every n: 5 + n failures counted within n lock durations. */
  lemma GuessBoundIsTight(start: Time, n: nat)
    ensures var four := seq(4, _ => Attempt(false, start, start));
            var run := four + Patient(start, n + 1);
            && Chronological(start, run) && NoSuccess(Lock(0, None), run)
            && |CountedTimes(Lock(0, None), run)| == LOCKOUT_THRESHOLD + n
            && CountedTimes(Lock(0, None), run)[LOCKOUT_THRESHOLD + n - 1] <= start + n * LOCKOUT_DURATION
  {
    var l1, l2, l3, l4 := Lock(1, None), Lock(2, None), Lock(3, None), Lock(4, None);
    var a := Attempt(false, start, start);
    var p := Patient(start, n + 1);
    PatientIsCounted(l4, start, n + 1);
    Prepend(l3, start, a, p);
    Prepend(l2, start, a, [a] + p);
    Prepend(l1, start, a, [a] + ([a] + p));
    Prepend(Lock(0, None), start, a, [a] + ([a] + ([a] + p)));
    assert seq(4, _ => a) + p == [a] + ([a] + ([a] + ([a] + p)));
  }

  lemma Prepend(l: Lock, start: Time, a: Attempt, run: seq<Attempt>)
    requires l.lockedUntil.None? && l.attempts + 1 < LOCKOUT_THRESHOLD && a == Attempt(false, start, start)
    requires Chronological(start, run) && NoSuccess(Lock(l.attempts + 1, None), run)
    ensures Chronological(start, [a] + run) && NoSuccess(l, [a] + run)
    ensures CountedTimes(l, [a] + run) == [start] + CountedTimes(Lock(l.attempts + 1, None), run)
  {
    assert ([a] + run)[0] == a && ([a] + run)[1..] == run;
    assert Validate(l, a) == (Counted, Lock(l.attempts + 1, None));
  }
}
