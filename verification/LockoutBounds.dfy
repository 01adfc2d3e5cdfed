/**
 What an attacker gains by sending wrong passwords in parallel: the guess bound under interleaving, and the schedule on
 which a late lock write shortens the lock.
 */
module LockoutBounds {
  import opened Common
  import opened Lockout
  import opened LockoutRaces

  predicate Unfinished(p: Pc) {
    !p.TurnedAway? && !p.Done?
  }

  /** The attempts that have been received and not yet answered. */
  function InFlight(requests: map<Id, Pc>): set<Id> {
    set r | r in requests && Unfinished(requests[r])
  }

  function DoneRequests(requests: map<Id, Pc>): set<Id> {
    set r | r in requests && requests[r].Done?
  }

  // ---- Before the first lock lands ----

  /** Until a lock write lands, at most four attempts have counted and been answered. */
  lemma FewDoneBeforeTheLock(s: State)
    requires Tally(s) && s.lockedUntil.None?
    ensures |DoneRequests(s.requests)| <= LOCKOUT_THRESHOLD - 1
  {
    var finished, pending := DoneRequests(s.requests), PendingRequests(s.requests);
    SubsetSize(finished + pending, CountedRequests(s.requests));
    assert finished * pending == {};
  }

  lemma FewDoneAtTheLock(s: State, writer: Id)
    requires Tally(s) && s.lockedUntil.None? && Step(s, Advance(writer)).lockedUntil.Some?
    ensures |DoneRequests(Step(s, Advance(writer)).requests)| <= LOCKOUT_THRESHOLD
  {
    FewDoneBeforeTheLock(s);
    assert DoneRequests(Step(s, Advance(writer)).requests) == DoneRequests(s.requests) + {writer};
  }

  // ---- After it ----

  /** Until the time `end` nobody who arrives after the state with requests `base` can count. */
  ghost predicate Barred(base: map<Id, Pc>, end: Time, s: State) {
    && s.lockedUntil.Some? && end <= s.lockedUntil.value && end <= s.now + LOCKOUT_DURATION
    && (forall r | r in s.requests && s.requests[r].Locking? :: end <= s.requests[r].until)
    && (forall r | r in s.requests && r !in base :: TurnsAway(s.requests[r], end))
    && (forall r | r in base && base[r].TurnedAway? :: r in s.requests && s.requests[r].TurnedAway?)
  }

  predicate TurnsAway(p: Pc, end: Time) {
    p.TurnedAway? || (p.Verifying? && p.lockedUntil.Some? && end <= p.lockedUntil.value)
  }

  lemma StepKeepsBarred(base: map<Id, Pc>, end: Time, s: State, a: Action)
    requires Barred(base, end, s) && s.now < end
    ensures Barred(base, end, Step(s, a))
  {}

  lemma {:induction false} NowGrows(s: State, actions: seq<Action>)
    ensures s.now <= Run(s, actions).now
    decreases |actions|
  {
    if actions != [] {
      NowGrows(Step(s, actions[0]), actions[1..]);
    }
  }

  lemma {:induction false} RunKeepsBarred(base: map<Id, Pc>, end: Time, s: State, actions: seq<Action>)
    requires Barred(base, end, s) && Run(s, actions).now < end
    ensures Barred(base, end, Run(s, actions))
    decreases |actions|
  {
    if actions != [] {
      NowGrows(s, actions);
      StepKeepsBarred(base, end, s, actions[0]);
      RunKeepsBarred(base, end, Step(s, actions[0]), actions[1..]);
    }
  }

  /** Every stamp lies at least 15 minutes after the fifth failure. */
  lemma StampAfterFifth(now: Time, attempts: nat, log: seq<Event>, start: Time, f: nat, r: Id, until: Time, end: nat)
    requires Clock(now, log, start) && Numbered(attempts, log) && StampedBefore(log, r, until, end)
    requires f < |log| && log[f].Failed? && log[f].nth == LOCKOUT_THRESHOLD
    ensures log[f].at + LOCKOUT_DURATION <= until
  {
    var p :| 0 <= p < end && log[p] == Stamped(r, until);
    assert f < p;
    assert TimedAt(log[p], start + Elapsed(log[..p])) && TimedAt(log[f], start + Elapsed(log[..f]));
    ElapsedBetween(log, f, p);
  }

  lemma BarredAtTheLock(s: State, start: Time, f: nat)
    requires Inv(s, start) && s.lockedUntil.Some?
    requires f < |s.log| && s.log[f].Failed? && s.log[f].nth == LOCKOUT_THRESHOLD
    ensures Barred(s.requests, s.log[f].at + LOCKOUT_DURATION, s)
  {
    var w: nat :| LastLock(s.log, w) && s.lockedUntil == Some(s.log[w].until);
    StampAfterFifth(s.now, s.attempts, s.log, start, f, s.log[w].request, s.log[w].until, w);
    forall r | r in s.requests && s.requests[r].Locking?
      ensures s.log[f].at + LOCKOUT_DURATION <= s.requests[r].until
    {
      StampAfterFifth(s.now, s.attempts, s.log, start, f, r, s.requests[r].until, |s.log|);
    }
    assert TimedAt(s.log[f], start + Elapsed(s.log[..f]));
    ElapsedBetween(s.log, f, |s.log|);
    assert s.log[..|s.log|] == s.log;
  }

  lemma {:induction false} RunAppends(s: State, a: seq<Action>, b: seq<Action>)
    ensures Run(s, a + b) == Run(Run(s, a), b)
    decreases |a|
  {
    if a == [] {
      assert a + b == b;
    } else {
      assert (a + b)[0] == a[0] && (a + b)[1..] == a[1..] + b;
      RunAppends(Step(s, a[0]), a[1..], b);
    }
  }

  lemma OnlyInFlightCount(base: map<Id, Pc>, end: Time, s: State)
    requires Barred(base, end, s)
    ensures |CountedRequests(s.requests)| <= |DoneRequests(base)| + |InFlight(base)|
  {
    SubsetSize(CountedRequests(s.requests), DoneRequests(base) + InFlight(base));
  }

  lemma BarredFrom(start: Time, before: seq<Action>, f: nat)
    requires var s := Run(Init(start), before);
             s.lockedUntil.Some? && f < |s.log| && s.log[f].Failed? && s.log[f].nth == LOCKOUT_THRESHOLD
    ensures var s := Run(Init(start), before); Barred(s.requests, s.log[f].at + LOCKOUT_DURATION, s)
  {
    RunKeepsInv(Init(start), before, start);
    BarredAtTheLock(Run(Init(start), before), start, f);
  }

  /**
   Guess bound under races: until 15 minutes after the fifth failure, the wrong passwords counted are at most five
   plus the attempts in flight at the moment the first lock write landed, in every interleaving.
   */
  lemma RacedGuessBound(start: Time, before: seq<Action>, writer: Id, after: seq<Action>, f: nat)
    requires var s := Run(Init(start), before);
             s.lockedUntil.None? && Step(s, Advance(writer)).lockedUntil.Some?
    requires var s := Step(Run(Init(start), before), Advance(writer));
             && f < |s.log| && s.log[f].Failed? && s.log[f].nth == LOCKOUT_THRESHOLD
             && Run(s, after).now < s.log[f].at + LOCKOUT_DURATION
    ensures var s := Step(Run(Init(start), before), Advance(writer));
            Run(s, after).attempts <= LOCKOUT_THRESHOLD + |InFlight(s.requests)|
  {
    var s0 := Run(Init(start), before);
    var s1 := Step(s0, Advance(writer));
    RunKeepsTally(Init(start), before);
    FewDoneAtTheLock(s0, writer);
    StepKeepsTally(s0, Advance(writer));
    RunKeepsTally(s1, after);
    RunAppends(Init(start), before, [Advance(writer)]);
    BarredFrom(start, before + [Advance(writer)], f);
    RunKeepsBarred(s1.requests, s1.log[f].at + LOCKOUT_DURATION, s1, after);
    OnlyInFlightCount(s1.requests, s1.log[f].at + LOCKOUT_DURATION, Run(s1, after));
  }

  // ---- The race that shortens the lock ----

  function OneFailure(r: Id): seq<Action> {
    [Begin(r), Advance(r), Advance(r), Advance(r)]
  }

  function BothVerified(): seq<Action> {
    [Begin(5), Begin(6), Advance(5), Advance(6)]
  }

  /** The fifth failure is counted and its lock stamped; five minutes pass before its write is sent. */
  function FifthStamped(): seq<Action> {
    [Advance(5), Advance(5), Tick(5 * MINUTE)]
  }

  /** The sixth failure is counted and its lock written; then the fifth's write lands. */
  function SixthOvertakes(): seq<Action> {
    [Advance(6), Advance(6), Advance(6), Advance(5)]
  }

  lemma OneFailureCounts(s: State, r: Id)
    requires s.lockedUntil.None? && s.attempts < LOCKOUT_THRESHOLD - 1 && r !in s.requests
    ensures Run(s, OneFailure(r))
            == s.(attempts := s.attempts + 1, requests := s.requests[r := Done],
                  log := s.log + [Failed(r, s.now, s.attempts + 1)])
  {
    var s1 := Step(s, Begin(r));
    var s2 := Step(s1, Advance(r));
    var s3 := Step(s2, Advance(r));
    RunAppends(s, [Begin(r)], [Advance(r), Advance(r), Advance(r)]);
    RunAppends(s1, [Advance(r)], [Advance(r), Advance(r)]);
    RunAppends(s2, [Advance(r)], [Advance(r)]);
    assert OneFailure(r) == [Begin(r)] + [Advance(r), Advance(r), Advance(r)];
    assert Step(s3, Advance(r)).requests == s.requests[r := Done];
  }

  lemma FourInARow(s: State)
    requires s.lockedUntil.None? && s.attempts == 0 && s.requests == map[]
    ensures var s' := Run(Run(Run(Run(s, OneFailure(1)), OneFailure(2)), OneFailure(3)), OneFailure(4));
            && s'.now == s.now && s'.attempts == 4 && s'.lockedUntil.None?
            && s'.requests == map[1 := Done, 2 := Done, 3 := Done, 4 := Done]
  {
    OneFailureCounts(s, 1);
    OneFailureCounts(Run(s, OneFailure(1)), 2);
    OneFailureCounts(Run(Run(s, OneFailure(1)), OneFailure(2)), 3);
    OneFailureCounts(Run(Run(Run(s, OneFailure(1)), OneFailure(2)), OneFailure(3)), 4);
  }

  lemma FourFailures(now: Time) returns (four: seq<Action>)
    ensures var s := Run(Init(now), four);
            && s.now == now && s.attempts == 4 && s.lockedUntil.None?
            && s.requests == map[1 := Done, 2 := Done, 3 := Done, 4 := Done]
  {
    var two, three := OneFailure(1) + OneFailure(2), OneFailure(1) + OneFailure(2) + OneFailure(3);
    four := three + OneFailure(4);
    RunAppends(Init(now), three, OneFailure(4));
    RunAppends(Init(now), two, OneFailure(3));
    RunAppends(Init(now), OneFailure(1), OneFailure(2));
    FourInARow(Init(now));
  }

  lemma UnfoldRun(s: State, a: Action, rest: seq<Action>)
    ensures Run(s, [a] + rest) == Run(Step(s, a), rest)
  {}

  lemma RunBothVerified(s: State)
    requires s.lockedUntil.None? && 5 !in s.requests && 6 !in s.requests
    ensures Run(s, BothVerified()) == s.(requests := s.requests[5 := Counting][6 := Counting])
  {
    var s1 := Step(s, Begin(5));
    var s2 := Step(s1, Begin(6));
    var s3 := Step(s2, Advance(5));
    UnfoldRun(s, Begin(5), [Begin(6), Advance(5), Advance(6)]);
    UnfoldRun(s1, Begin(6), [Advance(5), Advance(6)]);
    UnfoldRun(s2, Advance(5), [Advance(6)]);
    UnfoldRun(s3, Advance(6), []);
    assert Step(s3, Advance(6)).requests == s.requests[5 := Counting][6 := Counting];
  }

  lemma RunFifthStamped(s: State)
    requires s.attempts == 4 && 5 in s.requests && s.requests[5] == Counting
    ensures Run(s, FifthStamped())
            == s.(now := s.now + 5 * MINUTE, attempts := 5,
                  requests := s.requests[5 := Locking(s.now + LOCKOUT_DURATION)],
                  log := s.log + [Failed(5, s.now, 5)] + [Stamped(5, s.now + LOCKOUT_DURATION)] + [Ticked(5 * MINUTE)])
  {
    var s1 := Step(s, Advance(5));
    var s2 := Step(s1, Advance(5));
    UnfoldRun(s, Advance(5), [Advance(5), Tick(5 * MINUTE)]);
    UnfoldRun(s1, Advance(5), [Tick(5 * MINUTE)]);
    UnfoldRun(s2, Tick(5 * MINUTE), []);
    assert s2.requests == s.requests[5 := Locking(s.now + LOCKOUT_DURATION)];
  }

  lemma RunSixthOvertakes(s: State, until: Time)
    requires s.attempts == 5 && 5 in s.requests && s.requests[5] == Locking(until)
    requires 6 in s.requests && s.requests[6] == Counting
    ensures var s' := Run(s, SixthOvertakes());
            && s'.attempts == 6 && s'.lockedUntil == Some(until) && s'.requests == s.requests[6 := Done][5 := Done]
            && |s'.log| > |s.log| && s'.log[|s.log|] == Failed(6, s.now, 6)
  {
    var s1 := Step(s, Advance(6));
    var s2 := Step(s1, Advance(6));
    var s3 := Step(s2, Advance(6));
    UnfoldRun(s, Advance(6), [Advance(6), Advance(6), Advance(5)]);
    UnfoldRun(s1, Advance(6), [Advance(6), Advance(5)]);
    UnfoldRun(s2, Advance(6), [Advance(5)]);
    UnfoldRun(s3, Advance(5), []);
    assert s3.requests == s.requests[6 := Done];
  }

  lemma RaceOutcome(s: State) returns (f: nat)
    requires s.attempts == 4 && s.lockedUntil.None? && s.requests == map[1 := Done, 2 := Done, 3 := Done, 4 := Done]
    ensures var s' := Run(Run(Run(s, BothVerified()), FifthStamped()), SixthOvertakes());
            && s'.attempts == 6 && Quiescent(s') && s'.lockedUntil == Some(s.now + LOCKOUT_DURATION)
            && f < |s'.log| && s'.log[f] == Failed(6, s.now + 5 * MINUTE, 6)
  {
    var s1, s2 := Run(s, BothVerified()), Run(Run(s, BothVerified()), FifthStamped());
    RunBothVerified(s);
    RunFifthStamped(s1);
    RunSixthOvertakes(s2, s.now + LOCKOUT_DURATION);
    f := |s2.log|;
  }

  lemma Race(s: State) returns (race: seq<Action>, f: nat)
    requires s.attempts == 4 && s.lockedUntil.None? && s.requests == map[1 := Done, 2 := Done, 3 := Done, 4 := Done]
    ensures var s' := Run(s, race);
            && s'.attempts == 6 && Quiescent(s') && s'.lockedUntil == Some(s.now + LOCKOUT_DURATION)
            && f < |s'.log| && s'.log[f] == Failed(6, s.now + 5 * MINUTE, 6)
  {
    var first := BothVerified() + FifthStamped();
    race := first + SixthOvertakes();
    RunAppends(s, first, SixthOvertakes());
    RunAppends(s, BothVerified(), FifthStamped());
    f := RaceOutcome(s);
  }

  /**
   The race is real. On some schedule from the start the account ends with six failures counted, nothing outstanding,
   and a lock of only 10 minutes after the sixth failure.
   */
  lemma LateWriteShortensTheLock(now: Time) returns (actions: seq<Action>, f: nat)
    ensures var s := Run(Init(now), actions);
            && s.attempts == 6 && Quiescent(s) && Overtaken(s.log)
            && s.lockedUntil == Some(now + LOCKOUT_DURATION)
            && f < |s.log| && s.log[f] == Failed(6, now + 5 * MINUTE, 6)
  {
    var four := FourFailures(now);
    var race;
    race, f := Race(Run(Init(now), four));
    actions := four + race;
    RunAppends(Init(now), four, race);
    LockCoversIff(now, actions);
  }
}
