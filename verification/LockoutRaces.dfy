/**
 Concurrent wrong-password attempts on one account, with no success and no reset in between. Each query is one atomic
 step; the timestamp a lock write carries is computed before the write is sent, so writes may land out of order.
 `log` is history: clock ticks, increments, stamps and lock writes in the order they happened.
 */
module LockoutRaces {
  import opened Common
  import opened Lockout

  datatype Pc =
    | Verifying(lockedUntil: Option<Time>)   // holds the row read; the password check is running
    | Counting                               // about to increment the counter
    | Counted(attempts: nat)                 // holds the counter value the increment returned
    | Locking(until: Time)                   // about to write lockedUntil
    | TurnedAway                             // refused because of the lock, without counting
    | Done                                   // counted and refused

  datatype Event =
    | Ticked(elapsed: nat)
    | Failed(request: Id, at: Time, nth: nat)
    | Stamped(request: Id, until: Time)
    | Locked(request: Id, until: Time)

  datatype State = State(now: Time, attempts: nat, lockedUntil: Option<Time>, requests: map<Id, Pc>, log: seq<Event>)

  datatype Action = Tick(elapsed: nat) | Begin(request: Id) | Advance(request: Id)

  function Init(now: Time): State {
    State(now, 0, None, map[], [])
  }

  function Step(s: State, a: Action): State {
    match a
    case Tick(elapsed) => s.(now := s.now + elapsed, log := s.log + [Ticked(elapsed)])
    case Begin(r) => if r in s.requests then s else s.(requests := s.requests[r := Verifying(s.lockedUntil)])
    case Advance(r) => if r in s.requests then AdvanceStep(s, r) else s
  }

  function AdvanceStep(s: State, r: Id): State
    requires r in s.requests
  {
    match s.requests[r]
    case Verifying(until) =>
      s.(requests := s.requests[r := if until.Some? && until.value > s.now then TurnedAway else Counting])
    case Counting =>
      s.(attempts := s.attempts + 1, requests := s.requests[r := Pc.Counted(s.attempts + 1)],
      log := s.log + [Failed(r, s.now, s.attempts + 1)])
    case Counted(n) =>
      if n < LOCKOUT_THRESHOLD then s.(requests := s.requests[r := Done])
      else
        s.(requests := s.requests[r := Locking(s.now + LOCKOUT_DURATION)],
        log := s.log + [Stamped(r, s.now + LOCKOUT_DURATION)])
    case Locking(until) =>
      s.(lockedUntil := Some(until), requests := s.requests[r := Done], log := s.log + [Locked(r, until)])
    case _ => s
  }

  function Run(s: State, actions: seq<Action>): State
    decreases |actions|
  {
    if actions == [] then s else Run(Step(s, actions[0]), actions[1..])
  }

  // ---- Which requests have counted ----

  predicate HasCounted(p: Pc) {
    p.Counted? || p.Locking? || p.Done?
  }

  /** Some attempt sits between its increment and its lock write. */
  predicate Pending(p: Pc) {
    p.Locking? || (p.Counted? && p.attempts >= LOCKOUT_THRESHOLD)
  }

  function CountedRequests(requests: map<Id, Pc>): set<Id> {
    set r | r in requests && HasCounted(requests[r])
  }

  function PendingRequests(requests: map<Id, Pc>): set<Id> {
    set r | r in requests && Pending(requests[r])
  }

  ghost predicate Tally(s: State) {
    && s.attempts == |CountedRequests(s.requests)|
    && (s.lockedUntil.None? ==> s.attempts <= LOCKOUT_THRESHOLD - 1 + |PendingRequests(s.requests)|)
  }

  function Count(b: bool): int {
    if b then 1 else 0
  }

  lemma AddOrRemove(s: set<Id>, r: Id)
    ensures |s + {r}| == |s| + Count(r !in s) && |s - {r}| == |s| - Count(r in s)
  {
    if r in s {
      assert s + {r} == s;
    } else {
      assert s - {r} == s;
    }
  }

  lemma CountedMoves(requests: map<Id, Pc>, r: Id, pc: Pc)
    ensures |CountedRequests(requests[r := pc])|
            == |CountedRequests(requests)| + Count(HasCounted(pc)) - Count(r in requests && HasCounted(requests[r]))
  {
    var counted := CountedRequests(requests);
    assert CountedRequests(requests[r := pc]) == if HasCounted(pc) then counted + {r} else counted - {r};
    AddOrRemove(counted, r);
  }

  lemma PendingMoves(requests: map<Id, Pc>, r: Id, pc: Pc)
    ensures |PendingRequests(requests[r := pc])|
            == |PendingRequests(requests)| + Count(Pending(pc)) - Count(r in requests && Pending(requests[r]))
  {
    var pending := PendingRequests(requests);
    assert PendingRequests(requests[r := pc]) == if Pending(pc) then pending + {r} else pending - {r};
    AddOrRemove(pending, r);
  }

  /** One request moves: each count changes by at most that request. */
  lemma Moved(requests: map<Id, Pc>, r: Id, pc: Pc)
    ensures |CountedRequests(requests[r := pc])|
            == |CountedRequests(requests)| + Count(HasCounted(pc)) - Count(r in requests && HasCounted(requests[r]))
    ensures |PendingRequests(requests[r := pc])|
            == |PendingRequests(requests)| + Count(Pending(pc)) - Count(r in requests && Pending(requests[r]))
  {
    CountedMoves(requests, r, pc);
    PendingMoves(requests, r, pc);
  }

  lemma StepKeepsTally(s: State, a: Action)
    requires Tally(s)
    ensures Tally(Step(s, a))
  {
    match a
    case Tick(_) =>
    case Begin(r) => Moved(s.requests, r, Verifying(s.lockedUntil));
    case Advance(r) =>
      if r in s.requests {
        AdvanceKeepsTally(s, r);
      }
  }

  lemma AdvanceKeepsTally(s: State, r: Id)
    requires Tally(s) && r in s.requests
    ensures Tally(AdvanceStep(s, r))
  {
    match s.requests[r]
    case Verifying(until) =>
      Moved(s.requests, r, if until.Some? && until.value > s.now then TurnedAway else Counting);
    case Counting => Moved(s.requests, r, Pc.Counted(s.attempts + 1));
    case Counted(n) => Moved(s.requests, r, if n < LOCKOUT_THRESHOLD then Done else Locking(s.now + LOCKOUT_DURATION));
    case Locking(_) => Moved(s.requests, r, Done);
    case _ =>
  }

  lemma {:induction false} RunKeepsTally(s: State, actions: seq<Action>)
    requires Tally(s)
    ensures Tally(Run(s, actions))
    decreases |actions|
  {
    if actions != [] {
      StepKeepsTally(s, actions[0]);
      RunKeepsTally(Step(s, actions[0]), actions[1..]);
    }
  }

  // ---- A request that runs alone ----

  lemma UnfoldRun(s: State, a: Action, rest: seq<Action>)
    ensures Run(s, [a] + rest) == Run(Step(s, a), rest)
  {}

  /** The steps of an undisturbed wrong attempt leave counter and lock as the sequential machine does. */
  lemma SoloAttemptIsValidate(s: State, r: Id)
    requires r !in s.requests
    ensures var go := Advance(r);
            var d := Run(s, [Begin(r), go, go, go, go]);
            && r in d.requests && (d.requests[r].TurnedAway? || d.requests[r].Done?)
            && Validate(Lock(s.attempts, s.lockedUntil), Attempt(false, s.now, s.now))
               == (if d.requests[r].Done? then Verdict.Counted else Ignored, Lock(d.attempts, d.lockedUntil))
  {
    var go := Advance(r);
    var s1 := Step(s, Begin(r));
    var s2 := Step(s1, go);
    var s3 := Step(s2, go);
    var s4 := Step(s3, go);
    UnfoldRun(s, Begin(r), [go, go, go, go]);
    UnfoldRun(s1, go, [go, go, go]);
    UnfoldRun(s2, go, [go, go]);
    UnfoldRun(s3, go, [go]);
    UnfoldRun(s4, go, []);
  }

  /**
   Lockout never under-counts: in every interleaving the counter is the number of requests that found the account
   unlocked and have sent their increment, each of them once.
   */
  lemma NeverUnderCounts(now: Time, actions: seq<Action>)
    ensures var s := Run(Init(now), actions); s.attempts == |CountedRequests(s.requests)|
  {
    RunKeepsTally(Init(now), actions);
  }

  // ---- The clock as the log tells it ----

  function Elapsed(log: seq<Event>): nat {
    if log == [] then 0
    else
      var last := log[|log| - 1];
      Elapsed(log[..|log| - 1]) + (if last.Ticked? then last.elapsed else 0)
  }

  predicate Moves(e: Event) {
    e.Ticked? && e.elapsed > 0
  }

  /** Time never runs backwards, and passes between two positions exactly when the clock ticked there. */
  lemma {:induction false} ElapsedBetween(log: seq<Event>, i: nat, j: nat)
    requires i <= j <= |log|
    ensures Elapsed(log[..i]) <= Elapsed(log[..j])
    ensures Elapsed(log[..i]) < Elapsed(log[..j]) <==> exists k :: i <= k < j && Moves(log[k])
    decreases j
  {
    if i < j {
      ElapsedBetween(log, i, j - 1);
      assert log[..j][..j - 1] == log[..j - 1];
      assert Moves(log[j - 1]) ==> Elapsed(log[..i]) < Elapsed(log[..j]);
    }
  }

  /** What an event says about the time it happened at. */
  predicate TimedAt(e: Event, at: Time) {
    (e.Failed? ==> e.at == at) && (e.Stamped? ==> e.until == at + LOCKOUT_DURATION)
  }

  ghost predicate Clock(now: Time, log: seq<Event>, start: Time) {
    now == start + Elapsed(log) && forall i | 0 <= i < |log| :: TimedAt(log[i], start + Elapsed(log[..i]))
  }

  lemma AppendKeepsClock(now: Time, log: seq<Event>, later: Time, longer: seq<Event>, start: Time)
    requires Clock(now, log, start) && |longer| == |log| + 1 && log <= longer && TimedAt(longer[|log|], now)
    requires later == now + (if longer[|log|].Ticked? then longer[|log|].elapsed else 0)
    ensures Clock(later, longer, start)
  {
    assert longer[..|log|] == log;
    forall i | 0 <= i < |longer| ensures TimedAt(longer[i], start + Elapsed(longer[..i])) {
      if i < |log| {
        assert longer[..i] == log[..i] && longer[i] == log[i];
      }
    }
  }

  lemma StepKeepsClock(s: State, a: Action, start: Time)
    requires Clock(s.now, s.log, start)
    ensures Clock(Step(s, a).now, Step(s, a).log, start)
  {
    var s' := Step(s, a);
    if s'.log != s.log {
      assert TimedAt(s'.log[|s.log|], s.now);
      AppendKeepsClock(s.now, s.log, s'.now, s'.log, start);
    }
  }

  // ---- What the log says about each request ----

  /** The increments are numbered up to the counter, and those after a stamp lie beyond the threshold. */
  ghost predicate Numbered(attempts: nat, log: seq<Event>) {
    && (forall f | 0 <= f < |log| && log[f].Failed? :: log[f].nth <= attempts)
    && (forall p | 0 <= p < |log| && log[p].Stamped? :: attempts >= LOCKOUT_THRESHOLD)
    && (forall p, f | 0 <= p < f < |log| && log[p].Stamped? && log[f].Failed? :: log[f].nth > LOCKOUT_THRESHOLD)
  }

  /** Some failure carries the current count, and no request has seen a larger one. */
  ghost predicate Current(s: State) {
    && (s.attempts > 0 ==> exists f :: 0 <= f < |s.log| && s.log[f].Failed? && s.log[f].nth == s.attempts)
    && (forall r | r in s.requests && s.requests[r].Counted? :: s.requests[r].attempts <= s.attempts)
  }

  lemma StepKeepsCurrent(s: State, a: Action)
    requires Current(s)
    ensures Current(Step(s, a))
  {
    var s' := Step(s, a);
    if s'.attempts > s.attempts {
      assert s'.log[|s.log|].Failed?;
    } else if s.attempts > 0 {
      var f :| 0 <= f < |s.log| && s.log[f].Failed? && s.log[f].nth == s.attempts;
      assert s'.log[f] == s.log[f];
    }
  }

  lemma StepKeepsNumbered(s: State, a: Action)
    requires Current(s) && Numbered(s.attempts, s.log)
    ensures Numbered(Step(s, a).attempts, Step(s, a).log)
  {}

  /** How far a request has come, given one event of its own. */
  predicate Reached(requests: map<Id, Pc>, e: Event) {
    match e
    case Ticked(_) => true
    case Failed(r, _, n) =>
      r in requests && HasCounted(requests[r]) && (requests[r].Counted? ==> requests[r].attempts == n)
    case Stamped(r, until) => r in requests && (requests[r] == Locking(until) || requests[r].Done?)
    case Locked(r, _) => r in requests && requests[r].Done?
  }

  ghost predicate Past(requests: map<Id, Pc>, log: seq<Event>) {
    forall i | 0 <= i < |log| :: Reached(requests, log[i])
  }

  /** A request about to write has stamped what it will write. */
  ghost predicate WritersStamped(requests: map<Id, Pc>, log: seq<Event>) {
    forall r | r in requests && requests[r].Locking? :: StampedBefore(log, r, requests[r].until, |log|)
  }

  ghost predicate StampedBefore(log: seq<Event>, r: Id, until: Time, end: nat) {
    exists p :: 0 <= p < end <= |log| && log[p] == Stamped(r, until)
  }

  /** Every write carries its request's stamp. */
  ghost predicate WritesStamped(log: seq<Event>) {
    forall w | 0 <= w < |log| && log[w].Locked? :: StampedBefore(log, log[w].request, log[w].until, w)
  }

  /** A request stamps one value, and before it writes. */
  ghost predicate StampsAgree(log: seq<Event>) {
    forall p, w | 0 <= p < |log| && 0 <= w < |log| && log[p].Stamped? && log[w].Locked?
                  && log[p].request == log[w].request :: p < w && log[p].until == log[w].until
  }

  ghost predicate WritesOnce(log: seq<Event>) {
    forall v, w | 0 <= v < w < |log| && log[v].Locked? && log[w].Locked? :: log[v].request != log[w].request
  }

  ghost predicate Told(requests: map<Id, Pc>, log: seq<Event>) {
    Past(requests, log) && WritersStamped(requests, log) && WritesStamped(log) && StampsAgree(log) && WritesOnce(log)
  }

  lemma StepKeepsTold(s: State, a: Action)
    requires Told(s.requests, s.log)
    ensures Told(Step(s, a).requests, Step(s, a).log)
  {
    StepKeepsPast(s, a);
    StepKeepsWritersStamped(s, a);
    StepKeepsWritesStamped(s, a);
    StepKeepsStampsAgree(s, a);
    StepKeepsWritesOnce(s, a);
  }

  /** A step adds at most one event, and an event of a request only as the request moves. */
  lemma Appends(s: State, a: Action)
    ensures var s' := Step(s, a);
            && s.log <= s'.log && |s'.log| <= |s.log| + 1
            && (forall i | 0 <= i < |s.log| :: s'.log[i] == s.log[i])
            && (|s'.log| > |s.log| && !s'.log[|s.log|].Ticked? ==> a.Advance? && a.request in s.requests
                                                                   && s'.log[|s.log|].request == a.request)
  {}

  lemma StepKeepsPast(s: State, a: Action)
    requires Past(s.requests, s.log)
    ensures Past(Step(s, a).requests, Step(s, a).log)
  {
    var s' := Step(s, a);
    Appends(s, a);
    forall i | 0 <= i < |s'.log| ensures Reached(s'.requests, s'.log[i]) {
      if i < |s.log| {
        assert Reached(s.requests, s.log[i]);
      }
    }
  }

  lemma StillStamped(log: seq<Event>, longer: seq<Event>, r: Id, until: Time, end: nat, later: nat)
    requires log <= longer && StampedBefore(log, r, until, end) && end <= later <= |longer|
    ensures StampedBefore(longer, r, until, later)
  {
    var p :| 0 <= p < end && log[p] == Stamped(r, until);
    assert longer[p] == log[p];
  }

  lemma StepKeepsWritersStamped(s: State, a: Action)
    requires WritersStamped(s.requests, s.log)
    ensures WritersStamped(Step(s, a).requests, Step(s, a).log)
  {
    var s' := Step(s, a);
    Appends(s, a);
    forall r | r in s'.requests && s'.requests[r].Locking?
      ensures StampedBefore(s'.log, r, s'.requests[r].until, |s'.log|) {
      if r in s.requests && s'.requests[r] == s.requests[r] {
        StillStamped(s.log, s'.log, r, s.requests[r].until, |s.log|, |s'.log|);
      } else {
        assert s'.log[|s.log|] == Stamped(r, s'.requests[r].until);
      }
    }
  }

  lemma StepKeepsWritesStamped(s: State, a: Action)
    requires WritersStamped(s.requests, s.log) && WritesStamped(s.log)
    ensures WritesStamped(Step(s, a).log)
  {
    var s' := Step(s, a);
    Appends(s, a);
    forall w | 0 <= w < |s'.log| && s'.log[w].Locked?
      ensures StampedBefore(s'.log, s'.log[w].request, s'.log[w].until, w) {
      StillStamped(s.log, s'.log, s'.log[w].request, s'.log[w].until, w, w);
    }
  }

  lemma StepKeepsStampsAgree(s: State, a: Action)
    requires Past(s.requests, s.log) && StampsAgree(s.log)
    ensures StampsAgree(Step(s, a).log)
  {
    var s', n := Step(s, a), |s.log|;
    Appends(s, a);
    if n < |s'.log| && (s'.log[n].Stamped? || s'.log[n].Locked?) {
      forall i | 0 <= i < n && s.log[i].Stamped? && s.log[i].request == a.request
        ensures s'.log[n].Locked? && s.log[i].until == s'.log[n].until
      {
        assert Reached(s.requests, s.log[i]);
      }
      forall i | 0 <= i < n && s.log[i].Locked? ensures s.log[i].request != a.request {
        assert Reached(s.requests, s.log[i]);
      }
    }
  }

  lemma StepKeepsWritesOnce(s: State, a: Action)
    requires Past(s.requests, s.log) && WritesOnce(s.log)
    ensures WritesOnce(Step(s, a).log)
  {
    Appends(s, a);
    forall i | 0 <= i < |s.log| && s.log[i].Locked? ensures s.requests[s.log[i].request].Done? {
      assert Reached(s.requests, s.log[i]);
    }
  }

  /** The request wrote its lock between the two positions. */
  ghost predicate WroteBetween(log: seq<Event>, r: Id, p: nat, end: nat) {
    exists w :: p < w < end <= |log| && log[w].Locked? && log[w].request == r
  }

  lemma StillWrote(log: seq<Event>, longer: seq<Event>, r: Id, p: nat, end: nat, later: nat)
    requires log <= longer && WroteBetween(log, r, p, end) && end <= later <= |longer|
    ensures WroteBetween(longer, r, p, later)
  {
    var w :| p < w < end && log[w].Locked? && log[w].request == r;
    assert longer[w] == log[w];
  }

  /** Every failure from the threshold on is followed by its request's lock write, unless that is still to come. */
  ghost predicate Answered(requests: map<Id, Pc>, log: seq<Event>) {
    forall f | 0 <= f < |log| && log[f].Failed? && log[f].nth >= LOCKOUT_THRESHOLD ::
      log[f].request in requests
      && (Pending(requests[log[f].request]) || WroteBetween(log, log[f].request, f, |log|))
  }

  lemma StepKeepsAnswered(s: State, a: Action)
    requires Told(s.requests, s.log) && Answered(s.requests, s.log)
    ensures Answered(Step(s, a).requests, Step(s, a).log)
  {
    var s', n := Step(s, a), |s.log|;
    forall f | 0 <= f < |s'.log| && s'.log[f].Failed? && s'.log[f].nth >= LOCKOUT_THRESHOLD
      ensures s'.log[f].request in s'.requests
      ensures Pending(s'.requests[s'.log[f].request]) || WroteBetween(s'.log, s'.log[f].request, f, |s'.log|)
    {
      if f < n {
        StillAnswered(s, a, f);
      }
    }
  }

  lemma StillAnswered(s: State, a: Action, f: nat)
    requires Told(s.requests, s.log) && Answered(s.requests, s.log)
    requires f < |s.log| && s.log[f].Failed? && s.log[f].nth >= LOCKOUT_THRESHOLD
    ensures var s', r := Step(s, a), s.log[f].request;
            f < |s'.log| && s'.log[f] == s.log[f]
            && r in s'.requests && (Pending(s'.requests[r]) || WroteBetween(s'.log, r, f, |s'.log|))
  {
    var s', n, r := Step(s, a), |s.log|, s.log[f].request;
    assert Reached(s.requests, s.log[f]);
    if WroteBetween(s.log, r, f, n) {
      StillWrote(s.log, s'.log, r, f, n, |s'.log|);
    } else if !Pending(s'.requests[r]) {
      assert s'.log[n].Locked? && s'.log[n].request == r;
    }
  }

  // ---- The lock column ----

  /** The last lock write of the log. */
  ghost predicate LastLock(log: seq<Event>, w: nat) {
    w < |log| && log[w].Locked? && forall k | w < k < |log| :: !log[k].Locked?
  }

  /** The column holds what the last write wrote. */
  ghost predicate Shown(s: State) {
    && (s.lockedUntil.None? ==> forall w | 0 <= w < |s.log| :: !s.log[w].Locked?)
    && (s.lockedUntil.Some? ==> exists w: nat :: LastLock(s.log, w) && s.lockedUntil == Some(s.log[w].until))
  }

  lemma StepKeepsShown(s: State, a: Action)
    requires Shown(s)
    ensures Shown(Step(s, a))
  {
    var s', n := Step(s, a), |s.log|;
    if s'.log != s.log && s'.log[n].Locked? {
      assert LastLock(s'.log, n);
    } else if s.lockedUntil.Some? {
      var w: nat :| LastLock(s.log, w) && s.lockedUntil == Some(s.log[w].until);
      assert LastLock(s'.log, w);
    }
  }

  ghost predicate Inv(s: State, start: Time) {
    && Clock(s.now, s.log, start)
    && Numbered(s.attempts, s.log)
    && Current(s)
    && Told(s.requests, s.log)
    && Answered(s.requests, s.log)
    && Shown(s)
  }

  lemma {:induction false} RunKeepsInv(s: State, actions: seq<Action>, start: Time)
    requires Inv(s, start)
    ensures Inv(Run(s, actions), start)
    decreases |actions|
  {
    if actions != [] {
      StepKeepsClock(s, actions[0], start);
      StepKeepsNumbered(s, actions[0]);
      StepKeepsCurrent(s, actions[0]);
      StepKeepsTold(s, actions[0]);
      StepKeepsAnswered(s, actions[0]);
      StepKeepsShown(s, actions[0]);
      RunKeepsInv(Step(s, actions[0]), actions[1..], start);
    }
  }

  // ---- When the lock covers the failures ----

  ghost predicate Quiescent(s: State) {
    forall r | r in s.requests :: !Pending(s.requests[r])
  }

  /**
   The schedule overtakes the last lock write: between its request's stamp and the write itself the clock ticked, and
   after that tick a failure was counted.
   */
  ghost predicate Overtaken(log: seq<Event>) {
    exists p: nat, i: nat, j: nat, w: nat :: OvertakenAt(log, p, i, j, w)
  }

  ghost predicate OvertakenAt(log: seq<Event>, p: nat, i: nat, j: nat, w: nat) {
    && p < i < j < w && LastLock(log, w)
    && log[p].Stamped? && log[p].request == log[w].request && Moves(log[i]) && log[j].Failed?
  }

  /** The lock ends at least 15 minutes after every failure from the one that reached the threshold on. */
  ghost predicate Covers(until: Time, log: seq<Event>) {
    forall f | 0 <= f < |log| && log[f].Failed? && log[f].nth >= LOCKOUT_THRESHOLD ::
      log[f].at + LOCKOUT_DURATION <= until
  }

  lemma OvertakenIsUncovered(s: State, start: Time, p: nat, i: nat, j: nat, w: nat)
    requires Inv(s, start) && OvertakenAt(s.log, p, i, j, w)
    ensures !Covers(s.log[w].until, s.log)
  {
    assert TimedAt(s.log[p], start + Elapsed(s.log[..p])) && TimedAt(s.log[j], start + Elapsed(s.log[..j]));
    ElapsedBetween(s.log, p, j);
    assert s.log[j].nth > LOCKOUT_THRESHOLD && s.log[j].at + LOCKOUT_DURATION > s.log[w].until;
  }

  lemma NotOvertakenIsCovered(s: State, start: Time, f: nat, w: nat)
    requires Inv(s, start) && Quiescent(s) && LastLock(s.log, w) && !Overtaken(s.log)
    requires f < |s.log| && s.log[f].Failed? && s.log[f].nth >= LOCKOUT_THRESHOLD
    ensures s.log[f].at + LOCKOUT_DURATION <= s.log[w].until
  {
    assert WroteBetween(s.log, s.log[f].request, f, |s.log|);
    assert StampedBefore(s.log, s.log[w].request, s.log[w].until, w);
    NoTickBetween(s.now, s.log, start, f, w);
  }

  lemma NoTickBetween(now: Time, log: seq<Event>, start: Time, f: nat, w: nat)
    requires Clock(now, log, start) && LastLock(log, w) && !Overtaken(log) && f < |log| && log[f].Failed?
    requires WroteBetween(log, log[f].request, f, |log|) && StampedBefore(log, log[w].request, log[w].until, w)
    ensures log[f].at + LOCKOUT_DURATION <= log[w].until
  {
    var p :| 0 <= p < w && log[p] == Stamped(log[w].request, log[w].until);
    forall k | p < k < f ensures !Moves(log[k]) {
      assert !OvertakenAt(log, p, k, f, w);
    }
    FailureInTime(now, log, start, f, p);
  }

  /** A failure counted before a stamp, or after it with no tick in between, is no later than the stamp. */
  lemma FailureInTime(now: Time, log: seq<Event>, start: Time, f: nat, p: nat)
    requires Clock(now, log, start) && f < |log| && p < |log| && log[f].Failed? && log[p].Stamped?
    requires forall k | p <= k < f :: !Moves(log[k])
    ensures log[f].at + LOCKOUT_DURATION <= log[p].until
  {
    assert TimedAt(log[p], start + Elapsed(log[..p])) && TimedAt(log[f], start + Elapsed(log[..f]));
    if f < p {
      ElapsedBetween(log, f, p);
    } else {
      ElapsedBetween(log, p, f);
    }
  }

  /**
   Once five failures are counted and no attempt sits between its increment and its lock write, the account is locked,
   and the lock ends at least 15 minutes after every counted failure from the fifth on exactly when the schedule did
   not overtake the last lock write.
   */
  lemma LockCoversIff(now: Time, actions: seq<Action>)
    requires var s := Run(Init(now), actions); Quiescent(s) && s.attempts >= LOCKOUT_THRESHOLD
    ensures var s := Run(Init(now), actions);
            && s.lockedUntil.Some?
            && (Covers(s.lockedUntil.value, s.log) <==> !Overtaken(s.log))
  {
    var s := Run(Init(now), actions);
    RunKeepsInv(Init(now), actions, now);
    var last :| 0 <= last < |s.log| && s.log[last].Failed? && s.log[last].nth == s.attempts;
    assert s.log[last].request in s.requests;
    var w: nat :| LastLock(s.log, w) && s.lockedUntil == Some(s.log[w].until);
    CoversIffNotOvertaken(s, now, w);
  }

  lemma CoversIffNotOvertaken(s: State, start: Time, w: nat)
    requires Inv(s, start) && Quiescent(s) && LastLock(s.log, w)
    ensures Covers(s.log[w].until, s.log) <==> !Overtaken(s.log)
  {
    if p: nat, i: nat, j: nat, v: nat :| OvertakenAt(s.log, p, i, j, v) {
      assert v == w;
      OvertakenIsUncovered(s, start, p, i, j, w);
    } else {
      forall f | 0 <= f < |s.log| && s.log[f].Failed? && s.log[f].nth >= LOCKOUT_THRESHOLD
        ensures s.log[f].at + LOCKOUT_DURATION <= s.log[w].until
      {
        NotOvertakenIsCovered(s, start, f, w);
      }
    }
  }

  /** No time passes between stamping a lock and the write landing. */
  predicate Prompt(s: State, actions: seq<Action>)
    decreases |actions|
  {
    actions == [] ||
    ((actions[0].Tick? && actions[0].elapsed > 0 ==> forall r | r in s.requests :: !s.requests[r].Locking?)
     && Prompt(Step(s, actions[0]), actions[1..]))
  }

  /** Every stamp is followed by its write, unless the write is still to come, and the clock never moved in between. */
  ghost predicate OnTime(requests: map<Id, Pc>, log: seq<Event>) {
    && (forall p | 0 <= p < |log| && log[p].Stamped? ::
          log[p].request in requests
          && (requests[log[p].request].Locking? || WroteBetween(log, log[p].request, p, |log|)))
    && (forall p, i | 0 <= p < i < |log| && log[p].Stamped? && Moves(log[i]) :: WroteBetween(log, log[p].request, p, i))
  }

  lemma StepKeepsOnTime(s: State, a: Action)
    requires Told(s.requests, s.log) && OnTime(s.requests, s.log)
    requires a.Tick? && a.elapsed > 0 ==> forall r | r in s.requests :: !s.requests[r].Locking?
    ensures OnTime(Step(s, a).requests, Step(s, a).log)
  {
    var s' := Step(s, a);
    Appends(s, a);
    forall p | 0 <= p < |s'.log| && s'.log[p].Stamped?
      ensures s'.log[p].request in s'.requests
      ensures s'.requests[s'.log[p].request].Locking? || WroteBetween(s'.log, s'.log[p].request, p, |s'.log|)
    {
      if p < |s.log| {
        StampLands(s, a, p);
      }
    }
    forall p, i | 0 <= p < i < |s'.log| && s'.log[p].Stamped? && Moves(s'.log[i])
      ensures WroteBetween(s'.log, s'.log[p].request, p, i)
    {
      StillWrote(s.log, s'.log, s.log[p].request, p, i, i);
    }
  }

  lemma StampLands(s: State, a: Action, p: nat)
    requires Told(s.requests, s.log) && OnTime(s.requests, s.log) && p < |s.log| && s.log[p].Stamped?
    ensures var s', r := Step(s, a), s.log[p].request;
            && |s.log| <= |s'.log| && r in s'.requests
            && (s'.requests[r].Locking? || WroteBetween(s'.log, r, p, |s'.log|))
  {
    var s', n, r := Step(s, a), |s.log|, s.log[p].request;
    assert Reached(s.requests, s.log[p]);
    if WroteBetween(s.log, r, p, n) {
      StillWrote(s.log, s'.log, r, p, n, |s'.log|);
    } else if !s'.requests[r].Locking? {
      assert s'.log[n].Locked? && s'.log[n].request == r;
    }
  }

  lemma {:induction false} PromptRun(s: State, actions: seq<Action>)
    requires Told(s.requests, s.log) && OnTime(s.requests, s.log) && Prompt(s, actions)
    ensures OnTime(Run(s, actions).requests, Run(s, actions).log)
    decreases |actions|
  {
    if actions != [] {
      StepKeepsOnTime(s, actions[0]);
      StepKeepsTold(s, actions[0]);
      PromptRun(Step(s, actions[0]), actions[1..]);
    }
  }

  /** With prompt lock writes none is ever overtaken, so the lock covers every failure from the fifth on. */
  lemma PromptLocksCover(now: Time, actions: seq<Action>)
    requires Prompt(Init(now), actions)
    requires var s := Run(Init(now), actions); Quiescent(s) && s.attempts >= LOCKOUT_THRESHOLD
    ensures var s := Run(Init(now), actions); s.lockedUntil.Some? && Covers(s.lockedUntil.value, s.log)
  {
    PromptRun(Init(now), actions);
    LockCoversIff(now, actions);
    RunKeepsInv(Init(now), actions, now);
    var s := Run(Init(now), actions);
    forall p: nat, i: nat, j: nat, w: nat ensures !OvertakenAt(s.log, p, i, j, w) {
      assert 0 <= p < i < |s.log| && s.log[p].Stamped? && Moves(s.log[i]) ==>
             WroteBetween(s.log, s.log[p].request, p, i);
    }
  }
}
