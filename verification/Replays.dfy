/** What a replayed refresh token leads to, from the read of a revoked row or a lost race to the death of the family. */
module Replays {
  import opened Common
  import opened TokenTable
  import opened Rotation
  import opened RotationSafety

  /** Only its own advance moves a request. */
  lemma OthersWait(s: State, a: Action, r: Id)
    requires r in s.requests && !(a.Advance? && a.request == r)
    ensures r in Step(s, a).requests && Step(s, a).requests[r] == s.requests[r]
  {
    if Enabled(s, a) && a.Advance? {
      AdvanceMovesOne(s, a.request, a.newId, a.family, a.at, r);
    }
  }

  lemma AdvanceMovesOne(s: State, q: Id, newId: Id, family: Id, at: Time, r: Id)
    requires q in s.requests && r in s.requests && q != r
    ensures r in AdvanceStep(s, q, newId, family, at).requests
    ensures AdvanceStep(s, q, newId, family, at).requests[r] == s.requests[r]
  {
    if s.requests[q].pc.Minting? || s.requests[q].pc.LoginMinting? {
      MintMovesOne(s, q, newId, family, at, r);
    }
  }

  lemma MintMovesOne(s: State, q: Id, newId: Id, family: Id, at: Time, r: Id)
    requires q in s.requests && r in s.requests && q != r
    requires s.requests[q].pc.Minting? || s.requests[q].pc.LoginMinting?
    ensures r in AdvanceStep(s, q, newId, family, at).requests
    ensures AdvanceStep(s, q, newId, family, at).requests[r] == s.requests[r]
  {}

  // ---- A request that read a revoked row ----

  /** The request read a revoked row of the family, is about to kill it, or was rejected and the family is dead. */
  ghost predicate Caught(s: State, r: Id, f: Id) {
    r in s.requests &&
    match s.requests[r].pc
    case Checking(row) => row.revokedAt.Some? && row.familyId == f
    case Killing(g) => g == f
    case Finished(outcome) => outcome.Rejected? && Dead(s, f)
    case _ => false
  }

  lemma StepKeepsCaught(s: State, a: Action, r: Id, f: Id)
    requires Inv(s) && Caught(s, r, f)
    ensures Caught(Step(s, a), r, f)
  {
    if Dead(s, f) {
      DeathIsKept(s, a, f);
    }
    if !(a.Advance? && a.request == r) {
      OthersWait(s, a, r);
    } else if Enabled(s, a) && s.requests[r].pc.Killing? {
      KillLeavesFamilyDead(s, r, a.newId, a.family, a.at);
    }
  }

  /** A request whose read returned a revoked row is never accepted, and finishes only with the whole family dead. */
  lemma {:induction false} ReplayKillsTheFamily(s: State, actions: seq<Action>, r: Id, f: Id)
    requires Inv(s) && Caught(s, r, f)
    ensures var s' := Run(s, actions);
            && Caught(s', r, f)
            && (s'.requests[r].pc.Finished? ==> s'.requests[r].pc.outcome == Rejected && Dead(s', f))
    decreases |actions|
  {
    if actions != [] {
      StepKeepsCaught(s, actions[0], r, f);
      StepKeepsInv(s, actions[0]);
      ReplayKillsTheFamily(Step(s, actions[0]), actions[1..], r, f);
    }
  }

  // ---- Two requests that both reach the conditional update ----

  /** From the conditional update on: still to run it, to kill the family after losing, or answered. */
  ghost predicate Racer(s: State, r: Id, t: Id, f: Id) {
    r in s.requests && s.requests[r].raw == t &&
    match s.requests[r].pc
    case Swapping(row, _) => row.familyId == f
    case Killing(g) => g == f
    case Finished(outcome) => outcome.Rejected? ==> Dead(s, f)
    case _ => false
  }

  predicate Won(s: State, r: Id) {
    r in s.requests && s.requests[r].pc.Finished? && s.requests[r].pc.outcome.Accepted?
  }

  /** Once one of the two has run its update the token is spent, and they have not both won. */
  ghost predicate Duel(s: State, q: Id, r: Id, t: Id, f: Id) {
    && Racer(s, q, t, f) && Racer(s, r, t, f) && !(Won(s, q) && Won(s, r))
    && ((s.requests[q].pc.Swapping? && s.requests[r].pc.Swapping?) || Spent(s, t))
  }

  /** After its conditional update a racer has won and spent the token, or found it spent and is about to kill. */
  lemma UpdateDecides(s: State, a: Action, t: Id, f: Id)
    requires Inv(s) && Enabled(s, a) && a.Advance? && Racer(s, a.request, t, f) && s.requests[a.request].pc.Swapping?
    ensures var s' := Step(s, a);
            && Racer(s', a.request, t, f) && Spent(s', t)
            && (Won(s', a.request) <==> Live(s.rows, t))
  {
    assert RequestOK(s, s.requests[a.request]);
  }

  lemma RacerAdvances(s: State, a: Action, t: Id, f: Id)
    requires Inv(s) && Enabled(s, a) && a.Advance? && Racer(s, a.request, t, f) && !s.requests[a.request].pc.Swapping?
    ensures Racer(Step(s, a), a.request, t, f) && (Won(Step(s, a), a.request) <==> Won(s, a.request))
  {
    if s.requests[a.request].pc.Killing? {
      KillLeavesFamilyDead(s, a.request, a.newId, a.family, a.at);
    }
  }

  lemma RacerWaits(s: State, a: Action, r: Id, t: Id, f: Id)
    requires Inv(s) && Racer(s, r, t, f) && !(Enabled(s, a) && a.Advance? && a.request == r)
    ensures Racer(Step(s, a), r, t, f) && Step(s, a).requests[r] == s.requests[r]
  {
    if Dead(s, f) {
      DeathIsKept(s, a, f);
    }
    if Enabled(s, a) {
      OthersWait(s, a, r);
    }
  }

  lemma DuelStep(s: State, a: Action, q: Id, r: Id, t: Id, f: Id)
    requires Inv(s) && Duel(s, q, r, t, f) && q != r && !(Enabled(s, a) && a.Advance? && a.request == r)
    ensures Duel(Step(s, a), q, r, t, f)
  {
    RacerWaits(s, a, r, t, f);
    if Spent(s, t) {
      SpentIsKept(s, a, t);
    }
    if !(Enabled(s, a) && a.Advance? && a.request == q) {
      RacerWaits(s, a, q, t, f);
    } else if s.requests[q].pc.Swapping? {
      UpdateDecides(s, a, t, f);
    } else {
      RacerAdvances(s, a, t, f);
    }
  }

  /**
   Two requests that present one token and both reach the conditional update, from whatever snapshots: in every
   continuation at most one is accepted, and once both have finished the family is dead.
   */
  lemma {:induction false} LostRaceKillsTheFamily(s: State, actions: seq<Action>, q: Id, r: Id, t: Id, f: Id)
    requires Inv(s) && q != r && Duel(s, q, r, t, f)
    ensures var s' := Run(s, actions);
            && Duel(s', q, r, t, f)
            && !(Won(s', q) && Won(s', r))
            && (s'.requests[q].pc.Finished? && s'.requests[r].pc.Finished? ==> Dead(s', f))
    decreases |actions|
  {
    if actions != [] {
      var a := actions[0];
      if a.Advance? && a.request == r {
        DuelStep(s, a, r, q, t, f);
      } else {
        DuelStep(s, a, q, r, t, f);
      }
      StepKeepsInv(s, a);
      LostRaceKillsTheFamily(Step(s, a), actions[1..], q, r, t, f);
    }
  }

  /** The same from the start: whatever led two requests with one token to their conditional updates. */
  lemma TwoRefreshesOneToken(users: set<Id>, now: Time, before: seq<Action>, after: seq<Action>, q: Id, r: Id)
    requires var s := Run(Init(users, now), before);
             && q != r && q in s.requests && r in s.requests && s.requests[q].raw == s.requests[r].raw
             && s.requests[q].pc.Swapping? && s.requests[r].pc.Swapping?
    ensures var s := Run(Init(users, now), before);
            var s' := Run(s, after);
            && q in s'.requests && r in s'.requests && !(Won(s', q) && Won(s', r))
            && (s'.requests[q].pc.Finished? && s'.requests[r].pc.Finished? ==> Dead(s', s.requests[q].pc.row.familyId))
  {
    var s := Run(Init(users, now), before);
    RunKeepsInv(Init(users, now), before);
    assert RequestOK(s, s.requests[q]) && RequestOK(s, s.requests[r]);
    LostRaceKillsTheFamily(s, after, q, r, s.requests[q].raw, s.requests[q].pc.row.familyId);
  }
}
