/** The binary agreement under a common coin, one bit per round, which is what the shares of a
    round yield when they combine: members that flip in a round do so with one outcome, and a
    unanimous round decides exactly when its coin is the common estimate. */
module AbaCoin {
  import opened Quorums
  import opened AbaRound
  import opened AbaNode
  import opened AbaSystem
  import opened AbaQuorums
  import opened AbaSafety
  import opened AbaValidity
  import opened AbaLock
  import opened AbaProgress

  /** A member finishes in a round only with the round's coin, confirmed there. */
  lemma FinishesOnCoin(g: Config, s: Sys, p: NodeId, r: nat)
    requires StrongInv(g, s) && g.c.Intersecting() && g.common.Some? && FinishingIn(s, p, r)
    ensures s.procs[p].node.current.estimate == g.common.value(r) && Confirmed(g, s.sent, r, g.common.value(r))
  {
    FinishIsSent(g, s, p, r);
    assert ProcInv(g, s.sent, p, s.procs[p]) && CoinsYield(g, s.procs[p]);
    hide Inv, ProcInv, Live, Decisions, AllLeft, Steady;
    assert FlippedOnce(s.procs[p]);
  }

  /** A member leaves a round with a confirmed value other than the round's coin, unless its own
      combination failed. */
  lemma LeavesOffCoin(g: Config, s: Sys, p: NodeId, r: nat)
    requires StrongInv(g, s) && g.common.Some? && p in s.procs && r < s.procs[p].node.round && !FailedIn(s, p, r)
    ensures r + 1 < |s.procs[p].entered| && s.procs[p].entered[r + 1] == !g.common.value(r)
    ensures Confirmed(g, s.sent, r, !g.common.value(r))
  {
    assert ProcInv(g, s.sent, p, s.procs[p]) && CoinsYield(g, s.procs[p]);
    RoundFacts(g, s, p, r);
    LeavesWithConfirmed(g, s, p, r);
    assert FlippedOnce(s.procs[p]) && s.procs[p].flips[r].0 == r;
  }

  /** Under a common coin, once a correct member finishes in a round, a correct member that has left
      the round failed to combine in it: all that combined have the same outcome. */
  lemma OneOutcome(g: Config, run: seq<Sys>, i: nat, p: NodeId, q: NodeId, r: nat)
    requires IsRun(g, run) && g.c.Intersecting() && g.common.Some? && i < |run|
    requires FinishingIn(run[i], p, r) && q in run[i].procs && run[i].procs[q].node.round > r
    ensures FailedIn(run[i], q, r)
  {
    RunStrongInv(g, run, i);
    hide IsRun, StrongInv, FinishingIn, FailedIn, Confirmed;
    if !FailedIn(run[i], q, r) {
      FinishesOnCoin(g, run[i], p, r);
      LeavesOffCoin(g, run[i], q, r);
      OnlyConfirmed(g, run[i], r, g.common.value(r), !g.common.value(r));
    }
  }

  /** Under a common coin that never fails, no correct member ever leaves a round in which a correct
      member finishes. */
  lemma NobodyLeaves(g: Config, run: seq<Sys>, i: nat, j: nat, p: NodeId, q: NodeId, r: nat)
    requires IsRun(g, run) && g.c.Intersecting() && g.common.Some? && g.reliable && i <= j < |run|
    requires FinishingIn(run[i], p, r) && q in run[j].procs
    ensures run[j].procs[q].node.round <= r
  {
    FinishingForever(g, run, i, j, p, r);
    RunInv(g, run, j);
    hide IsRun, FinishingIn, FailedIn, Inv;
    if run[j].procs[q].node.round > r {
      OneOutcome(g, run, j, p, q, r);
      NoFailure(g, run[j], q, r);
    }
  }

  // ---------- A unanimous round ----------

  lemma ConfirmedIsUnanimous(g: Config, s: Sys, r: nat, v: bool, w: bool)
    requires StrongInv(g, s) && Unanimous(s, r, v) && Confirmed(g, s.sent, r, w)
    ensures v == w
  {
    ConfirmedIsEntry(g, s, r, w);
  }

  lemma DecidedIsUnanimous(g: Config, s: Sys, p: NodeId, r: nat, v: bool, w: bool)
    requires StrongInv(g, s) && Unanimous(s, r, v) && HasDecided(s, p, r, w)
    ensures v == w
  {
    DecisionIsEntry(g, s, p, r, w);
  }

  /** A unanimous quiescent round with a common coin that never fails: if the coin is the common
      estimate every correct member has decided it; otherwise every one has entered the next round
      with it. */
  lemma UnanimousRound(g: Config, run: seq<Sys>, i: nat, r: nat, v: bool)
    requires IsRun(g, run) && g.c.Intersecting() && g.common.Some? && g.reliable && i < |run|
    requires Unanimous(run[i], r, v) && Quiescent(g, run[i], r)
    ensures g.common.value(r) == v ==> forall p :: p in run[i].procs ==> HasDecided(run[i], p, r, v)
    ensures g.common.value(r) != v ==> forall p :: p in run[i].procs ==>
      r + 1 < |run[i].procs[p].entered| && run[i].procs[p].entered[r + 1] == v
  {
    var s := run[i];
    RunStrongInv(g, run, i);
    assert Inv(g, s);
    hide IsRun, Quiescent, StrongInv, Inv, Unanimous, HasDecided, Confirmed, FailedIn;
    forall p | p in s.procs
      ensures if g.common.value(r) == v then FinishingIn(s, p, r)
              else r + 1 < |s.procs[p].entered| && s.procs[p].entered[r + 1] == v
    {
      RoundProgress(g, run, i, r, v, p);
      if FinishingIn(s, p, r) {
        FinishesOnCoin(g, s, p, r);
        ConfirmedIsUnanimous(g, s, r, v, g.common.value(r));
      } else {
        NoFailure(g, s, p, r);
        LeavesOffCoin(g, s, p, r);
        ConfirmedIsUnanimous(g, s, r, v, !g.common.value(r));
      }
    }
    hide FinishingIn;
    if g.common.value(r) == v {
      var w := AllDecide(g, run, i, r);
      forall p | p in s.procs ensures HasDecided(s, p, r, v) {
        DecidedIsUnanimous(g, s, p, r, v, w);
      }
    }
  }
}
