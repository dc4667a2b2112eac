/** The value lock: what the value confirmed in a round means for all later rounds. A member whose
    shares fail to combine keeps the estimate with which it entered the round; that is the one
    way out of the lock, and the condition under which it is taken is exact. */
module AbaLock {
  import opened Quorums
  import opened AbaMessages
  import opened AbaRound
  import opened AbaNode
  import opened AbaSystem
  import opened AbaQuorums
  import opened AbaSafety
  import opened AbaValidity

  /** From round `r` on correct members enter rounds with `v`, say only `v` and decide only `v`. */
  ghost predicate LockedOn(s: Sys, r: nat, v: bool) {
    && (forall p, k: nat :: p in s.procs && r <= k < |s.procs[p].entered| ==> s.procs[p].entered[k] == v)
    && (forall p, k: nat, m, b :: p in s.procs && r <= k && Said(s.sent, p, k, m) && Carries(m, b) ==> b == v)
    && (forall p, k: nat, b :: r <= k && HasDecided(s, p, k, b) ==> b == v)
  }

  /** The member left round `r` because its shares did not combine. */
  ghost predicate FailedIn(s: Sys, p: NodeId, r: nat) {
    p in s.procs && Shaped(s.procs[p]) && r < s.procs[p].node.round && s.procs[p].flips[r].1.CombineFailed?
  }

  lemma {:induction false} EntryEarlier(g: Config, s: Sys, r: nat, k: nat, b: bool)
    requires StrongInv(g, s) && Entry(s, k, b) && r <= k
    ensures Entry(s, r, b)
    decreases k
  {
    hide StrongInv, Entry;
    if r < k {
      EntryDescends(g, s, k - 1, b);
      EntryEarlier(g, s, r, k - 1, b);
    }
  }

  /** When all entry estimates of a round agree, so does all that follows. */
  lemma EntriesLock(g: Config, s: Sys, r: nat, v: bool)
    requires StrongInv(g, s) && forall b :: Entry(s, r, b) ==> b == v
    ensures LockedOn(s, r, v)
  {
    hide StrongInv, Said, HasDecided;
    forall k: nat, b | r <= k && Entry(s, k, b) ensures b == v {
      EntryEarlier(g, s, r, k, b);
    }
    forall p, k: nat | p in s.procs && r <= k < |s.procs[p].entered| ensures s.procs[p].entered[k] == v {
      assert Entry(s, k, s.procs[p].entered[k]);
    }
    hide Entry;
    forall p, k: nat, m, b | p in s.procs && r <= k && Said(s.sent, p, k, m) && Carries(m, b) ensures b == v {
      SaidIsEntry(g, s, p, k, m, b);
    }
    forall p, k: nat, b | r <= k && HasDecided(s, p, k, b) ensures b == v {
      DecisionIsEntry(g, s, p, k, b);
    }
  }

  /** The estimate with which a member enters the round after one in which `v` is confirmed. */
  lemma NextEntry(g: Config, s: Sys, p: NodeId, r: nat, v: bool)
    requires StrongInv(g, s) && g.c.Intersecting() && Confirmed(g, s.sent, r, v)
    requires p in s.procs && r + 1 < |s.procs[p].entered|
    ensures r < s.procs[p].node.round && r < |s.procs[p].flips|
    ensures s.procs[p].entered[r + 1] == if FailedIn(s, p, r) then s.procs[p].entered[r] else v
  {
    assert ProcInv(g, s.sent, p, s.procs[p]);
    RoundFacts(g, s, p, r);
    hide Inv, ProcInv, LocalInv;
    LeavesWithConfirmed(g, s, p, r);
    OneConfirmed(g, s, r, Value(RoundAt(s.procs[p].node, r)), v);
  }

  /** With `v` confirmed in round `r`, the committee is locked on `v` from the next round on if and
      only if every correct member whose shares failed to combine in `r` had entered it with `v`. */
  lemma LockIff(g: Config, run: seq<Sys>, i: nat, r: nat, v: bool)
    requires IsRun(g, run) && g.c.Intersecting() && i < |run| && Confirmed(g, run[i].sent, r, v)
    ensures LockedOn(run[i], r + 1, v) <==>
      forall p :: FailedIn(run[i], p, r) ==> run[i].procs[p].entered[r] == v
  {
    RunStrongInv(g, run, i);
    hide IsRun;
    StateLockIff(g, run[i], r, v);
  }

  lemma StateLockIff(g: Config, s: Sys, r: nat, v: bool)
    requires StrongInv(g, s) && g.c.Intersecting() && Confirmed(g, s.sent, r, v)
    ensures LockedOn(s, r + 1, v) <==> forall p :: FailedIn(s, p, r) ==> s.procs[p].entered[r] == v
  {
    hide StrongInv, Said, HasDecided, Confirmed;
    if forall p :: FailedIn(s, p, r) ==> s.procs[p].entered[r] == v {
      var next := r + 1;
      forall b | Entry(s, next, b) ensures b == v {
        var p :| p in s.procs && next < |s.procs[p].entered| && s.procs[p].entered[next] == b;
        NextEntry(g, s, p, r, v);
      }
      EntriesLock(g, s, next, v);
    }
    if LockedOn(s, r + 1, v) {
      forall p | FailedIn(s, p, r) ensures s.procs[p].entered[r] == v {
        EnteredNext(g, s, p, r);
        NextEntry(g, s, p, r, v);
      }
    }
  }

  lemma EnteredNext(g: Config, s: Sys, p: NodeId, r: nat)
    requires StrongInv(g, s) && p in s.procs && r < s.procs[p].node.round
    ensures r + 1 < |s.procs[p].entered|
  {
    assert ProcInv(g, s.sent, p, s.procs[p]);
  }

  /** Some value is confirmed in round `r` and locks every correct member from the next round on. */
  ghost predicate HasLock(g: Config, s: Sys, r: nat) {
    exists v :: Confirmed(g, s.sent, r, v) && LockedOn(s, r + 1, v)
  }

  lemma LeftConfirms(g: Config, s: Sys, p: NodeId, r: nat) returns (v: bool)
    requires StrongInv(g, s) && p in s.procs && s.procs[p].node.round > r
    ensures Confirmed(g, s.sent, r, v) && Entry(s, r, v)
  {
    assert ProcInv(g, s.sent, p, s.procs[p]);
    RoundFacts(g, s, p, r);
    v := Value(RoundAt(s.procs[p].node, r));
    LeavesWithConfirmed(g, s, p, r);
    ValueIsEntry(g, s, p, r);
  }

  lemma NoFailure(g: Config, s: Sys, p: NodeId, r: nat)
    requires Inv(g, s) && g.reliable
    ensures !FailedIn(s, p, r)
  {
    if p in s.procs {
      assert ProcInv(g, s.sent, p, s.procs[p]) && CoinsYield(g, s.procs[p]);
      assert r < |s.procs[p].flips| ==> s.procs[p].flips[r].1.Combined?;
    }
  }

  /** The value lock: when combining never fails, once a correct member has left a round, some value
      is confirmed there and every correct member is locked on it, whatever the coins. */
  lemma ValueLock(g: Config, run: seq<Sys>, i: nat, p: NodeId, r: nat)
    requires IsRun(g, run) && g.c.Intersecting() && g.reliable && i < |run|
    requires p in run[i].procs && run[i].procs[p].node.round > r
    ensures HasLock(g, run[i], r)
  {
    RunStrongInv(g, run, i);
    hide IsRun, FailedIn, Confirmed, LockedOn;
    assert Inv(g, run[i]);
    hide StrongInv;
    var v := LeftConfirms(g, run[i], p, r);
    forall q ensures !FailedIn(run[i], q, r) {
      NoFailure(g, run[i], q, r);
    }
    StateLockIff(g, run[i], r, v);
  }

  /** When all correct inputs agree every round left locks, whether or not combining fails. */
  lemma UnanimousLock(g: Config, run: seq<Sys>, i: nat, p: NodeId, r: nat)
    requires IsRun(g, run) && i < |run|
    requires p in run[i].procs && run[i].procs[p].node.round > r
    requires forall b, b' :: IsInput(g, b) && IsInput(g, b') ==> b == b'
    ensures HasLock(g, run[i], r)
  {
    RunStrongInv(g, run, i);
    hide IsRun, IsInput, StrongInv, Confirmed, LockedOn, Entry;
    var v := LeftConfirms(g, run[i], p, r);
    EntryIsInput(g, run[i], r, v);
    var next := r + 1;
    forall b | Entry(run[i], next, b) ensures b == v {
      EntryIsInput(g, run[i], next, b);
    }
    EntriesLock(g, run[i], next, v);
  }
}
