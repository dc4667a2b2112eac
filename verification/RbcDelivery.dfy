/** What the recycling buffers of the reliable broadcast do: one pass over a buffer, and the
    independence of the final phase from the order of delivery. */
module RbcDelivery {
  import opened Quorums
  import opened RbcModel

  // ---------- One pass over a recycling buffer ----------

  function PollOnce(n: Instance): Instance {
    var (n1, e) := Poll(n);
    if e.Some? then Process(n1, e.value).inst else n1
  }

  /** `k` polls, each followed by processing the polled message. */
  function Polls(n: Instance, k: nat): Instance {
    if k == 0 then n else PollOnce(Polls(n, k - 1))
  }

  /** The messages with another digest, in order. */
  function Mismatched(q: seq<Stored>, d: Digest): seq<Stored> {
    if q == [] then []
    else
      var last := q[|q| - 1];
      Mismatched(q[..|q| - 1], d) + (if last.msg.digest == d then [] else [last])
  }

  /** The senders of the messages with this digest. */
  function Matching(q: seq<Stored>, d: Digest): set<NodeId> {
    set x | x in q && x.msg.digest == d :: x.from
  }

  lemma MatchingPrefix(q: seq<Stored>, k: nat, d: Digest)
    requires 0 < k <= |q|
    ensures Matching(q[..k], d) == Matching(q[..k - 1], d) + (if q[k - 1].msg.digest == d then {q[k - 1].from} else {})
    ensures Mismatched(q[..k], d) == Mismatched(q[..k - 1], d) + (if q[k - 1].msg.digest == d then [] else [q[k - 1]])
  {
    assert q[..k] == q[..k - 1] + [q[k - 1]];
    assert q[..k][..k - 1] == q[..k - 1];
  }

  /** Moving the head of a queue behind it, or dropping it, one recycling step. */
  lemma RecycleStep(q: seq<Stored>, k: nat, d: Digest)
    requires 0 < k <= |q|
    ensures var before := q[k - 1..] + Mismatched(q[..k - 1], d);
      && before != [] && before[0] == q[k - 1] && q[k - 1] in q
      && before[1..] + (if q[k - 1].msg.digest == d then [] else [q[k - 1]]) == q[k..] + Mismatched(q[..k], d)
  {
    MatchingPrefix(q, k, d);
    var m := Mismatched(q[..k - 1], d);
    assert (q[k - 1..] + m)[1..] == q[k..] + m;
    assert (q[k..] + m) + [q[k - 1]] == q[k..] + (m + [q[k - 1]]);
  }

  /** A Proposed instance after `k` recycled echoes that did not reach the threshold. */
  function EchoesRecycled(n: Instance, k: nat, d: Digest): Instance
    requires k <= |n.pendingEchoes|
  {
    n.(echoes := n.echoes + Matching(n.pendingEchoes[..k], d),
       pendingEchoes := n.pendingEchoes[k..] + Mismatched(n.pendingEchoes[..k], d))
  }

  lemma EchoStep(m: Instance, d: Digest)
    requires m.phase.Proposed? && CurrentDigest(m) == Some(d) && !m.sentEcho
    requires m.pendingEchoes != [] && m.pendingEchoes[0].msg.EchoMsg?
    ensures var x := m.pendingEchoes[0];
      if x.msg.digest != d then PollOnce(m) == m.(pendingEchoes := m.pendingEchoes[1..] + [x])
      else if |m.echoes + {x.from}| >= EchoGoal(m) then Rank(PollOnce(m).phase) == 2
      else PollOnce(m) == m.(echoes := m.echoes + {x.from}, pendingEchoes := m.pendingEchoes[1..])
  {
  }

  lemma EchoRecycles(n: Instance, k: nat, d: Digest)
    requires Sorted(n) && n.phase.Proposed? && CurrentDigest(n) == Some(d) && !n.sentEcho
    requires 0 < k <= |n.pendingEchoes|
    ensures var n' := PollOnce(EchoesRecycled(n, k - 1, d));
      var counted := n.echoes + Matching(n.pendingEchoes[..k], d);
      if n.pendingEchoes[k - 1].msg.digest == d && |counted| >= EchoGoal(n) then Rank(n'.phase) == 2
      else n' == EchoesRecycled(n, k, d)
  {
    hide PollOnce, Matching, Mismatched;
    var q := n.pendingEchoes;
    var m := EchoesRecycled(n, k - 1, d);
    MatchingPrefix(q, k, d);
    RecycleStep(q, k, d);
    assert m.echoes + {q[k - 1].from} == n.echoes + (Matching(q[..k - 1], d) + {q[k - 1].from});
    EchoStep(m, d);
    assert m.pendingEchoes[1..] + [] == m.pendingEchoes[1..];
  }

  lemma PollOnceRank(n: Instance)
    ensures Rank(n.phase) <= Rank(PollOnce(n).phase)
  {
  }

  lemma NoneRecycled(n: Instance, d: Digest)
    ensures EchoesRecycled(n, 0, d) == n && n.echoes + Matching(n.pendingEchoes[..0], d) == n.echoes
    ensures ReadiesRecycled(n, 0, d) == n && n.readies + Matching(n.pendingReadies[..0], d) == n.readies
  {
    assert n.echoes + Matching([], d) == n.echoes && n.readies + Matching([], d) == n.readies;
    assert n.pendingEchoes[..0] == [] && n.pendingReadies[..0] == [];
    assert n.pendingEchoes[0..] + [] == n.pendingEchoes && n.pendingReadies[0..] + [] == n.pendingReadies;
  }

  /** `k` polls either reached the threshold or recycled exactly the `k` oldest queued messages. */
  ghost predicate EchoPassed(n: Instance, k: nat, d: Digest)
    requires k <= |n.pendingEchoes|
  {
    var counted := n.echoes + Matching(n.pendingEchoes[..k], d);
    if |counted| < EchoGoal(n) then Polls(n, k) == EchoesRecycled(n, k, d) else Rank(Polls(n, k).phase) >= 2
  }

  lemma EchoPassStep(n: Instance, k: nat, d: Digest)
    requires Sorted(n) && n.phase.Proposed? && CurrentDigest(n) == Some(d) && !n.sentEcho
    requires 0 < k <= |n.pendingEchoes| && EchoPassed(n, k - 1, d)
    ensures EchoPassed(n, k, d)
  {
    hide PollOnce, EchoesRecycled, Mismatched, Matching, Sorted;
    var before := n.echoes + Matching(n.pendingEchoes[..k - 1], d);
    var counted := n.echoes + Matching(n.pendingEchoes[..k], d);
    MatchingPrefix(n.pendingEchoes, k, d);
    SubsetSize(before, counted);
    if |before| < EchoGoal(n) {
      EchoRecycles(n, k, d);
      assert n.pendingEchoes[k - 1].msg.digest != d ==> counted == before;
    } else {
      PollOnceRank(Polls(n, k - 1));
    }
  }

  /** From Proposed, `k` polls over the `k` oldest queued echoes leave the phase exactly when the
      matching senders reach the threshold; otherwise every one of them is counted and exactly
      the mismatched echoes are left, behind the unpolled ones and in their original order. */
  lemma {:induction false} EchoPass(n: Instance, k: nat, d: Digest)
    requires Thresholds(n) && Sorted(n) && n.phase.Proposed? && CurrentDigest(n) == Some(d)
    requires k <= |n.pendingEchoes|
    ensures EchoPassed(n, k, d)
  {
    if k == 0 {
      NoneRecycled(n, d);
    } else {
      EchoPass(n, k - 1, d);
      hide EchoesRecycled, Matching, Sorted;
      EchoPassStep(n, k, d);
    }
  }

  function ReadiesRecycled(n: Instance, k: nat, d: Digest): Instance
    requires k <= |n.pendingReadies|
  {
    n.(readies := n.readies + Matching(n.pendingReadies[..k], d),
       pendingReadies := n.pendingReadies[k..] + Mismatched(n.pendingReadies[..k], d))
  }

  lemma ReadyStep(m: Instance, d: Digest)
    requires m.phase.Echoed? && CurrentDigest(m) == Some(d) && !m.sentReady
    requires m.pendingReadies != [] && m.pendingReadies[0].msg.ReadyMsg?
    ensures var x := m.pendingReadies[0];
      if x.msg.digest != d then PollOnce(m) == m.(pendingReadies := m.pendingReadies[1..] + [x])
      else if |m.readies + {x.from}| > 2 * m.quorum.f then PollOnce(m).phase.Ready?
      else PollOnce(m) == m.(readies := m.readies + {x.from}, pendingReadies := m.pendingReadies[1..])
  {
  }

  lemma ReadyRecycles(n: Instance, k: nat, d: Digest)
    requires Sorted(n) && n.phase.Echoed? && CurrentDigest(n) == Some(d) && !n.sentReady
    requires 0 < k <= |n.pendingReadies|
    ensures var n' := PollOnce(ReadiesRecycled(n, k - 1, d));
      var counted := n.readies + Matching(n.pendingReadies[..k], d);
      if n.pendingReadies[k - 1].msg.digest == d && |counted| > 2 * n.quorum.f then n'.phase.Ready?
      else n' == ReadiesRecycled(n, k, d)
  {
    hide PollOnce, Matching, Mismatched;
    var q := n.pendingReadies;
    var m := ReadiesRecycled(n, k - 1, d);
    MatchingPrefix(q, k, d);
    RecycleStep(q, k, d);
    assert m.readies + {q[k - 1].from} == n.readies + (Matching(q[..k - 1], d) + {q[k - 1].from});
    ReadyStep(m, d);
    assert m.pendingReadies[1..] + [] == m.pendingReadies[1..];
  }

  /** `k` polls either reached the threshold or recycled exactly the `k` oldest queued messages. */
  ghost predicate ReadyPassed(n: Instance, k: nat, d: Digest)
    requires k <= |n.pendingReadies|
  {
    var counted := n.readies + Matching(n.pendingReadies[..k], d);
    if |counted| <= 2 * n.quorum.f then Polls(n, k) == ReadiesRecycled(n, k, d) else Rank(Polls(n, k).phase) >= 3
  }

  lemma ReadyPassStep(n: Instance, k: nat, d: Digest)
    requires Sorted(n) && n.phase.Echoed? && CurrentDigest(n) == Some(d) && !n.sentReady
    requires 0 < k <= |n.pendingReadies| && ReadyPassed(n, k - 1, d)
    ensures ReadyPassed(n, k, d)
  {
    hide PollOnce, ReadiesRecycled, Mismatched, Matching, Sorted;
    var before := n.readies + Matching(n.pendingReadies[..k - 1], d);
    var counted := n.readies + Matching(n.pendingReadies[..k], d);
    MatchingPrefix(n.pendingReadies, k, d);
    SubsetSize(before, counted);
    if |before| <= 2 * n.quorum.f {
      ReadyRecycles(n, k, d);
      assert n.pendingReadies[k - 1].msg.digest != d ==> counted == before;
    } else {
      PollOnceRank(Polls(n, k - 1));
    }
  }

  /** Likewise from Echoed over the queued readies, with the threshold 2f + 1. */
  lemma {:induction false} ReadyPass(n: Instance, k: nat, d: Digest)
    requires Thresholds(n) && Sorted(n) && n.phase.Echoed? && CurrentDigest(n) == Some(d)
    requires k <= |n.pendingReadies|
    ensures ReadyPassed(n, k, d)
  {
    if k == 0 {
      NoneRecycled(n, d);
    } else {
      ReadyPass(n, k - 1, d);
      hide ReadiesRecycled, Matching, Sorted;
      ReadyPassStep(n, k, d);
    }
  }

  // ---------- Order independence ----------

  /** No queued message that the next polls would count. */
  ghost predicate Quiescent(n: Instance) {
    && (n.phase.Proposed? ==> forall x :: x in n.pendingEchoes ==> CurrentDigest(n) != Some(x.msg.digest))
    && (n.phase.Echoed? ==> forall x :: x in n.pendingReadies ==> CurrentDigest(n) != Some(x.msg.digest))
  }

  /** The members from which this message was received. */
  ghost function SendersOf(received: set<Stored>, m: Message): set<NodeId> {
    set x | x in received && x.msg == m :: x.from
  }

  lemma CountedAreSenders(pr: Proc, d: Digest)
    requires Sound(pr) && CurrentDigest(pr.inst) == Some(d)
    ensures pr.inst.echoes <= SendersOf(pr.received, EchoMsg(d))
    ensures pr.inst.readies <= SendersOf(pr.received, ReadyMsg(d))
  {
    forall id | id in pr.inst.echoes ensures id in SendersOf(pr.received, EchoMsg(d)) {
      assert Stored(id, EchoMsg(d)) in pr.received;
    }
    forall id | id in pr.inst.readies ensures id in SendersOf(pr.received, ReadyMsg(d)) {
      assert Stored(id, ReadyMsg(d)) in pr.received;
    }
  }

  lemma QuiescentCounted(pr: Proc, d: Digest)
    requires LocalInv(pr) && CurrentDigest(pr.inst) == Some(d) && Quiescent(pr.inst)
    ensures pr.inst.phase.Proposed? ==> SendersOf(pr.received, EchoMsg(d)) <= pr.inst.echoes
    ensures pr.inst.phase.Echoed? ==> SendersOf(pr.received, ReadyMsg(d)) <= pr.inst.readies
  {
    forall x | x in pr.received && pr.inst.phase.Proposed? && x.msg == EchoMsg(d) ensures x.from in pr.inst.echoes {
      assert Accounted(pr.inst, x);
    }
    forall x | x in pr.received && pr.inst.phase.Echoed? && x.msg == ReadyMsg(d) ensures x.from in pr.inst.readies {
      assert Accounted(pr.inst, x);
    }
  }

  /** The phase of an instance at quiescence is a function of the delivered set: past Proposed
      exactly with n - 2f echoers of its digest, Ready exactly with 2f + 1 readiers as well. */
  lemma QuiescentPhase(pr: Proc, d: Digest)
    requires LocalInv(pr) && CurrentDigest(pr.inst) == Some(d) && Quiescent(pr.inst)
    ensures var echoed := |SendersOf(pr.received, EchoMsg(d))| >= EchoGoal(pr.inst);
      && (Rank(pr.inst.phase) >= 2 <==> echoed)
      && (pr.inst.phase.Ready? <==> echoed && |SendersOf(pr.received, ReadyMsg(d))| > 2 * pr.inst.quorum.f)
  {
    CountedAreSenders(pr, d);
    QuiescentCounted(pr, d);
    hide SendersOf, Sound, Accounted;
    SubsetSize(pr.inst.echoes, SendersOf(pr.received, EchoMsg(d)));
    SubsetSize(pr.inst.readies, SendersOf(pr.received, ReadyMsg(d)));
    if pr.inst.phase.Proposed? { SubsetSize(SendersOf(pr.received, EchoMsg(d)), pr.inst.echoes); }
    if pr.inst.phase.Echoed? { SubsetSize(SendersOf(pr.received, ReadyMsg(d)), pr.inst.readies); }
  }

  /** Every Send delivered so far carries this digest. */
  ghost predicate OneDigest(received: set<Stored>, d: Digest) {
    forall x :: x in received && x.msg.SendMsg? ==> x.msg.digest == d
  }

  lemma ProposalIff(pr: Proc, d: Digest)
    requires LocalInv(pr) && OneDigest(pr.received, d)
    ensures CurrentDigest(pr.inst) == if exists x :: x in pr.received && x.msg.SendMsg? then Some(d) else None
  {
    if x :| x in pr.received && x.msg.SendMsg? {
      assert Accounted(pr.inst, x);
    }
  }

  /** Order independence: two instances to which the same set of messages was delivered, with one
      Send digest, in any order and with any polls in between, are in the same phase once no
      matching pollable message remains, and that phase is given by the counts delivered. */
  lemma OrderIndependence(sender: NodeId, quorum: QuorumInfo, events: seq<Event>, events': seq<Event>, d: Digest)
    requires Checked(quorum)
    requires var pr, pr' := Run(NewProc(sender, quorum), events), Run(NewProc(sender, quorum), events');
      && pr.received == pr'.received && OneDigest(pr.received, d)
      && Quiescent(pr.inst) && Quiescent(pr'.inst)
    ensures var pr, pr' := Run(NewProc(sender, quorum), events), Run(NewProc(sender, quorum), events');
      var sent := exists x :: x in pr.received && x.msg.SendMsg?;
      var echoed := sent && |SendersOf(pr.received, EchoMsg(d))| >= quorum.quorumSize - quorum.f;
      var readied := echoed && |SendersOf(pr.received, ReadyMsg(d))| > 2 * quorum.f;
      pr.inst.phase == pr'.inst.phase
        == (if readied then Ready else if echoed then Echoed else if sent then Proposed else Init)
  {
    PhaseOfRun(sender, quorum, events, d);
    PhaseOfRun(sender, quorum, events', d);
  }

  lemma PhaseOfRun(sender: NodeId, quorum: QuorumInfo, events: seq<Event>, d: Digest)
    requires Checked(quorum)
    requires var pr := Run(NewProc(sender, quorum), events); OneDigest(pr.received, d) && Quiescent(pr.inst)
    ensures var pr := Run(NewProc(sender, quorum), events);
      var sent := exists x :: x in pr.received && x.msg.SendMsg?;
      var echoed := sent && |SendersOf(pr.received, EchoMsg(d))| >= quorum.quorumSize - quorum.f;
      var readied := echoed && |SendersOf(pr.received, ReadyMsg(d))| > 2 * quorum.f;
      pr.inst.phase == if readied then Ready else if echoed then Echoed else if sent then Proposed else Init
  {
    var pr := Run(NewProc(sender, quorum), events);
    NewThresholds(sender, quorum);
    RunKeepsLocal(NewProc(sender, quorum), events);
    ProposalIff(pr, d);
    if CurrentDigest(pr.inst).Some? { QuiescentPhase(pr, d); }
    hide Run, Sound, Accounted, SendersOf, OneDigest, Quiescent;
  }
}
