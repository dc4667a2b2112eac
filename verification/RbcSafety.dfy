/** What the reliable broadcast guarantees over whole runs: agreement on the digest (n = 3f + 1, or
    n > 5f), justification of every Ready and every delivery, and completion for a correct sender. */
module RbcSafety {
  import opened Quorums
  import opened RbcModel
  import opened RbcDelivery
  import opened RbcSystem

  /** The members that have broadcast this message. */
  ghost function Backers(c: Committee, sent: multiset<Stored>, m: Message): set<NodeId> {
    set id | id in c.Members() && Stored(id, m) in sent
  }

  ghost function CorrectBackers(c: Committee, sent: multiset<Stored>, m: Message): set<NodeId> {
    Backers(c, sent, m) * c.Correct()
  }

  lemma CountedAreBackers(g: Config, s: Sys, p: NodeId, d: Digest)
    requires Inv(g, s) && p in s.procs && CurrentDigest(s.procs[p].inst) == Some(d)
    ensures s.procs[p].inst.echoes <= Backers(g.c, s.sent, EchoMsg(d))
    ensures s.procs[p].inst.readies <= Backers(g.c, s.sent, ReadyMsg(d))
  {
    var pr := s.procs[p];
    assert ProcInv(g, s.sent, p, pr);
    assert VotesSound(pr.inst, pr.received) && WasSent(s.sent, pr);
    hide ProcInv, LocalInv;
    forall id | id in pr.inst.echoes ensures id in Backers(g.c, s.sent, EchoMsg(d)) {
      assert Stored(id, EchoMsg(d)) in pr.received;
    }
    forall id | id in pr.inst.readies ensures id in Backers(g.c, s.sent, ReadyMsg(d)) {
      assert Stored(id, ReadyMsg(d)) in pr.received;
    }
  }

  /** What a correct member has broadcast tells its proposal and phase. */
  lemma BroadcastFacts(g: Config, s: Sys, p: NodeId, m: Message)
    requires Inv(g, s) && p in s.procs && Stored(p, m) in s.sent
    ensures m.EchoMsg? ==> CurrentDigest(s.procs[p].inst) == Some(m.digest)
    ensures m.ReadyMsg? ==> CurrentDigest(s.procs[p].inst) == Some(m.digest) && Rank(s.procs[p].inst.phase) >= 2
    ensures m.SendMsg? ==> p == g.sender && m == SendMsg(g.payload, g.digest)
  {
    assert ProcInv(g, s.sent, p, s.procs[p]);
    assert Broadcasts(g, s.sent, p, s.procs[p].inst);
    hide ProcInv, Inv;
    assert s.sent[Stored(p, m)] > 0;
  }

  // ---------- Agreement ----------

  ghost predicate Finalizes(s: Sys, p: NodeId, payload: Payload, d: Digest) {
    p in s.procs && Finalize(s.procs[p].inst) == Delivered(payload, d)
  }

  /** A finalization rests on more than 2f members that sent Ready for its digest. */
  lemma FinalizedIsBacked(g: Config, s: Sys, p: NodeId, payload: Payload, d: Digest)
    requires Inv(g, s) && Finalizes(s, p, payload, d)
    ensures CurrentDigest(s.procs[p].inst) == Some(d) && s.procs[p].inst.phase.Ready?
    ensures |Backers(g.c, s.sent, ReadyMsg(d))| > 2 * g.c.info.f
  {
    assert ProcInv(g, s.sent, p, s.procs[p]);
    CountedAreBackers(g, s, p, d);
    SubsetSize(s.procs[p].inst.readies, Backers(g.c, s.sent, ReadyMsg(d)));
  }

  /** Either any two sets of more than 2f Readies, or any two sets of n - 2f Echoes, share a correct
      member: with f faulty members, n = 3f + 1 or n > 5f. */
  ghost predicate Safe(c: Committee) {
    c.Intersecting() || (c.Valid() && c.N() > 4 * c.info.f + |c.faulty|)
  }

  lemma SafeSizes(c: Committee)
    requires c.Valid()
    ensures c.N() == 3 * c.info.f + 1 || c.N() > 5 * c.info.f ==> Safe(c)
    ensures |c.faulty| == c.info.f && Safe(c) ==> c.N() == 3 * c.info.f + 1 || c.N() > 5 * c.info.f
  {
  }

  lemma ReadyQuorumsAgree(g: Config, s: Sys, d: Digest, d': Digest)
    requires Inv(g, s) && g.c.Intersecting()
    requires |Backers(g.c, s.sent, ReadyMsg(d))| > 2 * g.c.info.f
    requires |Backers(g.c, s.sent, ReadyMsg(d'))| > 2 * g.c.info.f
    ensures d == d'
  {
    var q := QuorumOverlap(g.c, Backers(g.c, s.sent, ReadyMsg(d)), Backers(g.c, s.sent, ReadyMsg(d')));
    BroadcastFacts(g, s, q, ReadyMsg(d));
    BroadcastFacts(g, s, q, ReadyMsg(d'));
  }

  /** A correct member's Ready is backed by n - 2f echoers of its digest. */
  lemma ReadyIsBacked(g: Config, s: Sys, p: NodeId, d: Digest)
    requires Inv(g, s) && p in s.procs && Stored(p, ReadyMsg(d)) in s.sent
    ensures |Backers(g.c, s.sent, EchoMsg(d))| >= g.c.N() - 2 * g.c.info.f
  {
    BroadcastFacts(g, s, p, ReadyMsg(d));
    CountedAreBackers(g, s, p, d);
    assert ProcInv(g, s.sent, p, s.procs[p]);
    SubsetSize(s.procs[p].inst.echoes, Backers(g.c, s.sent, EchoMsg(d)));
  }

  lemma EchoQuorumsAgree(g: Config, s: Sys, d: Digest, d': Digest)
    requires Inv(g, s) && g.c.N() > 4 * g.c.info.f + |g.c.faulty|
    requires |Backers(g.c, s.sent, ReadyMsg(d))| > 2 * g.c.info.f
    requires |Backers(g.c, s.sent, ReadyMsg(d'))| > 2 * g.c.info.f
    ensures d == d'
  {
    var p := CorrectWitness(g.c, Backers(g.c, s.sent, ReadyMsg(d)));
    var p' := CorrectWitness(g.c, Backers(g.c, s.sent, ReadyMsg(d')));
    ReadyIsBacked(g, s, p, d);
    ReadyIsBacked(g, s, p', d');
    var q := CorrectOverlap(g.c, Backers(g.c, s.sent, EchoMsg(d)), Backers(g.c, s.sent, EchoMsg(d')));
    BroadcastFacts(g, s, q, EchoMsg(d));
    BroadcastFacts(g, s, q, EchoMsg(d'));
  }

  lemma BackersGrow(c: Committee, sent: multiset<Stored>, sent': multiset<Stored>, m: Message)
    requires sent <= sent'
    ensures |Backers(c, sent, m)| <= |Backers(c, sent', m)|
  {
    SubsetSize(Backers(c, sent, m), Backers(c, sent', m));
  }

  /** Agreement: no two correct members ever finalize different digests, even when the sender
      equivocates and whoever else sends a Send. */
  lemma Agreement(g: Config, run: seq<Sys>, i: nat, j: nat, p: NodeId, q: NodeId,
                  payload: Payload, d: Digest, payload': Payload, d': Digest)
    requires IsRun(g, run) && Safe(g.c) && i <= j < |run|
    requires Finalizes(run[i], p, payload, d) && Finalizes(run[j], q, payload', d')
    ensures d == d'
  {
    RunInv(g, run, i);
    RunInv(g, run, j);
    RunGrows(g, run, i, j);
    hide IsRun, Inv;
    FinalizedIsBacked(g, run[i], p, payload, d);
    FinalizedIsBacked(g, run[j], q, payload', d');
    BackersGrow(g.c, run[i].sent, run[j].sent, ReadyMsg(d));
    if g.c.Intersecting() {
      ReadyQuorumsAgree(g, run[j], d, d');
    } else {
      EchoQuorumsAgree(g, run[j], d, d');
    }
  }

  /** Every correct member broadcasts Echo exactly once and Ready at most once, both only for its
      single proposal, and Ready exactly when it has passed Proposed. */
  lemma BroadcastsOnce(g: Config, run: seq<Sys>, i: nat, p: NodeId)
    requires IsRun(g, run) && i < |run| && p in run[i].procs
    ensures var n := run[i].procs[p].inst;
      && (forall d :: run[i].sent[Stored(p, EchoMsg(d))] == if CurrentDigest(n) == Some(d) then 1 else 0)
      && (forall d :: run[i].sent[Stored(p, ReadyMsg(d))] == if CurrentDigest(n) == Some(d) && Rank(n.phase) >= 2 then 1 else 0)
  {
    RunInv(g, run, i);
    hide IsRun;
    assert ProcInv(g, run[i].sent, p, run[i].procs[p]);
    assert Broadcasts(g, run[i].sent, p, run[i].procs[p].inst);
  }

  lemma ProposalWasSent(g: Config, s: Sys, p: NodeId)
    requires Inv(g, s) && p in s.procs && s.procs[p].inst.proposed.Some?
    ensures exists e :: e in s.sent && e.msg == SendMsg(s.procs[p].inst.proposed.value.0, s.procs[p].inst.proposed.value.1)
  {
    var pr := s.procs[p];
    assert ProcInv(g, s.sent, p, pr);
    assert ProposalSound(pr.inst, pr.received) && WasSent(s.sent, pr);
  }

  /** The digest binds its batch: no two Sends carry one digest with different batches. */
  ghost predicate Binding(sent: multiset<Stored>) {
    forall e, e' :: e in sent && e' in sent && e.msg.SendMsg? && e'.msg.SendMsg? && e.msg.digest == e'.msg.digest ==>
      e.msg.payload == e'.msg.payload
  }

  /** Agreement on the batch too, as long as the digest binds it, which no instance checks. */
  lemma BatchAgreement(g: Config, run: seq<Sys>, i: nat, p: NodeId, q: NodeId,
                       payload: Payload, d: Digest, payload': Payload, d': Digest)
    requires IsRun(g, run) && Safe(g.c) && i < |run| && Binding(run[i].sent)
    requires Finalizes(run[i], p, payload, d) && Finalizes(run[i], q, payload', d')
    ensures payload == payload' && d == d'
  {
    Agreement(g, run, i, i, p, q, payload, d, payload', d');
    RunInv(g, run, i);
    hide IsRun, Inv;
    ProposalWasSent(g, run[i], p);
    ProposalWasSent(g, run[i], q);
  }

  // ---------- Justification ----------

  lemma CorrectAmong(c: Committee, q: set<NodeId>, k: nat)
    requires c.Valid() && q <= c.Members() && |q| >= c.info.f + k
    ensures |q * c.Correct()| >= k
  {
    assert q == (q * c.Correct()) + (q * c.faulty);
    SubsetSize(q * c.faulty, c.faulty);
  }

  /** Every Ready of a correct member is backed by at least n - 2f echoers of its digest, hence by
      at least f + 1, at least one of them correct. */
  lemma ReadyIsJustified(g: Config, run: seq<Sys>, i: nat, p: NodeId, d: Digest)
    requires IsRun(g, run) && i < |run|
    requires p in run[i].procs && Stored(p, ReadyMsg(d)) in run[i].sent
    ensures |Backers(g.c, run[i].sent, EchoMsg(d))| >= g.c.N() - 2 * g.c.info.f >= g.c.info.f + 1
    ensures |CorrectBackers(g.c, run[i].sent, EchoMsg(d))| >= 1
  {
    RunInv(g, run, i);
    ReadyIsBacked(g, run[i], p, d);
    CorrectAmong(g.c, Backers(g.c, run[i].sent, EchoMsg(d)), 1);
  }

  /** Every finalization is backed by at least f + 1 correct Readies for its digest. */
  lemma FinalizedIsJustified(g: Config, run: seq<Sys>, i: nat, p: NodeId, payload: Payload, d: Digest)
    requires IsRun(g, run) && i < |run| && Finalizes(run[i], p, payload, d)
    ensures |CorrectBackers(g.c, run[i].sent, ReadyMsg(d))| >= g.c.info.f + 1
  {
    RunInv(g, run, i);
    FinalizedIsBacked(g, run[i], p, payload, d);
    CorrectAmong(g.c, Backers(g.c, run[i].sent, ReadyMsg(d)), g.c.info.f + 1);
  }

  /** The sender is correct and nobody else sends a Send. */
  ghost predicate SoleCorrectSender(g: Config) {
    g.onlySender && g.sender in g.c.Correct()
  }

  lemma ProposalIsSenders(g: Config, s: Sys, p: NodeId)
    requires Inv(g, s) && SoleCorrectSender(g) && p in s.procs && s.procs[p].inst.proposed.Some?
    ensures s.procs[p].inst.proposed == Some((g.payload, g.digest))
  {
    var pr := s.procs[p];
    assert ProcInv(g, s.sent, p, pr);
    assert ProposalSound(pr.inst, pr.received) && WasSent(s.sent, pr);
    hide ProcInv, LocalInv;
    var x :| x in pr.received && x.msg == SendMsg(pr.inst.proposed.value.0, pr.inst.proposed.value.1);
    assert x in s.sent && x == Stored(g.sender, x.msg);
    BroadcastFacts(g, s, g.sender, x.msg);
  }

  /** With a correct sender and no other Sends, only its batch and digest are ever finalized. */
  lemma Integrity(g: Config, run: seq<Sys>, i: nat, p: NodeId, payload: Payload, d: Digest)
    requires IsRun(g, run) && SoleCorrectSender(g) && i < |run| && Finalizes(run[i], p, payload, d)
    ensures payload == g.payload && d == g.digest
  {
    RunInv(g, run, i);
    hide IsRun, Inv;
    ProposalIsSenders(g, run[i], p);
  }

  // ---------- Completion ----------

  /** Every message between correct members is delivered, the sender has proposed, and no correct
      member has a matching message left to poll. */
  ghost predicate Settled(g: Config, s: Sys) {
    && Stored(g.sender, SendMsg(g.payload, g.digest)) in s.sent
    && (forall p, e :: p in s.procs && e in s.sent && e.from in g.c.Correct() ==> e in s.procs[p].received)
    && (forall p :: p in s.procs ==> Quiescent(s.procs[p].inst))
  }

  /** Every correct member has broadcast its message, and so is among those received from. */
  lemma AllReceived(g: Config, s: Sys, p: NodeId, m: Message)
    requires Inv(g, s) && Settled(g, s) && p in s.procs
    requires forall q :: q in s.procs ==> Stored(q, m) in s.sent
    ensures |SendersOf(s.procs[p].received, m)| >= g.c.info.quorumSize
  {
    var senders := SendersOf(s.procs[p].received, m);
    forall q | q in g.c.Correct() ensures q in senders {
      assert Stored(q, m) in s.procs[p].received;
    }
    CorrectMajority(g.c);
    SubsetSize(g.c.Correct(), senders);
  }

  lemma AllPropose(g: Config, s: Sys, p: NodeId)
    requires Inv(g, s) && Settled(g, s) && SoleCorrectSender(g) && p in s.procs
    ensures s.procs[p].inst.proposed == Some((g.payload, g.digest))
    ensures Stored(p, EchoMsg(g.digest)) in s.sent
  {
    var pr := s.procs[p];
    var x := Stored(g.sender, SendMsg(g.payload, g.digest));
    assert ProcInv(g, s.sent, p, pr);
    assert x in pr.received && Accounted(pr.inst, x) && Thresholds(pr.inst);
    assert pr.inst.proposed.Some?;
    ProposalIsSenders(g, s, p);
    assert s.sent[Stored(p, EchoMsg(g.digest))] == 1;
  }

  lemma AllEcho(g: Config, s: Sys, p: NodeId)
    requires Inv(g, s) && Settled(g, s) && SoleCorrectSender(g) && p in s.procs
    ensures Rank(s.procs[p].inst.phase) >= 2
    ensures Stored(p, ReadyMsg(g.digest)) in s.sent
  {
    forall q | q in s.procs ensures Stored(q, EchoMsg(g.digest)) in s.sent {
      AllPropose(g, s, q);
    }
    AllPropose(g, s, p);
    AllReceived(g, s, p, EchoMsg(g.digest));
    assert ProcInv(g, s.sent, p, s.procs[p]);
    assert Settled(g, s);
    QuiescentPhase(s.procs[p], g.digest);
    assert s.sent[Stored(p, ReadyMsg(g.digest))] == 1;
  }

  /** Completion: with a correct sender and no other Sends, once everything between correct members
      is delivered and polled, every correct member finalizes the sender's batch and digest. */
  lemma Completion(g: Config, run: seq<Sys>, i: nat, p: NodeId)
    requires IsRun(g, run) && SoleCorrectSender(g) && i < |run| && Settled(g, run[i]) && p in run[i].procs
    ensures Finalizes(run[i], p, g.payload, g.digest)
  {
    var s := run[i];
    RunInv(g, run, i);
    hide IsRun, Inv, Settled;
    forall q | q in s.procs ensures Stored(q, ReadyMsg(g.digest)) in s.sent {
      AllEcho(g, s, q);
    }
    AllPropose(g, s, p);
    AllEcho(g, s, p);
    AllReceived(g, s, p, EchoMsg(g.digest));
    AllReceived(g, s, p, ReadyMsg(g.digest));
    CompletionFacts(g, s, p);
    QuiescentPhase(s.procs[p], g.digest);
  }

  lemma CompletionFacts(g: Config, s: Sys, p: NodeId)
    requires Inv(g, s) && Settled(g, s) && p in s.procs
    ensures LocalInv(s.procs[p]) && Quiescent(s.procs[p].inst) && s.procs[p].inst.quorum == g.c.info && g.c.Valid()
  {
    assert ProcInv(g, s.sent, p, s.procs[p]);
  }
}
