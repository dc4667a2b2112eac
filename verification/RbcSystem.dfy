/** A committee running one reliable broadcast: correct members run instances, faulty members
    send anything, and the network delivers any sent message any number of times. */
module RbcSystem {
  import opened Quorums
  import opened RbcModel
  import Runs

  /** The designated sender with the batch and digest it proposes when correct; `onlySender` says
      that no other member sends a Send, which the instances themselves do not check. */
  datatype Config = Config(c: Committee, sender: NodeId, payload: Payload, digest: Digest, onlySender: bool) {
    ghost predicate Valid() {
      c.Valid() && sender in c.Members()
    }
  }

  datatype Sys = Sys(procs: map<NodeId, Proc>, sent: multiset<Stored>)

  datatype Step =
    | Propose                        // the designated sender, when correct, broadcasts its Send
    | Handle(p: NodeId, event: Event)
    | Inject(e: Stored)

  ghost function InitSys(g: Config): Sys {
    Sys(map p | p in g.c.Correct() :: NewProc(g.sender, g.c.info), multiset{})
  }

  ghost predicate Enabled(g: Config, s: Sys, step: Step) {
    match step
    case Propose => g.sender in g.c.Correct()
    case Handle(p, ev) => p in g.c.Correct() && p in s.procs && (ev.Deliver? ==> ev.e in s.sent)
    case Inject(e) => e.from in g.c.faulty && (g.onlySender && e.msg.SendMsg? ==> e.from == g.sender)
  }

  function Broadcast(p: NodeId, m: Option<Message>): multiset<Stored> {
    if m.Some? then multiset{Stored(p, m.value)} else multiset{}
  }

  ghost function Apply(g: Config, s: Sys, step: Step): Sys
    requires Enabled(g, s, step)
  {
    match step
    case Propose => s.(sent := s.sent + multiset{Stored(g.sender, SendMsg(g.payload, g.digest))})
    case Handle(p, ev) =>
      Sys(s.procs[p := Take(s.procs[p], ev)], s.sent + Broadcast(p, Emitted(s.procs[p], ev)))
    case Inject(e) => s.(sent := s.sent + multiset{e})
  }

  ghost predicate Next(g: Config, s: Sys, s': Sys) {
    exists step :: Enabled(g, s, step) && s' == Apply(g, s, step)
  }

  ghost function Steps(g: Config): (Sys, Sys) -> bool {
    (s, s') => Next(g, s, s')
  }

  ghost predicate IsRun(g: Config, run: seq<Sys>) {
    g.Valid() && Runs.IsPath(InitSys(g), Steps(g), run)
  }

  // ---------- Invariant ----------

  /** A correct member has broadcast exactly one Echo, for its proposal, once it has one; exactly
      one Ready, for its proposal, from Echoed on; and a Send only as the designated sender. */
  ghost predicate Broadcasts(g: Config, sent: multiset<Stored>, p: NodeId, n: Instance) {
    && (forall d :: sent[Stored(p, EchoMsg(d))] == if CurrentDigest(n) == Some(d) then 1 else 0)
    && (forall d :: sent[Stored(p, ReadyMsg(d))] == if CurrentDigest(n) == Some(d) && Rank(n.phase) >= 2 then 1 else 0)
    && (forall m: Message :: m.SendMsg? && Stored(p, m) in sent ==> p == g.sender && m == SendMsg(g.payload, g.digest))
  }

  ghost predicate WasSent(sent: multiset<Stored>, pr: Proc) {
    forall x :: x in pr.received ==> x in sent
  }

  ghost predicate ProcInv(g: Config, sent: multiset<Stored>, p: NodeId, pr: Proc) {
    && LocalInv(pr) && pr.inst.quorum == g.c.info
    && WasSent(sent, pr)
    && Broadcasts(g, sent, p, pr.inst)
  }

  ghost predicate Inv(g: Config, s: Sys) {
    && g.Valid()
    && s.procs.Keys == g.c.Correct()
    && (forall e :: e in s.sent ==> e.from in g.c.Members())
    && (g.onlySender ==> forall e :: e in s.sent && e.msg.SendMsg? ==> e.from == g.sender)
    && (forall p :: p in s.procs ==> ProcInv(g, s.sent, p, s.procs[p]))
  }

  /** What one message makes an instance broadcast: Echo for a new proposal, Ready on leaving
      Proposed, and nothing else. */
  ghost predicate Announces(n: Instance, n': Instance, m: Option<Message>) {
    match m
    case None => CurrentDigest(n') == CurrentDigest(n) && (Rank(n'.phase) >= 2 <==> Rank(n.phase) >= 2)
    case Some(EchoMsg(d)) => n.proposed.None? && CurrentDigest(n') == Some(d) && Rank(n.phase) < 2 && Rank(n'.phase) < 2
    case Some(ReadyMsg(d)) => CurrentDigest(n') == CurrentDigest(n) == Some(d) && Rank(n.phase) < 2 <= Rank(n'.phase)
    case Some(SendMsg(_, _)) => false
  }

  lemma ProcessAnnounces(n: Instance, e: Stored)
    requires Thresholds(n)
    ensures Announces(n, Process(n, e).inst, Process(n, e).broadcast)
  {
  }

  lemma PollSame(n: Instance)
    ensures Poll(n).0.proposed == n.proposed && Poll(n).0.phase == n.phase && Poll(n).0.quorum == n.quorum
  {
  }

  lemma TakeAnnounces(pr: Proc, ev: Event)
    requires LocalInv(pr)
    ensures Announces(pr.inst, Take(pr, ev).inst, Emitted(pr, ev))
  {
    hide Process, Poll, Thresholds, Sorted, Sound, Accounted;
    match ev
    case Deliver(e) => ProcessAnnounces(pr.inst, e);
    case PollNext =>
      var (n, e) := Poll(pr.inst);
      PollKeeps(pr.inst);
      PollSame(pr.inst);
      if e.Some? { ProcessAnnounces(n, e.value); }
  }

  lemma AnnouncesBroadcasts(g: Config, sent: multiset<Stored>, p: NodeId, n: Instance, n': Instance, m: Option<Message>)
    requires Broadcasts(g, sent, p, n) && Announces(n, n', m)
    ensures Broadcasts(g, sent + Broadcast(p, m), p, n')
  {
    assert m.Some? ==> !m.value.SendMsg?;
  }

  lemma TakeKeepsProc(g: Config, sent: multiset<Stored>, p: NodeId, pr: Proc, ev: Event)
    requires ProcInv(g, sent, p, pr) && (ev.Deliver? ==> ev.e in sent)
    ensures ProcInv(g, sent + Broadcast(p, Emitted(pr, ev)), p, Take(pr, ev))
  {
    TakeKeepsLocal(pr, ev);
    TakeAnnounces(pr, ev);
    TakeAdvances(pr, ev);
    TakeReceives(pr, ev);
    hide Take, Emitted, LocalInv, Announces, Broadcasts;
    AnnouncesBroadcasts(g, sent, p, pr.inst, Take(pr, ev).inst, Emitted(pr, ev));
  }

  lemma TakeReceives(pr: Proc, ev: Event)
    ensures Take(pr, ev).received == pr.received + (if ev.Deliver? then {ev.e} else {})
  {
    hide Process, Poll;
  }

  lemma OthersKeepProc(g: Config, sent: multiset<Stored>, more: multiset<Stored>, p: NodeId, pr: Proc)
    requires ProcInv(g, sent, p, pr)
    requires forall e :: e in more && e.from == p ==> p == g.sender && e.msg == SendMsg(g.payload, g.digest)
    ensures ProcInv(g, sent + more, p, pr)
  {
    hide LocalInv;
    assert forall d :: Stored(p, EchoMsg(d)) !in more && Stored(p, ReadyMsg(d)) !in more;
  }

  lemma InitInv(g: Config)
    requires g.Valid()
    ensures Inv(g, InitSys(g))
  {
    NewThresholds(g.sender, g.c.info);
  }

  lemma OneMemberMoves(g: Config, s: Sys, q: NodeId, pr: Proc, more: multiset<Stored>)
    requires Inv(g, s) && q in s.procs && ProcInv(g, s.sent + more, q, pr)
    requires forall e :: e in more ==> e.from == q && !e.msg.SendMsg?
    ensures Inv(g, Sys(s.procs[q := pr], s.sent + more))
  {
    hide ProcInv, Broadcast;
    forall p | p in s.procs && p != q ensures ProcInv(g, s.sent + more, p, s.procs[p]) {
      OthersKeepProc(g, s.sent, more, p, s.procs[p]);
    }
  }

  lemma HandleKeepsInv(g: Config, s: Sys, q: NodeId, ev: Event)
    requires Inv(g, s) && Enabled(g, s, Handle(q, ev))
    ensures Inv(g, Apply(g, s, Handle(q, ev)))
  {
    assert ProcInv(g, s.sent, q, s.procs[q]);
    TakeKeepsProc(g, s.sent, q, s.procs[q], ev);
    TakeAnnounces(s.procs[q], ev);
    hide Inv, ProcInv, LocalInv, Take, Emitted;
    OneMemberMoves(g, s, q, Take(s.procs[q], ev), Broadcast(q, Emitted(s.procs[q], ev)));
  }

  lemma SentKeepsInv(g: Config, s: Sys, e: Stored)
    requires Inv(g, s) && e.from in g.c.Members()
    requires e.from in g.c.Correct() ==> e == Stored(g.sender, SendMsg(g.payload, g.digest))
    requires g.onlySender && e.msg.SendMsg? ==> e.from == g.sender
    ensures Inv(g, s.(sent := s.sent + multiset{e}))
  {
    hide ProcInv;
    forall p | p in s.procs ensures ProcInv(g, s.sent + multiset{e}, p, s.procs[p]) {
      OthersKeepProc(g, s.sent, multiset{e}, p, s.procs[p]);
    }
  }

  lemma StepKeepsInv(g: Config, s: Sys, step: Step)
    requires Inv(g, s) && Enabled(g, s, step)
    ensures Inv(g, Apply(g, s, step))
  {
    match step
    case Propose => SentKeepsInv(g, s, Stored(g.sender, SendMsg(g.payload, g.digest)));
    case Handle(p, ev) => HandleKeepsInv(g, s, p, ev);
    case Inject(e) => SentKeepsInv(g, s, e);
  }

  /** The invariant holds in every state of every run. */
  lemma RunInv(g: Config, run: seq<Sys>, i: nat)
    requires IsRun(g, run) && i < |run|
    ensures Inv(g, run[i])
  {
    InitInv(g);
    hide Inv, Enabled, Apply, InitSys;
    forall s, s' | Inv(g, s) && Next(g, s, s') ensures Inv(g, s') {
      var step :| Enabled(g, s, step) && s' == Apply(g, s, step);
      StepKeepsInv(g, s, step);
    }
    Runs.Onward(InitSys(g), Steps(g), s => Inv(g, s), run, 0, i);
  }

  lemma StepGrows(g: Config, s: Sys, step: Step)
    requires Enabled(g, s, step)
    ensures s.sent <= Apply(g, s, step).sent
  {
    hide Take, Emitted;
  }

  lemma RunGrows(g: Config, run: seq<Sys>, i: nat, j: nat)
    requires IsRun(g, run) && i <= j < |run|
    ensures run[i].sent <= run[j].sent
  {
    hide Enabled, Apply;
    forall s: Sys, s' | run[i].sent <= s.sent && Next(g, s, s') ensures run[i].sent <= s'.sent {
      var step :| Enabled(g, s, step) && s' == Apply(g, s, step);
      StepGrows(g, s, step);
    }
    Runs.Onward(InitSys(g), Steps(g), (s: Sys) => run[i].sent <= s.sent, run, i, j);
  }
}
