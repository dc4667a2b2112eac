/** A committee running the binary agreement: correct members run nodes, faulty members send
    anything, the network delivers any sent message to any correct member at any time and any
    number of times. What every step of such a system keeps. */
module AbaSystem {
  import opened Quorums
  import opened AbaMessages
  import opened AbaRound
  import opened AbaPending
  import opened AbaNode
  import Runs

  /** `reliable` says that combining the shares of a winning set never fails; `common`, when given,
      is the one coin of each round that all combinations in it yield. */
  datatype Config = Config(c: Committee, inputs: map<NodeId, bool>, reliable: bool, common: Option<nat -> bool>) {
    ghost predicate Valid() {
      c.Valid() && c.Correct() <= inputs.Keys
    }

    /** Combining shares in round `r` may yield this. */
    predicate Yields(r: nat, coin: Coin) {
      match coin
      case CombineFailed => !reliable
      case Combined(bit) => common.Some? ==> bit == common.value(r)
    }
  }

  datatype Sys = Sys(procs: map<NodeId, Proc>, sent: multiset<Stored>)

  datatype Step =
    | Start(p: NodeId)                // the orchestrator broadcasts Val of the current estimate
    | Handle(p: NodeId, input: Input) // a correct node takes an input
    | Inject(e: Stored)               // a faulty member sends anything

  ghost function InitSys(g: Config): Sys
    requires g.Valid()
  {
    Sys(map p | p in g.c.Correct() :: NewProc(g.inputs[p], g.c.info, p), multiset{})
  }

  ghost predicate Enabled(g: Config, s: Sys, step: Step) {
    match step
    case Start(p) => p in g.c.Correct() && p in s.procs
    case Handle(p, i) =>
      && p in g.c.Correct() && p in s.procs && Possible(s.procs[p], i)
      && (i.Receive? ==> i.e in s.sent)
      && g.Yields(s.procs[p].node.round, i.coin)
    case Inject(e) => e.from in g.c.faulty
  }

  function Broadcast(p: NodeId, m: Option<Message>): multiset<Stored> {
    if m.Some? then multiset{Stored(p, m.value)} else multiset{}
  }

  ghost function Apply(g: Config, s: Sys, step: Step): Sys
    requires Enabled(g, s, step)
  {
    match step
    case Start(p) =>
      var n := s.procs[p].node;
      s.(sent := s.sent + multiset{Stored(p, Message(n.round, Val(n.current.estimate)))})
    case Handle(p, i) =>
      Sys(s.procs[p := Take(s.procs[p], i)], s.sent + Broadcast(p, Emitted(s.procs[p], i)))
    case Inject(e) => s.(sent := s.sent + multiset{e})
  }

  ghost predicate Next(g: Config, s: Sys, s': Sys) {
    exists step :: Enabled(g, s, step) && s' == Apply(g, s, step)
  }

  ghost function Steps(g: Config): (Sys, Sys) -> bool {
    (s, s') => Next(g, s, s')
  }

  /** A run: the states of the system from its start, each by some step from the one before. */
  ghost predicate IsRun(g: Config, run: seq<Sys>) {
    g.Valid() && Runs.IsPath(InitSys(g), Steps(g), run)
  }

  // ---------- Invariant ----------

  /** Every counted vote was cast: the voters for a ballot are among its backers. */
  ghost predicate Evidence(c: Committee, sent: multiset<Stored>, r: nat, rd: Round) {
    forall k :: Votes(rd.votes, k) <= Backers(c, sent, r, k)
  }

  /** What a member may have broadcast in a round, given the state of that round. */
  predicate Allows(rd: Round, body: Body) {
    match body
    case Val(_) => true
    case Aux(vs) => PhaseRank(rd.phase) >= 1 && vs == [Value(rd)]
    case Conf(vs, _) => PhaseRank(rd.phase) >= 2 && vs == [Value(rd)]
    case Finish(b) => rd.phase.Finishing? && b in rd.broadcastFinish
  }

  /** What a member has certainly broadcast in a round, given the state of that round. */
  ghost predicate Owes(sent: multiset<Stored>, p: NodeId, r: nat, rd: Round) {
    && (PhaseRank(rd.phase) >= 1 ==> Said(sent, p, r, ForAux([Value(rd)])))
    && (PhaseRank(rd.phase) >= 2 ==> Said(sent, p, r, ForConf([Value(rd)])))
    && (forall b :: b in rd.broadcastEstimates ==> Said(sent, p, r, ForVal(b)))
  }

  ghost predicate Witnessed(c: Committee, sent: multiset<Stored>, pr: Proc)
    requires Shaped(pr)
  {
    forall r: nat :: r <= pr.node.round ==> Evidence(c, sent, r, RoundAt(pr.node, r))
  }

  ghost predicate Honest(sent: multiset<Stored>, p: NodeId, pr: Proc)
    requires Shaped(pr)
  {
    forall e: Stored :: e in sent && e.from == p ==>
      e.msg.round <= pr.node.round && Allows(RoundAt(pr.node, e.msg.round), e.msg.body)
  }

  ghost predicate Diligent(sent: multiset<Stored>, p: NodeId, pr: Proc)
    requires Shaped(pr)
  {
    forall r: nat :: r <= pr.node.round ==> Owes(sent, p, r, RoundAt(pr.node, r))
  }

  /** A value to finish with is broadcast exactly once, in the round in which it is registered. */
  ghost predicate FinishOnce(sent: multiset<Stored>, p: NodeId, pr: Proc) {
    forall r: nat, b :: sent[Stored(p, Message(r, Finish(b)))]
      == if r == pr.node.round && b in pr.node.current.broadcastFinish then 1 else 0
  }

  ghost predicate Buffered(sent: multiset<Stored>, pr: Proc) {
    forall k: nat, e :: e in StackAt(pr.node.pending, k) ==> e in sent
  }

  ghost predicate ProcInv(g: Config, sent: multiset<Stored>, p: NodeId, pr: Proc) {
    && LocalInv(pr)
    && pr.node.quorum == g.c.info && pr.node.key == p
    && p in g.inputs && pr.entered[0] == g.inputs[p]
    && Witnessed(g.c, sent, pr)
    && Honest(sent, p, pr)
    && Diligent(sent, p, pr)
    && FinishOnce(sent, p, pr)
    && Buffered(sent, pr)
  }

  /** Every coin that a member flipped is one that its round may yield. */
  ghost predicate CoinsYield(g: Config, pr: Proc) {
    forall i :: 0 <= i < |pr.flips| ==> g.Yields(pr.flips[i].0, pr.flips[i].1)
  }

  ghost predicate Inv(g: Config, s: Sys) {
    && g.Valid()
    && s.procs.Keys == g.c.Correct()
    && (forall e :: e in s.sent ==> e.from in g.c.Members())
    && (forall p :: p in s.procs ==> ProcInv(g, s.sent, p, s.procs[p]) && CoinsYield(g, s.procs[p]))
  }

  // ---------- The invariant holds in every run ----------

  /** The node moved within its round to `rd`, or left the round in state `rd` for the next. */
  ghost predicate Moved(pr: Proc, pr': Proc, rd: Round) {
    && Shaped(pr) && Shaped(pr')
    && pr'.node.round == pr.node.round + (if pr'.node.round == pr.node.round then 0 else 1)
    && (forall r: nat :: r < pr.node.round ==> RoundAt(pr'.node, r) == RoundAt(pr.node, r))
    && RoundAt(pr'.node, pr.node.round) == rd
    && (pr'.node.round > pr.node.round ==>
          rd.phase.CollectingConf? && exists next :: pr'.node.current == NewRound(rd.f, next))
    && Advances(pr.node.current, rd)
  }

  lemma SaidGrows(sent: multiset<Stored>, sent': multiset<Stored>, p: NodeId, r: nat, k: Ballot)
    requires sent <= sent' && Said(sent, p, r, k)
    ensures Said(sent', p, r, k)
  {
    var e :| e in sent && e.from == p && e.msg.round == r && BallotOf(e.msg.body) == k;
    assert e in sent';
  }

  lemma EvidenceGrows(c: Committee, sent: multiset<Stored>, sent': multiset<Stored>, r: nat, rd: Round)
    requires sent <= sent' && Evidence(c, sent, r, rd)
    ensures Evidence(c, sent', r, rd)
  {
    forall k ensures Votes(rd.votes, k) <= Backers(c, sent', r, k) {
      BackersGrow(c, sent, sent', r, k);
    }
  }

  lemma EvidenceTallies(c: Committee, sent: multiset<Stored>, e: Stored, rd: Round, rd': Round)
    requires Evidence(c, sent, e.msg.round, rd) && e in sent && e.from in c.Members()
    requires Tallies(rd, e.from, BallotOf(e.msg.body), rd')
    ensures Evidence(c, sent, e.msg.round, rd')
  {
    assert e.from in Backers(c, sent, e.msg.round, BallotOf(e.msg.body));
  }

  lemma WitnessedMoves(c: Committee, sent: multiset<Stored>, sent': multiset<Stored>, pr: Proc, pr': Proc, e: Stored, rd: Round)
    requires Shaped(pr) && Shaped(pr') && Moved(pr, pr', rd) && Witnessed(c, sent, pr) && sent <= sent'
    requires Tallies(pr.node.current, e.from, BallotOf(e.msg.body), rd)
    requires e in sent && e.from in c.Members() && e.msg.round == pr.node.round
    ensures Witnessed(c, sent', pr')
  {
    EvidenceTallies(c, sent, e, RoundAt(pr.node, pr.node.round), rd);
    hide Tallies, Advances;
    forall r: nat | r <= pr'.node.round ensures Evidence(c, sent', r, RoundAt(pr'.node, r)) {
      if r <= pr.node.round {
        assert Evidence(c, sent, r, RoundAt(pr'.node, r));
        EvidenceGrows(c, sent, sent', r, RoundAt(pr'.node, r));
      }
    }
  }

  lemma AllowsAdvances(rd: Round, rd': Round, body: Body)
    requires Allows(rd, body) && Advances(rd, rd')
    ensures Allows(rd', body)
  {
  }

  lemma HonestMoves(sent: multiset<Stored>, sent': multiset<Stored>, p: NodeId, pr: Proc, pr': Proc, rd: Round, m: Option<Message>)
    requires Shaped(pr) && Shaped(pr') && Moved(pr, pr', rd) && Honest(sent, p, pr) && sent' == sent + Broadcast(p, m)
    requires m.Some? ==> m.value.round == pr.node.round && Allows(rd, m.value.body)
    ensures Honest(sent', p, pr')
  {
    hide Advances;
    forall e: Stored | e in sent' && e.from == p
      ensures e.msg.round <= pr'.node.round && Allows(RoundAt(pr'.node, e.msg.round), e.msg.body)
    {
      if e in sent {
        assert Allows(RoundAt(pr.node, e.msg.round), e.msg.body);
        if e.msg.round == pr.node.round { AllowsAdvances(pr.node.current, rd, e.msg.body); }
      }
    }
  }

  lemma OwesAdvances(sent: multiset<Stored>, sent': multiset<Stored>, p: NodeId, r: nat, rd: Round, rd': Round)
    requires Owes(sent, p, r, rd) && Advances(rd, rd') && sent <= sent'
    requires PhaseRank(rd.phase) == 0 < PhaseRank(rd'.phase) ==> Said(sent', p, r, ForAux([Value(rd')]))
    requires PhaseRank(rd.phase) == 1 < PhaseRank(rd'.phase) ==> Said(sent', p, r, ForConf([Value(rd')]))
    requires forall b :: b in rd'.broadcastEstimates && b !in rd.broadcastEstimates ==> Said(sent', p, r, ForVal(b))
    ensures Owes(sent', p, r, rd')
  {
    hide Said;
    forall b | b in rd.broadcastEstimates ensures Said(sent', p, r, ForVal(b)) {
      SaidGrows(sent, sent', p, r, ForVal(b));
    }
    if PhaseRank(rd.phase) >= 1 { SaidGrows(sent, sent', p, r, ForAux([Value(rd)])); }
    if PhaseRank(rd.phase) >= 2 { SaidGrows(sent, sent', p, r, ForConf([Value(rd)])); }
  }

  lemma OwesGrows(sent: multiset<Stored>, sent': multiset<Stored>, p: NodeId, r: nat, rd: Round)
    requires Owes(sent, p, r, rd) && sent <= sent'
    ensures Owes(sent', p, r, rd)
  {
    OwesAdvances(sent, sent', p, r, rd, rd);
  }

  lemma DiligentMoves(sent: multiset<Stored>, sent': multiset<Stored>, p: NodeId, pr: Proc, pr': Proc, rd: Round)
    requires Shaped(pr) && Shaped(pr') && Moved(pr, pr', rd) && Diligent(sent, p, pr) && sent <= sent'
    requires Owes(sent', p, pr.node.round, rd)
    ensures Diligent(sent', p, pr')
  {
    hide Advances, Said;
    forall r: nat | r <= pr'.node.round ensures Owes(sent', p, r, RoundAt(pr'.node, r)) {
      if r < pr.node.round {
        assert Owes(sent, p, r, RoundAt(pr.node, r));
        OwesGrows(sent, sent', p, r, RoundAt(pr.node, r));
      }
    }
  }

  lemma FinishOnceMoves(sent: multiset<Stored>, p: NodeId, pr: Proc, pr': Proc, rd: Round, v: Verdict)
    requires Moved(pr, pr', rd) && FinishOnce(sent, p, pr) && Announces(pr.node.current, rd, v)
    requires !pr.node.current.phase.Finishing? ==> pr.node.current.broadcastFinish == {}
    requires pr'.node.round > pr.node.round ==> !v.BroadcastFinalized?
    ensures FinishOnce(sent + Broadcast(p, Announcement(pr.node, v)), p, pr')
  {
    var m := Announcement(pr.node, v);
    assert !v.BroadcastFinalized? && m.Some? ==> !m.value.body.Finish?;
  }

  lemma MoveFacts(g: Config, pr: Proc, pr': Proc, e: Stored, rd: Round, v: Verdict, coin: Coin)
    requires LocalInv(pr) && SameRound(pr, e, pr', rd, v, coin)
    ensures pr.entered <= pr'.entered && pr'.node.quorum == pr.node.quorum && pr'.node.key == pr.node.key
    ensures !pr.node.current.phase.Finishing? ==> pr.node.current.broadcastFinish == {}
    ensures Announces(pr.node.current, rd, v) && Tallies(pr.node.current, e.from, BallotOf(e.msg.body), rd)
    ensures e.msg.round == pr.node.round
  {
    hide Announces, Tallies, Advances, Flips;
  }

  /** The current round took a vote and the node stayed in it or left it. */
  lemma MoveKeepsProc(g: Config, sent: multiset<Stored>, p: NodeId, pr: Proc, pr': Proc, e: Stored, rd: Round, v: Verdict, coin: Coin)
    requires ProcInv(g, sent, p, pr) && LocalInv(pr') && SameRound(pr, e, pr', rd, v, coin)
    requires Shaped(pr) && Shaped(pr') && Moved(pr, pr', rd) && pr'.node.pending == pr.node.pending
    requires pr'.node.round > pr.node.round <==> v.Failed?
    requires e in sent && e.from in g.c.Members()
    ensures ProcInv(g, sent + Broadcast(p, Announcement(pr.node, v)), p, pr')
    ensures Witnessed(g.c, sent, pr')
  {
    hide SameRound, LocalInv, Moved, Announces, Tallies, Announcement, Broadcast, Witnessed, Honest, Diligent, FinishOnce;
    var m := Announcement(pr.node, v);
    var sent' := sent + Broadcast(p, m);
    MoveFacts(g, pr, pr', e, rd, v, coin);
    WitnessedMoves(g.c, sent, sent, pr, pr', e, rd);
    WitnessedMoves(g.c, sent, sent', pr, pr', e, rd);
    MoveAnnounces(sent, p, pr, pr', rd, v);
    HonestMoves(sent, sent', p, pr, pr', rd, m);
    DiligentMoves(sent, sent', p, pr, pr', rd);
    FinishOnceMoves(sent, p, pr, pr', rd, v);
    assert Buffered(sent', pr');
  }

  lemma MoveAnnounces(sent: multiset<Stored>, p: NodeId, pr: Proc, pr': Proc, rd: Round, v: Verdict)
    requires Shaped(pr) && Moved(pr, pr', rd) && Announces(pr.node.current, rd, v)
    requires Diligent(sent, p, pr)
    ensures var m := Announcement(pr.node, v);
      && (m.Some? ==> m.value.round == pr.node.round && Allows(rd, m.value.body))
      && Owes(sent + Broadcast(p, m), p, pr.node.round, rd)
  {
    var m := Announcement(pr.node, v);
    var sent' := sent + Broadcast(p, m);
    if m.Some? { assert Stored(p, m.value) in sent'; }
    assert Owes(sent, p, pr.node.round, RoundAt(pr.node, pr.node.round));
    OwesAdvances(sent, sent', p, pr.node.round, pr.node.current, rd);
  }

  lemma BufferKeepsProc(g: Config, sent: multiset<Stored>, p: NodeId, pr: Proc, pending: Pending)
    requires ProcInv(g, sent, p, pr)
    requires LocalInv(pr.(node := pr.node.(pending := pending)))
    requires forall k: nat, e :: e in StackAt(pending, k) ==> e in sent
    ensures var pr' := pr.(node := pr.node.(pending := pending));
      ProcInv(g, sent, p, pr') && Shaped(pr') && Witnessed(g.c, sent, pr')
  {
    var pr' := pr.(node := pr.node.(pending := pending));
    assert Shaped(pr) && Shaped(pr');
    hide LocalInv, Evidence, Owes;
    assert forall r: nat :: r <= pr.node.round ==> RoundAt(pr'.node, r) == RoundAt(pr.node, r);
  }

  lemma SameRoundMoves(pr: Proc, e: Stored, pr': Proc, rd: Round, v: Verdict, coin: Coin)
    requires SameRound(pr, e, pr', rd, v, coin) && Shaped(pr) && Shaped(pr') && !v.Queue?
    requires pr.node.current.f == pr.node.quorum.f
    requires v.Failed? ==> rd.phase.CollectingConf?
    ensures Moved(pr, pr', rd) && pr'.node.pending == pr.node.pending
    ensures pr'.node.round > pr.node.round <==> v.Failed?
    ensures React(pr.node.(current := rd), e, v).broadcast == Announcement(pr.node, v)
  {
    if v.Failed? {
      assert pr'.node == AdvanceRound(pr.node.(current := rd), v.next);
      assert pr'.node.current == NewRound(rd.f, v.next);
    } else {
      assert pr'.node == pr.node.(current := rd);
    }
  }

  /** Processing a sent message keeps a correct member's invariant. */
  lemma AbsorbKeepsProc(g: Config, sent: multiset<Stored>, p: NodeId, pr: Proc, e: Stored, coin: Coin)
    requires ProcInv(g, sent, p, pr) && e in sent && e.from in g.c.Members()
    ensures ProcInv(g, sent + Broadcast(p, Process(pr.node, e, coin).broadcast), p, Absorb(pr, e, coin))
    ensures Shaped(Absorb(pr, e, coin)) && Witnessed(g.c, sent, Absorb(pr, e, coin))
  {
    AbsorbKeepsLocal(pr, e, coin);
    if e.msg.round == pr.node.round {
      CurrentKeepsProc(g, sent, p, pr, e, coin);
    } else if e.msg.round > pr.node.round {
      QueuedKeepsProc(g, sent, p, pr, e, coin);
    } else {
      assert Shaped(pr) && Witnessed(g.c, sent, pr);
      hide ProcInv, LocalInv, Accept, Witnessed;
      assert Absorb(pr, e, coin) == pr;
    }
  }

  lemma QueuedKeepsProc(g: Config, sent: multiset<Stored>, p: NodeId, pr: Proc, e: Stored, coin: Coin)
    requires ProcInv(g, sent, p, pr) && e in sent && LocalInv(Absorb(pr, e, coin))
    requires e.msg.round > pr.node.round
    ensures ProcInv(g, sent + Broadcast(p, Process(pr.node, e, coin).broadcast), p, Absorb(pr, e, coin))
    ensures Shaped(Absorb(pr, e, coin)) && Witnessed(g.c, sent, Absorb(pr, e, coin))
  {
    AddStacks(pr.node.pending, e.msg.round, e);
    assert Buffered(sent, pr);
    hide ProcInv, LocalInv, Accept, StackAt, Add;
    var pending := Add(pr.node.pending, e.msg.round, e);
    assert Absorb(pr, e, coin) == pr.(node := pr.node.(pending := pending));
    BufferKeepsProc(g, sent, p, pr, pending);
  }

  lemma VerdictKeepsProc(g: Config, sent: multiset<Stored>, p: NodeId, pr: Proc, pr': Proc, e: Stored, rd: Round, v: Verdict, coin: Coin)
    requires ProcInv(g, sent, p, pr) && LocalInv(pr') && SameRound(pr, e, pr', rd, v, coin)
    requires e in sent && e.from in g.c.Members() && !v.Queue? && (v.Failed? ==> rd.phase.CollectingConf?)
    ensures ProcInv(g, sent + Broadcast(p, React(pr.node.(current := rd), e, v).broadcast), p, pr')
    ensures Shaped(pr') && Witnessed(g.c, sent, pr')
  {
    assert Shaped(pr) && Shaped(pr');
    assert Steady(pr, pr.node.round);
    hide ProcInv, LocalInv, SameRound, Moved;
    SameRoundMoves(pr, e, pr', rd, v, coin);
    MoveKeepsProc(g, sent, p, pr, pr', e, rd, v, coin);
  }

  lemma RequeueKeepsProc(g: Config, sent: multiset<Stored>, p: NodeId, pr: Proc, pr': Proc, e: Stored, v: Verdict, coin: Coin)
    requires ProcInv(g, sent, p, pr) && LocalInv(pr') && SameRound(pr, e, pr', pr.node.current, v, coin)
    requires e in sent && v.Queue?
    ensures ProcInv(g, sent, p, pr') && Shaped(pr') && Witnessed(g.c, sent, pr')
  {
    var pending := Add(pr.node.pending, e.msg.round, e);
    AddStacks(pr.node.pending, e.msg.round, e);
    assert Buffered(sent, pr);
    assert pr' == pr.(node := pr.node.(pending := pending));
    hide ProcInv, LocalInv, SameRound, StackAt, Add;
    BufferKeepsProc(g, sent, p, pr, pending);
  }

  lemma CurrentKeepsProc(g: Config, sent: multiset<Stored>, p: NodeId, pr: Proc, e: Stored, coin: Coin)
    requires ProcInv(g, sent, p, pr) && e in sent && e.from in g.c.Members()
    requires LocalInv(Absorb(pr, e, coin)) && e.msg.round == pr.node.round
    ensures ProcInv(g, sent + Broadcast(p, Process(pr.node, e, coin).broadcast), p, Absorb(pr, e, coin))
    ensures Shaped(Absorb(pr, e, coin)) && Witnessed(g.c, sent, Absorb(pr, e, coin))
  {
    var (rd, v) := Accept(pr.node.current, e.from, BallotOf(e.msg.body), coin);
    var pr' := Absorb(pr, e, coin);
    AcceptIsSameRound(pr, e, coin);
    AcceptAdvances(pr.node.current, e.from, BallotOf(e.msg.body), coin);
    assert v.Failed? ==> rd.phase.CollectingConf?;
    hide ProcInv, LocalInv, Accept, SameRound, Kept, Absorb;
    if v.Queue? {
      RequeueKeepsProc(g, sent, p, pr, pr', e, v, coin);
    } else {
      VerdictKeepsProc(g, sent, p, pr, pr', e, rd, v, coin);
    }
  }

  lemma ReceivedKeepsProc(g: Config, sent: multiset<Stored>, p: NodeId, pr: Proc, received: set<Stored>)
    requires ProcInv(g, sent, p, pr)
    ensures ProcInv(g, sent, p, pr.(received := received))
  {
    ReceivedKeepsLocal(pr, received);
    assert Shaped(pr) && Shaped(pr.(received := received));
    hide LocalInv, Evidence, Owes;
    assert forall r: nat :: r <= pr.node.round ==> RoundAt(pr.(received := received).node, r) == RoundAt(pr.node, r);
  }

  lemma PolledKeepsProc(g: Config, sent: multiset<Stored>, p: NodeId, pr: Proc)
    requires ProcInv(g, sent, p, pr) && CanPop(pr.node.pending, pr.node.round)
    ensures var (pr', e) := Polled(pr);
      ProcInv(g, sent, p, pr') && Shaped(pr') && Witnessed(g.c, sent, pr') && (e.Some? ==> e.value in sent && e.value.msg.round == pr.node.round)
  {
    var (pending, e) := Pop(pr.node.pending, pr.node.round);
    PopKeepsLocal(pr);
    PopStacks(pr.node.pending, pr.node.round);
    assert Buffered(sent, pr);
    hide ProcInv, LocalInv, StackAt, Pop;
    assert e.Some? ==> e.value in StackAt(pr.node.pending, pr.node.round);
    forall k: nat, x | x in StackAt(pending, k) ensures x in sent {
      assert x in StackAt(pr.node.pending, k);
    }
    BufferKeepsProc(g, sent, p, pr, pending);
  }

  /** Any input keeps the invariant of the member that takes it, and every vote it then counts
      had already been cast. */
  lemma TakeKeepsProc(g: Config, sent: multiset<Stored>, p: NodeId, pr: Proc, i: Input)
    requires ProcInv(g, sent, p, pr) && Possible(pr, i)
    requires forall e :: e in sent ==> e.from in g.c.Members()
    requires i.Receive? ==> i.e in sent
    ensures ProcInv(g, sent + Broadcast(p, Emitted(pr, i)), p, Take(pr, i))
    ensures Shaped(Take(pr, i)) && Witnessed(g.c, sent, Take(pr, i))
  {
    hide ProcInv, Absorb, Process, Polled;
    match i
    case Receive(e, coin) =>
      ReceivedKeepsProc(g, sent, p, pr, pr.received + {e});
      AbsorbKeepsProc(g, sent, p, pr.(received := pr.received + {e}), e, coin);
    case PollNext(coin) =>
      PolledKeepsProc(g, sent, p, pr);
      var (pr1, e) := Polled(pr);
      if e.Some? {
        AbsorbKeepsProc(g, sent, p, pr1, e.value, coin);
      } else {
        assert sent + Broadcast(p, None) == sent;
      }
  }

  /** A message from another sender keeps a member's invariant. */
  lemma OthersKeepProc(g: Config, sent: multiset<Stored>, more: multiset<Stored>, p: NodeId, pr: Proc)
    requires ProcInv(g, sent, p, pr)
    requires forall e :: e in more ==> e.from != p
    ensures ProcInv(g, sent + more, p, pr)
  {
    assert Shaped(pr);
    hide LocalInv;
    forall r: nat | r <= pr.node.round
      ensures Evidence(g.c, sent + more, r, RoundAt(pr.node, r)) && Owes(sent + more, p, r, RoundAt(pr.node, r))
    {
      EvidenceGrows(g.c, sent, sent + more, r, RoundAt(pr.node, r));
      OwesGrows(sent, sent + more, p, r, RoundAt(pr.node, r));
    }
    hide Evidence, Owes;
    assert forall r: nat, b :: Stored(p, Message(r, Finish(b))) !in more;
  }

  /** The orchestrator's Val message keeps its sender's invariant. */
  lemma ValKeepsProc(g: Config, sent: multiset<Stored>, p: NodeId, pr: Proc, b: bool)
    requires ProcInv(g, sent, p, pr)
    ensures ProcInv(g, sent + multiset{Stored(p, Message(pr.node.round, Val(b)))}, p, pr)
  {
    var more := multiset{Stored(p, Message(pr.node.round, Val(b)))};
    assert Shaped(pr);
    hide LocalInv;
    forall r: nat | r <= pr.node.round
      ensures Evidence(g.c, sent + more, r, RoundAt(pr.node, r)) && Owes(sent + more, p, r, RoundAt(pr.node, r))
    {
      EvidenceGrows(g.c, sent, sent + more, r, RoundAt(pr.node, r));
      OwesGrows(sent, sent + more, p, r, RoundAt(pr.node, r));
    }
    hide Evidence, Owes;
  }

  lemma InitInv(g: Config)
    requires g.Valid()
    ensures Inv(g, InitSys(g))
  {
    forall p | p in g.c.Correct() ensures ProcInv(g, multiset{}, p, NewProc(g.inputs[p], g.c.info, p)) {
      NewProcLocal(g.inputs[p], g.c.info, p);
    }
  }

  lemma OneMemberMoves(g: Config, s: Sys, q: NodeId, pr: Proc, more: multiset<Stored>)
    requires Inv(g, s) && q in s.procs && ProcInv(g, s.sent + more, q, pr)
    requires CoinsYield(g, pr) && forall e :: e in more ==> e.from == q
    ensures Inv(g, Sys(s.procs[q := pr], s.sent + more))
  {
    hide ProcInv, CoinsYield;
    forall p | p in s.procs && p != q ensures ProcInv(g, s.sent + more, p, s.procs[p]) {
      OthersKeepProc(g, s.sent, more, p, s.procs[p]);
    }
  }

  lemma TakeYields(g: Config, pr: Proc, i: Input)
    requires CoinsYield(g, pr) && Possible(pr, i) && g.Yields(pr.node.round, i.coin)
    ensures CoinsYield(g, Take(pr, i))
  {
    hide Process, Pop, Flips;
  }

  lemma InjectKeepsInv(g: Config, s: Sys, e: Stored)
    requires Inv(g, s) && e.from in g.c.faulty
    ensures Inv(g, s.(sent := s.sent + multiset{e}))
  {
    forall p | p in s.procs ensures ProcInv(g, s.sent + multiset{e}, p, s.procs[p]) {
      OthersKeepProc(g, s.sent, multiset{e}, p, s.procs[p]);
    }
    hide ProcInv;
  }

  lemma StepKeepsInv(g: Config, s: Sys, step: Step)
    requires Inv(g, s) && Enabled(g, s, step)
    ensures Inv(g, Apply(g, s, step))
  {
    match step
    case Start(p) =>
      var n := s.procs[p].node;
      ValKeepsProc(g, s.sent, p, s.procs[p], n.current.estimate);
      hide Inv, ProcInv;
      OneMemberMoves(g, s, p, s.procs[p], multiset{Stored(p, Message(n.round, Val(n.current.estimate)))});
      assert s.procs[p := s.procs[p]] == s.procs;
    case Handle(p, i) =>
      TakeKeepsProc(g, s.sent, p, s.procs[p], i);
      TakeYields(g, s.procs[p], i);
      hide CoinsYield, Inv, ProcInv, Take, Emitted, Possible;
      OneMemberMoves(g, s, p, Take(s.procs[p], i), Broadcast(p, Emitted(s.procs[p], i)));
    case Inject(e) => InjectKeepsInv(g, s, e);
  }

  /** The invariant holds in every state of every run. */
  lemma RunInv(g: Config, run: seq<Sys>, i: nat)
    requires IsRun(g, run) && i < |run|
    ensures Inv(g, run[i])
  {
    InitInv(g);
    hide Inv, Enabled, Apply, InitSys;
    forall s, s' | Inv(g, s) && Next(g, s, s') ensures Inv(g, s') {
      var step :| Enabled(g, s, step) && s' == Apply(g, s, step);
      StepKeepsInv(g, s, step);
    }
    Runs.Onward(InitSys(g), Steps(g), s => Inv(g, s), run, 0, i);
  }
}
