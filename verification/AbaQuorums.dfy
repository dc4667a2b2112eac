/** What the counted votes of one state imply about the committee, and the two invariants that
    need it: every Val of a correct member repeats an entry estimate, and every value a correct
    member finishes with is confirmed by a quorum. */
module AbaQuorums {
  import opened Quorums
  import opened AbaMessages
  import opened AbaRound
  import opened AbaPending
  import opened AbaNode
  import opened AbaSystem
  import Runs

  /** More than 2f members sent Aux for exactly this value. */
  ghost predicate Seconded(g: Config, sent: multiset<Stored>, r: nat, v: bool) {
    |Backers(g.c, sent, r, ForAux([v]))| > 2 * g.c.info.f
  }

  /** More than 2f members sent Conf for exactly this value. */
  ghost predicate Confirmed(g: Config, sent: multiset<Stored>, r: nat, v: bool) {
    |Backers(g.c, sent, r, ForConf([v]))| > 2 * g.c.info.f
  }

  /** Some correct member entered round `r` with estimate `b`. */
  ghost predicate Entry(s: Sys, r: nat, b: bool) {
    exists p :: p in s.procs && r < |s.procs[p].entered| && s.procs[p].entered[r] == b
  }

  ghost predicate Repeats(g: Config, s: Sys) {
    forall p, r, b :: p in s.procs && Said(s.sent, p, r, ForVal(b)) ==> Entry(s, r, b)
  }

  ghost predicate FinishesConfirmed(g: Config, s: Sys) {
    forall p, b :: p in s.procs && b in s.procs[p].node.current.broadcastFinish ==>
      Confirmed(g, s.sent, s.procs[p].node.round, b)
  }

  ghost predicate StrongInv(g: Config, s: Sys) {
    Inv(g, s) && Repeats(g, s) && FinishesConfirmed(g, s)
  }

  // ---------- Facts of one state ----------

  /** Every round of a correct member, left or current, is founded on quorums of cast votes. */
  lemma RoundFacts(g: Config, s: Sys, p: NodeId, r: nat)
    requires Inv(g, s) && p in s.procs && r <= s.procs[p].node.round
    ensures p in g.c.Correct() && Shaped(s.procs[p])
    ensures var rd := RoundAt(s.procs[p].node, r);
      && rd.f == g.c.info.f && Founded(rd) && Evidence(g.c, s.sent, r, rd)
      && (!rd.phase.Finishing? ==> rd.estimate == s.procs[p].entered[r])
      && (r < s.procs[p].node.round ==> Left(rd, s.procs[p].entered[r + 1], s.procs[p].flips[r].1))
  {
    var pr := s.procs[p];
    assert ProcInv(g, s.sent, p, pr);
    assert Steady(pr, r);
  }

  ghost predicate AllowsBallot(rd: Round, k: Ballot) {
    && (k.ForAux? ==> PhaseRank(rd.phase) >= 1 && k.vs == [Value(rd)])
    && (k.ForConf? ==> PhaseRank(rd.phase) >= 2 && k.vs == [Value(rd)])
    && (k.ForFinish? ==> rd.phase.Finishing? && k.b in rd.broadcastFinish)
  }

  /** What a correct member said in a round is what the state of that round allows. */
  lemma SaidFacts(g: Config, s: Sys, p: NodeId, r: nat, k: Ballot)
    requires Inv(g, s) && p in s.procs && Said(s.sent, p, r, k)
    ensures Shaped(s.procs[p]) && r <= s.procs[p].node.round
    ensures AllowsBallot(RoundAt(s.procs[p].node, r), k)
    ensures k.ForFinish? ==> r == s.procs[p].node.round
  {
    hide Live, Left, Steady, FlippedOnce, Decisions, Sorted, Witnessed, Diligent, Buffered;
    var pr := s.procs[p];
    assert ProcInv(g, s.sent, p, pr);
    assert Shaped(pr) && Honest(s.sent, p, pr) && FinishOnce(s.sent, p, pr);
    var e :| e in s.sent && e.from == p && e.msg.round == r && BallotOf(e.msg.body) == k;
    hide Inv, ProcInv, LocalInv, Said;
    assert Allows(RoundAt(pr.node, r), e.msg.body);
    hide RoundAt, Honest, Value;
    if k.ForFinish? {
      assert s.sent[Stored(p, Message(r, Finish(k.b)))] > 0;
    }
  }

  /** A ballot with more than f counted votes was cast by a correct member. */
  lemma CountedByCorrect(g: Config, s: Sys, r: nat, rd: Round, k: Ballot) returns (q: NodeId)
    requires Inv(g, s) && Evidence(g.c, s.sent, r, rd) && Count(rd, k) > g.c.info.f
    ensures q in s.procs && Said(s.sent, q, r, k)
  {
    var voters := Votes(rd.votes, k);
    assert voters <= Backers(g.c, s.sent, r, k);
    q := CorrectWitness(g.c, voters);
  }

  lemma CountedIsBacked(g: Config, sent: multiset<Stored>, r: nat, rd: Round, k: Ballot)
    requires Evidence(g.c, sent, r, rd)
    ensures Count(rd, k) <= |Backers(g.c, sent, r, k)|
  {
    SubsetSize(Votes(rd.votes, k), Backers(g.c, sent, r, k));
  }

  lemma BackedByCorrect(g: Config, s: Sys, r: nat, k: Ballot) returns (q: NodeId)
    requires Inv(g, s) && |Backers(g.c, s.sent, r, k)| > g.c.info.f
    ensures q in s.procs && Said(s.sent, q, r, k)
  {
    q := CorrectWitness(g.c, Backers(g.c, s.sent, r, k));
  }

  /** The accepted value of a round was voted for by a correct member. */
  lemma ValueWasVoted(g: Config, s: Sys, p: NodeId, r: nat) returns (q: NodeId)
    requires Inv(g, s) && p in s.procs && r <= s.procs[p].node.round && Shaped(s.procs[p])
    requires PhaseRank(RoundAt(s.procs[p].node, r).phase) >= 1
    ensures q in s.procs && Said(s.sent, q, r, ForVal(Value(RoundAt(s.procs[p].node, r))))
  {
    RoundFacts(g, s, p, r);
    var rd := RoundAt(s.procs[p].node, r);
    q := CountedByCorrect(g, s, r, rd, ForVal(Value(rd)));
  }

  /** An Aux or Conf ballot within a round's accepted value, once more than f members cast it, is
      for exactly that value: a correct member cast it. */
  lemma CoveredIsValue(g: Config, s: Sys, r: nat, rd: Round, k: Ballot)
    requires Inv(g, s) && Evidence(g.c, s.sent, r, rd) && Count(rd, k) > g.c.info.f
    requires k.ForAux? || k.ForConf?
    requires rd.valuesR == {Value(rd)} && Covers(rd.valuesR, k.vs)
    ensures k.vs == [Value(rd)]
  {
    var q := CountedByCorrect(g, s, r, rd, k);
    SaidFacts(g, s, q, r, k);
    assert k.vs[0] in k.vs;
  }

  lemma ValueSeconded(g: Config, s: Sys, p: NodeId, r: nat)
    requires Inv(g, s) && p in s.procs && r <= s.procs[p].node.round && Shaped(s.procs[p])
    requires PhaseRank(RoundAt(s.procs[p].node, r).phase) >= 2
    ensures Seconded(g, s.sent, r, Value(RoundAt(s.procs[p].node, r)))
  {
    RoundFacts(g, s, p, r);
    var rd := RoundAt(s.procs[p].node, r);
    hide Inv, Left, Evidence;
    var vs :| Covers(rd.valuesR, vs) && Count(rd, ForAux(vs)) == 2 * rd.f + 1;
    CoveredIsValue(g, s, r, rd, ForAux(vs));
    CountedIsBacked(g, s.sent, r, rd, ForAux(vs));
  }

  lemma ConfirmedIsSeconded(g: Config, s: Sys, r: nat, v: bool)
    requires Inv(g, s) && Confirmed(g, s.sent, r, v)
    ensures Seconded(g, s.sent, r, v)
  {
    var q := BackedByCorrect(g, s, r, ForConf([v]));
    SaidFacts(g, s, q, r, ForConf([v]));
    ValueSeconded(g, s, q, r);
  }

  /** A winning set contains a correct member's Conf, hence is the single accepted value: the
      coin's multi-value branch is never taken. */
  lemma WinningIsValue(g: Config, s: Sys, p: NodeId, r: nat, vs: seq<bool>)
    requires Inv(g, s) && p in s.procs && r <= s.procs[p].node.round && Shaped(s.procs[p])
    requires var rd := RoundAt(s.procs[p].node, r);
      PhaseRank(rd.phase) >= 1 && Covers(rd.valuesR, vs) && Count(rd, ForConf(vs)) > 2 * rd.f
    ensures vs == [Value(RoundAt(s.procs[p].node, r))]
    ensures Confirmed(g, s.sent, r, Value(RoundAt(s.procs[p].node, r)))
  {
    RoundFacts(g, s, p, r);
    var rd := RoundAt(s.procs[p].node, r);
    hide Inv, Left, Evidence;
    CoveredIsValue(g, s, r, rd, ForConf(vs));
    CountedIsBacked(g, s.sent, r, rd, ForConf(vs));
  }

  /** A correct member leaves a round with its confirmed value, the opposite of the coin it
      flipped there; or, exactly if its own combination failed there, with the estimate with which
      it entered. */
  lemma LeavesWithConfirmed(g: Config, s: Sys, p: NodeId, r: nat)
    requires Inv(g, s) && p in s.procs && r < s.procs[p].node.round && Shaped(s.procs[p])
    ensures var v := Value(RoundAt(s.procs[p].node, r));
      && Confirmed(g, s.sent, r, v)
      && match s.procs[p].flips[r].1
         case Combined(bit) => s.procs[p].entered[r + 1] == v == !bit
         case CombineFailed => s.procs[p].entered[r + 1] == s.procs[p].entered[r]
  {
    RoundFacts(g, s, p, r);
    var rd := RoundAt(s.procs[p].node, r);
    var vs :| Winning(rd, vs, s.procs[p].entered[r + 1], s.procs[p].flips[r].1);
    WinningIsValue(g, s, p, r, vs);
  }

  /** In an intersecting committee, a round has at most one value seconded by a quorum. */
  lemma OneSeconded(g: Config, s: Sys, r: nat, v: bool, w: bool)
    requires Inv(g, s) && g.c.Intersecting() && Seconded(g, s.sent, r, v) && Seconded(g, s.sent, r, w)
    ensures v == w
  {
    var q := QuorumOverlap(g.c, Backers(g.c, s.sent, r, ForAux([v])), Backers(g.c, s.sent, r, ForAux([w])));
    SaidFacts(g, s, q, r, ForAux([v]));
    SaidFacts(g, s, q, r, ForAux([w]));
    assert [v][0] == [w][0];
  }

  lemma OneConfirmed(g: Config, s: Sys, r: nat, v: bool, w: bool)
    requires Inv(g, s) && g.c.Intersecting() && Confirmed(g, s.sent, r, v) && Confirmed(g, s.sent, r, w)
    ensures v == w
  {
    ConfirmedIsSeconded(g, s, r, v);
    ConfirmedIsSeconded(g, s, r, w);
    OneSeconded(g, s, r, v, w);
  }

  // ---------- The two further invariants hold in every run ----------

  lemma EntryGrows(s: Sys, s': Sys, r: nat, b: bool)
    requires Entry(s, r, b) && s'.procs.Keys == s.procs.Keys
    requires forall p :: p in s.procs ==> s.procs[p].entered <= s'.procs[p].entered
    ensures Entry(s', r, b)
  {
    var p :| p in s.procs && r < |s.procs[p].entered| && s.procs[p].entered[r] == b;
    assert s'.procs[p].entered[r] == b;
  }

  lemma TakeExtends(pr: Proc, i: Input)
    requires Possible(pr, i)
    ensures pr.entered <= Take(pr, i).entered
  {
    hide Process, Pop;
  }

  lemma StepExtends(g: Config, s: Sys, step: Step)
    requires Enabled(g, s, step)
    ensures Apply(g, s, step).procs.Keys == s.procs.Keys
    ensures s.sent <= Apply(g, s, step).sent
    ensures forall p :: p in s.procs ==> s.procs[p].entered <= Apply(g, s, step).procs[p].entered
  {
    if step.Handle? {
      hide Take, Emitted;
      TakeExtends(s.procs[step.p], step.input);
    }
  }

  /** A Val that a node broadcasts on an input has more than f counted votes. */
  lemma EmittedVal(pr: Proc, i: Input)
    requires LocalInv(pr) && Possible(pr, i)
    ensures var m := Emitted(pr, i); m.Some? && m.value.body.Val? ==>
      && m.value.round == pr.node.round == Take(pr, i).node.round
      && Count(Take(pr, i).node.current, ForVal(m.value.body.estimate)) > pr.node.quorum.f
  {
    match i
    case Receive(e, coin) =>
      ProcessedVal(pr, e, coin);
      hide LocalInv, Process;
    case PollNext(coin) =>
      PopKeepsLocal(pr);
      var (pr1, e) := Polled(pr);
      if e.Some? { ProcessedVal(pr1, e.value, coin); }
      hide LocalInv, Process, Pop;
  }

  lemma ProcessedVal(pr: Proc, e: Stored, coin: Coin)
    requires LocalInv(pr)
    ensures var r := Process(pr.node, e, coin); r.broadcast.Some? && r.broadcast.value.body.Val? ==>
      && r.broadcast.value.round == pr.node.round == r.node.round
      && Count(r.node.current, ForVal(r.broadcast.value.body.estimate)) > pr.node.quorum.f
  {
    assert Steady(pr, pr.node.round);
    AcceptAnnounces(pr.node.current, e.from, BallotOf(e.msg.body), coin);
    assert pr.node.current.f == pr.node.quorum.f;
    hide LocalInv, Accept, Live, Steady;
  }

  lemma StartRepeats(g: Config, s: Sys, p: NodeId)
    requires StrongInv(g, s) && p in s.procs
    ensures Entry(s, s.procs[p].node.round, s.procs[p].node.current.estimate)
  {
    var n := s.procs[p].node;
    RoundFacts(g, s, p, n.round);
    hide Inv;
    if n.current.phase.Finishing? {
      var q := ValueWasVoted(g, s, p, n.round);
    }
  }

  /** Votes counted after an input, when witnessed by what was sent before it. */
  lemma HandleRepeats(g: Config, s: Sys, p: NodeId, i: Input, b: bool)
    requires StrongInv(g, s) && Enabled(g, s, Handle(p, i))
    requires Emitted(s.procs[p], i) == Some(Message(s.procs[p].node.round, Val(b)))
    ensures Entry(s, s.procs[p].node.round, b)
  {
    var pr := s.procs[p];
    assert ProcInv(g, s.sent, p, pr);
    TakeKeepsProc(g, s.sent, p, pr, i);
    EmittedVal(pr, i);
    var rd := RoundAt(Take(pr, i).node, pr.node.round);
    assert Evidence(g.c, s.sent, pr.node.round, rd);
    var q := CountedByCorrect(g, s, pr.node.round, rd, ForVal(b));
  }

  lemma NewValRepeats(g: Config, s: Sys, step: Step, e: Stored)
    requires StrongInv(g, s) && Enabled(g, s, step)
    requires e in Apply(g, s, step).sent && e !in s.sent && e.from in s.procs && e.msg.body.Val?
    ensures Entry(s, e.msg.round, e.msg.body.estimate)
  {
    match step
    case Start(p) => StartRepeats(g, s, p);
    case Handle(p, i) =>
      assert ProcInv(g, s.sent, p, s.procs[p]);
      EmittedVal(s.procs[p], i);
      hide StrongInv, ProcInv, LocalInv, Take, Emitted;
      HandleRepeats(g, s, p, i, e.msg.body.estimate);
    case Inject(_) =>
  }

  lemma SaidValRepeats(g: Config, s: Sys, step: Step, p: NodeId, r: nat, b: bool)
    requires StrongInv(g, s) && Enabled(g, s, step)
    requires p in s.procs && Said(Apply(g, s, step).sent, p, r, ForVal(b))
    ensures Entry(s, r, b)
  {
    hide Inv, FinishesConfirmed, Enabled, Apply, Entry;
    var e :| e in Apply(g, s, step).sent && e.from == p && e.msg.round == r && BallotOf(e.msg.body) == ForVal(b);
    assert e.msg.body == Val(b);
    if e in s.sent {
      assert Said(s.sent, p, r, ForVal(b));
    } else {
      NewValRepeats(g, s, step, e);
    }
  }

  lemma StepKeepsRepeats(g: Config, s: Sys, step: Step)
    requires StrongInv(g, s) && Enabled(g, s, step)
    ensures Repeats(g, Apply(g, s, step))
  {
    var s' := Apply(g, s, step);
    StepExtends(g, s, step);
    hide StrongInv, Enabled, Apply, Entry, Said;
    forall p, r, b | p in s'.procs && Said(s'.sent, p, r, ForVal(b)) ensures Entry(s', r, b) {
      SaidValRepeats(g, s, step, p, r, b);
      EntryGrows(s, s', r, b);
    }
  }

  /** The values that a member registers on an input are confirmed by what was sent before. */
  lemma HandleConfirms(g: Config, s: Sys, p: NodeId, i: Input, b: bool)
    requires StrongInv(g, s) && Enabled(g, s, Handle(p, i))
    requires b in Take(s.procs[p], i).node.current.broadcastFinish
    ensures Confirmed(g, s.sent, Take(s.procs[p], i).node.round, b)
  {
    var pr' := Take(s.procs[p], i);
    assert ProcInv(g, s.sent, p, s.procs[p]);
    TakeKeepsProc(g, s.sent, p, s.procs[p], i);
    var r := pr'.node.round;
    assert Steady(pr', r);
    assert Evidence(g.c, s.sent, r, RoundAt(pr'.node, r));
    hide ProcInv, LocalInv, Take, Emitted, Enabled, StrongInv, Witnessed;
    RegisteredIsConfirmed(g, s, r, pr'.node.current, b);
  }

  lemma RegisteredIsConfirmed(g: Config, s: Sys, r: nat, rd: Round, b: bool)
    requires StrongInv(g, s) && Evidence(g.c, s.sent, r, rd)
    requires Clean(rd) && Founded(rd) && rd.f == g.c.info.f && b in rd.broadcastFinish
    ensures Confirmed(g, s.sent, r, b)
  {
    if b == rd.estimate {
      CountedIsBacked(g, s.sent, r, rd, ForConf([b]));
    } else {
      var q := CountedByCorrect(g, s, r, rd, ForFinish(b));
      SaidFacts(g, s, q, r, ForFinish(b));
    }
  }

  lemma StepKeepsConfirmed(g: Config, s: Sys, step: Step)
    requires StrongInv(g, s) && Enabled(g, s, step)
    ensures FinishesConfirmed(g, Apply(g, s, step))
  {
    var s' := Apply(g, s, step);
    StepExtends(g, s, step);
    hide Take, Emitted, Inv, Repeats;
    forall p, b | p in s'.procs && b in s'.procs[p].node.current.broadcastFinish
      ensures Confirmed(g, s'.sent, s'.procs[p].node.round, b)
    {
      if step.Handle? && step.p == p { HandleConfirms(g, s, p, step.input, b); }
      BackersGrow(g.c, s.sent, s'.sent, s'.procs[p].node.round, ForConf([b]));
    }
  }

  lemma InitStrongInv(g: Config)
    requires g.Valid()
    ensures StrongInv(g, InitSys(g))
  {
    InitInv(g);
  }

  lemma StepKeepsStrongInv(g: Config, s: Sys, step: Step)
    requires StrongInv(g, s) && Enabled(g, s, step)
    ensures StrongInv(g, Apply(g, s, step))
  {
    hide Inv, Repeats, FinishesConfirmed, Enabled, Apply;
    StepKeepsInv(g, s, step);
    StepKeepsRepeats(g, s, step);
    StepKeepsConfirmed(g, s, step);
  }

  /** The strong invariant holds in every state of every run. */
  lemma RunStrongInv(g: Config, run: seq<Sys>, i: nat)
    requires IsRun(g, run) && i < |run|
    ensures StrongInv(g, run[i])
  {
    InitStrongInv(g);
    hide StrongInv, Enabled, Apply, InitSys;
    forall s, s' | StrongInv(g, s) && Next(g, s, s') ensures StrongInv(g, s') {
      var step :| Enabled(g, s, step) && s' == Apply(g, s, step);
      StepKeepsStrongInv(g, s, step);
    }
    Runs.Onward(InitSys(g), Steps(g), s => StrongInv(g, s), run, 0, i);
  }

  lemma OnlyConfirmed(g: Config, s: Sys, r: nat, v: bool, w: bool)
    requires StrongInv(g, s) && g.c.Intersecting() && Confirmed(g, s.sent, r, v) && Confirmed(g, s.sent, r, w)
    ensures v == w
  {
    OneConfirmed(g, s, r, v, w);
  }
}
