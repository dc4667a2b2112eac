/** Safety of the binary agreement over whole runs of an intersecting committee (n = 3f + 1), for
    every schedule, faulty behaviour and coin: agreement, one value per round, blocking across
    rounds, and the discipline of Finish messages. */
module AbaSafety {
  import opened Quorums
  import opened AbaMessages
  import opened AbaRound
  import opened AbaPending
  import opened AbaNode
  import opened AbaSystem
  import opened AbaQuorums
  import Runs

  // ---------- Runs only add to what was sent ----------

  lemma RunGrows(g: Config, run: seq<Sys>, i: nat, j: nat)
    requires IsRun(g, run) && i <= j < |run|
    ensures run[i].sent <= run[j].sent
  {
    hide Enabled, Apply;
    forall s: Sys, s' | run[i].sent <= s.sent && Next(g, s, s') ensures run[i].sent <= s'.sent {
      var step :| Enabled(g, s, step) && s' == Apply(g, s, step);
      StepExtends(g, s, step);
    }
    Runs.Onward(InitSys(g), Steps(g), (s: Sys) => run[i].sent <= s.sent, run, i, j);
  }

  // ---------- Agreement ----------

  ghost predicate HasDecided(s: Sys, p: NodeId, r: nat, v: bool) {
    p in s.procs && (r, v) in s.procs[p].decided
  }

  /** A decision rests on more than 2f members that sent Finish for its value in its round. */
  lemma DecisionIsBacked(g: Config, s: Sys, p: NodeId, r: nat, v: bool)
    requires Inv(g, s) && HasDecided(s, p, r, v)
    ensures r == s.procs[p].node.round && s.procs[p].node.current.phase.Finishing?
    ensures |Backers(g.c, s.sent, r, ForFinish(v))| > 2 * g.c.info.f
  {
    assert ProcInv(g, s.sent, p, s.procs[p]);
    RoundFacts(g, s, p, r);
    hide Inv, ProcInv, Evidence;
    CountedIsBacked(g, s.sent, r, s.procs[p].node.current, ForFinish(v));
  }

  lemma FinishQuorumsAgree(g: Config, s: Sys, r: nat, v: bool, r': nat, w: bool)
    requires StrongInv(g, s) && g.c.Intersecting()
    requires |Backers(g.c, s.sent, r, ForFinish(v))| > 2 * g.c.info.f
    requires |Backers(g.c, s.sent, r', ForFinish(w))| > 2 * g.c.info.f
    ensures r == r' && v == w
  {
    var q := QuorumOverlap(g.c, Backers(g.c, s.sent, r, ForFinish(v)), Backers(g.c, s.sent, r', ForFinish(w)));
    SaidFacts(g, s, q, r, ForFinish(v));
    SaidFacts(g, s, q, r', ForFinish(w));
    OneConfirmed(g, s, r, v, w);
  }

  /** Agreement: whenever two correct members finalize, they finalize the same value, in the
      same round; combine errors and differing coins included. */
  lemma Agreement(g: Config, run: seq<Sys>, i: nat, j: nat, p: NodeId, q: NodeId, r: nat, v: bool, r': nat, w: bool)
    requires IsRun(g, run) && g.c.Intersecting() && i <= j < |run|
    requires HasDecided(run[i], p, r, v) && HasDecided(run[j], q, r', w)
    ensures r == r' && v == w
  {
    RunStrongInv(g, run, i);
    RunStrongInv(g, run, j);
    DecisionIsBacked(g, run[i], p, r, v);
    DecisionIsBacked(g, run[j], q, r', w);
    RunGrows(g, run, i, j);
    BackersGrow(g.c, run[i].sent, run[j].sent, r, ForFinish(v));
    FinishQuorumsAgree(g, run[j], r, v, r', w);
  }

  // ---------- One value per round ----------

  /** A Conf of a correct member is for one value, seconded by a quorum. */
  lemma ConfIsSeconded(g: Config, s: Sys, p: NodeId, r: nat, vs: seq<bool>)
    requires Inv(g, s) && p in s.procs && Said(s.sent, p, r, ForConf(vs))
    ensures |vs| == 1 && Seconded(g, s.sent, r, vs[0])
  {
    SaidFacts(g, s, p, r, ForConf(vs));
    ValueSeconded(g, s, p, r);
  }

  lemma FinishIsSeconded(g: Config, s: Sys, p: NodeId, r: nat, b: bool)
    requires StrongInv(g, s) && p in s.procs && Said(s.sent, p, r, ForFinish(b))
    ensures Seconded(g, s.sent, r, b)
  {
    SaidFacts(g, s, p, r, ForFinish(b));
    ConfirmedIsSeconded(g, s, r, b);
  }

  /** All Conf and Finish messages of correct members in one round carry one and the same bit. */
  lemma OneValuePerRound(g: Config, run: seq<Sys>, i: nat, r: nat)
    requires IsRun(g, run) && g.c.Intersecting() && i < |run|
    ensures exists v :: forall p, k :: p in run[i].procs && Said(run[i].sent, p, r, k) ==>
      (k.ForConf? ==> k.vs == [v]) && (k.ForFinish? ==> k.b == v)
  {
    var s := run[i];
    RunStrongInv(g, run, i);
    hide StrongInv, Said;
    var v := if Seconded(g, s.sent, r, true) then true else false;
    forall p, k | p in s.procs && Said(s.sent, p, r, k)
      ensures (k.ForConf? ==> k.vs == [v]) && (k.ForFinish? ==> k.b == v)
    {
      assert Inv(g, s) by { RunInv(g, run, i); }
      if k.ForConf? {
        ConfIsSeconded(g, s, p, r, k.vs);
        OneSeconded(g, s, r, k.vs[0], v);
      }
      if k.ForFinish? {
        FinishIsSeconded(g, s, p, r, k.b);
        OneSeconded(g, s, r, k.b, v);
      }
    }
  }

  // ---------- Blocking across rounds ----------

  lemma AcceptStaysFinishing(rd: Round, sender: NodeId, k: Ballot, coin: Coin)
    requires rd.phase.Finishing?
    ensures var (rd', v) := Accept(rd, sender, k, coin);
      rd'.phase.Finishing? && rd'.estimate == rd.estimate && !v.Failed?
  {
    hide Cast, Count;
  }

  lemma ProcessStaysFinishing(n: Node, e: Stored, coin: Coin)
    requires n.current.phase.Finishing?
    ensures var n' := Process(n, e, coin).node;
      n'.round == n.round && n'.current.phase.Finishing? && n'.current.estimate == n.current.estimate
  {
    AcceptStaysFinishing(n.current, e.from, BallotOf(e.msg.body), coin);
    hide Accept, Add;
  }

  /** A finishing node never leaves its round, nor changes its estimate. */
  lemma FinishingStays(pr: Proc, i: Input)
    requires Possible(pr, i) && pr.node.current.phase.Finishing?
    ensures Take(pr, i).node.round == pr.node.round
    ensures Take(pr, i).node.current.phase.Finishing?
    ensures Take(pr, i).node.current.estimate == pr.node.current.estimate
  {
    hide Pop, Process;
    match i
    case Receive(e, coin) => ProcessStaysFinishing(pr.node, e, coin);
    case PollNext(coin) =>
      var (pr1, e) := Polled(pr);
      if e.Some? { ProcessStaysFinishing(pr1.node, e.value, coin); }
  }

  /** The member is finishing in round `r`. */
  ghost predicate FinishingIn(s: Sys, p: NodeId, r: nat) {
    p in s.procs && s.procs[p].node.round == r && s.procs[p].node.current.phase.Finishing?
  }

  lemma StepStaysFinishing(g: Config, s: Sys, step: Step, p: NodeId, r: nat)
    requires Enabled(g, s, step) && FinishingIn(s, p, r)
    ensures FinishingIn(Apply(g, s, step), p, r)
  {
    hide Take, Emitted;
    if step.Handle? && step.p == p { FinishingStays(s.procs[p], step.input); }
  }

  lemma FinishingForever(g: Config, run: seq<Sys>, i: nat, j: nat, p: NodeId, r: nat)
    requires IsRun(g, run) && i <= j < |run| && FinishingIn(run[i], p, r)
    ensures FinishingIn(run[j], p, r)
  {
    hide Enabled, Apply, FinishingIn;
    forall s, s' | FinishingIn(s, p, r) && Next(g, s, s') ensures FinishingIn(s', p, r) {
      var step :| Enabled(g, s, step) && s' == Apply(g, s, step);
      StepStaysFinishing(g, s, step, p, r);
    }
    Runs.Onward(InitSys(g), Steps(g), s => FinishingIn(s, p, r), run, i, j);
  }

  /** Members that are still in round `r` starve the next round of Val quorums. */
  lemma StarvedRound(g: Config, s: Sys, stuck: set<NodeId>, r: nat, q: NodeId)
    requires Inv(g, s)
    requires stuck <= s.procs.Keys <= g.c.Members() && |stuck| >= g.c.info.quorumSize - g.c.info.f
    requires forall p :: p in stuck ==> s.procs[p].node.round == r
    requires q in s.procs && Shaped(s.procs[q]) && r + 1 <= s.procs[q].node.round
    ensures RoundAt(s.procs[q].node, r + 1).phase.CollectingVal?
  {
    hide Inv, Value, Evidence, Said, Backers;
    var rd := RoundAt(s.procs[q].node, r + 1);
    var k := ForVal(Value(rd));
    ValueQuorum(g, s, q, r + 1);
    NoLateVotes(g, s, stuck, r, rd, k);
    DisjointSize(Votes(rd.votes, k), stuck, g.c.Members());
  }

  /** A round past CollectingVal has counted exactly 2f + 1 votes for its value. */
  lemma ValueQuorum(g: Config, s: Sys, q: NodeId, r: nat)
    requires Inv(g, s) && q in s.procs && Shaped(s.procs[q]) && r <= s.procs[q].node.round
    ensures var rd := RoundAt(s.procs[q].node, r);
      && Evidence(g.c, s.sent, r, rd)
      && (!rd.phase.CollectingVal? ==> Count(rd, ForVal(Value(rd))) == 2 * g.c.info.f + 1)
    ensures g.c.N() == g.c.info.quorumSize + g.c.info.f
  {
    RoundFacts(g, s, q, r);
    hide Left;
  }

  lemma NoLateVotes(g: Config, s: Sys, stuck: set<NodeId>, r: nat, rd: Round, k: Ballot)
    requires Inv(g, s) && Evidence(g.c, s.sent, r + 1, rd) && stuck <= s.procs.Keys
    requires forall p :: p in stuck ==> s.procs[p].node.round == r
    ensures Votes(rd.votes, k) <= g.c.Members() && Votes(rd.votes, k) !! stuck
  {
    assert Votes(rd.votes, k) <= Backers(g.c, s.sent, r + 1, k);
    hide Inv;
    forall p | p in Votes(rd.votes, k) ensures p !in stuck {
      if p in stuck { SaidFacts(g, s, p, r + 1, k); }
    }
  }

  /** Once n - 2f correct members finish in round r (f + 1 of 3f + 1), no correct member ever leaves
      CollectingVal of round r + 1, and those members never send a message of a later round. */
  lemma Blocking(g: Config, run: seq<Sys>, i: nat, j: nat, finishing: set<NodeId>, r: nat, q: NodeId)
    requires IsRun(g, run) && i <= j < |run|
    requires finishing <= run[i].procs.Keys && |finishing| >= g.c.info.quorumSize - g.c.info.f
    requires forall p :: p in finishing ==> FinishingIn(run[i], p, r)
    requires q in run[j].procs
    ensures var n := run[j].procs[q].node; n.round <= r + 1 && (n.round == r + 1 ==> n.current.phase.CollectingVal?)
    ensures forall p, e :: p in finishing && e in run[j].sent && e.from == p ==> e.msg.round <= r
  {
    RunInv(g, run, j);
    forall p | p in finishing
      ensures p in run[j].procs && run[j].procs[p].node.round == r
    {
      FinishingForever(g, run, i, j, p, r);
    }
    forall p, e | p in finishing && e in run[j].sent && e.from == p ensures e.msg.round <= r {
      SaidFacts(g, run[j], p, e.msg.round, BallotOf(e.msg.body));
    }
    assert ProcInv(g, run[j].sent, q, run[j].procs[q]);
    if r + 1 <= run[j].procs[q].node.round {
      StarvedRound(g, run[j], finishing, r, q);
      RoundFacts(g, run[j], q, r + 1);
    }
  }

  // ---------- Finish messages ----------

  lemma EstimateIsRegistered(g: Config, s: Sys, p: NodeId)
    requires Inv(g, s) && p in s.procs && s.procs[p].node.current.phase.Finishing?
    ensures s.procs[p].node.current.estimate in s.procs[p].node.current.broadcastFinish
  {
    assert ProcInv(g, s.sent, p, s.procs[p]);
    hide Clean, Bounded, Decisions, AllLeft, Steady;
  }

  /** The only value a correct member ever registers to finish with is its own estimate. */
  lemma FinishesEstimate(g: Config, s: Sys, p: NodeId)
    requires StrongInv(g, s) && g.c.Intersecting() && p in s.procs && s.procs[p].node.current.phase.Finishing?
    ensures s.procs[p].node.current.broadcastFinish == {s.procs[p].node.current.estimate}
  {
    var n := s.procs[p].node;
    EstimateIsRegistered(g, s, p);
    hide StrongInv, Inv, Confirmed;
    forall b | b in n.current.broadcastFinish ensures b == n.current.estimate {
      FinishIsConfirmed(g, s, p, b);
      FinishIsConfirmed(g, s, p, n.current.estimate);
      OnlyConfirmed(g, s, n.round, b, n.current.estimate);
    }
  }

  /** A correct member decides only on its own estimate. */
  lemma DecidesEstimate(g: Config, s: Sys, p: NodeId, r: nat, v: bool)
    requires StrongInv(g, s) && g.c.Intersecting() && HasDecided(s, p, r, v)
    ensures v == s.procs[p].node.current.estimate
  {
    DecisionIsBacked(g, s, p, r, v);
    var estimate := s.procs[p].node.current.estimate;
    EstimateIsRegistered(g, s, p);
    var q := BackedByCorrect(g, s, r, ForFinish(v));
    SaidFacts(g, s, q, r, ForFinish(v));
    hide Inv, StrongInv, Confirmed;
    FinishIsConfirmed(g, s, q, v);
    FinishIsConfirmed(g, s, p, estimate);
    OnlyConfirmed(g, s, r, v, estimate);
  }

  /** A correct member broadcasts Finish exactly once, for its estimate, in the round where it
      finishes, and never otherwise; and it decides only on its estimate. */
  lemma FinishDiscipline(g: Config, run: seq<Sys>, i: nat, p: NodeId)
    requires IsRun(g, run) && g.c.Intersecting() && i < |run| && p in run[i].procs
    ensures var n := run[i].procs[p].node;
      && (forall r: nat, b :: run[i].sent[Stored(p, Message(r, Finish(b)))]
            == if n.current.phase.Finishing? && r == n.round && b == n.current.estimate then 1 else 0)
      && (forall r, v :: HasDecided(run[i], p, r, v) ==> v == n.current.estimate)
  {
    var s := run[i];
    RunStrongInv(g, run, i);
    var n := s.procs[p].node;
    assert ProcInv(g, s.sent, p, s.procs[p]);
    if n.current.phase.Finishing? { FinishesEstimate(g, s, p); }
    assert FinishOnce(s.sent, p, s.procs[p]) && Clean(n.current);
    hide StrongInv, Inv, ProcInv, LocalInv, IsRun, HasDecided;
    forall r, v | HasDecided(s, p, r, v) ensures v == n.current.estimate {
      DecidesEstimate(g, s, p, r, v);
    }
  }

  lemma FinishIsConfirmed(g: Config, s: Sys, p: NodeId, b: bool)
    requires StrongInv(g, s) && p in s.procs && b in s.procs[p].node.current.broadcastFinish
    ensures Confirmed(g, s.sent, s.procs[p].node.round, b)
  {
  }

  /** The f + 1 amplification of Finish never fires: a member that is finishing broadcasts no
      further Finish, whatever it receives or polls. */
  lemma NoAmplification(g: Config, run: seq<Sys>, i: nat, p: NodeId, input: Input)
    requires IsRun(g, run) && g.c.Intersecting() && i < |run|
    requires Enabled(g, run[i], Handle(p, input)) && run[i].procs[p].node.current.phase.Finishing?
    ensures var m := Emitted(run[i].procs[p], input); m.Some? ==> !m.value.body.Finish?
  {
    var s := run[i];
    RunStrongInv(g, run, i);
    var s' := Apply(g, s, Handle(p, input));
    StepKeepsStrongInv(g, s, Handle(p, input));
    FinishingStays(s.procs[p], input);
    FinishesEstimate(g, s, p);
    FinishesEstimate(g, s', p);
    assert ProcInv(g, s.sent, p, s.procs[p]) && ProcInv(g, s'.sent, p, s'.procs[p]);
    assert FinishOnce(s.sent, p, s.procs[p]) && FinishOnce(s'.sent, p, s'.procs[p]);
    hide Inv, ProcInv, Take, Emitted, Possible, FinishesConfirmed, Repeats;
    var m := Emitted(s.procs[p], input);
    if m.Some? {
      var msg := m.value;
      assert s'.sent[Stored(p, msg)] == s.sent[Stored(p, msg)] + 1;
      assert msg == Message(msg.round, msg.body);
    }
  }
}
