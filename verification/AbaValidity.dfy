/** Validity of the binary agreement in every round (n >= 3f + 1): whatever a correct member
    enters a round with, says or decides descends from a correct member's input. */
module AbaValidity {
  import opened Quorums
  import opened AbaMessages
  import opened AbaRound
  import opened AbaNode
  import opened AbaSystem
  import opened AbaQuorums
  import opened AbaSafety

  /** `b` is the input bit of some correct member. */
  ghost predicate IsInput(g: Config, b: bool) {
    exists p :: p in g.c.Correct() && p in g.inputs && g.inputs[p] == b
  }

  /** The bits a ballot votes for. */
  predicate Carries(k: Ballot, b: bool) {
    match k
    case ForVal(v) => v == b
    case ForAux(vs) => b in vs
    case ForConf(vs) => b in vs
    case ForFinish(v) => v == b
  }

  /** A correct member's accepted value is the entry estimate of some correct member. */
  lemma ValueIsEntry(g: Config, s: Sys, p: NodeId, r: nat)
    requires StrongInv(g, s) && p in s.procs && Shaped(s.procs[p]) && r <= s.procs[p].node.round
    requires PhaseRank(RoundAt(s.procs[p].node, r).phase) >= 1
    ensures Entry(s, r, Value(RoundAt(s.procs[p].node, r)))
  {
    var q := ValueWasVoted(g, s, p, r);
  }

  lemma ConfirmedIsEntry(g: Config, s: Sys, r: nat, v: bool)
    requires StrongInv(g, s) && Confirmed(g, s.sent, r, v)
    ensures Entry(s, r, v)
  {
    var q := BackedByCorrect(g, s, r, ForConf([v]));
    SaidFacts(g, s, q, r, ForConf([v]));
    ValueIsEntry(g, s, q, r);
    assert [v][0] == Value(RoundAt(s.procs[q].node, r));
  }

  /** Whatever a correct member says in a round is the entry estimate of some correct member. */
  lemma SaidIsEntry(g: Config, s: Sys, p: NodeId, r: nat, k: Ballot, b: bool)
    requires StrongInv(g, s) && p in s.procs && Said(s.sent, p, r, k) && Carries(k, b)
    ensures Entry(s, r, b)
    ensures k.ForAux? ==> k.vs == [b]
    ensures k.ForConf? ==> k.vs == [b]
  {
    SaidFacts(g, s, p, r, k);
    match k
    case ForVal(_) =>
    case ForAux(_) => ValueIsEntry(g, s, p, r);
    case ForConf(_) => ValueIsEntry(g, s, p, r);
    case ForFinish(_) => ConfirmedIsEntry(g, s, r, b);
  }

  /** Every entry estimate of a later round was one of the round before. */
  lemma EntryDescends(g: Config, s: Sys, r: nat, b: bool)
    requires StrongInv(g, s) && Entry(s, r + 1, b)
    ensures Entry(s, r, b)
  {
    var p :| p in s.procs && r + 1 < |s.procs[p].entered| && s.procs[p].entered[r + 1] == b;
    assert ProcInv(g, s.sent, p, s.procs[p]);
    assert Shaped(s.procs[p]);
    RoundFacts(g, s, p, r);
    LeavesWithConfirmed(g, s, p, r);
    ValueIsEntry(g, s, p, r);
  }

  lemma {:induction false} EntryIsInput(g: Config, s: Sys, r: nat, b: bool)
    requires StrongInv(g, s) && Entry(s, r, b)
    ensures IsInput(g, b)
  {
    if r == 0 {
      var p :| p in s.procs && r < |s.procs[p].entered| && s.procs[p].entered[r] == b;
      assert ProcInv(g, s.sent, p, s.procs[p]);
    } else {
      EntryDescends(g, s, r - 1, b);
      EntryIsInput(g, s, r - 1, b);
    }
  }

  /** Validity: in every round, every entry estimate, Val, Aux, Conf, Finish and decision of a
      correct member is the input bit of some correct member. */
  lemma Validity(g: Config, run: seq<Sys>, i: nat, p: NodeId)
    requires IsRun(g, run) && i < |run| && p in run[i].procs
    ensures forall r :: 0 <= r < |run[i].procs[p].entered| ==> IsInput(g, run[i].procs[p].entered[r])
    ensures IsInput(g, run[i].procs[p].node.current.estimate)
    ensures forall r, k, b :: Said(run[i].sent, p, r, k) && Carries(k, b) ==> IsInput(g, b)
    ensures forall r, v :: HasDecided(run[i], p, r, v) ==> IsInput(g, v)
  {
    var s := run[i];
    RunStrongInv(g, run, i);
    hide Inv, Repeats, FinishesConfirmed, Said, IsRun;
    forall r | 0 <= r < |s.procs[p].entered| ensures IsInput(g, s.procs[p].entered[r]) {
      EntryIsInput(g, s, r, s.procs[p].entered[r]);
    }
    EstimateIsEntry(g, s, p);
    EntryIsInput(g, s, s.procs[p].node.round, s.procs[p].node.current.estimate);
    forall r, k, b | Said(s.sent, p, r, k) && Carries(k, b) ensures IsInput(g, b) {
      SaidIsEntry(g, s, p, r, k, b);
      EntryIsInput(g, s, r, b);
    }
    forall r, v | HasDecided(s, p, r, v) ensures IsInput(g, v) {
      DecisionIsEntry(g, s, p, r, v);
      EntryIsInput(g, s, r, v);
    }
  }

  lemma EstimateIsEntry(g: Config, s: Sys, p: NodeId)
    requires StrongInv(g, s) && p in s.procs
    ensures Entry(s, s.procs[p].node.round, s.procs[p].node.current.estimate)
  {
    StartRepeats(g, s, p);
  }

  lemma DecisionIsEntry(g: Config, s: Sys, p: NodeId, r: nat, v: bool)
    requires StrongInv(g, s) && HasDecided(s, p, r, v)
    ensures Entry(s, r, v)
  {
    DecisionIsBacked(g, s, p, r, v);
    var q := BackedByCorrect(g, s, r, ForFinish(v));
    SaidIsEntry(g, s, q, r, ForFinish(v), v);
  }

  /** The coin is only ever flipped over a winning set of one value: the branch for several
      values is never taken by a correct member in a system. */
  lemma WinningSetIsSingle(g: Config, run: seq<Sys>, i: nat, p: NodeId, e: Stored)
    requires IsRun(g, run) && i < |run| && p in run[i].procs && e in run[i].sent
    requires e.msg.round == run[i].procs[p].node.round
    requires Flips(run[i].procs[p].node.current, e.from, BallotOf(e.msg.body))
    ensures e.msg.body.feasible == [Value(run[i].procs[p].node.current)]
  {
    RunInv(g, run, i);
    assert Said(run[i].sent, e.from, e.msg.round, BallotOf(e.msg.body));
    hide IsRun;
    SingleWinner(g, run[i], p, e.from, BallotOf(e.msg.body));
  }

  lemma SingleWinner(g: Config, s: Sys, p: NodeId, sender: NodeId, k: Ballot)
    requires Inv(g, s) && p in s.procs && Said(s.sent, sender, s.procs[p].node.round, k)
    requires sender in g.c.Members() && Flips(s.procs[p].node.current, sender, k)
    ensures k.vs == [Value(s.procs[p].node.current)]
  {
    RoundFacts(g, s, p, s.procs[p].node.round);
    var rd := s.procs[p].node.current;
    var voters := Votes(rd.votes, k) + {sender};
    assert voters <= Backers(g.c, s.sent, s.procs[p].node.round, k);
    assert |voters| == Count(rd, k) + 1;
    var q := CorrectWitness(g.c, voters);
    SaidFacts(g, s, q, s.procs[p].node.round, k);
    assert k.vs[0] in k.vs;
  }
}
