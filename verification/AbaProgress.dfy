/** Progress of a round at quiescence (n >= 3f + 1): when all correct members entered it with the
    same estimate and everything they sent each other in it has been delivered and, where its
    phase allows, processed, every correct member finishes or has left the round. */
module AbaProgress {
  import opened Quorums
  import opened AbaMessages
  import opened AbaRound
  import opened AbaPending
  import opened AbaNode
  import opened AbaSystem
  import opened AbaQuorums
  import opened AbaSafety
  import Runs
  import opened AbaValidity

  /** A delivered message is for an older round, buffered, or counted. */
  ghost predicate Accounted(n: Node, e: Stored) {
    || e.msg.round < n.round
    || e in StackAt(n.pending, e.msg.round)
    || (e.msg.round == n.round && Counted(n.current, e.from, BallotOf(e.msg.body)))
  }

  lemma CountedStays(rd: Round, rd': Round, sender: NodeId, k: Ballot, x: NodeId, k': Ballot)
    requires Advances(rd, rd') && Tallies(rd, sender, k, rd') && Counted(rd, x, k')
    ensures Counted(rd', x, k')
  {
  }

  /** Acting on the round's verdict keeps accounted what is counted by it, buffered, or queued. */
  lemma ReactAccounts(n: Node, e: Stored, v: Verdict, x: Stored)
    requires n.pending.base <= n.round == e.msg.round
    requires Accounted(n, x) || (x == e && v.Queue?)
    ensures Accounted(React(n, e, v).node, x)
  {
    AddStacks(n.pending, n.round, e);
    hide StackAt, Add, Counted;
  }

  lemma AcceptAccounts(n: Node, e: Stored, coin: Coin, x: Stored)
    requires e.msg.round == n.round && (Accounted(n, x) || x == e)
    ensures var (rd, v) := Accept(n.current, e.from, BallotOf(e.msg.body), coin);
      Accounted(n.(current := rd), x) || (x == e && v.Queue?)
  {
    var (rd, v) := Accept(n.current, e.from, BallotOf(e.msg.body), coin);
    AcceptAdvances(n.current, e.from, BallotOf(e.msg.body), coin);
    hide Accept, StackAt;
    if x.msg.round == n.round && Counted(n.current, x.from, BallotOf(x.msg.body)) {
      CountedStays(n.current, rd, e.from, BallotOf(e.msg.body), x.from, BallotOf(x.msg.body));
    }
    hide Counted;
  }

  /** Processing a message accounts for it and keeps every other message accounted for. */
  lemma ProcessAccounts(n: Node, e: Stored, coin: Coin, x: Stored)
    requires n.pending.base <= n.round
    requires Accounted(n, x) || x == e
    ensures Accounted(Process(n, e, coin).node, x)
  {
    if e.msg.round == n.round {
      hide Accept, React, Accounted;
      var (rd, v) := Accept(n.current, e.from, BallotOf(e.msg.body), coin);
      AcceptAccounts(n, e, coin, x);
      ReactAccounts(n.(current := rd), e, v, x);
    } else if e.msg.round > n.round {
      AddStacks(n.pending, e.msg.round, e);
      hide Accept, StackAt, Add, Counted;
    }
  }

  lemma PolledAccounts(pr: Proc, x: Stored)
    requires CanPop(pr.node.pending, pr.node.round) && pr.node.pending.base <= pr.node.round
    requires Accounted(pr.node, x)
    ensures var (pr', e) := Polled(pr); Accounted(pr'.node, x) || e == Some(x)
  {
    PopStacks(pr.node.pending, pr.node.round);
    hide StackAt, Pop, Counted;
  }

  ghost predicate AllAccounted(pr: Proc) {
    forall x :: x in pr.received ==> Accounted(pr.node, x)
  }

  lemma TakeAccounts(pr: Proc, i: Input)
    requires LocalInv(pr) && Possible(pr, i) && AllAccounted(pr)
    ensures AllAccounted(Take(pr, i))
  {
    assert pr.node.pending.base <= pr.node.round;
    match i
    case Receive(e, coin) =>
      hide Process, Accounted, LocalInv;
      forall x | x in pr.received + {e} ensures Accounted(Take(pr, i).node, x) {
        ProcessAccounts(pr.node, e, coin, x);
      }
    case PollNext(coin) =>
      var (pr1, e) := Polled(pr);
      PopKeepsLocal(pr);
      assert pr1.node.pending.base <= pr1.node.round;
      hide Process, Accounted, LocalInv, Pop;
      forall x | x in pr.received ensures Accounted(Take(pr, i).node, x) {
        PolledAccounts(pr, x);
        if e.Some? { ProcessAccounts(pr1.node, e.value, coin, x); }
      }
  }

  ghost predicate SysAccounted(s: Sys) {
    forall p :: p in s.procs ==> AllAccounted(s.procs[p])
  }

  lemma StepAccounts(g: Config, s: Sys, step: Step)
    requires Inv(g, s) && SysAccounted(s) && Enabled(g, s, step)
    ensures SysAccounted(Apply(g, s, step))
  {
    if step.Handle? {
      assert ProcInv(g, s.sent, step.p, s.procs[step.p]);
      TakeAccounts(s.procs[step.p], step.input);
      hide Take, Emitted, Inv, ProcInv, AllAccounted;
    }
  }

  lemma InitAccounts(g: Config)
    requires g.Valid()
    ensures SysAccounted(InitSys(g))
  {
  }

  /** In every run, no message delivered to a correct member is lost before its round is left. */
  lemma RunAccounts(g: Config, run: seq<Sys>, i: nat)
    requires IsRun(g, run) && i < |run|
    ensures SysAccounted(run[i])
  {
    InitInv(g);
    InitAccounts(g);
    hide Inv, Enabled, Apply, SysAccounted, InitSys;
    forall s, s' | Inv(g, s) && SysAccounted(s) && Next(g, s, s') ensures Inv(g, s') && SysAccounted(s') {
      var step :| Enabled(g, s, step) && s' == Apply(g, s, step);
      StepKeepsInv(g, s, step);
      StepAccounts(g, s, step);
    }
    Runs.Onward(InitSys(g), Steps(g), s => Inv(g, s) && SysAccounted(s), run, 0, i);
  }

  /** Everything correct members sent each other in round `r` is delivered, and no correct member
      still in the round buffers a message that its phase would accept. */
  ghost predicate Quiescent(g: Config, s: Sys, r: nat) {
    && (forall p, e :: p in s.procs && e in s.sent && e.from in g.c.Correct() && e.msg.round == r ==>
          e in s.procs[p].received)
    && (forall p, e :: p in s.procs && s.procs[p].node.round == r && e in StackAt(s.procs[p].node.pending, r) ==>
          BallotRank(BallotOf(e.msg.body)) != PhaseRank(s.procs[p].node.current.phase))
  }

  /** Every correct member entered round `r` with estimate `v` and sent Val for it. */
  ghost predicate Unanimous(s: Sys, r: nat, v: bool) {
    forall p :: p in s.procs ==>
      r < |s.procs[p].entered| && s.procs[p].entered[r] == v && Said(s.sent, p, r, ForVal(v))
  }

  ghost predicate AllSaid(s: Sys, r: nat, k: Ballot) {
    forall q :: q in s.procs ==> Said(s.sent, q, r, k)
  }

  /** In a quiescent round a correct member's ballot has been counted by every member in its phase. */
  lemma SaidIsCounted(g: Config, s: Sys, p: NodeId, r: nat, k: Ballot, q: NodeId)
    requires Inv(g, s) && SysAccounted(s) && Quiescent(g, s, r) && q in g.c.Correct() && Said(s.sent, q, r, k)
    requires p in s.procs && s.procs[p].node.round == r
    requires BallotRank(k) == PhaseRank(s.procs[p].node.current.phase)
    ensures q in Votes(s.procs[p].node.current.votes, k)
  {
    var e :| e in s.sent && e.from == q && e.msg.round == r && BallotOf(e.msg.body) == k;
    hide Inv;
    assert e in s.procs[p].received;
    assert AllAccounted(s.procs[p]);
    assert Accounted(s.procs[p].node, e);
  }

  /** A ballot that all correct members cast in a quiescent round has been counted by a member in
      its phase more than 2f times. */
  lemma AllCounted(g: Config, s: Sys, p: NodeId, r: nat, k: Ballot)
    requires Inv(g, s) && SysAccounted(s) && Quiescent(g, s, r) && AllSaid(s, r, k)
    requires p in s.procs && s.procs[p].node.round == r
    requires BallotRank(k) == PhaseRank(s.procs[p].node.current.phase)
    ensures Count(s.procs[p].node.current, k) > 2 * g.c.info.f
  {
    assert g.c.Valid() && s.procs.Keys == g.c.Correct();
    hide Inv, SysAccounted, Quiescent, Said, Votes;
    forall q | q in g.c.Correct() ensures q in Votes(s.procs[p].node.current.votes, k) {
      SaidIsCounted(g, s, p, r, k, q);
    }
    CorrectMajority(g.c);
    SubsetSize(g.c.Correct(), Votes(s.procs[p].node.current.votes, k));
  }

  /** A phase in which everyone's decisive ballot is counted is over. */
  lemma PhaseOver(g: Config, s: Sys, p: NodeId, r: nat, k: Ballot)
    requires Inv(g, s) && SysAccounted(s) && Quiescent(g, s, r) && AllSaid(s, r, k)
    requires p in s.procs && s.procs[p].node.round == r
    ensures !Decisive(s.procs[p].node.current, k)
  {
    assert ProcInv(g, s.sent, p, s.procs[p]);
    assert Steady(s.procs[p], r);
    if Decisive(s.procs[p].node.current, k) {
      AllCounted(g, s, p, r, k);
      assert false;
    }
  }

  /** The member has passed phase `rank` of round `r`. */
  ghost predicate Passed(s: Sys, p: NodeId, r: nat, rank: nat) {
    && p in s.procs && Shaped(s.procs[p]) && r <= s.procs[p].node.round
    && PhaseRank(RoundAt(s.procs[p].node, r).phase) >= if r < s.procs[p].node.round then 2 else rank
  }

  /** Once past CollectingVal, a unanimous round's value is the common estimate, and its Aux and
      later its Conf for that value have been sent. */
  lemma UnanimousValue(g: Config, s: Sys, p: NodeId, r: nat, v: bool)
    requires StrongInv(g, s) && Unanimous(s, r, v) && Passed(s, p, r, 1)
    ensures Shaped(s.procs[p]) && r <= s.procs[p].node.round
    ensures RoundAt(s.procs[p].node, r).valuesR == {v}
    ensures Said(s.sent, p, r, ForAux([v]))
    ensures PhaseRank(RoundAt(s.procs[p].node, r).phase) >= 2 ==> Said(s.sent, p, r, ForConf([v]))
  {
    RoundFacts(g, s, p, r);
    ValueIsEntry(g, s, p, r);
    assert ProcInv(g, s.sent, p, s.procs[p]);
    assert Owes(s.sent, p, r, RoundAt(s.procs[p].node, r));
  }

  /** A member passes each phase whose decisive ballot everyone has cast. */
  lemma PassesOn(g: Config, s: Sys, r: nat, k: Ballot, p: NodeId)
    requires Inv(g, s) && SysAccounted(s) && Quiescent(g, s, r) && AllSaid(s, r, k)
    requires BallotRank(k) < 3 && Passed(s, p, r, BallotRank(k))
    requires k.ForAux? || k.ForConf? ==> Covers(RoundAt(s.procs[p].node, r).valuesR, k.vs)
    ensures Passed(s, p, r, BallotRank(k) + 1)
  {
    hide Inv, SysAccounted, Quiescent, AllSaid;
    if r == s.procs[p].node.round {
      PhaseOver(g, s, p, r, k);
    }
  }

  lemma Begun(g: Config, s: Sys, r: nat, v: bool, p: NodeId)
    requires StrongInv(g, s) && Unanimous(s, r, v) && p in s.procs
    ensures Passed(s, p, r, 0)
  {
    RoundIsEntered(g, s, p);
    RoundFacts(g, s, p, r);
    hide Inv, Said;
  }

  lemma RoundIsEntered(g: Config, s: Sys, p: NodeId)
    requires Inv(g, s) && p in s.procs
    ensures Shaped(s.procs[p])
  {
    assert ProcInv(g, s.sent, p, s.procs[p]);
  }

  /** Round progress: at quiescence of a unanimous round every correct member is finishing in it
      or has left it. */
  lemma RoundProgress(g: Config, run: seq<Sys>, i: nat, r: nat, v: bool, p: NodeId)
    requires IsRun(g, run) && i < |run| && p in run[i].procs
    requires Unanimous(run[i], r, v) && Quiescent(g, run[i], r)
    ensures var n := run[i].procs[p].node; n.round > r || (n.round == r && n.current.phase.Finishing?)
  {
    RunStrongInv(g, run, i);
    RunAccounts(g, run, i);
    hide IsRun, SysAccounted, Quiescent, StrongInv, Unanimous;
    StateProgress(g, run[i], r, v, p);
  }

  lemma AllSayAux(g: Config, s: Sys, r: nat, v: bool)
    requires StrongInv(g, s) && SysAccounted(s) && Unanimous(s, r, v) && Quiescent(g, s, r)
    ensures AllSaid(s, r, ForAux([v]))
    ensures forall q :: q in s.procs ==> Passed(s, q, r, 1) && RoundAt(s.procs[q].node, r).valuesR == {v}
  {
    assert Inv(g, s) && AllSaid(s, r, ForVal(v));
    hide Inv, StrongInv, SysAccounted, Quiescent, Unanimous, AllSaid, Passed;
    forall q | q in s.procs
      ensures Passed(s, q, r, 1) && Shaped(s.procs[q]) && r <= s.procs[q].node.round
      ensures RoundAt(s.procs[q].node, r).valuesR == {v} && Said(s.sent, q, r, ForAux([v]))
    {
      Begun(g, s, r, v, q);
      PassesOn(g, s, r, ForVal(v), q);
      UnanimousValue(g, s, q, r, v);
    }
    SaidByAll(s, r, ForAux([v]));
  }

  lemma SaidByAll(s: Sys, r: nat, k: Ballot)
    requires forall q :: q in s.procs ==> Said(s.sent, q, r, k)
    ensures AllSaid(s, r, k)
  {
  }

  lemma AllSayConf(g: Config, s: Sys, r: nat, v: bool)
    requires StrongInv(g, s) && SysAccounted(s) && Unanimous(s, r, v) && Quiescent(g, s, r)
    ensures AllSaid(s, r, ForConf([v]))
    ensures forall q :: q in s.procs ==> Passed(s, q, r, 2) && RoundAt(s.procs[q].node, r).valuesR == {v}
  {
    AllSayAux(g, s, r, v);
    assert Inv(g, s);
    hide Inv, StrongInv, SysAccounted, Quiescent, Unanimous, AllSaid, Said;
    assert Covers({v}, [v]);
    forall q | q in s.procs ensures Passed(s, q, r, 2) && Said(s.sent, q, r, ForConf([v])) {
      PassesOn(g, s, r, ForAux([v]), q);
      UnanimousValue(g, s, q, r, v);
    }
    SaidByAll(s, r, ForConf([v]));
  }

  lemma PassedAll(s: Sys, p: NodeId, r: nat)
    requires Passed(s, p, r, 3)
    ensures var n := s.procs[p].node; n.round > r || (n.round == r && n.current.phase.Finishing?)
  {
  }

  lemma StateProgress(g: Config, s: Sys, r: nat, v: bool, p: NodeId)
    requires StrongInv(g, s) && SysAccounted(s) && Unanimous(s, r, v) && Quiescent(g, s, r) && p in s.procs
    ensures var n := s.procs[p].node; n.round > r || (n.round == r && n.current.phase.Finishing?)
  {
    AllSayConf(g, s, r, v);
    assert Inv(g, s);
    hide Inv, StrongInv, SysAccounted, Quiescent, Unanimous, AllSaid, Said;
    assert Covers({v}, [v]) && Passed(s, p, r, 2);
    PassesOn(g, s, r, ForConf([v]), p);
    hide Passed;
    PassedAll(s, p, r);
  }

  // ---------- From finishing to a decision ----------

  /** A finishing member's estimate is confirmed in its round, and it has sent Finish for it. */
  lemma FinishIsSent(g: Config, s: Sys, p: NodeId, r: nat)
    requires StrongInv(g, s) && g.c.Intersecting() && FinishingIn(s, p, r)
    ensures var v := s.procs[p].node.current.estimate; Confirmed(g, s.sent, r, v) && Said(s.sent, p, r, ForFinish(v))
  {
    var v := s.procs[p].node.current.estimate;
    FinishesEstimate(g, s, p);
    FinishIsConfirmed(g, s, p, v);
    assert ProcInv(g, s.sent, p, s.procs[p]);
    assert FinishOnce(s.sent, p, s.procs[p]);
    hide Inv, ProcInv, LocalInv;
    assert s.sent[Stored(p, Message(r, Finish(v)))] == 1;
  }

  /** Members finishing in one round have all sent Finish for one value. */
  lemma FinishTogether(g: Config, s: Sys, r: nat) returns (v: bool)
    requires StrongInv(g, s) && g.c.Intersecting() && forall p :: p in s.procs ==> FinishingIn(s, p, r)
    ensures AllSaid(s, r, ForFinish(v))
  {
    hide StrongInv, FinishingIn, Said, Confirmed;
    var p := SomeMember(g, s);
    v := s.procs[p].node.current.estimate;
    FinishIsSent(g, s, p, r);
    forall q | q in s.procs ensures Said(s.sent, q, r, ForFinish(v)) {
      FinishIsSent(g, s, q, r);
      OnlyConfirmed(g, s, r, s.procs[q].node.current.estimate, v);
    }
  }

  lemma SomeMember(g: Config, s: Sys) returns (p: NodeId)
    requires StrongInv(g, s)
    ensures p in s.procs
  {
    CorrectMajority(g.c);
    assert g.c.Correct() != {};
    p :| p in s.procs;
  }

  /** When every correct member is finishing in a quiescent round, all of them have decided, all on
      the same value. */
  lemma AllDecide(g: Config, run: seq<Sys>, i: nat, r: nat) returns (v: bool)
    requires IsRun(g, run) && g.c.Intersecting() && i < |run| && Quiescent(g, run[i], r)
    requires forall p :: p in run[i].procs ==> FinishingIn(run[i], p, r)
    ensures forall p :: p in run[i].procs ==> HasDecided(run[i], p, r, v)
  {
    RunStrongInv(g, run, i);
    RunAccounts(g, run, i);
    hide IsRun, SysAccounted, Quiescent, StrongInv, FinishingIn, HasDecided, AllSaid;
    v := FinishTogether(g, run[i], r);
    forall p | p in run[i].procs ensures HasDecided(run[i], p, r, v) {
      CountedDecides(g, run[i], p, r, v);
    }
  }

  lemma CountedDecides(g: Config, s: Sys, p: NodeId, r: nat, v: bool)
    requires StrongInv(g, s) && SysAccounted(s) && Quiescent(g, s, r) && AllSaid(s, r, ForFinish(v))
    requires FinishingIn(s, p, r)
    ensures HasDecided(s, p, r, v)
  {
    assert ProcInv(g, s.sent, p, s.procs[p]);
    assert Decisions(s.procs[p]) && s.procs[p].node.quorum == g.c.info;
    assert Inv(g, s);
    hide Inv, StrongInv, ProcInv, LocalInv, SysAccounted, Quiescent, AllSaid, Count;
    AllCounted(g, s, p, r, ForFinish(v));
  }

  // ---------- Repeated Vals carry an accepted value to everyone ----------

  /** The member is past CollectingVal of round `r`, with accepted value `v`. */
  ghost predicate PastVal(s: Sys, p: NodeId, r: nat, v: bool) {
    && p in s.procs && Shaped(s.procs[p]) && r <= s.procs[p].node.round
    && !RoundAt(s.procs[p].node, r).phase.CollectingVal? && Value(RoundAt(s.procs[p].node, r)) == v
  }

  /** The member is still collecting Vals of round `r`. */
  ghost predicate InVal(s: Sys, p: NodeId, r: nat) {
    p in s.procs && s.procs[p].node.round == r && s.procs[p].node.current.phase.CollectingVal?
  }

  /** Of the voters for an accepted value more than f are correct. */
  lemma CorrectVoters(g: Config, s: Sys, p: NodeId, r: nat, v: bool) returns (voters: set<NodeId>)
    requires Inv(g, s) && PastVal(s, p, r, v)
    ensures |voters| > g.c.info.f && voters <= g.c.Correct()
    ensures forall q :: q in voters ==> Said(s.sent, q, r, ForVal(v))
  {
    ValueQuorum(g, s, p, r);
    var all := Votes(RoundAt(s.procs[p].node, r).votes, ForVal(v));
    assert all <= Backers(g.c, s.sent, r, ForVal(v)) && g.c.Valid();
    hide Inv, Evidence, Said, Votes;
    voters := all - g.c.faulty;
    assert all == voters + (all * g.c.faulty);
    SubsetSize(all * g.c.faulty, g.c.faulty);
  }

  lemma AcceptedIsHeard(g: Config, s: Sys, p: NodeId, q: NodeId, r: nat, v: bool)
    requires Inv(g, s) && SysAccounted(s) && Quiescent(g, s, r) && PastVal(s, p, r, v) && InVal(s, q, r)
    ensures Count(s.procs[q].node.current, ForVal(v)) > g.c.info.f
  {
    hide Inv, SysAccounted, Quiescent, Said, PastVal, Votes;
    var voters := CorrectVoters(g, s, p, r, v);
    forall x | x in voters ensures x in Votes(s.procs[q].node.current.votes, ForVal(v)) {
      SaidIsCounted(g, s, q, r, ForVal(v), x);
    }
    SubsetSize(voters, Votes(s.procs[q].node.current.votes, ForVal(v)));
  }

  /** A member that counted a value more than f times has sent Val for it. */
  lemma HeardIsRepeated(g: Config, s: Sys, q: NodeId, r: nat, v: bool)
    requires Inv(g, s) && InVal(s, q, r) && Count(s.procs[q].node.current, ForVal(v)) > g.c.info.f
    ensures Said(s.sent, q, r, ForVal(v)) && g.c.info.f > 0
  {
    RoundFacts(g, s, q, r);
    assert ProcInv(g, s.sent, q, s.procs[q]);
    assert Owes(s.sent, q, r, RoundAt(s.procs[q].node, r));
    assert Decisive(s.procs[q].node.current, ForVal(v)) && Bounded(s.procs[q].node.current);
    hide Inv, ProcInv, LocalInv, Evidence, Said, Left;
  }

  /** So has one that accepted it, if f > 0. */
  lemma AcceptedIsRepeated(g: Config, s: Sys, p: NodeId, r: nat, v: bool)
    requires Inv(g, s) && PastVal(s, p, r, v) && g.c.info.f > 0
    ensures Said(s.sent, p, r, ForVal(v))
  {
    RoundFacts(g, s, p, r);
    assert ProcInv(g, s.sent, p, s.procs[p]);
    assert Owes(s.sent, p, r, RoundAt(s.procs[p].node, r));
    hide Inv, ProcInv, LocalInv, Evidence, Said, Left;
  }

  /** Once a correct member has accepted a value in a quiescent round, every correct member still
      collecting Vals of the round has sent Val for that value. */
  lemma ValSpreads(g: Config, run: seq<Sys>, i: nat, r: nat, p: NodeId, q: NodeId, v: bool)
    requires IsRun(g, run) && i < |run| && Quiescent(g, run[i], r)
    requires PastVal(run[i], p, r, v) && InVal(run[i], q, r)
    ensures Said(run[i].sent, q, r, ForVal(v))
  {
    RunInv(g, run, i);
    RunAccounts(g, run, i);
    hide IsRun, Inv, SysAccounted, Quiescent, Said, PastVal, InVal;
    AcceptedIsHeard(g, run[i], p, q, r, v);
    HeardIsRepeated(g, run[i], q, r, v);
  }

  /** If in a quiescent round that all correct members have reached some have accepted `v`, and none
      another value, then all have accepted `v`. */
  lemma ValTotality(g: Config, run: seq<Sys>, i: nat, r: nat, p: NodeId, v: bool)
    requires IsRun(g, run) && i < |run| && Quiescent(g, run[i], r) && PastVal(run[i], p, r, v)
    requires forall q :: q in run[i].procs ==> InVal(run[i], q, r) || PastVal(run[i], q, r, v)
    ensures forall q :: q in run[i].procs ==> PastVal(run[i], q, r, v)
  {
    var s := run[i];
    RunInv(g, run, i);
    RunAccounts(g, run, i);
    hide IsRun, Inv, SysAccounted, Quiescent, Said, PastVal;
    forall q | q in s.procs ensures PastVal(s, q, r, v) {
      if InVal(s, q, r) {
        forall x | x in s.procs ensures Said(s.sent, x, r, ForVal(v)) {
          AcceptedIsHeard(g, s, p, q, r, v);
          HeardIsRepeated(g, s, q, r, v);
          RepeatedByAll(g, s, p, x, r, v);
        }
        SaidByAll(s, r, ForVal(v));
        StillDecisive(g, s, q, r, v);
      }
    }
  }

  lemma RepeatedByAll(g: Config, s: Sys, p: NodeId, x: NodeId, r: nat, v: bool)
    requires Inv(g, s) && SysAccounted(s) && Quiescent(g, s, r) && PastVal(s, p, r, v) && g.c.info.f > 0
    requires InVal(s, x, r) || PastVal(s, x, r, v)
    ensures Said(s.sent, x, r, ForVal(v))
  {
    hide Inv, SysAccounted, Quiescent, Said, PastVal, InVal;
    if InVal(s, x, r) {
      AcceptedIsHeard(g, s, p, x, r, v);
      HeardIsRepeated(g, s, x, r, v);
    } else {
      AcceptedIsRepeated(g, s, x, r, v);
    }
  }

  lemma StillDecisive(g: Config, s: Sys, q: NodeId, r: nat, v: bool)
    requires Inv(g, s) && SysAccounted(s) && Quiescent(g, s, r) && AllSaid(s, r, ForVal(v)) && q in s.procs
    ensures !InVal(s, q, r)
  {
    if InVal(s, q, r) {
      hide Inv, SysAccounted, Quiescent, AllSaid;
      PhaseOver(g, s, q, r, ForVal(v));
    }
  }
}
