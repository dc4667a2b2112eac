/** What the binary agreement's guarantees need. `QuorumInfo::new` admits every n >= 3f + 1; here every
    committee whose quorums may miss each other is led into two different decisions, with one
    genuine coin for all members in each round, so that agreement holds exactly for intersecting
    committees. And one forged share of a faulty member is shown to break the value lock. */
module AbaBoundary {
  import opened Quorums
  import opened AbaMessages
  import opened AbaRound
  import opened AbaNode
  import opened AbaSystem
  import opened AbaQuorums
  import opened AbaSafety
  import opened AbaLock
  import Runs

  ghost predicate Reachable(g: Config, s: Sys) {
    g.Valid() && Runs.Reachable(InitSys(g), Steps(g), s)
  }

  lemma Extend(g: Config, s: Sys, step: Step)
    requires Reachable(g, s) && Enabled(g, s, step)
    ensures Reachable(g, Apply(g, s, step))
  {
    hide Enabled, Apply;
    assert Next(g, s, Apply(g, s, step));
    Runs.Extend(InitSys(g), Steps(g), s, Apply(g, s, step));
  }

  lemma RunTo(g: Config, s: Sys) returns (run: seq<Sys>)
    requires Reachable(g, s)
    ensures IsRun(g, run) && |run| > 0 && run[|run| - 1] == s
  {
    run :| Runs.IsPath(InitSys(g), Steps(g), run) && run[|run| - 1] == s;
  }

  // ---------- One camp: members that hear only each other and the faulty ----------

  /** The ballot for one bit that phase `j` counts. */
  function BallotFor(j: nat, b: bool): Ballot {
    match j
    case 0 => ForVal(b)
    case 1 => ForAux([b])
    case 2 => ForConf([b])
    case _ => ForFinish(b)
  }

  /** The same as member `id` says it in round `r`, with its genuine share. */
  function BodyFor(id: NodeId, r: nat, j: nat, b: bool): (body: Body)
    ensures BallotOf(body) == BallotFor(j, b)
  {
    match j
    case 0 => Val(b)
    case 1 => Aux([b])
    case 2 => Conf([b], Signed(id, r))
    case _ => Finish(b)
  }

  /** The round is in phase `j`, has only seen `b`, and has counted these voters for it. */
  ghost predicate Holds(rd: Round, f: nat, j: nat, b: bool, voters: set<NodeId>) {
    && rd.f == f && PhaseRank(rd.phase) == j
    && rd.valuesR == (if j == 0 then {} else {b})
    && rd.broadcastFinish == (if j < 3 then {} else {b})
    && Votes(rd.votes, BallotFor(j, b)) == voters
    && forall i :: j < i <= 3 ==> Votes(rd.votes, BallotFor(i, b)) == {}
  }

  ghost predicate At(c: Committee, pr: Proc, r: nat, j: nat, b: bool, voters: set<NodeId>) {
    pr.node.round == r && Holds(pr.node.current, c.info.f, j, b, voters)
  }

  /** The member is in round `r` with estimate `b`. */
  ghost predicate Enters(pr: Proc, r: nat, b: bool) {
    pr.node.round == r && pr.node.current.estimate == b
  }

  /** The member is past phase `j` of round `r`: it has decided, has left the round because the coin
      was the other bit, or has sent the ballot for the next phase. */
  ghost predicate Past(g: Config, s: Sys, p: NodeId, r: nat, j: nat, b: bool)
    requires g.common.Some?
  {
    && p in s.procs
    && if j == 3 then HasDecided(s, p, r, b)
       else if j == 2 && g.common.value(r) != b then At(g.c, s.procs[p], r + 1, 0, b, {}) && Enters(s.procs[p], r + 1, b)
       else At(g.c, s.procs[p], r, j + 1, b, {}) && Said(s.sent, p, r, BallotFor(j + 1, b))
  }

  function Hears(e: Stored, bit: bool): Input {
    Receive(e, Combined(bit))
  }

  lemma VoteIsRecorded(rd: Round, f: nat, j: nat, b: bool, voters: set<NodeId>, sender: NodeId, coin: Coin)
    requires j <= 3 && Holds(rd, f, j, b, voters) && sender !in voters
    ensures var k := BallotFor(j, b); var rd1 := Record(rd, sender, k);
      && Accept(rd, sender, k, coin) == Decide(rd1, k, coin)
      && Holds(rd1, f, j, b, voters + {sender}) && rd1.estimate == rd.estimate
  {
    var k := BallotFor(j, b);
    RecordCounts(rd, sender, k);
    assert forall i :: j < i <= 3 ==> BallotFor(i, b) != k;
    hide Decide, Record, Votes;
  }

  lemma EarlyDecision(rd: Round, f: nat, j: nat, b: bool, voters: set<NodeId>, coin: Coin)
    requires j <= 3 && Holds(rd, f, j, b, voters) && |voters| <= 2 * f
    ensures var (rd', v) := Decide(rd, BallotFor(j, b), coin);
      Holds(rd', f, j, b, voters) && (v == Accepted || v == BroadcastEst(b))
  {
  }

  /** What a quorum of votes makes the round do. */
  lemma QuorumDecision(rd: Round, f: nat, j: nat, b: bool, voters: set<NodeId>, bit: bool)
    requires j <= 3 && Holds(rd, f, j, b, voters) && |voters| == 2 * f + 1
    ensures var (rd', v) := Decide(rd, BallotFor(j, b), Combined(bit));
      if j == 3 then v == Finalized(b)
      else if j == 2 && bit != b then v == Failed(b)
      else Holds(rd', f, j + 1, b, {}) &&
           v == (if j == 0 then BroadcastAux([b]) else if j == 1 then BroadcastConf([b]) else BroadcastFinalized(b))
  {
    assert {} + {b} == {b};
  }

  /** A vote in the current round that neither abandons the round nor is queued. */
  lemma TakeVote(pr: Proc, e: Stored, bit: bool, rd: Round, v: Verdict)
    requires e.msg.round == pr.node.round
    requires Accept(pr.node.current, e.from, BallotOf(e.msg.body), Combined(bit)) == (rd, v)
    requires !v.Failed? && !v.Queue?
    ensures Take(pr, Hears(e, bit)).node == pr.node.(current := rd)
    ensures Emitted(pr, Hears(e, bit)) == Announcement(pr.node, v)
    ensures v.Finalized? ==> (pr.node.round, v.b) in Take(pr, Hears(e, bit)).decided
  {
    hide Accept, Flips, BallotOf;
  }

  /** A vote that abandons the round. */
  lemma TakeFailure(pr: Proc, e: Stored, coin: Coin, rd: Round, next: bool)
    requires e.msg.round == pr.node.round
    requires Accept(pr.node.current, e.from, BallotOf(e.msg.body), coin) == (rd, Failed(next))
    ensures var pr' := Take(pr, Receive(e, coin));
      && pr'.node.round == pr.node.round + 1 && pr'.node.current == NewRound(pr.node.quorum.f, next)
      && pr'.entered == pr.entered + [next]
      && pr'.flips == pr.flips + (if Flips(pr.node.current, e.from, BallotOf(e.msg.body)) then [(pr.node.round, coin)] else [])
      && e in pr'.received
  {
    hide Accept, Flips, BallotOf;
  }

  lemma OneMoreVote(c: Committee, pr: Proc, r: nat, j: nat, b: bool, voters: set<NodeId>, e: Stored, bit: bool)
    requires j <= 3 && At(c, pr, r, j, b, voters) && |voters| < 2 * c.info.f && e.from !in voters
    requires e.msg.round == r && BallotOf(e.msg.body) == BallotFor(j, b)
    ensures At(c, Take(pr, Hears(e, bit)), r, j, b, voters + {e.from})
  {
    hide Accept, Record, Decide, Take, Holds, BallotFor, BallotOf;
    var k := BallotFor(j, b);
    VoteIsRecorded(pr.node.current, c.info.f, j, b, voters, e.from, Combined(bit));
    EarlyDecision(Record(pr.node.current, e.from, k), c.info.f, j, b, voters + {e.from}, Combined(bit));
    var (rd, v) := Accept(pr.node.current, e.from, k, Combined(bit));
    TakeVote(pr, e, bit, rd, v);
  }

  lemma LastVote(c: Committee, pr: Proc, r: nat, j: nat, b: bool, voters: set<NodeId>, e: Stored, bit: bool)
    requires j <= 3 && At(c, pr, r, j, b, voters) && |voters| == 2 * c.info.f && e.from !in voters
    requires e.msg.round == r && BallotOf(e.msg.body) == BallotFor(j, b) && !(j == 2 && bit != b)
    ensures var pr' := Take(pr, Hears(e, bit));
      var m := Emitted(pr, Hears(e, bit));
      if j < 3 then At(c, pr', r, j + 1, b, {}) && m.Some? && m.value.round == r && BallotOf(m.value.body) == BallotFor(j + 1, b)
      else (r, b) in pr'.decided
  {
    hide Accept, Record, Decide, Take, Emitted, Holds;
    var k := BallotFor(j, b);
    VoteIsRecorded(pr.node.current, c.info.f, j, b, voters, e.from, Combined(bit));
    QuorumDecision(Record(pr.node.current, e.from, k), c.info.f, j, b, voters + {e.from}, bit);
    var (rd, v) := Accept(pr.node.current, e.from, k, Combined(bit));
    TakeVote(pr, e, bit, rd, v);
  }

  lemma NewRoundHolds(f: nat, b: bool, estimate: bool)
    ensures Holds(NewRound(f, estimate), f, 0, b, {})
  {
  }

  /** A quorum of Conf with the other bit as the coin: on to the next round with the same estimate. */
  lemma LostFlip(c: Committee, pr: Proc, r: nat, b: bool, voters: set<NodeId>, e: Stored, bit: bool)
    requires At(c, pr, r, 2, b, voters) && |voters| == 2 * c.info.f && e.from !in voters && pr.node.quorum == c.info
    requires e.msg.round == r && BallotOf(e.msg.body) == BallotFor(2, b) && bit != b
    ensures var pr' := Take(pr, Hears(e, bit)); At(c, pr', r + 1, 0, b, {}) && Enters(pr', r + 1, b)
  {
    hide Accept, Record, Decide, Take, Holds, BallotOf, Flips;
    VoteIsRecorded(pr.node.current, c.info.f, 2, b, voters, e.from, Combined(bit));
    QuorumDecision(Record(pr.node.current, e.from, BallotFor(2, b)), c.info.f, 2, b, voters + {e.from}, bit);
    TakeFailure(pr, e, Combined(bit), Accept(pr.node.current, e.from, BallotFor(2, b), Combined(bit)).0, b);
    NewRoundHolds(c.info.f, b, b);
  }

  // ---------- Scheduling a camp ----------

  /** Every one of these members has sent the ballot for `b` that phase `j` of round `r` counts. */
  ghost predicate AllSaid(s: Sys, ids: set<NodeId>, r: nat, j: nat, b: bool) {
    forall id :: id in ids ==> Said(s.sent, id, r, BallotFor(j, b))
  }

  /** Only these members have moved, and nothing sent is forgotten. */
  ghost predicate OnlyMoved(s: Sys, s': Sys, ids: set<NodeId>) {
    && s'.procs.Keys == s.procs.Keys && s.sent <= s'.sent
    && forall q :: q in s.procs && q !in ids ==> s'.procs[q] == s.procs[q]
  }

  lemma AllSaidGrows(s: Sys, s': Sys, ids: set<NodeId>, r: nat, j: nat, b: bool)
    requires AllSaid(s, ids, r, j, b) && s.sent <= s'.sent
    ensures AllSaid(s', ids, r, j, b)
  {
    forall id | id in ids ensures Said(s'.sent, id, r, BallotFor(j, b)) {
      SaidGrows(s.sent, s'.sent, id, r, BallotFor(j, b));
    }
  }

  /** Member `p` hears `e`. */
  function Heard(s: Sys, p: NodeId, e: Stored, coin: Coin): Sys
    requires p in s.procs
  {
    Sys(s.procs[p := Take(s.procs[p], Receive(e, coin))], s.sent + Broadcast(p, Emitted(s.procs[p], Receive(e, coin))))
  }

  lemma Hear(g: Config, s: Sys, p: NodeId, e: Stored, coin: Coin)
    requires Reachable(g, s) && p in s.procs && p in g.c.Correct() && e in s.sent
    requires g.Yields(s.procs[p].node.round, coin)
    ensures Reachable(g, Heard(s, p, e, coin)) && OnlyMoved(s, Heard(s, p, e, coin), {p})
    ensures Heard(s, p, e, coin).procs[p] == Take(s.procs[p], Receive(e, coin))
  {
    hide Take, Emitted, Reachable;
    Extend(g, s, Handle(p, Receive(e, coin)));
  }

  lemma ReachableInv(g: Config, s: Sys)
    requires Reachable(g, s)
    ensures StrongInv(g, s)
  {
    hide StrongInv, IsRun;
    var run := RunTo(g, s);
    RunStrongInv(g, run, |run| - 1);
  }

  lemma KeepsQuorum(g: Config, s: Sys, p: NodeId)
    requires Reachable(g, s) && p in s.procs
    ensures s.procs[p].node.quorum == g.c.info
  {
    ReachableInv(g, s);
    assert ProcInv(g, s.sent, p, s.procs[p]);
  }

  lemma HearLast(g: Config, s: Sys, p: NodeId, r: nat, j: nat, b: bool, heard: set<NodeId>, e: Stored)
    requires g.common.Some? && p in s.procs && j <= 3 && At(g.c, s.procs[p], r, j, b, heard)
    requires s.procs[p].node.quorum == g.c.info && |heard| == 2 * g.c.info.f && e.from !in heard
    requires e.msg.round == r && BallotOf(e.msg.body) == BallotFor(j, b)
    ensures Past(g, Heard(s, p, e, Combined(g.common.value(r))), p, r, j, b)
  {
    hide Take, Emitted, At, BallotOf, BallotFor;
    var bit := g.common.value(r);
    if j == 2 && bit != b {
      LostFlip(g.c, s.procs[p], r, b, heard, e, bit);
    } else {
      LastVote(g.c, s.procs[p], r, j, b, heard, e, bit);
      if j < 3 {
        assert Stored(p, Emitted(s.procs[p], Hears(e, bit)).value) in Heard(s, p, e, Combined(bit)).sent;
      }
    }
  }

  lemma HeardBy(s: Sys, id: NodeId, r: nat, j: nat, b: bool) returns (e: Stored)
    requires Said(s.sent, id, r, BallotFor(j, b))
    ensures e in s.sent && e.from == id && e.msg.round == r && BallotOf(e.msg.body) == BallotFor(j, b)
  {
    e :| e in s.sent && e.from == id && e.msg.round == r && BallotOf(e.msg.body) == BallotFor(j, b);
  }

  /** One member hears one more voter, not enough to end the phase. */
  lemma HearOne(g: Config, s: Sys, p: NodeId, r: nat, j: nat, b: bool, heard: set<NodeId>, id: NodeId) returns (s': Sys)
    requires g.common.Some? && Reachable(g, s) && p in s.procs && p in g.c.Correct() && j <= 3
    requires At(g.c, s.procs[p], r, j, b, heard) && id !in heard && |heard| < 2 * g.c.info.f
    requires Said(s.sent, id, r, BallotFor(j, b))
    ensures Reachable(g, s') && OnlyMoved(s, s', {p}) && At(g.c, s'.procs[p], r, j, b, heard + {id})
  {
    assert s.procs[p].node.round == r;
    hide Take, Emitted, At, Reachable, Said, BallotOf, BallotFor, Heard;
    var e := HeardBy(s, id, r, j, b);
    var coin := Combined(g.common.value(r));
    Hear(g, s, p, e, coin);
    s' := Heard(s, p, e, coin);
    OneMoreVote(g.c, s.procs[p], r, j, b, heard, e, coin.bit);
  }

  /** One member hears these voters, too few in all to end the phase. */
  lemma {:induction false} HearSome(g: Config, s: Sys, p: NodeId, r: nat, j: nat, b: bool, heard: set<NodeId>, more: set<NodeId>)
    returns (s': Sys)
    requires g.common.Some? && Reachable(g, s) && p in s.procs && p in g.c.Correct() && j <= 3
    requires At(g.c, s.procs[p], r, j, b, heard) && heard !! more && |heard| + |more| <= 2 * g.c.info.f
    requires AllSaid(s, more, r, j, b)
    ensures Reachable(g, s') && OnlyMoved(s, s', {p}) && At(g.c, s'.procs[p], r, j, b, heard + more)
    decreases more
  {
    hide At, Reachable, Said, BallotFor;
    if more == {} {
      s' := s;
      assert heard + more == heard;
    } else {
      var id :| id in more;
      var rest := more - {id};
      OneByOne(heard, more, id);
      var s1 := HearOne(g, s, p, r, j, b, heard, id);
      AllSaidGrows(s, s1, rest, r, j, b);
      hide AllSaid, OnlyMoved;
      s' := HearSome(g, s1, p, r, j, b, heard + {id}, rest);
      MovedAgain(s, s1, s', {p});
    }
  }

  lemma OneByOne<T>(heard: set<T>, more: set<T>, id: T)
    requires heard !! more && id in more
    ensures var rest := more - {id};
      && heard + {id} !! rest && id !in heard && |heard + {id}| == |heard| + 1 && |rest| == |more| - 1
      && heard + {id} + rest == heard + more
  {
    assert more == more - {id} + {id};
  }

  lemma MovedAgain(s: Sys, s': Sys, s'': Sys, ids: set<NodeId>)
    requires OnlyMoved(s, s', ids) && OnlyMoved(s', s'', ids)
    ensures OnlyMoved(s, s'', ids)
  {
  }

  /** One member hears a quorum. */
  lemma HearQuorum(g: Config, s: Sys, p: NodeId, r: nat, j: nat, b: bool, quorum: set<NodeId>) returns (s': Sys)
    requires g.common.Some? && Reachable(g, s) && p in s.procs && p in g.c.Correct() && j <= 3
    requires At(g.c, s.procs[p], r, j, b, {}) && |quorum| == 2 * g.c.info.f + 1 && AllSaid(s, quorum, r, j, b)
    ensures Reachable(g, s') && OnlyMoved(s, s', {p}) && Past(g, s', p, r, j, b)
  {
    hide Holds, Past, Reachable, Said, BallotOf, BallotFor, Heard;
    assert quorum != {};
    var id :| id in quorum;
    var heard := quorum - {id};
    var s1 := HearSome(g, s, p, r, j, b, {}, heard);
    assert {} + heard == heard;
    AllSaidGrows(s, s1, quorum, r, j, b);
    var e := HeardBy(s1, id, r, j, b);
    Hear(g, s1, p, e, Combined(g.common.value(r)));
    KeepsQuorum(g, s1, p);
    HearLast(g, s1, p, r, j, b, heard, e);
    s' := Heard(s1, p, e, Combined(g.common.value(r)));
  }

  /** The members of a camp, one after another, hear a quorum for phase `j`. */
  lemma {:induction false} CampAdvances(g: Config, s: Sys, r: nat, j: nat, b: bool, quorum: set<NodeId>, todo: set<NodeId>)
    returns (s': Sys)
    requires g.common.Some? && Reachable(g, s) && todo <= g.c.Correct() && todo <= s.procs.Keys && j <= 3
    requires |quorum| == 2 * g.c.info.f + 1 && AllSaid(s, quorum, r, j, b)
    requires forall p :: p in todo ==> At(g.c, s.procs[p], r, j, b, {})
    ensures Reachable(g, s') && OnlyMoved(s, s', todo)
    ensures forall p :: p in todo ==> Past(g, s', p, r, j, b)
    decreases todo
  {
    hide At, Past, Reachable, Said;
    if todo == {} {
      s' := s;
    } else {
      var p :| p in todo;
      var s1 := HearQuorum(g, s, p, r, j, b, quorum);
      AllSaidGrows(s, s1, quorum, r, j, b);
      s' := CampAdvances(g, s1, r, j, b, quorum, todo - {p});
      PastStays(g, s1, s', p, r, j, b);
    }
  }

  lemma PastStays(g: Config, s: Sys, s': Sys, p: NodeId, r: nat, j: nat, b: bool)
    requires g.common.Some? && Past(g, s, p, r, j, b) && p in s'.procs && s'.procs[p] == s.procs[p] && s.sent <= s'.sent
    ensures Past(g, s', p, r, j, b)
  {
    if Said(s.sent, p, r, BallotFor(j + 1, b)) { SaidGrows(s.sent, s'.sent, p, r, BallotFor(j + 1, b)); }
  }

  /** The faulty members have sent every ballot of round `r` for both bits. */
  ghost predicate Noise(s: Sys, faulty: set<NodeId>, r: nat) {
    forall j: nat, b :: j <= 3 ==> AllSaid(s, faulty, r, j, b)
  }

  lemma NoiseGrows(s: Sys, s': Sys, faulty: set<NodeId>, r: nat)
    requires Noise(s, faulty, r) && s.sent <= s'.sent
    ensures Noise(s', faulty, r)
  {
    forall j: nat, b | j <= 3 ensures AllSaid(s', faulty, r, j, b) {
      assert AllSaid(s, faulty, r, j, b);
      AllSaidGrows(s, s', faulty, r, j, b);
    }
  }

  /** A camp that makes a quorum with the faulty takes itself, and whoever listens, past a phase. */
  lemma PhasePasses(g: Config, s: Sys, r: nat, j: nat, b: bool, camp: set<NodeId>, listeners: set<NodeId>) returns (s': Sys)
    requires g.common.Some? && Reachable(g, s) && listeners <= g.c.Correct() && listeners <= s.procs.Keys && j <= 3
    requires |camp + g.c.faulty| == 2 * g.c.info.f + 1 && Noise(s, g.c.faulty, r) && AllSaid(s, camp, r, j, b)
    requires forall p :: p in listeners ==> At(g.c, s.procs[p], r, j, b, {})
    ensures Reachable(g, s') && OnlyMoved(s, s', listeners) && Noise(s', g.c.faulty, r)
    ensures forall p :: p in listeners ==> Past(g, s', p, r, j, b)
  {
    hide At, Past, Reachable, Said;
    assert AllSaid(s, g.c.faulty, r, j, b);
    s' := CampAdvances(g, s, r, j, b, camp + g.c.faulty, listeners);
    NoiseGrows(s, s', g.c.faulty, r);
  }

  /** The first two phases, after which the listeners are collecting Conf. */
  lemma ReachConf(g: Config, s: Sys, r: nat, b: bool, camp: set<NodeId>, listeners: set<NodeId>) returns (s': Sys)
    requires g.common.Some? && Reachable(g, s) && camp <= listeners <= g.c.Correct() && listeners <= s.procs.Keys
    requires |camp + g.c.faulty| == 2 * g.c.info.f + 1 && Noise(s, g.c.faulty, r) && AllSaid(s, camp, r, 0, b)
    requires forall p :: p in listeners ==> At(g.c, s.procs[p], r, 0, b, {})
    ensures Reachable(g, s') && OnlyMoved(s, s', listeners) && Noise(s', g.c.faulty, r) && AllSaid(s', camp, r, 2, b)
    ensures forall p :: p in listeners ==> At(g.c, s'.procs[p], r, 2, b, {})
  {
    hide At, Reachable, Said, Noise;
    var s1 := PhasePasses(g, s, r, 0, b, camp, listeners);
    assert forall p :: p in listeners ==> Past(g, s1, p, r, 0, b);
    s' := PhasePasses(g, s1, r, 1, b, camp, listeners);
    assert forall p :: p in listeners ==> Past(g, s', p, r, 1, b);
  }

  // ---------- Setting the scene ----------

  lemma {:induction false} InjectAll(g: Config, s: Sys, todo: set<Stored>) returns (s': Sys)
    requires Reachable(g, s) && forall e :: e in todo ==> e.from in g.c.faulty
    ensures Reachable(g, s') && s'.procs == s.procs && s.sent <= s'.sent && forall e :: e in todo ==> e in s'.sent
    decreases todo
  {
    hide Reachable;
    if todo == {} {
      s' := s;
    } else {
      var e :| e in todo;
      Extend(g, s, Inject(e));
      s' := InjectAll(g, Apply(g, s, Inject(e)), todo - {e});
    }
  }

  function Ballots(faulty: set<NodeId>, r: nat): set<Stored> {
    set id, j, b | id in faulty && j in {0, 1, 2, 3} && b in {true, false} :: Stored(id, Message(r, BodyFor(id, r, j, b)))
  }

  lemma MakeNoise(g: Config, s: Sys, r: nat) returns (s': Sys)
    requires Reachable(g, s)
    ensures Reachable(g, s') && s'.procs == s.procs && s.sent <= s'.sent && Noise(s', g.c.faulty, r)
  {
    hide Reachable;
    s' := InjectAll(g, s, Ballots(g.c.faulty, r));
    forall j: nat, b, id | j <= 3 && id in g.c.faulty ensures Said(s'.sent, id, r, BallotFor(j, b)) {
      assert Stored(id, Message(r, BodyFor(id, r, j, b))) in Ballots(g.c.faulty, r);
    }
  }

  /** The members of a camp broadcast Val of their common estimate. */
  lemma {:induction false} StartAll(g: Config, s: Sys, r: nat, b: bool, todo: set<NodeId>) returns (s': Sys)
    requires Reachable(g, s) && todo <= g.c.Correct() && todo <= s.procs.Keys
    requires forall p :: p in todo ==> Enters(s.procs[p], r, b)
    ensures Reachable(g, s') && s'.procs == s.procs && s.sent <= s'.sent && AllSaid(s', todo, r, 0, b)
    decreases todo
  {
    hide Reachable;
    if todo == {} {
      s' := s;
    } else {
      var p :| p in todo;
      Extend(g, s, Start(p));
      var s1 := Apply(g, s, Start(p));
      assert Stored(p, Message(r, Val(b))) in s1.sent;
      s' := StartAll(g, s1, r, b, todo - {p});
      SaidGrows(s1.sent, s'.sent, p, r, BallotFor(0, b));
    }
  }

  /** The camp enters round `r` with `b`, having heard nothing there. */
  ghost predicate Ready(c: Committee, s: Sys, r: nat, b: bool, camp: set<NodeId>) {
    forall p :: p in camp ==> p in s.procs && At(c, s.procs[p], r, 0, b, {}) && Enters(s.procs[p], r, b)
  }

  /** A round of a camp: it decides if the round's coin is its bit, and otherwise goes on to the next
      round with the same bit. */
  lemma CampRound(g: Config, s: Sys, r: nat, b: bool, camp: set<NodeId>) returns (s': Sys)
    requires g.common.Some? && Reachable(g, s) && camp <= g.c.Correct() && Ready(g.c, s, r, b, camp)
    requires |camp + g.c.faulty| == 2 * g.c.info.f + 1
    ensures Reachable(g, s') && OnlyMoved(s, s', camp)
    ensures if g.common.value(r) == b then forall p :: p in camp ==> HasDecided(s', p, r, b) else Ready(g.c, s', r + 1, b, camp)
  {
    hide At, Enters, Reachable, Said, Noise, AllSaid, HasDecided;
    var s0 := MakeNoise(g, s, r);
    var s1 := StartAll(g, s0, r, b, camp);
    NoiseGrows(s0, s1, g.c.faulty, r);
    var s2 := ReachConf(g, s1, r, b, camp, camp);
    s' := PhasePasses(g, s2, r, 2, b, camp, camp);
    assert forall p :: p in camp ==> Past(g, s', p, r, 2, b);
    if g.common.value(r) == b {
      var s3 := s';
      SaidByCamp(s3, camp, r, 3, b);
      s' := PhasePasses(g, s3, r, 3, b, camp, camp);
      assert forall p :: p in camp ==> Past(g, s', p, r, 3, b);
    }
  }

  lemma SaidByCamp(s: Sys, camp: set<NodeId>, r: nat, j: nat, b: bool)
    requires forall p :: p in camp ==> Said(s.sent, p, r, BallotFor(j, b))
    ensures AllSaid(s, camp, r, j, b)
  {
  }

  /** A camp decides in the first round whose coin is its bit. */
  lemma {:induction false} CampDecides(g: Config, s: Sys, r: nat, b: bool, camp: set<NodeId>, until: nat)
    returns (s': Sys, d: nat)
    requires g.common.Some? && Reachable(g, s) && camp <= g.c.Correct() && Ready(g.c, s, r, b, camp)
    requires |camp + g.c.faulty| == 2 * g.c.info.f + 1 && r <= until && g.common.value(until) == b
    ensures Reachable(g, s') && OnlyMoved(s, s', camp) && d <= until
    ensures forall p :: p in camp ==> HasDecided(s', p, d, b)
    decreases until - r
  {
    hide Reachable, Ready, HasDecided;
    s' := CampRound(g, s, r, b, camp);
    d := r;
    if g.common.value(r) != b {
      s', d := CampDecides(g, s', r + 1, b, camp, until);
    }
  }

  /** Two disjoint camps of correct members, each making a quorum with the faulty. */
  lemma TwoCamps(c: Committee) returns (yes: set<NodeId>, no: set<NodeId>)
    requires c.Valid() && !c.Intersecting()
    ensures yes <= c.Correct() && no <= c.Correct() && yes !! no && yes != {} && no != {}
    ensures |yes + c.faulty| == 2 * c.info.f + 1 == |no + c.faulty|
  {
    var k := 2 * c.info.f + 1 - |c.faulty|;
    assert c.Members() == c.Correct() + c.faulty;
    yes := Subset(c.Correct(), k);
    no := Subset(c.Correct() - yes, k);
    assert |yes| > 0 && |no| > 0;
  }

  /** These members have input true, all others false. */
  lemma Opening(c: Committee, yes: set<NodeId>, reliable: bool, coin: nat -> bool) returns (g: Config, s: Sys)
    requires c.Valid()
    ensures g == Config(c, map id | id in c.Correct() :: id in yes, reliable, Some(coin))
    ensures Reachable(g, s) && s.procs.Keys == c.Correct()
    ensures forall id, b :: id in c.Correct() ==> At(c, s.procs[id], 0, 0, b, {})
    ensures forall id :: id in c.Correct() ==> Enters(s.procs[id], 0, id in yes)
  {
    g := Config(c, map id | id in c.Correct() :: id in yes, reliable, Some(coin));
    s := InitSys(g);
    Runs.Begin(s, Steps(g));
  }

  // ---------- The exact condition for agreement ----------

  /** Whatever the inputs, the schedule, the faulty members and the coins do, correct members
      finalize at most one value, in at most one round. */
  ghost predicate Agrees(c: Committee) {
    forall g: Config, run, i: nat, j: nat, p, q, r: nat, v, r': nat, w ::
      g.c == c && IsRun(g, run) && i <= j < |run| && HasDecided(run[i], p, r, v) && HasDecided(run[j], q, r', w) ==>
        r == r' && v == w
  }

  /** The same when combining never fails and this is the common coin of each round. */
  ghost predicate AgreesOn(c: Committee, coin: nat -> bool) {
    forall g: Config, run, i: nat, j: nat, p, q, r: nat, v, r': nat, w ::
      g.c == c && g.reliable && g.common == Some(coin) && IsRun(g, run) && i <= j < |run|
      && HasDecided(run[i], p, r, v) && HasDecided(run[j], q, r', w) ==>
        r == r' && v == w
  }

  lemma CampsReady(c: Committee, s: Sys, yes: set<NodeId>, no: set<NodeId>)
    requires yes <= c.Correct() == s.procs.Keys && no <= c.Correct() && yes !! no
    requires forall id, b :: id in c.Correct() ==> At(c, s.procs[id], 0, 0, b, {})
    requires forall id :: id in c.Correct() ==> Enters(s.procs[id], 0, id in yes)
    ensures Ready(c, s, 0, true, yes) && Ready(c, s, 0, false, no)
  {
    hide At;
    assert forall id :: id in no ==> id !in yes;
  }

  lemma CampUndisturbed(c: Committee, s: Sys, s': Sys, r: nat, b: bool, camp: set<NodeId>, moved: set<NodeId>)
    requires OnlyMoved(s, s', moved) && camp !! moved
    ensures Ready(c, s, r, b, camp) ==> Ready(c, s', r, b, camp)
    ensures (forall p :: p in camp ==> HasDecided(s, p, r, b)) ==> forall p :: p in camp ==> HasDecided(s', p, r, b)
  {
    hide At, Enters;
  }

  /** A run in which two correct members of a committee that is too large decide differently: nothing
      but a common coin that is true in some round and false in some other, and it never fails. */
  lemma Disagreement(c: Committee, coin: nat -> bool, heads: nat, tails: nat)
    returns (g: Config, run: seq<Sys>, p: NodeId, q: NodeId, r: nat, r': nat)
    requires c.Valid() && !c.Intersecting() && coin(heads) && !coin(tails)
    ensures g.c == c && g.reliable && g.common == Some(coin) && IsRun(g, run) && |run| > 0
    ensures HasDecided(run[|run| - 1], p, r, true) && HasDecided(run[|run| - 1], q, r', false)
  {
    var yes, no := TwoCamps(c);
    var s0, s1, s2;
    g, s0 := Opening(c, yes, true, coin);
    CampsReady(c, s0, yes, no);
    hide At, Enters, Reachable, IsRun, HasDecided, Ready, OnlyMoved;
    s1, r := CampDecides(g, s0, 0, true, yes, heads);
    CampUndisturbed(c, s0, s1, 0, false, no, yes);
    s2, r' := CampDecides(g, s1, 0, false, no, tails);
    CampUndisturbed(c, s1, s2, r, true, yes, no);
    p :| p in yes;
    q :| q in no;
    run := RunTo(g, s2);
  }

  /** Agreement under a common coin that takes both values holds over all runs exactly for the
      committees whose quorums intersect. */
  lemma CoinAgreementIff(c: Committee, coin: nat -> bool, heads: nat, tails: nat)
    requires c.Valid() && coin(heads) && !coin(tails)
    ensures AgreesOn(c, coin) <==> c.Intersecting()
  {
    hide IsRun, HasDecided;
    if c.Intersecting() {
      forall g: Config, run, i: nat, j: nat, p, q, r: nat, v, r': nat, w |
        g.c == c && IsRun(g, run) && i <= j < |run| && HasDecided(run[i], p, r, v) && HasDecided(run[j], q, r', w)
        ensures r == r' && v == w
      {
        Agreement(g, run, i, j, p, q, r, v, r', w);
      }
    } else {
      var g, run, p, q, r, r' := Disagreement(c, coin, heads, tails);
      assert !AgreesOn(c, coin);
    }
  }

  /** Agreement over all runs, whatever the coins, holds exactly for the same committees. */
  lemma AgreementIff(c: Committee)
    requires c.Valid()
    ensures Agrees(c) <==> c.Intersecting()
    ensures |c.faulty| == c.info.f ==> (Agrees(c) <==> c.N() == 3 * c.info.f + 1)
  {
    hide IsRun, HasDecided;
    IntendedSize(c);
    if c.Intersecting() {
      forall g: Config, run, i: nat, j: nat, p, q, r: nat, v, r': nat, w |
        g.c == c && IsRun(g, run) && i <= j < |run| && HasDecided(run[i], p, r, v) && HasDecided(run[j], q, r', w)
        ensures r == r' && v == w
      {
        Agreement(g, run, i, j, p, q, r, v, r', w);
      }
    } else {
      var coin := (r: nat) => r == 0;
      CoinAgreementIff(c, coin, 0, 1);
      assert Agrees(c) ==> AgreesOn(c, coin);
    }
  }

  // ---------- A forged share breaks the value lock ----------

  lemma FailedDecision(rd: Round, f: nat, b: bool, voters: set<NodeId>)
    requires Holds(rd, f, 2, b, voters) && |voters| == 2 * f + 1
    ensures Decide(rd, ForConf([b]), CombineFailed) == (rd, Failed(rd.estimate))
  {
  }

  /** The last vote for a winning set whose shares do not combine. */
  lemma FailedFlip(c: Committee, pr: Proc, r: nat, b: bool, heard: set<NodeId>, e: Stored)
    requires At(c, pr, r, 2, b, heard) && |heard| == 2 * c.info.f && e.from !in heard
    requires e.msg.round == r && BallotOf(e.msg.body) == ForConf([b])
    ensures var pr' := Take(pr, Receive(e, CombineFailed));
      && pr'.node.round == r + 1 && pr'.entered == pr.entered + [pr.node.current.estimate]
      && pr'.flips == pr.flips + [(r, CombineFailed)] && e in pr'.received
  {
    VoteIsRecorded(pr.node.current, c.info.f, 2, b, heard, e.from, CombineFailed);
    FailedDecision(Record(pr.node.current, e.from, ForConf([b])), c.info.f, b, heard + {e.from});
    assert Flips(pr.node.current, e.from, ForConf([b]));
    hide Accept, Record, Decide, Flips, Holds;
    TakeFailure(pr, e, CombineFailed, Accept(pr.node.current, e.from, ForConf([b]), CombineFailed).0, pr.node.current.estimate);
  }

  /** In round 0 before finishing, a correct member's estimate is its input. */
  lemma EstimateIsInput(g: Config, s: Sys, p: NodeId)
    requires Reachable(g, s) && p in s.procs && s.procs[p].node.round == 0 && s.procs[p].node.current.phase.CollectingConf?
    ensures p in g.inputs && s.procs[p].node.current.estimate == g.inputs[p]
    ensures s.procs[p].entered == [g.inputs[p]] && s.procs[p].flips == []
  {
    ReachableInv(g, s);
    assert ProcInv(g, s.sent, p, s.procs[p]);
    assert Steady(s.procs[p], 0);
    hide Inv, StrongInv, Live, AllLeft, Decisions, Reachable, Witnessed, Honest, Diligent, Buffered, FinishOnce;
  }

  /** One member, and a camp of others that makes a quorum with the faulty. */
  lemma OneAgainstCamp(c: Committee) returns (p: NodeId, camp: set<NodeId>)
    requires c.Valid() && c.info.f > 0
    ensures p in c.Correct() && camp <= c.Correct() && p !in camp && |camp + c.faulty| == 2 * c.info.f + 1
  {
    assert c.Members() == c.Correct() + c.faulty;
    assert |c.Correct()| > 0;
    p :| p in c.Correct();
    camp := Subset(c.Correct() - {p}, 2 * c.info.f + 1 - |c.faulty|);
  }

  /** A camp with input false and one member with input true, all collecting Conf for false. */
  lemma LoneDissenter(c: Committee, coin: nat -> bool) returns (g: Config, s: Sys, p: NodeId, camp: set<NodeId>)
    requires c.Valid() && c.info.f > 0
    ensures g.c == c && !g.reliable && g.common == Some(coin) && p in g.inputs && g.inputs[p]
    ensures p in c.Correct() && p in s.procs && camp <= c.Correct() && p !in camp && |camp + c.faulty| == 2 * c.info.f + 1
    ensures Reachable(g, s) && At(c, s.procs[p], 0, 2, false, {})
    ensures AllSaid(s, camp, 0, 2, false) && Noise(s, c.faulty, 0)
  {
    var s0;
    p, camp := OneAgainstCamp(c);
    g, s0 := Opening(c, {p}, false, coin);
    assert forall id :: id in camp ==> Enters(s0.procs[id], 0, false);
    hide At, Enters, Reachable, Noise, AllSaid;
    var s1 := MakeNoise(g, s0, 0);
    var s2 := StartAll(g, s1, 0, false, camp);
    NoiseGrows(s1, s2, c.faulty, 0);
    var listeners := camp + {p};
    assert camp <= listeners <= c.Correct();
    s := ReachConf(g, s2, 0, false, camp, listeners);
  }

  /** One faulty member's forged share makes a member's combination fail, for any common coin: the
      member enters round 1 with its own input while the other bit is confirmed in round 0, and
      the lock is lost. */
  lemma LockBreaks(c: Committee, coin: nat -> bool) returns (g: Config, run: seq<Sys>, p: NodeId)
    requires c.Valid() && c.faulty != {}
    ensures g.c == c && g.common == Some(coin) && IsRun(g, run) && |run| > 0
    ensures var s := run[|run| - 1];
      && p in s.procs && p in g.inputs && g.inputs[p] && s.procs[p].entered == [true, true]
      && FailedIn(s, p, 0) && Confirmed(g, s.sent, 0, false) && (c.Intersecting() ==> !HasLock(g, s, 0))
      && exists e :: e in s.procs[p].received && e.from in c.faulty && e.msg == Message(0, Conf([false], Forged(0)))
  {
    assert |c.faulty| > 0;
    var s, camp, liar;
    g, s, p, camp := LoneDissenter(c, coin);
    liar :| liar in c.faulty;
    var e := Stored(liar, Message(0, Conf([false], Forged(0))));
    var last := ForgedShare(g, s, p, camp, e);
    hide At, Reachable, IsRun, HasLock, LockedOn, FailedIn, Confirmed;
    run := RunTo(g, last);
    if c.Intersecting() { NoLock(g, last, p); }
  }

  lemma ForgedShare(g: Config, s: Sys, p: NodeId, camp: set<NodeId>, e: Stored) returns (last: Sys)
    requires g.common.Some? && !g.reliable && Reachable(g, s) && p in s.procs && p in g.c.Correct() && p in g.inputs
    requires At(g.c, s.procs[p], 0, 2, false, {}) && AllSaid(s, camp, 0, 2, false) && Noise(s, g.c.faulty, 0)
    requires |camp + g.c.faulty| == 2 * g.c.info.f + 1 && camp <= g.c.Correct() && g.c.Valid()
    requires e.from in g.c.faulty && e.msg == Message(0, Conf([false], Forged(0)))
    ensures Reachable(g, last) && p in last.procs && last.procs[p].entered == [g.inputs[p], g.inputs[p]]
    ensures FailedIn(last, p, 0) && Confirmed(g, last.sent, 0, false) && e in last.procs[p].received
  {
    var quorum := camp + g.c.faulty;
    assert AllSaid(s, g.c.faulty, 0, 2, false);
    assert AllSaid(s, quorum, 0, 2, false);
    hide At, Reachable, AllSaid, Noise, Confirmed, FailedIn;
    var s1 := Forge(g, s, e);
    AllSaidGrows(s, s1, quorum, 0, 2, false);
    var s2 := HearBut(g, s1, p, quorum, e.from);
    last := FailAtLast(g, s2, p, quorum - {e.from}, e);
    AllSaidGrows(s1, last, quorum, 0, 2, false);
    QuorumConfirms(g, last, 0, false, quorum);
  }

  lemma Forge(g: Config, s: Sys, e: Stored) returns (s': Sys)
    requires Reachable(g, s) && e.from in g.c.faulty
    ensures Reachable(g, s') && s'.procs == s.procs && s.sent <= s'.sent && e in s'.sent
  {
    hide Reachable;
    Extend(g, s, Inject(e));
    s' := Apply(g, s, Inject(e));
  }

  lemma HearBut(g: Config, s: Sys, p: NodeId, quorum: set<NodeId>, id: NodeId) returns (s': Sys)
    requires g.common.Some? && Reachable(g, s) && p in s.procs && p in g.c.Correct()
    requires At(g.c, s.procs[p], 0, 2, false, {}) && AllSaid(s, quorum, 0, 2, false)
    requires id in quorum && |quorum| == 2 * g.c.info.f + 1
    ensures Reachable(g, s') && OnlyMoved(s, s', {p}) && At(g.c, s'.procs[p], 0, 2, false, quorum - {id})
  {
    hide At, Reachable, Said;
    var heard := quorum - {id};
    s' := HearSome(g, s, p, 0, 2, false, {}, heard);
    assert {} + heard == heard;
  }

  lemma QuorumConfirms(g: Config, s: Sys, r: nat, b: bool, quorum: set<NodeId>)
    requires AllSaid(s, quorum, r, 2, b) && quorum <= g.c.Members() && |quorum| > 2 * g.c.info.f
    ensures Confirmed(g, s.sent, r, b)
  {
    BackersAtLeast(g.c, s.sent, r, ForConf([b]), quorum);
  }

  lemma FailAtLast(g: Config, s: Sys, p: NodeId, heard: set<NodeId>, e: Stored) returns (last: Sys)
    requires !g.reliable && Reachable(g, s) && p in s.procs && p in g.c.Correct() && e in s.sent
    requires At(g.c, s.procs[p], 0, 2, false, heard) && |heard| == 2 * g.c.info.f && e.from !in heard
    requires e.msg.round == 0 && BallotOf(e.msg.body) == ForConf([false])
    ensures Reachable(g, last) && OnlyMoved(s, last, {p}) && FailedIn(last, p, 0) && e in last.procs[p].received
    ensures p in g.inputs && last.procs[p].entered == [g.inputs[p], g.inputs[p]]
  {
    EstimateIsInput(g, s, p);
    FailedFlip(g.c, s.procs[p], 0, false, heard, e);
    hide Holds, Reachable, Take, Emitted, Heard, Said;
    Hear(g, s, p, e, CombineFailed);
    last := Heard(s, p, e, CombineFailed);
    ReachableInv(g, last);
    assert ProcInv(g, last.sent, p, last.procs[p]);
  }

  lemma NoLock(g: Config, s: Sys, p: NodeId)
    requires Reachable(g, s) && g.c.Intersecting() && Confirmed(g, s.sent, 0, false)
    requires FailedIn(s, p, 0) && s.procs[p].entered == [true, true]
    ensures !HasLock(g, s, 0)
  {
    ReachableInv(g, s);
    hide StrongInv, Reachable, LockedOn, Confirmed;
    if HasLock(g, s, 0) {
      var v :| Confirmed(g, s.sent, 0, v) && LockedOn(s, 1, v);
      StateLockIff(g, s, 0, v);
      OnlyConfirmed(g, s, 0, v, false);
    }
  }
}
