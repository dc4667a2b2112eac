/** The sizes of committee for which reliable broadcast agrees: every other committee that
    `QuorumInfo::new` admits is led into finalizing two different digests. */
module RbcBoundary {
  import opened Quorums
  import opened RbcModel
  import opened RbcSystem
  import opened RbcSafety
  import Runs

  ghost predicate Reachable(g: Config, s: Sys) {
    g.Valid() && Runs.Reachable(InitSys(g), Steps(g), s)
  }

  lemma Extend(g: Config, s: Sys, step: Step)
    requires Reachable(g, s) && Enabled(g, s, step)
    ensures Reachable(g, Apply(g, s, step))
  {
    hide Enabled, Apply;
    assert Next(g, s, Apply(g, s, step));
    Runs.Extend(InitSys(g), Steps(g), s, Apply(g, s, step));
  }

  lemma RunTo(g: Config, s: Sys) returns (run: seq<Sys>)
    requires Reachable(g, s)
    ensures IsRun(g, run) && |run| > 0 && run[|run| - 1] == s
  {
    run :| Runs.IsPath(InitSys(g), Steps(g), run) && run[|run| - 1] == s;
  }

  // ---------- One camp: members that hear only each other and the faulty ----------

  /** The message for `d` that an instance counts after `j` phases; first the Send. */
  function MessageFor(j: nat, d: Digest): Message {
    match j
    case 0 => SendMsg(Payload(0), d)
    case 1 => EchoMsg(d)
    case _ => ReadyMsg(d)
  }

  /** The number of such messages that ends the phase. */
  function Goal(c: Committee, j: nat): int {
    match j
    case 0 => 1
    case 1 => c.info.quorumSize - c.info.f
    case _ => 2 * c.info.f + 1
  }

  /** The member is in phase `j`, knows only `d`, and has counted these voters in the phase. */
  ghost predicate At(c: Committee, pr: Proc, j: nat, d: Digest, voters: set<NodeId>) {
    var n := pr.inst;
    && n.quorum == c.info && Rank(n.phase) == j
    && n.proposed == (if j == 0 then None else Some((Payload(0), d)))
    && n.sentEcho == (j >= 2) && n.sentReady == (j >= 3)
    && (j == 0 ==> voters == {})
    && (j < 2 ==> n.echoes == if j == 1 then voters else {})
    && (j < 3 ==> n.readies == if j == 2 then voters else {})
  }

  /** The member is past phase `j`, having sent the message that the next phase counts. */
  ghost predicate Past(c: Committee, s: Sys, p: NodeId, j: nat, d: Digest) {
    && p in s.procs && At(c, s.procs[p], j + 1, d, {})
    && (j < 2 ==> Stored(p, MessageFor(j + 1, d)) in s.sent)
  }

  lemma OneMoreVote(c: Committee, pr: Proc, j: nat, d: Digest, voters: set<NodeId>, id: NodeId)
    requires j < 3 && At(c, pr, j, d, voters) && id !in voters && |voters| + 1 < Goal(c, j)
    ensures At(c, Take(pr, Deliver(Stored(id, MessageFor(j, d)))), j, d, voters + {id})
  {
  }

  lemma LastVote(c: Committee, pr: Proc, j: nat, d: Digest, voters: set<NodeId>, id: NodeId)
    requires j < 3 && At(c, pr, j, d, voters) && id !in voters && |voters| + 1 == Goal(c, j)
    ensures At(c, Take(pr, Deliver(Stored(id, MessageFor(j, d)))), j + 1, d, {})
    ensures j < 2 ==> Emitted(pr, Deliver(Stored(id, MessageFor(j, d)))) == Some(MessageFor(j + 1, d))
  {
  }

  // ---------- Scheduling a camp ----------

  ghost predicate AllSaid(s: Sys, ids: set<NodeId>, j: nat, d: Digest) {
    forall id :: id in ids ==> Stored(id, MessageFor(j, d)) in s.sent
  }

  /** Only these members have moved, and nothing sent is forgotten. */
  ghost predicate OnlyMoved(s: Sys, s': Sys, ids: set<NodeId>) {
    && s'.procs.Keys == s.procs.Keys && s.sent <= s'.sent
    && forall q :: q in s.procs && q !in ids ==> s'.procs[q] == s.procs[q]
  }

  /** Member `p` hears the message for phase `j` from `id`. */
  function After(s: Sys, p: NodeId, id: NodeId, j: nat, d: Digest): Sys
    requires p in s.procs
  {
    var event := Deliver(Stored(id, MessageFor(j, d)));
    Sys(s.procs[p := Take(s.procs[p], event)], s.sent + Broadcast(p, Emitted(s.procs[p], event)))
  }

  lemma Hear(g: Config, s: Sys, p: NodeId, id: NodeId, j: nat, d: Digest)
    requires Reachable(g, s) && p in s.procs && p in g.c.Correct() && Stored(id, MessageFor(j, d)) in s.sent
    ensures var s' := After(s, p, id, j, d);
      Reachable(g, s') && OnlyMoved(s, s', {p}) && s'.procs[p] == Take(s.procs[p], Deliver(Stored(id, MessageFor(j, d))))
  {
    hide Take, Emitted, Reachable;
    Extend(g, s, Handle(p, Deliver(Stored(id, MessageFor(j, d)))));
  }

  lemma HearLast(g: Config, s: Sys, p: NodeId, j: nat, d: Digest, heard: set<NodeId>, id: NodeId)
    requires p in s.procs && j < 3 && At(g.c, s.procs[p], j, d, heard) && id !in heard && |heard| + 1 == Goal(g.c, j)
    ensures Past(g.c, After(s, p, id, j, d), p, j, d)
  {
    hide Take, Emitted, At, Goal;
    LastVote(g.c, s.procs[p], j, d, heard, id);
    if j < 2 {
      assert Stored(p, MessageFor(j + 1, d)) in After(s, p, id, j, d).sent;
    }
  }

  /** One member hears the rest of a quorum. */
  lemma {:induction false} HearQuorum(g: Config, s: Sys, p: NodeId, j: nat, d: Digest, heard: set<NodeId>, rest: set<NodeId>)
    returns (s': Sys)
    requires Reachable(g, s) && p in s.procs && p in g.c.Correct() && j < 3
    requires At(g.c, s.procs[p], j, d, heard) && heard !! rest && rest != {} && |heard| + |rest| == Goal(g.c, j)
    requires AllSaid(s, rest, j, d)
    ensures Reachable(g, s') && OnlyMoved(s, s', {p}) && Past(g.c, s', p, j, d)
    decreases rest
  {
    var id :| id in rest;
    hide Take, Emitted, At, Past, Reachable, After, Goal;
    Hear(g, s, p, id, j, d);
    s' := After(s, p, id, j, d);
    var rest' := rest - {id};
    assert rest == rest' + {id};
    if rest' == {} {
      HearLast(g, s, p, j, d, heard, id);
    } else {
      assert |rest'| > 0;
      OneMoreVote(g.c, s.procs[p], j, d, heard, id);
      s' := HearQuorum(g, s', p, j, d, heard + {id}, rest');
    }
  }

  /** The members of a camp, one after another, hear a quorum for phase `j`. */
  lemma {:induction false} CampAdvances(g: Config, s: Sys, j: nat, d: Digest, quorum: set<NodeId>, todo: set<NodeId>)
    returns (s': Sys)
    requires Reachable(g, s) && todo <= g.c.Correct() && todo <= s.procs.Keys && j < 3
    requires quorum != {} && |quorum| == Goal(g.c, j) && AllSaid(s, quorum, j, d)
    requires forall p :: p in todo ==> At(g.c, s.procs[p], j, d, {})
    ensures Reachable(g, s') && OnlyMoved(s, s', todo)
    ensures forall p :: p in todo ==> Past(g.c, s', p, j, d)
    decreases todo
  {
    hide At, Reachable, Goal, MessageFor;
    if todo == {} {
      s' := s;
    } else {
      var p :| p in todo;
      var s1 := HearQuorum(g, s, p, j, d, {}, quorum);
      s' := CampAdvances(g, s1, j, d, quorum, todo - {p});
      assert Past(g.c, s', p, j, d);
    }
  }

  /** The designated sender has sent a Send, and the faulty members an Echo and a Ready, for `d`. */
  ghost predicate Noise(g: Config, s: Sys, d: Digest) {
    AllSaid(s, {g.sender}, 0, d) && AllSaid(s, g.c.faulty, 1, d) && AllSaid(s, g.c.faulty, 2, d)
  }

  /** A camp with the faulty members is large enough for every phase. */
  ghost predicate Suffices(c: Committee, camp: set<NodeId>) {
    |camp + c.faulty| >= Goal(c, 1) && |camp + c.faulty| >= Goal(c, 2) && c.faulty != {}
  }

  /** Members that have sent the message of phase `j` and are exactly enough to end it. */
  lemma Supporters(g: Config, s: Sys, j: nat, d: Digest, camp: set<NodeId>) returns (quorum: set<NodeId>)
    requires g.c.Valid() && j < 3 && Suffices(g.c, camp) && Noise(g, s, d) && (j > 0 ==> AllSaid(s, camp, j, d))
    ensures quorum != {} && |quorum| == Goal(g.c, j) && AllSaid(s, quorum, j, d)
  {
    if j == 0 {
      quorum := {g.sender};
    } else {
      assert AllSaid(s, camp + g.c.faulty, j, d);
      quorum := Subset(camp + g.c.faulty, Goal(g.c, j));
      assert |quorum| > 0;
    }
  }

  /** From phase `j` on, a camp that suffices finalizes its digest. */
  lemma {:induction false} CampFinalizes(g: Config, s: Sys, j: nat, d: Digest, camp: set<NodeId>) returns (s': Sys)
    requires Reachable(g, s) && g.c.Valid() && camp <= g.c.Correct() && camp <= s.procs.Keys && j <= 3
    requires Suffices(g.c, camp) && Noise(g, s, d) && (0 < j < 3 ==> AllSaid(s, camp, j, d))
    requires forall p :: p in camp ==> At(g.c, s.procs[p], j, d, {})
    ensures Reachable(g, s') && OnlyMoved(s, s', camp)
    ensures forall p :: p in camp ==> Finalizes(s', p, Payload(0), d)
    decreases 3 - j
  {
    if j == 3 {
      s' := s;
    } else {
      hide At, Reachable, Goal, MessageFor, Finalizes, Noise, Suffices, AllSaid;
      var quorum := Supporters(g, s, j, d, camp);
      s' := CampAdvances(g, s, j, d, quorum, camp);
      PastTogether(g, s', camp, j, d);
      NoiseGrows(g, s, s', d);
      s' := CampFinalizes(g, s', j + 1, d, camp);
    }
  }

  lemma PastTogether(g: Config, s: Sys, camp: set<NodeId>, j: nat, d: Digest)
    requires forall p :: p in camp ==> Past(g.c, s, p, j, d)
    ensures forall p :: p in camp ==> p in s.procs && At(g.c, s.procs[p], j + 1, d, {})
    ensures j < 2 ==> AllSaid(s, camp, j + 1, d)
  {
    hide At, MessageFor;
  }

  lemma NoiseGrows(g: Config, s: Sys, s': Sys, d: Digest)
    requires Noise(g, s, d) && s.sent <= s'.sent
    ensures Noise(g, s', d)
  {
  }

  // ---------- Setting the scene ----------

  lemma {:induction false} InjectAll(g: Config, s: Sys, todo: set<Stored>) returns (s': Sys)
    requires Reachable(g, s) && forall e :: e in todo ==> e.from in g.c.faulty && (e.msg.SendMsg? ==> e.from == g.sender)
    ensures Reachable(g, s') && s'.procs == s.procs && s.sent <= s'.sent && forall e :: e in todo ==> e in s'.sent
    decreases todo
  {
    hide Reachable;
    if todo == {} {
      s' := s;
    } else {
      var e :| e in todo;
      Extend(g, s, Inject(e));
      s' := InjectAll(g, Apply(g, s, Inject(e)), todo - {e});
    }
  }

  lemma MakeNoise(g: Config, s: Sys, d: Digest) returns (s': Sys)
    requires Reachable(g, s) && g.sender in g.c.faulty
    ensures Reachable(g, s') && s'.procs == s.procs && s.sent <= s'.sent && Noise(g, s', d)
  {
    hide Reachable;
    var votes := set id, j | id in g.c.faulty && j in {1, 2} :: Stored(id, MessageFor(j, d));
    s' := InjectAll(g, s, votes + {Stored(g.sender, MessageFor(0, d))});
    forall id | id in g.c.faulty ensures Stored(id, MessageFor(1, d)) in s'.sent && Stored(id, MessageFor(2, d)) in s'.sent {
      assert Stored(id, MessageFor(1, d)) in votes && Stored(id, MessageFor(2, d)) in votes;
    }
  }

  /** Two disjoint camps of correct members, each sufficient with the faulty. */
  lemma TwoCamps(c: Committee) returns (one: set<NodeId>, other: set<NodeId>)
    requires c.Valid() && !Safe(c)
    ensures one <= c.Correct() && other <= c.Correct() && one !! other && one != {} && other != {}
    ensures Suffices(c, one) && Suffices(c, other)
  {
    assert c.Members() == c.Correct() + c.faulty;
    var goal := if Goal(c, 1) > Goal(c, 2) then Goal(c, 1) else Goal(c, 2);
    var k := goal - |c.faulty|;
    one := Subset(c.Correct(), k);
    other := Subset(c.Correct() - one, k);
    assert |one| > 0 && |other| > 0 && |c.faulty| > 0;
  }

  // ---------- The exact condition for agreement ----------

  /** Whatever the sender, the schedule and the faulty members do, correct members finalize at
      most one digest; `onlySender` restricts Sends to the designated sender. */
  ghost predicate Agrees(c: Committee, onlySender: bool) {
    forall g: Config, run, i: nat, j: nat, p, q, payload, d, payload', d' ::
      g.c == c && (onlySender ==> g.onlySender) && IsRun(g, run) && i <= j < |run|
      && Finalizes(run[i], p, payload, d) && Finalizes(run[j], q, payload', d') ==>
        d == d'
  }

  /** A faulty designated sender equivocates, and the faulty members support both digests. */
  lemma Opening(c: Committee, d: Digest, d': Digest) returns (g: Config, s: Sys)
    requires c.Valid() && c.faulty != {}
    ensures g.c == c && g.onlySender && Reachable(g, s) && s.procs.Keys == c.Correct() && Noise(g, s, d) && Noise(g, s, d')
    ensures forall id :: id in c.Correct() ==> At(c, s.procs[id], 0, d, {}) && At(c, s.procs[id], 0, d', {})
  {
    var sender :| sender in c.faulty;
    g := Config(c, sender, Payload(0), d, true);
    Runs.Begin(InitSys(g), Steps(g));
    hide Reachable, IsRun, Noise;
    var s0 := MakeNoise(g, InitSys(g), d);
    s := MakeNoise(g, s0, d');
    NoiseGrows(g, s0, s, d);
  }

  lemma StaysFinalized(s: Sys, s': Sys, camp: set<NodeId>, moved: set<NodeId>, d: Digest)
    requires OnlyMoved(s, s', moved) && camp !! moved
    requires forall p :: p in camp ==> Finalizes(s, p, Payload(0), d)
    ensures forall p :: p in camp ==> Finalizes(s', p, Payload(0), d)
  {
    hide Finalize;
  }

  /** A run in which two correct members of an unsafe committee finalize different digests, although
      only the designated sender sends a Send. */
  lemma Disagreement(c: Committee) returns (g: Config, run: seq<Sys>, p: NodeId, q: NodeId)
    requires c.Valid() && !Safe(c)
    ensures g.c == c && g.onlySender && IsRun(g, run) && |run| > 0
    ensures Finalizes(run[|run| - 1], p, Payload(0), Digest(0)) && Finalizes(run[|run| - 1], q, Payload(0), Digest(1))
  {
    var one, other := TwoCamps(c);
    var s0;
    g, s0 := Opening(c, Digest(0), Digest(1));
    hide At, Reachable, IsRun, Noise, Finalizes;
    var s1 := CampFinalizes(g, s0, 0, Digest(0), one);
    NoiseGrows(g, s0, s1, Digest(1));
    var s2 := CampFinalizes(g, s1, 0, Digest(1), other);
    StaysFinalized(s1, s2, one, other, Digest(0));
    p :| p in one;
    q :| q in other;
    run := RunTo(g, s2);
  }

  /** Agreement on the digest holds over all runs exactly for the safe committees, whether or not
      others than the designated sender send a Send: when f members are faulty, exactly for
      n = 3f + 1 and for n > 5f. */
  lemma AgreementIff(c: Committee, onlySender: bool)
    requires c.Valid()
    ensures Agrees(c, onlySender) <==> Safe(c)
    ensures |c.faulty| == c.info.f ==> (Agrees(c, onlySender) <==> c.N() == 3 * c.info.f + 1 || c.N() > 5 * c.info.f)
  {
    hide IsRun, Finalizes;
    SafeSizes(c);
    if Safe(c) {
      forall g: Config, run, i: nat, j: nat, p, q, payload, d, payload', d' |
        g.c == c && IsRun(g, run) && i <= j < |run| && Finalizes(run[i], p, payload, d) && Finalizes(run[j], q, payload', d')
        ensures d == d'
      {
        Agreement(g, run, i, j, p, q, payload, d, payload', d');
      }
    } else {
      var g, run, p, q := Disagreement(c);
      assert !Agrees(c, onlySender);
    }
  }
}
