/** A node of the binary agreement as a value: the specification that class
    `AsyncBinaryAgreement` implements, and what holds of a node over any sequence of inputs. */
module AbaNode {
  import opened Quorums
  import opened AbaMessages
  import opened AbaRound
  import opened AbaPending

  datatype Result = MessageQueued | MessageIgnored | Processed | Decided

  datatype Node = Node(
    round: nat,
    inputBit: bool,
    quorum: QuorumInfo,
    key: NodeId,
    current: Round,
    previous: seq<Round>,
    pending: Pending)

  /** What processing a message does: the new state, the reported result, the message broadcast
      to the quorum members, if any, and the round's own verdict. */
  datatype Reaction = Reaction(node: Node, result: Result, broadcast: Option<Message>, verdict: Option<Verdict>)

  function NewNode(inputBit: bool, quorum: QuorumInfo, key: NodeId): Node {
    Node(0, inputBit, quorum, key, NewRound(quorum.f, inputBit), [], Pending(0, []))
  }

  function AdvanceRound(n: Node, next: bool): Node {
    n.(round := n.round + 1, current := NewRound(n.quorum.f, next), previous := n.previous + [n.current])
  }

  function Announcement(n: Node, v: Verdict): Option<Message> {
    match v
    case BroadcastEst(b) => Some(Message(n.round, Val(b)))
    case BroadcastAux(vs) => Some(Message(n.round, Aux(vs)))
    case BroadcastConf(vs) => Some(Message(n.round, Conf(vs, Signed(n.key, n.round))))
    case BroadcastFinalized(b) => Some(Message(n.round, Finish(b)))
    case _ => None
  }

  /** Act on the verdict of the current round. */
  function React(n: Node, e: Stored, v: Verdict): Reaction {
    match v
    case Failed(next) => Reaction(AdvanceRound(n, next), Processed, None, Some(v))
    case Finalized(_) => Reaction(n, Decided, None, Some(v))
    case Queue => Reaction(n.(pending := Add(n.pending, n.round, e)), MessageQueued, None, Some(v))
    case Ignored => Reaction(n, MessageIgnored, None, Some(v))
    case AlreadyAccepted => Reaction(n, MessageIgnored, None, Some(v))
    case _ => Reaction(n, Processed, Announcement(n, v), Some(v))
  }

  function Process(n: Node, e: Stored, coin: Coin): Reaction {
    if e.msg.round > n.round then
      Reaction(n.(pending := Add(n.pending, e.msg.round, e)), MessageQueued, None, None)
    else if e.msg.round < n.round then
      Reaction(n, MessageIgnored, None, None)
    else
      var (rd, v) := Accept(n.current, e.from, BallotOf(e.msg.body), coin);
      React(n.(current := rd), e, v)
  }

  /** A vote that completes a quorum to finish in the current round. */
  predicate Decides(n: Node, e: Stored) {
    && e.msg.round == n.round && n.current.phase.Finishing? && e.msg.body.Finish?
    && e.from !in Votes(n.current.votes, BallotOf(e.msg.body))
    && Count(n.current, BallotOf(e.msg.body)) + 1 > 2 * n.current.f
  }

  lemma AcceptCounts(rd: Round, sender: NodeId, k: Ballot, coin: Coin)
    ensures var (rd', v) := Accept(rd, sender, k, coin);
      && (v.Ignored? || v.AlreadyAccepted? || v.Queue? ==> rd' == rd)
      && (!v.Ignored? && !v.AlreadyAccepted? && !v.Queue? ==> sender !in Votes(rd.votes, k) && sender in Votes(rd'.votes, k))
      && (v.Finalized? <==> k.ForFinish? && rd.phase.Finishing? && sender !in Votes(rd.votes, k) && Count(rd, k) + 1 > 2 * rd.f)
  {
    if PhaseRank(rd.phase) == BallotRank(k) && sender !in Votes(rd.votes, k) {
      RecordCounts(rd, sender, k);
    }
  }

  /** The reported result: a message is ignored exactly when it changes nothing, queued exactly
      when it goes on top of the stack of its round, and decides exactly when its vote completes a
      quorum to finish; only a processed message makes the node broadcast, in its own round and
      with its own share of that round. */
  lemma ResultMeaning(n: Node, e: Stored, coin: Coin)
    requires n.pending.base <= n.round
    ensures var r := Process(n, e, coin);
      && (r.result.MessageIgnored? <==> r.node == n)
      && (r.result.MessageQueued? <==> r.node.pending != n.pending)
      && (r.result.MessageQueued? ==> StackAt(r.node.pending, e.msg.round) == StackAt(n.pending, e.msg.round) + [e])
      && (r.result.Decided? <==> Decides(n, e))
      && (r.broadcast.Some? ==> r.result.Processed? && r.broadcast.value.round == n.round)
      && (r.broadcast.Some? && r.broadcast.value.body.Conf? ==> r.broadcast.value.body.share == Signed(n.key, n.round))
  {
    AcceptCounts(n.current, e.from, BallotOf(e.msg.body), coin);
    if e.msg.round >= n.round {
      AddStacks(n.pending, e.msg.round, e);
      assert StackAt(Add(n.pending, e.msg.round, e), e.msg.round) != StackAt(n.pending, e.msg.round);
    }
    hide Accept, Add, StackAt;
  }

  /** A message that comes before its time: of a later round, or of a later phase of this one. */
  predicate IsEarly(n: Node, e: Stored) {
    e.msg.round > n.round || (e.msg.round == n.round && TooEarly(n.current.phase, BallotOf(e.msg.body)))
  }

  /** A message that no longer matters: of an earlier round or phase, or a repetition. */
  predicate IsStale(n: Node, e: Stored) {
    || e.msg.round < n.round
    || (e.msg.round == n.round && TooLate(n.current.phase, BallotOf(e.msg.body)))
    || (e.msg.round == n.round && InTime(n.current.phase, BallotOf(e.msg.body))
        && e.from in Votes(n.current.votes, BallotOf(e.msg.body)))
  }

  /** The message `m` is what processing `e` must make the node broadcast. */
  predicate Prompts(n: Node, e: Stored, coin: Coin, m: Message) {
    var rd := n.current;
    && e.msg.round == n.round == m.round
    && match m.body
       case Val(b) => e.msg.body == Val(b) && Supporting(rd, e.from, ForVal(b)) && b !in rd.broadcastEstimates
       case Aux(vs) => e.msg.body.Val? && vs == [e.msg.body.estimate] && Completing(rd, e.from, ForVal(e.msg.body.estimate))
       case Conf(vs, share) =>
         && e.msg.body.Aux? && Completing(rd, e.from, ForAux(e.msg.body.accepted)) && Covers(rd.valuesR, e.msg.body.accepted)
         && vs == [Value(rd)] && share == Signed(n.key, n.round)
       case Finish(b) =>
         || (e.msg.body.Conf? && Wins(rd, e.from, ForConf(e.msg.body.feasible), coin, b))
         || (e.msg.body == Finish(b) && Supporting(rd, e.from, ForFinish(b)) && b !in rd.broadcastFinish)
  }

  /** The message makes the node abandon its round for the next one with estimate `next`. */
  predicate Fails(n: Node, e: Stored, coin: Coin, next: bool) {
    && e.msg.round == n.round && e.msg.body.Conf?
    && Abandons(n.current, e.from, ForConf(e.msg.body.feasible), coin, next)
  }

  /** The verdict that a message with this body announces. */
  function VerdictFor(body: Body): Verdict {
    match body
    case Val(b) => BroadcastEst(b)
    case Aux(vs) => BroadcastAux(vs)
    case Conf(vs, _) => BroadcastConf(vs)
    case Finish(b) => BroadcastFinalized(b)
  }

  lemma Announced(n: Node, v: Verdict, m: Message)
    ensures Announcement(n, v) == Some(m) <==>
      v == VerdictFor(m.body) && m.round == n.round && (m.body.Conf? ==> m.body.share == Signed(n.key, n.round))
  {
  }

  lemma PromptsIff(n: Node, e: Stored, coin: Coin, m: Message)
    requires e.msg.round == n.round
    ensures Prompts(n, e, coin, m) <==>
      && CallsFor(n.current, e.from, BallotOf(e.msg.body), coin, VerdictFor(m.body))
      && m.round == n.round && (m.body.Conf? ==> m.body.share == Signed(n.key, n.round))
  {
    hide Completing, Supporting, Covers, Value;
  }

  lemma AnnouncesDue(n: Node, e: Stored, coin: Coin, m: Message)
    requires Live(n.current) && e.msg.round == n.round
    ensures var v := Accept(n.current, e.from, BallotOf(e.msg.body), coin).1;
      Announcement(n, v) == Some(m) <==> Prompts(n, e, coin, m)
  {
    var k := BallotOf(e.msg.body);
    var v := Accept(n.current, e.from, k, coin).1;
    AcceptMeaning(n.current, e.from, k, coin);
    Announced(n, v, m);
    PromptsIff(n, e, coin, m);
    hide Accept, Live, CallsFor, ChangesWith, Announcement, Prompts, BallotOf;
    if CallsFor(n.current, e.from, k, coin, VerdictFor(m.body)) {
      OneIsDue(n.current, e.from, k, coin, v, VerdictFor(m.body));
    }
  }

  /** What any message makes a node broadcast: exactly what it prompts. */
  lemma BroadcastMeaning(n: Node, e: Stored, coin: Coin, m: Message)
    requires Live(n.current)
    ensures Process(n, e, coin).broadcast == Some(m) <==> Prompts(n, e, coin, m)
  {
    if e.msg.round == n.round {
      AnnouncesDue(n, e, coin, m);
      hide Prompts, Accept, Add, Live;
    }
  }

  lemma VerdictKinds(rd: Round, sender: NodeId, k: Ballot, coin: Coin, v: Verdict)
    requires CallsFor(rd, sender, k, coin, v)
    ensures v.Queue? <==> TooEarly(rd.phase, k)
    ensures v.Ignored? || v.AlreadyAccepted? <==> TooLate(rd.phase, k) || (InTime(rd.phase, k) && sender in Votes(rd.votes, k))
    ensures v.Queue? || v.Ignored? || v.AlreadyAccepted? ==> !Counts(rd, sender, k)
  {
    hide Covers, Votes;
  }

  lemma ReactMeaning(n: Node, e: Stored, v: Verdict)
    ensures var r := React(n, e, v);
      && (r.result.MessageQueued? <==> v.Queue?)
      && (r.result.MessageIgnored? <==> v.Ignored? || v.AlreadyAccepted?)
      && (v.Queue? ==> r.node == n.(pending := Add(n.pending, n.round, e)))
      && (!v.Queue? ==> r.node == if v.Failed? then
           n.(round := n.round + 1, current := NewRound(n.quorum.f, v.next), previous := n.previous + [n.current]) else n)
  {
    hide Add;
  }

  /** What any message does to a node: an early one is queued, on top of the stack of its round; a
      stale one is ignored and changes nothing; a losing flip starts the next round; any other is
      processed in the round, which it changes as the verdict due says. */
  lemma ProcessMeaning(n: Node, e: Stored, coin: Coin)
    requires Live(n.current)
    ensures var r := Process(n, e, coin);
      && (r.result.MessageQueued? <==> IsEarly(n, e))
      && (r.result.MessageIgnored? <==> IsStale(n, e))
      && (IsEarly(n, e) ==> r.node == n.(pending := Add(n.pending, e.msg.round, e)))
      && (IsStale(n, e) ==> r.node == n)
      && (!IsEarly(n, e) && !IsStale(n, e) ==> Processes(n, e, coin, r.node))
  {
    hide Accept, Live, React, Processes, BallotOf, TooEarly, TooLate, InTime, Votes;
    if e.msg.round == n.round { InRoundMeaning(n, e, coin); }
  }

  lemma FailsIff(n: Node, e: Stored, coin: Coin, next: bool)
    ensures Fails(n, e, coin, next) <==> e.msg.round == n.round && CallsFor(n.current, e.from, BallotOf(e.msg.body), coin, Failed(next))
  {
    hide Completing, Covers;
  }

  /** A node enters its next round, with estimate `next`, exactly when a message makes it abandon the
      current one for it. */
  lemma AbandonsIff(n: Node, e: Stored, coin: Coin, next: bool)
    requires Live(n.current)
    ensures var n' := Process(n, e, coin).node;
      (n'.round == n.round + 1 && n'.current == NewRound(n.quorum.f, next)) <==> Fails(n, e, coin, next)
  {
    hide Accept, Live, ChangesWith, CallsFor, Fails, BallotOf, Add, React;
    var k := BallotOf(e.msg.body);
    FailsIff(n, e, coin, next);
    if e.msg.round == n.round {
      AcceptMeaning(n.current, e.from, k, coin);
      var (rd, v) := Accept(n.current, e.from, k, coin);
      ReactMeaning(n.(current := rd), e, v);
      if CallsFor(n.current, e.from, k, coin, Failed(next)) {
        OneIsDue(n.current, e.from, k, coin, v, Failed(next));
      }
    }
  }

  lemma InRoundMeaning(n: Node, e: Stored, coin: Coin)
    requires Live(n.current) && e.msg.round == n.round
    ensures var (rd, v) := Accept(n.current, e.from, BallotOf(e.msg.body), coin); var r := React(n.(current := rd), e, v);
      && (r.result.MessageQueued? <==> IsEarly(n, e))
      && (r.result.MessageIgnored? <==> IsStale(n, e))
      && (IsEarly(n, e) ==> r.node == n.(pending := Add(n.pending, e.msg.round, e)))
      && (IsStale(n, e) ==> r.node == n)
      && (!IsEarly(n, e) && !IsStale(n, e) ==> Processes(n, e, coin, r.node))
  {
    var k := BallotOf(e.msg.body);
    hide Accept, Live, React, BallotOf, TooEarly, TooLate, InTime, Votes, ChangesWith, CallsFor, Counts, Add;
    var (rd, v) := Accept(n.current, e.from, k, coin);
    AcceptMeaning(n.current, e.from, k, coin);
    VerdictKinds(n.current, e.from, k, coin, v);
    ReactMeaning(n.(current := rd), e, v);
    if !Counts(n.current, e.from, k) { UncountedMeaning(n.current, e.from, k, coin); }
  }

  /** What a counted message leaves: its round changed as due, and the node in it or in the next. */
  ghost predicate Processes(n: Node, e: Stored, coin: Coin, n': Node) {
    exists rd, v ::
      && Explained(n.current, rd, e.from, BallotOf(e.msg.body), coin, v)
      && n' == if v.Failed? then
           n.(round := n.round + 1, current := NewRound(n.quorum.f, v.next), previous := n.previous + [rd])
         else n.(current := rd)
  }

  // ---------- A node with its history ----------

  /** A node together with what happened to it: the estimates with which it entered each round,
      the rounds in which it flipped the coin, each with what the shares yielded, the (round, value)
      pairs it finalized, and the messages delivered to it. */
  datatype Proc = Proc(
    node: Node,
    entered: seq<bool>,
    flips: seq<(nat, Coin)>,
    decided: set<(nat, bool)>,
    received: set<Stored>)

  function NewProc(inputBit: bool, quorum: QuorumInfo, key: NodeId): Proc {
    Proc(NewNode(inputBit, quorum, key), [inputBit], [], {}, {})
  }

  /** Update the history with a reaction to `e`. */
  function Noted(pr: Proc, e: Stored, r: Reaction, coin: Coin): Proc {
    pr.(node := r.node,
        entered := pr.entered + (if r.verdict.Some? && r.verdict.value.Failed? then [r.verdict.value.next] else []),
        flips := pr.flips + (if e.msg.round == pr.node.round && Flips(pr.node.current, e.from, BallotOf(e.msg.body)) then [(pr.node.round, coin)] else []),
        decided := pr.decided + (if r.verdict.Some? && r.verdict.value.Finalized? then {(pr.node.round, r.verdict.value.b)} else {}))
  }

  function Absorb(pr: Proc, e: Stored, coin: Coin): Proc {
    Noted(pr, e, Process(pr.node, e, coin), coin)
  }

  /** The state of round `r`: frozen when the node has left it, current otherwise. */
  function RoundAt(n: Node, r: nat): Round
    requires r <= n.round == |n.previous|
  {
    if r < n.round then n.previous[r] else n.current
  }

  ghost predicate Shaped(pr: Proc) {
    && |pr.node.previous| == pr.node.round
    && |pr.entered| == pr.node.round + 1
    && |pr.flips| >= pr.node.round
  }

  /** A round keeps the committee's bound and, until it finishes, the estimate it began with. */
  ghost predicate Steady(pr: Proc, r: nat)
    requires Shaped(pr) && r <= pr.node.round
  {
    var rd := RoundAt(pr.node, r);
    rd.f == pr.node.quorum.f && (!rd.phase.Finishing? ==> rd.estimate == pr.entered[r])
  }

  /** Every earlier round was abandoned through a full winning set on the coin flipped in it. */
  ghost predicate AllLeft(pr: Proc)
    requires Shaped(pr)
  {
    forall r: nat :: r < pr.node.round ==> Left(pr.node.previous[r], pr.entered[r + 1], pr.flips[r].1)
  }

  /** The coin has been flipped exactly once in each round left or finished, and in no other; a
      node finishes with the bit of its coin. */
  ghost predicate FlippedOnce(pr: Proc) {
    && |pr.flips| == pr.node.round + (if pr.node.current.phase.Finishing? then 1 else 0)
    && (forall i :: 0 <= i < |pr.flips| ==> pr.flips[i].0 == i)
    && (pr.node.current.phase.Finishing? ==> pr.flips[pr.node.round].1 == Combined(pr.node.current.estimate))
  }

  /** Exactly the values with more than 2f votes to finish in the current round are decided. */
  ghost predicate Decisions(pr: Proc) {
    forall r: nat, b :: (r, b) in pr.decided <==>
      r == pr.node.round && pr.node.current.phase.Finishing?
      && Count(pr.node.current, ForFinish(b)) > 2 * pr.node.quorum.f
  }

  /** What a node keeps, whatever it receives. */
  ghost predicate LocalInv(pr: Proc) {
    && Shaped(pr)
    && (forall r: nat :: r <= pr.node.round ==> Steady(pr, r))
    && Live(pr.node.current)
    && AllLeft(pr)
    && pr.node.pending.base <= pr.node.round && Sorted(pr.node.pending)
    && FlippedOnce(pr)
    && Decisions(pr)
  }

  /** A reaction within the current round. */
  ghost predicate SameRound(pr: Proc, e: Stored, pr': Proc, rd: Round, v: Verdict, coin: Coin) {
    && Advances(pr.node.current, rd) && Announces(pr.node.current, rd, v)
    && Tallies(pr.node.current, e.from, BallotOf(e.msg.body), rd)
    && Completes(pr.node.current, rd, v)
    && pr' == Noted(pr, e, React(pr.node.(current := rd), e, v), coin)
    && e.msg.round == pr.node.round
    && (Flips(pr.node.current, e.from, BallotOf(e.msg.body)) <==>
          v.Failed? || (rd.phase.Finishing? && !pr.node.current.phase.Finishing?))
    && (rd.phase.Finishing? && !pr.node.current.phase.Finishing? ==> coin == Combined(rd.estimate))
  }

  lemma FlipsIff(rd: Round, sender: NodeId, k: Ballot, coin: Coin)
    requires Live(rd)
    ensures var (rd', v) := Accept(rd, sender, k, coin);
      && (v.Failed? || (rd'.phase.Finishing? && !rd.phase.Finishing?) <==> Flips(rd, sender, k))
      && (rd'.phase.Finishing? && !rd.phase.Finishing? ==> coin == Combined(rd'.estimate))
  {
    if Flips(rd, sender, k) {
      FlipOutcome(rd, sender, k, coin);
    } else if PhaseRank(rd.phase) == BallotRank(k) && sender !in Votes(rd.votes, k) {
      RecordCounts(rd, sender, k);
    }
  }

  lemma AcceptIsSameRound(pr: Proc, e: Stored, coin: Coin)
    requires Live(pr.node.current) && e.msg.round == pr.node.round
    ensures var (rd, v) := Accept(pr.node.current, e.from, BallotOf(e.msg.body), coin);
      SameRound(pr, e, Absorb(pr, e, coin), rd, v, coin) && Kept(rd, v, coin)
  {
    hide Accept, Noted, React, Live, Kept, Flips, Advances, Announces, Tallies, Completes;
    AcceptCompletes(pr.node.current, e.from, BallotOf(e.msg.body), coin);
    AcceptAdvances(pr.node.current, e.from, BallotOf(e.msg.body), coin);
    AcceptAnnounces(pr.node.current, e.from, BallotOf(e.msg.body), coin);
    AcceptKeepsLive(pr.node.current, e.from, BallotOf(e.msg.body), coin);
    FlipsIff(pr.node.current, e.from, BallotOf(e.msg.body), coin);
  }

  /** A node that differs only in a larger or drained buffer of sorted messages. */
  lemma BufferKeepsLocal(pr: Proc, p: Pending)
    requires LocalInv(pr) && p.base <= pr.node.round && Sorted(p)
    ensures LocalInv(pr.(node := pr.node.(pending := p)))
  {
    var pr' := pr.(node := pr.node.(pending := p));
    forall r: nat | r <= pr'.node.round ensures Steady(pr', r) {
      assert Steady(pr, r);
    }
  }

  lemma AddKeepsSorted(p: Pending, e: Stored)
    requires Sorted(p) && p.base <= e.msg.round
    ensures Sorted(Add(p, e.msg.round, e))
  {
    AddStacks(p, e.msg.round, e);
  }

  lemma StayChanges(pr: Proc, e: Stored, pr': Proc, rd: Round, v: Verdict, coin: Coin)
    requires SameRound(pr, e, pr', rd, v, coin) && !v.Failed? && !v.Queue?
    ensures pr'.node == pr.node.(current := rd) && pr'.entered == pr.entered
    ensures pr'.flips == pr.flips + (if rd.phase.Finishing? && !pr.node.current.phase.Finishing? then [(pr.node.round, coin)] else [])
    ensures pr'.decided == pr.decided + (if v.Finalized? then {(pr.node.round, v.b)} else {})
  {
  }

  lemma MoreToFinish(rd: Round, rd': Round, sender: NodeId, k: Ballot)
    requires Tallies(rd, sender, k, rd')
    ensures forall b :: Count(rd, ForFinish(b)) <= Count(rd', ForFinish(b))
  {
    forall b ensures Count(rd, ForFinish(b)) <= Count(rd', ForFinish(b)) {
      SubsetSize(Votes(rd.votes, ForFinish(b)), Votes(rd'.votes, ForFinish(b)));
    }
  }

  lemma DecisionsKept(pr: Proc, pr': Proc, rd: Round, v: Verdict)
    requires Decisions(pr) && pr'.node == pr.node.(current := rd)
    requires pr'.decided == pr.decided + (if v.Finalized? then {(pr.node.round, v.b)} else {})
    requires pr.node.current.phase.Finishing? ==> rd.phase.Finishing?
    requires forall b :: Count(pr.node.current, ForFinish(b)) <= Count(rd, ForFinish(b))
    requires v.Finalized? ==> pr.node.current.phase.Finishing? && Count(rd, ForFinish(v.b)) > 2 * pr.node.quorum.f
    requires Completes(pr.node.current, rd, v) && pr.node.current.f == pr.node.quorum.f
    ensures Decisions(pr')
  {
    hide Count;
  }

  lemma StayKeepsDecisions(pr: Proc, e: Stored, pr': Proc, rd: Round, v: Verdict, coin: Coin)
    requires Decisions(pr) && pr.node.current.f == pr.node.quorum.f
    requires SameRound(pr, e, pr', rd, v, coin) && !v.Failed? && !v.Queue?
    ensures Decisions(pr')
  {
    StayChanges(pr, e, pr', rd, v, coin);
    MoreToFinish(pr.node.current, rd, e.from, BallotOf(e.msg.body));
    assert Advances(pr.node.current, rd) && Announces(pr.node.current, rd, v) && Completes(pr.node.current, rd, v);
    hide Flips, SameRound, Count, Decisions, Completes;
    DecisionsKept(pr, pr', rd, v);
  }

  lemma StaySteady(pr: Proc, pr': Proc, rd: Round)
    requires Shaped(pr) && (forall r: nat :: r <= pr.node.round ==> Steady(pr, r))
    requires pr'.node == pr.node.(current := rd) && pr'.entered == pr.entered && |pr.flips| <= |pr'.flips|
    requires Advances(pr.node.current, rd)
    ensures Shaped(pr') && (forall r: nat :: r <= pr'.node.round ==> Steady(pr', r))
  {
    forall r: nat | r <= pr'.node.round ensures Steady(pr', r) {
      assert Steady(pr, r);
    }
  }

  lemma StayFlips(pr: Proc, e: Stored, pr': Proc, rd: Round, v: Verdict, coin: Coin)
    requires Shaped(pr) && Shaped(pr') && FlippedOnce(pr) && AllLeft(pr)
    requires SameRound(pr, e, pr', rd, v, coin) && !v.Failed? && !v.Queue?
    ensures FlippedOnce(pr') && AllLeft(pr')
  {
    StayChanges(pr, e, pr', rd, v, coin);
    assert Advances(pr.node.current, rd);
    assert rd.phase.Finishing? && !pr.node.current.phase.Finishing? ==> coin == Combined(rd.estimate);
    hide Left, Flips, SameRound, Announces, Tallies;
  }

  lemma StayKeepsLocal(pr: Proc, e: Stored, pr': Proc, rd: Round, v: Verdict, coin: Coin)
    requires LocalInv(pr) && SameRound(pr, e, pr', rd, v, coin)
    requires Live(rd) && !v.Failed? && !v.Queue?
    ensures LocalInv(pr')
  {
    assert Steady(pr, pr.node.round) && Advances(pr.node.current, rd);
    hide Live, Flips, Decisions, SameRound, Sorted, Steady, FlippedOnce, AllLeft, Advances;
    StayKeepsDecisions(pr, e, pr', rd, v, coin);
    StayChanges(pr, e, pr', rd, v, coin);
    StaySteady(pr, pr', rd);
    StayFlips(pr, e, pr', rd, v, coin);
  }

  lemma AdvanceSteady(pr: Proc, pr': Proc, rd: Round, next: bool)
    requires Shaped(pr) && (forall r: nat :: r <= pr.node.round ==> Steady(pr, r))
    requires pr'.node == AdvanceRound(pr.node.(current := rd), next) && pr'.entered == pr.entered + [next]
    requires |pr'.flips| >= pr'.node.round && Advances(pr.node.current, rd) && rd.phase.CollectingConf?
    ensures Shaped(pr') && (forall r: nat :: r <= pr'.node.round ==> Steady(pr', r))
  {
    forall r: nat | r <= pr'.node.round ensures Steady(pr', r) {
      assert r <= pr.node.round ==> Steady(pr, r);
    }
  }

  lemma AdvanceFlips(pr: Proc, pr': Proc, rd: Round, next: bool, coin: Coin)
    requires Shaped(pr) && Shaped(pr') && FlippedOnce(pr) && AllLeft(pr) && !pr.node.current.phase.Finishing?
    requires pr'.node == AdvanceRound(pr.node.(current := rd), next) && pr'.entered == pr.entered + [next]
    requires pr'.flips == pr.flips + [(pr.node.round, coin)] && Left(rd, next, coin)
    ensures FlippedOnce(pr') && AllLeft(pr')
  {
    hide Left;
  }

  lemma AdvanceChanges(pr: Proc, e: Stored, pr': Proc, rd: Round, v: Verdict, coin: Coin)
    requires SameRound(pr, e, pr', rd, v, coin) && v.Failed?
    ensures pr'.node == AdvanceRound(pr.node.(current := rd), v.next)
    ensures pr'.entered == pr.entered + [v.next] && pr'.flips == pr.flips + [(pr.node.round, coin)]
    ensures pr'.decided == pr.decided
  {
  }

  lemma AdvanceKeepsLocal(pr: Proc, e: Stored, pr': Proc, rd: Round, v: Verdict, coin: Coin)
    requires LocalInv(pr) && SameRound(pr, e, pr', rd, v, coin)
    requires v.Failed? && Left(rd, v.next, coin) && rd.phase.CollectingConf?
    ensures LocalInv(pr')
  {
    assert Advances(pr.node.current, rd);
    assert !pr.node.current.phase.Finishing?;
    hide Left, Live, Flips, SameRound, Sorted, Steady, FlippedOnce, AllLeft, Advances, Count;
    AdvanceChanges(pr, e, pr', rd, v, coin);
    NewRoundLive(pr.node.quorum.f, v.next);
    AdvanceSteady(pr, pr', rd, v.next);
    AdvanceFlips(pr, pr', rd, v.next, coin);
  }

  lemma SameRoundKeepsLocal(pr: Proc, e: Stored, pr': Proc, rd: Round, v: Verdict, coin: Coin)
    requires LocalInv(pr) && SameRound(pr, e, pr', rd, v, coin) && Kept(rd, v, coin)
    requires v.Queue? ==> rd == pr.node.current
    ensures LocalInv(pr')
  {
    if v.Failed? {
      AdvanceKeepsLocal(pr, e, pr', rd, v, coin);
    } else if v.Queue? {
      AddKeepsSorted(pr.node.pending, e);
      BufferKeepsLocal(pr, Add(pr.node.pending, e.msg.round, e));
      assert pr' == pr.(node := pr.node.(pending := Add(pr.node.pending, e.msg.round, e)));
    } else {
      StayKeepsLocal(pr, e, pr', rd, v, coin);
    }
  }

  /** Processing any message keeps the node's invariant. */
  lemma AbsorbKeepsLocal(pr: Proc, e: Stored, coin: Coin)
    requires LocalInv(pr)
    ensures LocalInv(Absorb(pr, e, coin))
  {
    if e.msg.round == pr.node.round {
      var (rd, v) := Accept(pr.node.current, e.from, BallotOf(e.msg.body), coin);
      AcceptIsSameRound(pr, e, coin);
      AcceptAdvances(pr.node.current, e.from, BallotOf(e.msg.body), coin);
      hide Accept, LocalInv, Absorb, SameRound, Kept;
      SameRoundKeepsLocal(pr, e, Absorb(pr, e, coin), rd, v, coin);
    } else if e.msg.round > pr.node.round {
      AddKeepsSorted(pr.node.pending, e);
      BufferKeepsLocal(pr, Add(pr.node.pending, e.msg.round, e));
      hide LocalInv, Accept;
      assert Absorb(pr, e, coin) == pr.(node := pr.node.(pending := Add(pr.node.pending, e.msg.round, e)));
    } else {
      hide LocalInv, Accept;
      assert Absorb(pr, e, coin) == pr;
    }
  }

  lemma PopKeepsLocal(pr: Proc)
    requires LocalInv(pr) && CanPop(pr.node.pending, pr.node.round)
    ensures var (p, e) := Pop(pr.node.pending, pr.node.round);
      LocalInv(pr.(node := pr.node.(pending := p))) && (e.Some? ==> e.value.msg.round == pr.node.round)
  {
    var (p, e) := Pop(pr.node.pending, pr.node.round);
    PopStacks(pr.node.pending, pr.node.round);
    hide LocalInv, Pop;
    BufferKeepsLocal(pr, p);
  }

  lemma ReceivedKeepsLocal(pr: Proc, received: set<Stored>)
    requires LocalInv(pr)
    ensures LocalInv(pr.(received := received))
  {
    forall r: nat | r <= pr.node.round ensures Steady(pr.(received := received), r) {
      assert Steady(pr, r);
    }
  }

  // ---------- Any sequence of inputs ----------

  /** A message handed over by the network, or a poll whose message is processed at once. */
  datatype Input = Receive(e: Stored, coin: Coin) | PollNext(coin: Coin)

  function Polled(pr: Proc): (Proc, Option<Stored>)
    requires CanPop(pr.node.pending, pr.node.round)
  {
    var (p, e) := Pop(pr.node.pending, pr.node.round);
    (pr.(node := pr.node.(pending := p)), e)
  }

  predicate Possible(pr: Proc, i: Input) {
    i.PollNext? ==> CanPop(pr.node.pending, pr.node.round)
  }

  function Take(pr: Proc, i: Input): Proc
    requires Possible(pr, i)
  {
    match i
    case Receive(e, coin) => Absorb(pr.(received := pr.received + {e}), e, coin)
    case PollNext(coin) =>
      var (pr1, e) := Polled(pr);
      if e.Some? then Absorb(pr1, e.value, coin) else pr1
  }

  /** What taking an input makes the node broadcast. */
  function Emitted(pr: Proc, i: Input): Option<Message>
    requires Possible(pr, i)
  {
    match i
    case Receive(e, coin) => Process(pr.node, e, coin).broadcast
    case PollNext(coin) =>
      var (pr1, e) := Polled(pr);
      if e.Some? then Process(pr1.node, e.value, coin).broadcast else None
  }

  lemma TakeKeepsLocal(pr: Proc, i: Input)
    requires LocalInv(pr) && Possible(pr, i)
    ensures LocalInv(Take(pr, i))
  {
    match i
    case Receive(e, coin) =>
      ReceivedKeepsLocal(pr, pr.received + {e});
      hide LocalInv, Absorb;
      AbsorbKeepsLocal(pr.(received := pr.received + {e}), e, coin);
    case PollNext(coin) =>
      PopKeepsLocal(pr);
      hide LocalInv, Absorb, Pop;
      var (pr1, e) := Polled(pr);
      if e.Some? { AbsorbKeepsLocal(pr1, e.value, coin); }
  }

  /** What a poll comes to once its message is processed: the message on top of the round's stack goes
      back there if it is still early, and is gone for good otherwise; a stale one leaves nothing
      else changed; with an empty stack there is no message. Later rounds are untouched. */
  lemma PollMeaning(pr: Proc, coin: Coin)
    requires LocalInv(pr) && CanPop(pr.node.pending, pr.node.round)
    ensures var (pr1, e) := Polled(pr); var pr' := Take(pr, PollNext(coin));
      var before, after := StackAt(pr.node.pending, pr.node.round), StackAt(pr'.node.pending, pr.node.round);
      && (e.None? <==> before == [])
      && (e.None? ==> pr' == pr1 && after == [])
      && (e.Some? ==> e.value.msg.round == pr.node.round && before == before[..|before| - 1] + [e.value])
      && (e.Some? && IsEarly(pr1.node, e.value) ==> after == before)
      && (e.Some? && !IsEarly(pr1.node, e.value) ==> after == before[..|before| - 1])
      && (e.Some? && IsStale(pr1.node, e.value) ==> pr'.node == pr1.node)
      && (forall k: nat :: k > pr.node.round ==> StackAt(pr'.node.pending, k) == StackAt(pr.node.pending, k))
  {
    PopKeepsLocal(pr);
    PopStacks(pr.node.pending, pr.node.round);
    var (pr1, e) := Polled(pr);
    assert pr1.node.pending.base <= pr1.node.round && Live(pr1.node.current);
    hide LocalInv, Pop, Process, StackAt, Add, IsEarly, IsStale, Live;
    if e.Some? { ProcessedBuffer(pr1.node, e.value, coin); }
  }

  /** An early message goes on its stack; any other leaves the buffer alone. */
  lemma ProcessedBuffer(n: Node, e: Stored, coin: Coin)
    requires Live(n.current) && n.pending.base <= n.round
    ensures var n' := Process(n, e, coin).node;
      && (forall k: nat :: StackAt(n'.pending, k) == StackAt(n.pending, k) + (if IsEarly(n, e) && k == e.msg.round then [e] else []))
      && (IsStale(n, e) ==> n' == n)
  {
    ProcessMeaning(n, e, coin);
    assert IsEarly(n, e) ==> n.pending.base <= e.msg.round;
    hide Process, StackAt, Add, IsEarly, IsStale, Live, Explained;
    if IsEarly(n, e) { AddStacks(n.pending, e.msg.round, e); }
  }

  /** The node after a sequence of inputs, as long as every poll could drain. */
  function Run(start: Proc, inputs: seq<Input>): Option<Proc> {
    if inputs == [] then Some(start)
    else
      var pr := Run(start, inputs[..|inputs| - 1]);
      if pr.Some? && Possible(pr.value, inputs[|inputs| - 1])
      then Some(Take(pr.value, inputs[|inputs| - 1])) else None
  }

  /** From its start a node keeps its invariant over any messages, polls and coins: the accepted
      value is fixed once chosen, no decisive ballot of the current phase exceeds 2f votes, every
      round left has a winning set of exactly 2f + 1, and each round flips its coin at most once. */
  lemma {:induction false} NodeInvariant(inputBit: bool, quorum: QuorumInfo, key: NodeId, inputs: seq<Input>)
    requires Run(NewProc(inputBit, quorum, key), inputs).Some?
    ensures LocalInv(Run(NewProc(inputBit, quorum, key), inputs).value)
  {
    if inputs == [] {
      NewProcLocal(inputBit, quorum, key);
    } else {
      NodeInvariant(inputBit, quorum, key, inputs[..|inputs| - 1]);
      var pr := Run(NewProc(inputBit, quorum, key), inputs[..|inputs| - 1]).value;
      hide LocalInv, Take;
      TakeKeepsLocal(pr, inputs[|inputs| - 1]);
    }
  }

  lemma NewProcLocal(inputBit: bool, quorum: QuorumInfo, key: NodeId)
    ensures LocalInv(NewProc(inputBit, quorum, key))
  {
    NewRoundLive(quorum.f, inputBit);
  }
}
