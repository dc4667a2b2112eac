/** When a node can poll. Every run of a node is a history of uses of its buffer, so that what is
    proved about all histories holds of every node. */
module AbaPolling {
  import opened Quorums
  import opened AbaMessages
  import opened AbaRound
  import opened AbaPending
  import opened AbaNode
  import opened AbaBoundary

  /** What processing a message does with the buffer. */
  function UsesOf(n: Node, e: Stored, coin: Coin): seq<Use> {
    var r := Process(n, e, coin);
    if r.result.MessageQueued? then [if e.msg.round > n.round then Early(e) else Requeue(e)]
    else if r.node.round > n.round then [NextRound]
    else []
  }

  /** The message that an input makes the node queue, if any. */
  function QueuedOn(pr: Proc, i: Input): multiset<Stored>
    requires Possible(pr, i)
  {
    match i
    case Receive(e, coin) => QueuedNow(pr.node, e, coin)
    case PollNext(coin) =>
      var (pr1, e) := Polled(pr);
      if e.Some? then QueuedNow(pr1.node, e.value, coin) else multiset{}
  }

  function QueuedNow(n: Node, e: Stored, coin: Coin): multiset<Stored> {
    if Process(n, e, coin).result.MessageQueued? then multiset{e} else multiset{}
  }

  /** Every message that the node reported queued over a run. */
  function QueuedMessages(start: Proc, inputs: seq<Input>): multiset<Stored>
    requires Run(start, inputs).Some?
  {
    if inputs == [] then multiset{}
    else
      var before := inputs[..|inputs| - 1];
      QueuedMessages(start, before) + QueuedOn(Run(start, before).value, inputs[|inputs| - 1])
  }

  /** The history leaves a buffer with this round and deque, to which these messages were added. */
  ghost predicate Tracks(us: seq<Use>, n: Node, added: multiset<Stored>) {
    && History(us).Some?
    && History(us).value.round == n.round && History(us).value.pending == n.pending
    && History(us).value.added == added
  }

  lemma OneMoreUse(us: seq<Use>, u: Use)
    requires History(us).Some? && Usable(History(us).value, u)
    ensures History(us + [u]) == Some(After(History(us).value, u))
  {
    assert (us + [u])[..|us + [u]| - 1] == us;
  }

  lemma ProcessTracks(us: seq<Use>, n: Node, e: Stored, coin: Coin, added: multiset<Stored>)
    requires Tracks(us, n, added)
    ensures Tracks(us + UsesOf(n, e, coin), Process(n, e, coin).node, added + QueuedNow(n, e, coin))
  {
    hide Accept, History, Add;
    var more := UsesOf(n, e, coin);
    if more == [] {
      assert us + more == us;
    } else {
      OneMoreUse(us, more[0]);
    }
  }

  lemma PollTracks(us: seq<Use>, pr: Proc, added: multiset<Stored>)
    requires Tracks(us, pr.node, added) && CanPop(pr.node.pending, pr.node.round)
    ensures Tracks(us + [Poll], Polled(pr).0.node, added)
  {
    hide History;
    OneMoreUse(us, Poll);
  }

  lemma TakeTracks(us: seq<Use>, pr: Proc, i: Input, added: multiset<Stored>) returns (us': seq<Use>)
    requires Tracks(us, pr.node, added) && Possible(pr, i)
    ensures Tracks(us', Take(pr, i).node, added + QueuedOn(pr, i))
  {
    hide Process, UsesOf, QueuedNow, Tracks;
    match i
    case Receive(e, coin) =>
      ProcessTracks(us, pr.node, e, coin, added);
      us' := us + UsesOf(pr.node, e, coin);
    case PollNext(coin) =>
      var (pr1, e) := Polled(pr);
      PollTracks(us, pr, added);
      us' := us + [Poll];
      if e.Some? {
        ProcessTracks(us', pr1.node, e.value, coin, added);
        us' := us' + UsesOf(pr1.node, e.value, coin);
      } else {
        assert added + QueuedOn(pr, i) == added;
      }
  }

  /** Every run of a node is a history of its buffer, with the invariant that histories keep: the
      deque is the map of stacks, and no message queued is lost or duplicated. */
  lemma {:induction false} RunIsHistory(inputBit: bool, quorum: QuorumInfo, key: NodeId, inputs: seq<Input>)
    returns (us: seq<Use>)
    requires Run(NewProc(inputBit, quorum, key), inputs).Some?
    ensures var start := NewProc(inputBit, quorum, key);
      Tracks(us, Run(start, inputs).value.node, QueuedMessages(start, inputs)) && BufferInv(History(us).value)
  {
    var start := NewProc(inputBit, quorum, key);
    if inputs == [] {
      us := [];
    } else {
      var before := inputs[..|inputs| - 1];
      us := RunIsHistory(inputBit, quorum, key, before);
      hide Tracks, Take, QueuedOn;
      us := TakeTracks(us, Run(start, before).value, inputs[|inputs| - 1], QueuedMessages(start, before));
    }
    assert Tracks(us, Run(start, inputs).value.node, QueuedMessages(start, inputs));
    BufferRefinesMap(us) by { assert History(us).Some?; }
  }

  /** A node can poll exactly when its buffer's base has reached its round or it ever queued a
      message of the round before or of a later one. */
  lemma NodePollIff(inputBit: bool, quorum: QuorumInfo, key: NodeId, inputs: seq<Input>, coin: Coin)
    requires Run(NewProc(inputBit, quorum, key), inputs).Some?
    ensures var start := NewProc(inputBit, quorum, key);
      var pr := Run(start, inputs).value;
      Possible(pr, PollNext(coin)) <==>
        pr.node.pending.base == pr.node.round ||
        exists e :: e in QueuedMessages(start, inputs) && e.msg.round + 1 >= pr.node.round
  {
    var us := RunIsHistory(inputBit, quorum, key, inputs);
    PollDrainsIff(us);
    hide Run, QueuedMessages, History, BufferInv;
  }

  /** A timely message leaves the buffer alone. */
  lemma TimelyKeepsBuffer(pr: Proc, e: Stored, coin: Coin)
    requires e.msg.round == pr.node.round && BallotRank(BallotOf(e.msg.body)) == PhaseRank(pr.node.current.phase)
    ensures Take(pr, Receive(e, coin)).node.pending == pr.node.pending
    ensures Take(pr, Receive(e, coin)).node.quorum == pr.node.quorum
  {
    hide Decide, Flips;
    DecideAdvances(Record(pr.node.current, e.from, BallotOf(e.msg.body)), BallotOf(e.msg.body), coin);
  }

  const SOLE := Committee(QuorumInfo(0, 1, [0]), {})

  /** The sole member's own message for phase `j` of round 0. */
  function Own(j: nat): Stored {
    Stored(0, Message(0, BodyFor(0, 0, j, true)))
  }

  lemma OwnVote(pr: Proc, j: nat) returns (pr': Proc)
    requires j < 3 && At(SOLE, pr, 0, j, true, {}) && pr.node.quorum == SOLE.info
    ensures pr' == Take(pr, Hears(Own(j), false)) && pr'.node.pending == pr.node.pending && pr'.node.quorum == SOLE.info
    ensures if j < 2 then At(SOLE, pr', 0, j + 1, true, {}) else pr'.node.round == 1
  {
    pr' := Take(pr, Hears(Own(j), false));
    TimelyKeepsBuffer(pr, Own(j), Combined(false));
    hide Take, Holds;
    if j < 2 {
      LastVote(SOLE, pr, 0, j, true, {}, Own(j), false);
    } else {
      LostFlip(SOLE, pr, 0, true, {}, Own(j), false);
    }
  }

  lemma RunOf(start: Proc, inputs: seq<Input>, i: Input)
    requires Run(start, inputs).Some? && Possible(Run(start, inputs).value, i)
    ensures Run(start, inputs + [i]) == Some(Take(Run(start, inputs).value, i))
  {
    assert (inputs + [i])[..|inputs + [i]| - 1] == inputs;
  }

  /** The first `j` of its own messages, in order. */
  lemma {:induction false} OwnVotes(start: Proc, j: nat) returns (inputs: seq<Input>)
    requires j <= 3 && At(SOLE, start, 0, 0, true, {}) && start.node.quorum == SOLE.info
    ensures Run(start, inputs).Some? && Run(start, inputs).value.node.pending == start.node.pending
    ensures var pr := Run(start, inputs).value;
      pr.node.quorum == SOLE.info && if j < 3 then At(SOLE, pr, 0, j, true, {}) else pr.node.round == 1
  {
    if j == 0 {
      inputs := [];
    } else {
      hide Run, Take, At, Own;
      inputs := OwnVotes(start, j - 1);
      var pr := OwnVote(Run(start, inputs).value, j - 1);
      RunOf(start, inputs, Hears(Own(j - 1), false));
      inputs := inputs + [Hears(Own(j - 1), false)];
    }
  }

  /** A committee of one that leaves round 0 on a lost coin: its own Val, Aux and Conf arrive in time,
      so that it never queues anything, and in round 1 it cannot poll. */
  lemma NodePollFails(coin: Coin) returns (inputs: seq<Input>)
    ensures NewQuorumInfo(1, 0, [0]) == Some(SOLE.info)
    ensures var start := NewProc(true, SOLE.info, 0);
      Run(start, inputs).Some? && Run(start, inputs).value.node.round == 1 && !Possible(Run(start, inputs).value, PollNext(coin))
  {
    var start := NewProc(true, SOLE.info, 0);
    assert At(SOLE, start, 0, 0, true, {}) && start.node.pending == Pending(0, []);
    hide Run, At;
    inputs := OwnVotes(start, 3);
  }
}
