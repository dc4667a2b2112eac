/** An instance of the binary agreement, updating its round and its buffer in place. */
module AbaInstance {
  import opened Quorums
  import opened AbaMessages
  import opened AbaRound
  import opened AbaRoundData
  import opened AbaPending
  import opened AbaNode

  /** The buffer of early messages, a deque of per-round stacks. */
  class PendingMessages {
    var currentRoundBase: nat
    var perRoundMessages: seq<seq<Stored>>

    ghost function View(): Pending
      reads this
    {
      Pending(currentRoundBase, perRoundMessages)
    }

    constructor ()
      ensures View() == Pending(0, [])
    {
      currentRoundBase := 0;
      perRoundMessages := [];
    }

    method AddMessage(round: nat, message: Stored)
      modifies this
      ensures View() == Add(old(View()), round, message)
    {
      if round < currentRoundBase {
        return;
      }
      var roundIndex := round - currentRoundBase;
      while |perRoundMessages| <= roundIndex
        invariant currentRoundBase == old(currentRoundBase)
        invariant |old(perRoundMessages)| <= |perRoundMessages|
        invariant |perRoundMessages| <= roundIndex + 1 || perRoundMessages == old(perRoundMessages)
        invariant perRoundMessages == Pad(old(perRoundMessages), |perRoundMessages|)
      {
        perRoundMessages := perRoundMessages + [[]];
      }
      assert perRoundMessages == Pad(old(perRoundMessages), roundIndex + 1);
      perRoundMessages := perRoundMessages[roundIndex := perRoundMessages[roundIndex] + [message]];
    }

    method PopMessage(round: nat) returns (message: Option<Stored>)
      requires CanPop(View(), round)
      modifies this
      ensures (View(), message) == Pop(old(View()), round)
    {
      if round > currentRoundBase {
        var roundsToSkip := round - currentRoundBase;
        perRoundMessages := perRoundMessages[roundsToSkip..];
        currentRoundBase := round;
      }
      if perRoundMessages == [] || perRoundMessages[0] == [] {
        return None;
      }
      var front := perRoundMessages[0];
      perRoundMessages := perRoundMessages[0 := front[..|front| - 1]];
      return Some(front[|front| - 1]);
    }
  }

  /** The node's link to the network: what it has broadcast, in order. */
  class Network {
    var broadcasts: seq<Message>

    constructor ()
      ensures broadcasts == []
    {
      broadcasts := [];
    }

    method BroadcastMessage(message: Message)
      modifies this
      ensures broadcasts == old(broadcasts) + [message]
    {
      broadcasts := broadcasts + [message];
    }
  }

  ghost function Views(rounds: seq<RoundData>): seq<Round>
    reads rounds
  {
    if rounds == [] then [] else Views(rounds[..|rounds| - 1]) + [rounds[|rounds| - 1].View()]
  }

  predicate Confirms(m: Stored, vs: seq<bool>) {
    m.msg.body.Conf? && m.msg.body.feasible == vs
  }

  class AsyncBinaryAgreement {
    var round: nat
    const inputBit: bool
    const quorumInfo: QuorumInfo
    var currentRound: RoundData
    var previousRounds: seq<RoundData>
    const pendingMessages: PendingMessages
    // The threshold keys: combining shares with the public key set, and the owner of the private part.
    const combine: map<NodeId, Share> -> Coin
    const key: NodeId

    ghost predicate Valid()
      reads this, currentRound
    {
      currentRound.Valid() && currentRound.combine == combine && currentRound !in previousRounds
    }

    ghost function View(): Node
      reads this, currentRound, previousRounds, pendingMessages
    {
      Node(round, inputBit, quorumInfo, key, currentRound.View(), Views(previousRounds), pendingMessages.View())
    }

    constructor (inputBit: bool, quorumInfo: QuorumInfo, combine: map<NodeId, Share> -> Coin, key: NodeId)
      ensures Valid() && View() == NewNode(inputBit, quorumInfo, key)
      ensures this.inputBit == inputBit && this.quorumInfo == quorumInfo && this.combine == combine && this.key == key
      ensures pendingMessages.View() == Pending(0, [])
      ensures round == 0 && previousRounds == [] && currentRound.estimate == inputBit && currentRound.confs == []
      ensures fresh(currentRound) && fresh(pendingMessages)
    {
      this.round := 0;
      this.inputBit := inputBit;
      this.quorumInfo := quorumInfo;
      this.currentRound := new RoundData(quorumInfo.f, combine, inputBit);
      this.previousRounds := [];
      this.pendingMessages := new PendingMessages();
      this.combine := combine;
      this.key := key;
    }

    method AdvanceToNextRound(nextEstimate: bool)
      requires Valid()
      modifies this
      ensures Valid() && fresh(currentRound) && currentRound.confs == []
      ensures previousRounds == old(previousRounds) + [old(currentRound)]
      ensures View() == AdvanceRound(old(View()), nextEstimate)
    {
      var newRound := new RoundData(quorumInfo.f, combine, nextEstimate);
      ghost var rounds := previousRounds + [currentRound];
      assert rounds[..|rounds| - 1] == previousRounds;
      previousRounds := previousRounds + [currentRound];
      currentRound := newRound;
      round := round + 1;
    }

    method Poll() returns (message: Option<Stored>)
      requires Valid() && CanPop(View().pending, round)
      modifies pendingMessages
      ensures Valid()
      ensures var (p, e) := Pop(old(View()).pending, round); View() == old(View()).(pending := p) && message == e
    {
      message := pendingMessages.PopMessage(round);
    }

    /** Hand a vote of the current round to the round. */
    method AcceptVote(message: Stored) returns (verdict: Verdict, ghost coin: Coin)
      requires Valid()
      modifies currentRound
      ensures Valid()
      ensures var (rd, v) := Accept(old(View()).current, message.from, BallotOf(message.msg.body), coin);
        View() == old(View()).(current := rd) && verdict == v
      ensures message.msg.body.Conf? ==>
        coin == combine(Given(old(currentRound.SharesFor(message.msg.body.feasible)), message.from, message.msg.body.share))
      ensures forall vs ::
        currentRound.SharesFor(vs) ==
          if Confirms(message, vs) && old(currentRound.state).CollectingConf?
          then Given(old(currentRound.SharesFor(vs)), message.from, message.msg.body.share)
          else old(currentRound.SharesFor(vs))
    {
      hide Accept, Given, SharesOf, Views, Stores, Logged;
      coin := CombineFailed;
      match message.msg.body {
        case Val(estimate) => verdict := currentRound.AcceptEstimate(message.from, estimate);
        case Aux(accepted) => verdict := currentRound.AcceptAuxiliary(message.from, accepted);
        case Conf(feasible, share) => verdict, coin := currentRound.AcceptConfirmation(message.from, feasible, share);
        case Finish(value) => verdict := currentRound.AcceptFinish(message.from, value);
      }
    }

    /** Act on the round's verdict. */
    method Act(message: Stored, verdict: Verdict, network: Network) returns (result: Result)
      requires Valid()
      modifies this, pendingMessages, network
      ensures Valid()
      ensures currentRound == old(currentRound) || fresh(currentRound)
      ensures var r := React(old(View()), message, verdict);
        && View() == r.node && result == r.result
        && network.broadcasts == old(network.broadcasts) + (if r.broadcast.Some? then [r.broadcast.value] else [])
    {
      hide Views;
      match verdict {
        case Accepted =>
          result := Processed;
        case Failed(nextEstimate) =>
          AdvanceToNextRound(nextEstimate);
          result := Processed;
        case Finalized(_) =>
          result := Decided;
        case BroadcastEst(estimate) =>
          network.BroadcastMessage(Message(round, Val(estimate)));
          result := Processed;
        case BroadcastAux(acceptedEstimates) =>
          network.BroadcastMessage(Message(round, Aux(acceptedEstimates)));
          result := Processed;
        case BroadcastConf(feasibleValues) =>
          var partialSignature := Signed(key, round);
          network.BroadcastMessage(Message(round, Conf(feasibleValues, partialSignature)));
          result := Processed;
        case BroadcastFinalized(value) =>
          network.BroadcastMessage(Message(round, Finish(value)));
          result := Processed;
        case Queue =>
          pendingMessages.AddMessage(round, message);
          result := MessageQueued;
        case Ignored =>
          result := MessageIgnored;
        case AlreadyAccepted =>
          result := MessageIgnored;
      }
    }

    /** Process a message: exactly the specified reaction, on the coin that the round's shares for
        the confirmed values yield, the message's own among them; and only a Conf in time adds its
        share, to those for its values. */
    method ProcessMessage(message: Stored, network: Network) returns (result: Result, ghost coin: Coin)
      requires Valid()
      modifies this, currentRound, pendingMessages, network
      ensures Valid()
      ensures currentRound == old(currentRound) || fresh(currentRound)
      ensures var r := Process(old(View()), message, coin);
        && View() == r.node && result == r.result
        && network.broadcasts == old(network.broadcasts) + (if r.broadcast.Some? then [r.broadcast.value] else [])
      ensures message.msg.body.Conf? && message.msg.round == old(round) ==>
        coin == combine(Given(old(currentRound.SharesFor(message.msg.body.feasible)), message.from, message.msg.body.share))
      ensures forall vs ::
        old(currentRound).SharesFor(vs) ==
          if Confirms(message, vs) && message.msg.round == old(round) && old(currentRound.state).CollectingConf?
          then Given(old(currentRound.SharesFor(vs)), message.from, message.msg.body.share)
          else old(currentRound.SharesFor(vs))
    {
      coin := CombineFailed;
      hide Views, Accept, React;
      if message.msg.round > round {
        pendingMessages.AddMessage(message.msg.round, message);
        return MessageQueued, coin;
      } else if message.msg.round < round {
        return MessageIgnored, coin;
      }
      var verdict;
      verdict, coin := AcceptVote(message);
      result := Act(message, verdict, network);
    }
  }
}
