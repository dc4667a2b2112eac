/** An instance of the reliable broadcast, updating its tracking sets and buffers in place. */
module RbcInstance {
  import opened Quorums
  import opened RbcModel

  /** Which members' echoes and readies were counted, and what was sent. */
  class MessageTracking {
    var receivedEchoes: set<NodeId>
    var receivedReadies: set<NodeId>
    var sentEcho: bool
    var sentReady: bool

    constructor ()
      ensures receivedEchoes == {} && receivedReadies == {} && !sentEcho && !sentReady
    {
      receivedEchoes, receivedReadies := {}, {};
      sentEcho, sentReady := false, false;
    }

    method HandleReceivedEcho(from: NodeId)
      modifies `receivedEchoes
      ensures receivedEchoes == old(receivedEchoes) + {from}
    {
      receivedEchoes := receivedEchoes + {from};
    }

    method HandleReceivedReady(from: NodeId)
      modifies `receivedReadies
      ensures receivedReadies == old(receivedReadies) + {from}
    {
      receivedReadies := receivedReadies + {from};
    }

    method SetSentEcho()
      modifies `sentEcho
      ensures sentEcho
    {
      sentEcho := true;
    }

    method SetSentReady()
      modifies `sentReady
      ensures sentReady
    {
      sentReady := true;
    }
  }

  /** Two first-in first-out buffers: a message that cannot be counted goes to the back of its own. */
  class PendingMessages {
    var echoes: seq<Stored>
    var readies: seq<Stored>

    constructor ()
      ensures echoes == [] && readies == []
    {
      echoes, readies := [], [];
    }

    method QueueMessage(message: Stored)
      requires !message.msg.SendMsg?
      modifies this
      ensures echoes == old(echoes) + (if message.msg.EchoMsg? then [message] else [])
      ensures readies == old(readies) + (if message.msg.ReadyMsg? then [message] else [])
    {
      match message.msg
      case EchoMsg(_) => echoes := echoes + [message];
      case ReadyMsg(_) => readies := readies + [message];
    }

    method PopEcho() returns (message: Option<Stored>)
      modifies `echoes
      ensures message.None? <==> old(echoes) == []
      ensures message.None? ==> echoes == old(echoes)
      ensures message.Some? ==> old(echoes) == [message.value] + echoes
    {
      if echoes == [] {
        return None;
      }
      message := Some(echoes[0]);
      echoes := echoes[1..];
    }

    method PopReady() returns (message: Option<Stored>)
      modifies `readies
      ensures message.None? <==> old(readies) == []
      ensures message.None? ==> readies == old(readies)
      ensures message.Some? ==> old(readies) == [message.value] + readies
    {
      if readies == [] {
        return None;
      }
      message := Some(readies[0]);
      readies := readies[1..];
    }
  }

  /** The node's link to the network: what it has broadcast, in order. */
  class Network {
    var broadcasts: seq<Message>

    constructor ()
      ensures broadcasts == []
    {
      broadcasts := [];
    }

    method Broadcast(message: Message)
      modifies this
      ensures broadcasts == old(broadcasts) + [message]
    {
      broadcasts := broadcasts + [message];
    }
  }

  class ReliableBroadcastInstance {
    const sender: NodeId
    const quorumInfo: QuorumInfo
    var proposedMessages: Option<(Payload, Digest)>
    const messageTracking: MessageTracking
    var reliableBroadcastState: Phase
    const pendingMessages: PendingMessages

    ghost function View(): Instance
      reads this, messageTracking, pendingMessages
    {
      Instance(sender, quorumInfo, proposedMessages,
               messageTracking.receivedEchoes, messageTracking.receivedReadies,
               messageTracking.sentEcho, messageTracking.sentReady,
               reliableBroadcastState, pendingMessages.echoes, pendingMessages.readies)
    }

    constructor (sender: NodeId, quorumInfo: QuorumInfo)
      ensures View() == NewInstance(sender, quorumInfo)
      ensures this.sender == sender && this.quorumInfo == quorumInfo && proposedMessages == None
      ensures reliableBroadcastState == Init && pendingMessages.echoes == [] && pendingMessages.readies == []
      ensures fresh(messageTracking) && fresh(pendingMessages)
    {
      this.sender := sender;
      this.quorumInfo := quorumInfo;
      this.proposedMessages := None;
      this.messageTracking := new MessageTracking();
      this.reliableBroadcastState := Init;
      this.pendingMessages := new PendingMessages();
    }

    method HasPendingMessages() returns (pending: bool)
      ensures pending <==>
        (reliableBroadcastState.Proposed? && pendingMessages.echoes != []) || (reliableBroadcastState.Echoed? && pendingMessages.readies != [])
      ensures pending == HasPending(View()) && (pending <==> Poll(View()).1.Some?)
    {
      match reliableBroadcastState
      case Proposed => pending := pendingMessages.echoes != [];
      case Echoed => pending := pendingMessages.readies != [];
      case _ => pending := false;
    }

    method PollMessage() returns (message: Option<Stored>)
      modifies pendingMessages
      ensures message.Some? <==>
        (reliableBroadcastState.Proposed? && old(pendingMessages.echoes) != []) || (reliableBroadcastState.Echoed? && old(pendingMessages.readies) != [])
      ensures old(pendingMessages.echoes) ==
        (if message.Some? && reliableBroadcastState.Proposed? then [message.value] else []) + pendingMessages.echoes
      ensures old(pendingMessages.readies) ==
        (if message.Some? && reliableBroadcastState.Echoed? then [message.value] else []) + pendingMessages.readies
      ensures (View(), message) == Poll(old(View()))
    {
      match reliableBroadcastState {
        case Proposed => message := pendingMessages.PopEcho();
        case Echoed => message := pendingMessages.PopReady();
        case _ => message := None;
      }
    }

    function GetCurrentDigest(): Option<Digest>
      reads this
    {
      if proposedMessages.Some? then Some(proposedMessages.value.1) else None
    }

    method ProcessMessage(message: Stored, network: Network) returns (result: Result)
      modifies this, messageTracking, pendingMessages, network
      ensures var r := Process(old(View()), message);
        && View() == r.inst && result == r.result
        && network.broadcasts == old(network.broadcasts) + (if r.broadcast.Some? then [r.broadcast.value] else [])
    {
      match message.msg {
        case SendMsg(payload, digest) =>
          if proposedMessages.None? && reliableBroadcastState.Init? {
            proposedMessages := Some((payload, digest));
            network.Broadcast(EchoMsg(digest));
            reliableBroadcastState := Proposed;
            return Progressed(message);
          }
          return MessageIgnored;
        case EchoMsg(digest) =>
          if GetCurrentDigest() == Some(digest) && reliableBroadcastState.Proposed? {
            result := ProcessEcho(message, network);
            return;
          }
        case ReadyMsg(digest) =>
          if GetCurrentDigest() == Some(digest) && reliableBroadcastState.Echoed? {
            result := ProcessReady(message);
            return;
          }
      }
      pendingMessages.QueueMessage(message);
      return MessageQueued;
    }

    /** Count an echo for the proposal, and broadcast Ready once n - 2f members have echoed. */
    method ProcessEcho(message: Stored, network: Network) returns (result: Result)
      requires message.msg.EchoMsg?
      modifies this, messageTracking, network
      ensures var r := CountEcho(old(View()), message);
        && View() == r.inst && result == r.result
        && network.broadcasts == old(network.broadcasts) + (if r.broadcast.Some? then [r.broadcast.value] else [])
    {
      messageTracking.HandleReceivedEcho(message.from);
      if |messageTracking.receivedEchoes| >= quorumInfo.quorumSize - quorumInfo.f && !messageTracking.sentEcho {
        reliableBroadcastState := Echoed;
        network.Broadcast(ReadyMsg(message.msg.digest));
        messageTracking.SetSentEcho();
      }
      return Progressed(message);
    }

    /** Count a ready for the proposal, and finalize once more than 2f members are ready. */
    method ProcessReady(message: Stored) returns (result: Result)
      modifies this, messageTracking
      ensures var r := CountReady(old(View()), message);
        View() == r.inst && result == r.result && r.broadcast == None
    {
      messageTracking.HandleReceivedReady(message.from);
      if |messageTracking.receivedReadies| > 2 * quorumInfo.f && !messageTracking.sentReady {
        reliableBroadcastState := Ready;
        messageTracking.SetSentReady();
        return Finalized;
      }
      return Progressed(message);
    }

    method FinalizeBroadcast() returns (outcome: Outcome)
      ensures outcome == Finalize(View())
    {
      if reliableBroadcastState.Ready? {
        if proposedMessages.Some? {
          return Delivered(proposedMessages.value.0, proposedMessages.value.1);
        }
        return NoProposedMessages;
      }
      return NotReadyToFinalize;
    }
  }
}
