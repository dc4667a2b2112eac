/** The messages of the asynchronous binary agreement and the network's record of them. */
module AbaMessages {
  import opened Quorums

  /** A partial signature: a member's share over a round number, or anything else a faulty
      member may put in its place. */
  datatype Share = Signed(signer: NodeId, round: nat) | Forged(bits: nat)

  datatype Body =
    | Val(estimate: bool)
    | Aux(accepted: seq<bool>)
    | Conf(feasible: seq<bool>, share: Share)
    | Finish(value: bool)

  datatype Message = Message(round: nat, body: Body)

  /** A message with the authentic identity of its sender. */
  datatype Stored = Stored(from: NodeId, msg: Message)

  /** What a message votes for: its body without the share. */
  datatype Ballot = ForVal(b: bool) | ForAux(vs: seq<bool>) | ForConf(vs: seq<bool>) | ForFinish(b: bool)

  function BallotOf(body: Body): Ballot {
    match body
    case Val(b) => ForVal(b)
    case Aux(vs) => ForAux(vs)
    case Conf(vs, _) => ForConf(vs)
    case Finish(b) => ForFinish(b)
  }

  /** `from` has broadcast this ballot in round `round`. */
  ghost predicate Said(sent: multiset<Stored>, from: NodeId, round: nat, ballot: Ballot) {
    exists e: Stored :: e in sent && e.from == from && e.msg.round == round && BallotOf(e.msg.body) == ballot
  }

  /** The members that have broadcast this ballot in round `round`. */
  ghost function Backers(c: Committee, sent: multiset<Stored>, round: nat, ballot: Ballot): set<NodeId> {
    set id | id in c.Members() && Said(sent, id, round, ballot)
  }

  lemma BackersGrow(c: Committee, sent: multiset<Stored>, sent': multiset<Stored>, round: nat, ballot: Ballot)
    requires sent <= sent'
    ensures Backers(c, sent, round, ballot) <= Backers(c, sent', round, ballot)
    ensures |Backers(c, sent, round, ballot)| <= |Backers(c, sent', round, ballot)|
  {
    SubsetSize(Backers(c, sent, round, ballot), Backers(c, sent', round, ballot));
  }

  /** A set of members that all cast a ballot is no larger than the set of its backers. */
  lemma BackersAtLeast(c: Committee, sent: multiset<Stored>, round: nat, ballot: Ballot, q: set<NodeId>)
    requires q <= c.Members()
    requires forall id :: id in q ==> Said(sent, id, round, ballot)
    ensures |q| <= |Backers(c, sent, round, ballot)|
  {
    SubsetSize(q, Backers(c, sent, round, ballot));
  }
}
