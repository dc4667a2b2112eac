/** The round state machine of the binary agreement, updating its vote stores in place. */
module AbaRoundData {
  import opened Quorums
  import opened AbaMessages
  import opened AbaRound

  /** A Conf as it arrived: its sender, the values it confirms and the partial signature it carries. */
  datatype Confirmation = Confirmation(sender: NodeId, values: seq<bool>, share: Share)

  /** The shares with one more offered: a voter's first share stays. */
  function Given(shares: map<NodeId, Share>, sender: NodeId, share: Share): map<NodeId, Share> {
    if sender in shares then shares else shares[sender := share]
  }

  /** The shares for these values that a sequence of confirmations leaves. */
  function SharesIn(log: seq<Confirmation>, values: seq<bool>): map<NodeId, Share> {
    if log == [] then map[]
    else
      var before := SharesIn(log[..|log| - 1], values);
      var last := log[|log| - 1];
      if last.values == values then Given(before, last.sender, last.share) else before
  }

  /** The first confirmation of these values by this sender. */
  predicate IsFirst(log: seq<Confirmation>, values: seq<bool>, sender: NodeId, i: int) {
    && 0 <= i < |log| && log[i].values == values && log[i].sender == sender
    && forall j :: 0 <= j < i ==> log[j].values != values || log[j].sender != sender
  }

  /** The share kept for a voter is the one that came with its first confirmation of the values. */
  lemma {:induction false} FirstShareStays(log: seq<Confirmation>, values: seq<bool>, sender: NodeId)
    ensures sender in SharesIn(log, values) <==> exists i :: 0 <= i < |log| && log[i].values == values && log[i].sender == sender
    ensures forall i :: IsFirst(log, values, sender, i) ==>
      sender in SharesIn(log, values) && SharesIn(log, values)[sender] == log[i].share
  {
    if log != [] {
      var before := log[..|log| - 1];
      FirstShareStays(before, values, sender);
      assert forall i :: 0 <= i < |before| ==> before[i] == log[i];
      assert forall i :: IsFirst(log, values, sender, i) && i < |before| ==> IsFirst(before, values, sender, i);
    }
  }

  type Shares = map<seq<bool>, map<NodeId, Share>>

  function SharesOf(conf: Shares, vs: seq<bool>): map<NodeId, Share> {
    if vs in conf then conf[vs] else map[]
  }

  /** The four stores are one relation from ballots to voters. */
  ghost predicate Stores(votes: map<Ballot, set<NodeId>>, vals: map<bool, set<NodeId>>, aux: map<seq<bool>, set<NodeId>>,
                         conf: Shares, finish: map<bool, set<NodeId>>)
  {
    && (forall b :: Votes(votes, ForVal(b)) == Votes(vals, b))
    && (forall vs :: Votes(votes, ForAux(vs)) == Votes(aux, vs))
    && (forall vs :: Votes(votes, ForConf(vs)) == SharesOf(conf, vs).Keys)
    && (forall b :: Votes(votes, ForFinish(b)) == Votes(finish, b))
  }

  lemma StoreVal(votes: map<Ballot, set<NodeId>>, vals: map<bool, set<NodeId>>, aux: map<seq<bool>, set<NodeId>>,
                 conf: Shares, finish: map<bool, set<NodeId>>, sender: NodeId, key: bool)
    requires Stores(votes, vals, aux, conf, finish)
    ensures Votes(vals, key) == Votes(votes, ForVal(key))
    ensures Stores(Cast(votes, ForVal(key), sender), Cast(vals, key, sender), aux, conf, finish)
    ensures Votes(Cast(vals, key, sender), key) == Votes(Cast(votes, ForVal(key), sender), ForVal(key))
  {
    hide Votes, Cast;
  }

  lemma StoreAux(votes: map<Ballot, set<NodeId>>, vals: map<bool, set<NodeId>>, aux: map<seq<bool>, set<NodeId>>,
                 conf: Shares, finish: map<bool, set<NodeId>>, sender: NodeId, key: seq<bool>)
    requires Stores(votes, vals, aux, conf, finish)
    ensures Votes(aux, key) == Votes(votes, ForAux(key))
    ensures Stores(Cast(votes, ForAux(key), sender), vals, Cast(aux, key, sender), conf, finish)
    ensures Votes(Cast(aux, key, sender), key) == Votes(Cast(votes, ForAux(key), sender), ForAux(key))
  {
    hide Votes, Cast;
  }

  lemma StoreFinish(votes: map<Ballot, set<NodeId>>, vals: map<bool, set<NodeId>>, aux: map<seq<bool>, set<NodeId>>,
                    conf: Shares, finish: map<bool, set<NodeId>>, sender: NodeId, key: bool)
    requires Stores(votes, vals, aux, conf, finish)
    ensures Votes(finish, key) == Votes(votes, ForFinish(key))
    ensures Stores(Cast(votes, ForFinish(key), sender), vals, aux, conf, Cast(finish, key, sender))
    ensures Votes(Cast(finish, key, sender), key) == Votes(Cast(votes, ForFinish(key), sender), ForFinish(key))
  {
    hide Votes, Cast;
  }

  lemma StoreConf(votes: map<Ballot, set<NodeId>>, vals: map<bool, set<NodeId>>, aux: map<seq<bool>, set<NodeId>>,
                  conf: Shares, finish: map<bool, set<NodeId>>, sender: NodeId, key: seq<bool>, share: Share)
    requires Stores(votes, vals, aux, conf, finish)
    ensures SharesOf(conf, key).Keys == Votes(votes, ForConf(key))
    ensures sender !in SharesOf(conf, key) ==>
      var conf' := conf[key := SharesOf(conf, key)[sender := share]];
      var votes' := Cast(votes, ForConf(key), sender);
      && Stores(votes', vals, aux, conf', finish)
      && |SharesOf(conf', key)| == |Votes(votes', ForConf(key))|
  {
    hide Votes, Cast;
    var conf' := conf[key := SharesOf(conf, key)[sender := share]];
    assert SharesOf(conf', key).Keys == SharesOf(conf, key).Keys + {sender};
    assert |SharesOf(conf', key)| == |SharesOf(conf', key).Keys|;
  }

  /** The shares kept are those that the sequence of confirmations leaves. */
  ghost predicate Logged(conf: Shares, log: seq<Confirmation>) {
    forall vs :: SharesOf(conf, vs) == SharesIn(log, vs)
  }

  /** The shares with one more confirmation's. */
  function WithShare(conf: Shares, c: Confirmation): Shares {
    if c.sender in SharesOf(conf, c.values) then conf
    else conf[c.values := SharesOf(conf, c.values)[c.sender := c.share]]
  }

  lemma OneMoreLogged(conf: Shares, log: seq<Confirmation>, c: Confirmation)
    requires Logged(conf, log)
    ensures Logged(WithShare(conf, c), log + [c])
    ensures forall vs ::
      SharesOf(WithShare(conf, c), vs) == if vs == c.values then Given(SharesOf(conf, vs), c.sender, c.share) else SharesOf(conf, vs)
  {
    assert (log + [c])[..|log + [c]| - 1] == log;
  }

  class RoundData {
    var state: Phase
    const f: nat
    // Combining the shares of a winning set and hashing the result, or failing to combine.
    const combine: map<NodeId, Share> -> Coin
    var estimate: bool
    var valuesR: set<bool>
    var receivedVals: map<bool, set<NodeId>>
    var broadcastEstimates: set<bool>
    var receivedAux: map<seq<bool>, set<NodeId>>
    var receivedConf: map<seq<bool>, map<NodeId, Share>>
    var receivedFinish: map<bool, set<NodeId>>
    var broadcastFinish: set<bool>

    // The four stores seen as one relation from ballots to voters.
    ghost var votes: map<Ballot, set<NodeId>>
    // Every Conf that came while they were collected.
    ghost var confs: seq<Confirmation>

    ghost predicate Valid()
      reads `votes, `receivedVals, `receivedAux, `receivedConf, `receivedFinish, `confs
    {
      Stores(votes, receivedVals, receivedAux, receivedConf, receivedFinish) && Logged(receivedConf, confs)
    }

    function SharesFor(vs: seq<bool>): map<NodeId, Share>
      reads `receivedConf
    {
      SharesOf(receivedConf, vs)
    }

    ghost function View(): Round
      reads this
    {
      Round(f, state, estimate, valuesR, broadcastEstimates, broadcastFinish, votes)
    }

    constructor (f: nat, combine: map<NodeId, Share> -> Coin, estimate: bool)
      ensures Valid() && View() == NewRound(f, estimate) && this.combine == combine && confs == []
    {
      this.state := CollectingVal;
      this.f := f;
      this.combine := combine;
      this.estimate := estimate;
      this.valuesR, this.broadcastEstimates, this.broadcastFinish := {}, {}, {};
      this.receivedVals, this.receivedAux, this.receivedConf, this.receivedFinish := map[], map[], map[], map[];
      this.votes, this.confs := map[], [];
    }

    /** One store's insertion: the new vote count, or nothing for a repeated voter. */
    method InsertVal(sender: NodeId, key: bool) returns (votesFor: Option<nat>)
      requires Valid()
      modifies `receivedVals, `votes
      ensures Valid()
      ensures votesFor.None? <==> sender in Votes(old(votes), ForVal(key))
      ensures votesFor.None? ==> View() == old(View())
      ensures votesFor.Some? ==>
        View() == Record(old(View()), sender, ForVal(key)) && votesFor.value == Count(View(), ForVal(key))
    {
      StoreVal(votes, receivedVals, receivedAux, receivedConf, receivedFinish, sender, key);
      hide Logged, Stores, Votes, Cast;
      if sender in Votes(receivedVals, key) {
        return None;
      }
      receivedVals := Cast(receivedVals, key, sender);
      votes := Cast(votes, ForVal(key), sender);
      return Some(|Votes(receivedVals, key)|);
    }

    method AcceptEstimate(sender: NodeId, estimate: bool) returns (r: Verdict)
      requires Valid()
      modifies `state, `valuesR, `broadcastEstimates, `receivedVals, `votes
      ensures Valid()
      ensures forall coin :: (View(), r) == Accept(old(View()), sender, ForVal(estimate), coin)
    {
      match state
      case CollectingVal => r := InsertEstimate(sender, estimate);
      case _ => r := Ignored;
    }

    method InsertEstimate(sender: NodeId, estimate: bool) returns (r: Verdict)
      requires Valid() && state.CollectingVal?
      modifies `state, `valuesR, `broadcastEstimates, `receivedVals, `votes
      ensures Valid()
      ensures sender in Votes(old(votes), ForVal(estimate)) ==> View() == old(View()) && r == AlreadyAccepted
      ensures sender !in Votes(old(votes), ForVal(estimate)) ==>
        (View(), r) == DecideVal(Record(old(View()), sender, ForVal(estimate)), estimate)
    {
      var inserted := InsertVal(sender, estimate);
      if inserted.None? {
        return AlreadyAccepted;
      }
      var currentVotes := inserted.value;
      hide Record, Valid, Elements, Votes, Stores, Logged, Cast;
      if currentVotes > 2 * f {
        valuesR := valuesR + {estimate};
        state := CollectingAux;
        return BroadcastAux(Elements(valuesR));
      }
      if currentVotes > f && estimate !in broadcastEstimates {
        broadcastEstimates := broadcastEstimates + {estimate};
        return BroadcastEst(estimate);
      }
      return Accepted;
    }

    /** One store's insertion: the new vote count, or nothing for a repeated voter. */
    method InsertAuxVote(sender: NodeId, key: seq<bool>) returns (votesFor: Option<nat>)
      requires Valid()
      modifies `receivedAux, `votes
      ensures Valid()
      ensures votesFor.None? <==> sender in Votes(old(votes), ForAux(key))
      ensures votesFor.None? ==> View() == old(View())
      ensures votesFor.Some? ==>
        View() == Record(old(View()), sender, ForAux(key)) && votesFor.value == Count(View(), ForAux(key))
    {
      StoreAux(votes, receivedVals, receivedAux, receivedConf, receivedFinish, sender, key);
      hide Logged, Stores, Votes, Cast;
      if sender in Votes(receivedAux, key) {
        return None;
      }
      receivedAux := Cast(receivedAux, key, sender);
      votes := Cast(votes, ForAux(key), sender);
      return Some(|Votes(receivedAux, key)|);
    }

    method AcceptAuxiliary(sender: NodeId, acceptedEstimates: seq<bool>) returns (r: Verdict)
      requires Valid()
      modifies `state, `receivedAux, `votes
      ensures Valid()
      ensures forall coin :: (View(), r) == Accept(old(View()), sender, ForAux(acceptedEstimates), coin)
    {
      match state
      case CollectingAux => r := InsertAux(sender, acceptedEstimates);
      case CollectingVal => r := Queue;
      case _ => r := Ignored;
    }

    method InsertAux(sender: NodeId, acceptedEstimates: seq<bool>) returns (r: Verdict)
      requires Valid() && state.CollectingAux?
      modifies `state, `receivedAux, `votes
      ensures Valid()
      ensures forall coin :: (View(), r) == Accept(old(View()), sender, ForAux(acceptedEstimates), coin)
    {
      var inserted := InsertAuxVote(sender, acceptedEstimates);
      if inserted.None? {
        return AlreadyAccepted;
      }
      var values := set b | b in acceptedEstimates;
      CoversIsSubset(valuesR, acceptedEstimates);
      hide Record, Valid, Covers;
      if inserted.value > 2 * f && (valuesR >= values || valuesR == values) {
        state := CollectingConf;
        return BroadcastConf(Elements(valuesR));
      }
      return Accepted;
    }

    /** The Conf store's insertion keeps the share beside its voter. */
    method InsertConf(sender: NodeId, key: seq<bool>, share: Share) returns (votesFor: Option<nat>)
      requires Stores(votes, receivedVals, receivedAux, receivedConf, receivedFinish)
      modifies `receivedConf, `votes
      ensures Stores(votes, receivedVals, receivedAux, receivedConf, receivedFinish)
      ensures votesFor.None? <==> sender in Votes(old(votes), ForConf(key))
      ensures votesFor.None? ==> View() == old(View())
      ensures votesFor.Some? ==>
        View() == Record(old(View()), sender, ForConf(key)) && votesFor.value == Count(View(), ForConf(key))
      ensures receivedConf == WithShare(old(receivedConf), Confirmation(sender, key, share))
    {
      StoreConf(votes, receivedVals, receivedAux, receivedConf, receivedFinish, sender, key, share);
      hide Stores, Votes, Cast, SharesOf;
      if sender in SharesFor(key) {
        return None;
      }
      receivedConf := receivedConf[key := SharesFor(key)[sender := share]];
      votes := Cast(votes, ForConf(key), sender);
      return Some(|SharesFor(key)|);
    }

    /** The same, with the confirmation logged. */
    method InsertShare(sender: NodeId, key: seq<bool>, share: Share) returns (votesFor: Option<nat>)
      requires Valid()
      modifies `receivedConf, `votes, `confs
      ensures Valid() && confs == old(confs) + [Confirmation(sender, key, share)]
      ensures votesFor.None? <==> sender in Votes(old(votes), ForConf(key))
      ensures votesFor.None? ==> View() == old(View())
      ensures votesFor.Some? ==>
        View() == Record(old(View()), sender, ForConf(key)) && votesFor.value == Count(View(), ForConf(key))
      ensures forall vs :: SharesFor(vs) == (if vs == key then Given(old(SharesFor(vs)), sender, share) else old(SharesFor(vs)))
    {
      OneMoreLogged(receivedConf, confs, Confirmation(sender, key, share));
      hide Stores, Logged, WithShare, SharesOf, Given, Record, Votes, Count;
      votesFor := InsertConf(sender, key, share);
      confs := confs + [Confirmation(sender, key, share)];
    }

    /** Only a Conf in time touches the shares: it adds its own for its values, unless its sender has
        one there already. */
    method AcceptConfirmation(sender: NodeId, feasibleValues: seq<bool>, signature: Share)
        returns (r: Verdict, ghost coin: Coin)
      requires Valid()
      modifies `state, `estimate, `broadcastFinish, `receivedConf, `votes, `confs
      ensures Valid()
      ensures (View(), r) == Accept(old(View()), sender, ForConf(feasibleValues), coin)
      ensures coin == combine(Given(old(SharesFor(feasibleValues)), sender, signature))
      ensures confs == old(confs) + (if old(state).CollectingConf? then [Confirmation(sender, feasibleValues, signature)] else [])
      ensures forall vs ::
        SharesFor(vs) ==
          if vs == feasibleValues && old(state).CollectingConf? then Given(old(SharesFor(vs)), sender, signature)
          else old(SharesFor(vs))
    {
      coin := combine(Given(SharesFor(feasibleValues), sender, signature));
      match state {
        case CollectingConf => r := InsertConfirmation(sender, feasibleValues, signature);
        case Finishing => r := Ignored;
        case _ => r := Queue;
      }
    }

    /** The coin is flipped on the shares stored for these values, this vote's own included. */
    method InsertConfirmation(sender: NodeId, feasibleValues: seq<bool>, signature: Share) returns (r: Verdict)
      requires Valid() && state.CollectingConf?
      modifies `state, `estimate, `broadcastFinish, `receivedConf, `votes, `confs
      ensures Valid() && confs == old(confs) + [Confirmation(sender, feasibleValues, signature)]
      ensures (View(), r) == Accept(old(View()), sender, ForConf(feasibleValues),
                                    combine(Given(old(SharesFor(feasibleValues)), sender, signature)))
      ensures forall vs ::
        SharesFor(vs) == if vs == feasibleValues then Given(old(SharesFor(vs)), sender, signature) else old(SharesFor(vs))
    {
      AcceptConf(View(), sender, feasibleValues, combine(Given(SharesFor(feasibleValues), sender, signature)));
      var inserted := InsertShare(sender, feasibleValues, signature);
      CoversIsSubset(valuesR, feasibleValues);
      hide Accept, Record, Valid, Covers, FlipCoin, Votes, Count, Given, SharesFor;
      if inserted.None? {
        return AlreadyAccepted;
      }
      if inserted.value > 2 * f {
        var values := set b | b in feasibleValues;
        if valuesR >= values || valuesR == values {
          var flipped := PerformCoinFlip(feasibleValues, SharesFor(feasibleValues));
          return if flipped.Some? then flipped.value else Failed(estimate);
        }
      }
      return Accepted;
    }

    method PerformCoinFlip(winningSet: seq<bool>, signatures: map<NodeId, Share>) returns (r: Option<Verdict>)
      requires Valid()
      modifies `state, `estimate, `broadcastFinish
      ensures Valid()
      ensures r.None? ==> estimate == old(estimate)
      ensures r.None? <==> combine(signatures).CombineFailed?
      ensures (View(), if r.Some? then r.value else Failed(old(estimate))) == FlipCoin(old(View()), winningSet, combine(signatures))
    {
      match combine(signatures)
      case CombineFailed =>
        return None;
      case Combined(coinFlipResult) =>
        if |winningSet| != 1 {
          return Some(Failed(coinFlipResult));
        }
        if winningSet[0] == coinFlipResult {
          state := Finishing;
          estimate := coinFlipResult;
          var registered := TryRegisterBroadcast(estimate);
          return Some(if registered then BroadcastFinalized(estimate) else Accepted);
        }
        return Some(Failed(winningSet[0]));
    }

    method TryRegisterBroadcast(value: bool) returns (registered: bool)
      modifies `broadcastFinish
      ensures registered <==> value !in old(broadcastFinish)
      ensures broadcastFinish == old(broadcastFinish) + {value}
    {
      registered := value !in broadcastFinish;
      broadcastFinish := broadcastFinish + {value};
    }

    /** One store's insertion: the new vote count, or nothing for a repeated voter. */
    method InsertFinishVote(sender: NodeId, key: bool) returns (votesFor: Option<nat>)
      requires Valid()
      modifies `receivedFinish, `votes
      ensures Valid()
      ensures votesFor.None? <==> sender in Votes(old(votes), ForFinish(key))
      ensures votesFor.None? ==> View() == old(View())
      ensures votesFor.Some? ==>
        View() == Record(old(View()), sender, ForFinish(key)) && votesFor.value == Count(View(), ForFinish(key))
    {
      StoreFinish(votes, receivedVals, receivedAux, receivedConf, receivedFinish, sender, key);
      hide Logged, Stores, Votes, Cast;
      if sender in Votes(receivedFinish, key) {
        return None;
      }
      receivedFinish := Cast(receivedFinish, key, sender);
      votes := Cast(votes, ForFinish(key), sender);
      return Some(|Votes(receivedFinish, key)|);
    }

    method AcceptFinish(sender: NodeId, finalValue: bool) returns (r: Verdict)
      requires Valid()
      modifies `broadcastFinish, `receivedFinish, `votes
      ensures Valid()
      ensures forall coin :: (View(), r) == Accept(old(View()), sender, ForFinish(finalValue), coin)
    {
      match state
      case Finishing => r := InsertFinish(sender, finalValue);
      case _ => r := Queue;
    }

    method InsertFinish(sender: NodeId, finalValue: bool) returns (r: Verdict)
      requires Valid() && state.Finishing?
      modifies `broadcastFinish, `receivedFinish, `votes
      ensures Valid()
      ensures forall coin :: (View(), r) == Accept(old(View()), sender, ForFinish(finalValue), coin)
    {
      var inserted := InsertFinishVote(sender, finalValue);
      if inserted.None? {
        return AlreadyAccepted;
      }
      var voteCount := inserted.value;
      hide Record, Valid;
      if voteCount > 2 * f {
        return Finalized(finalValue);
      } else if voteCount > f {
        var registered := TryRegisterBroadcast(finalValue);
        if registered {
          return BroadcastFinalized(finalValue);
        }
        assert broadcastFinish == old(broadcastFinish);
      }
      return Accepted;
    }
  }

  lemma CoversIsSubset(values: set<bool>, vs: seq<bool>)
    ensures Covers(values, vs) <==> (set b | b in vs) <= values
  {
    var s := set b | b in vs;
    if Covers(values, vs) {
      forall b | b in s ensures b in values {
        assert b in vs;
      }
    } else {
      var b :| b in vs && b !in values;
      assert b in s;
    }
  }
}
