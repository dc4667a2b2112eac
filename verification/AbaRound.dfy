/** One round of the binary agreement as a value: the specification that class `RoundData`
    implements, and what holds of a round after any sequence of votes. The class keeps four
    vote stores; here they are one relation from ballots to voters. */
module AbaRound {
  import opened Quorums
  import opened AbaMessages

  datatype Phase = CollectingVal | CollectingAux | CollectingConf | Finishing

  /** What combining the partial signatures of a winning set yields: a coin, or an error. */
  datatype Coin = Combined(bit: bool) | CombineFailed

  datatype Verdict =
    | Accepted
    | BroadcastEst(b: bool)
    | BroadcastAux(vs: seq<bool>)
    | BroadcastConf(vs: seq<bool>)
    | BroadcastFinalized(b: bool)
    | Ignored
    | AlreadyAccepted
    | Queue
    | Failed(next: bool)
    | Finalized(b: bool)

  datatype Round = Round(
    f: nat,
    phase: Phase,
    estimate: bool,
    valuesR: set<bool>,
    broadcastEstimates: set<bool>,
    broadcastFinish: set<bool>,
    votes: map<Ballot, set<NodeId>>)

  function NewRound(f: nat, estimate: bool): Round {
    Round(f, CollectingVal, estimate, {}, {}, {}, map[])
  }

  /** The voters for a key; a key without an entry has none. */
  function Votes<K>(store: map<K, set<NodeId>>, key: K): set<NodeId> {
    if key in store then store[key] else {}
  }

  /** Record one more voter for a key. */
  function Cast<K(!new)>(store: map<K, set<NodeId>>, key: K, voter: NodeId): (r: map<K, set<NodeId>>)
    ensures Votes(r, key) == Votes(store, key) + {voter}
    ensures forall k :: k != key ==> Votes(r, k) == Votes(store, k)
  {
    store[key := Votes(store, key) + {voter}]
  }

  function Elements(s: set<bool>): seq<bool> {
    (if false in s then [false] else []) + (if true in s then [true] else [])
  }

  /** The values of a ballot lie within the round's accepted values. */
  predicate Covers(values: set<bool>, vs: seq<bool>) {
    forall b :: b in vs ==> b in values
  }

  function PhaseRank(p: Phase): nat {
    match p
    case CollectingVal => 0
    case CollectingAux => 1
    case CollectingConf => 2
    case Finishing => 3
  }

  /** The phase in which a ballot is counted. */
  function BallotRank(k: Ballot): nat {
    match k
    case ForVal(_) => 0
    case ForAux(_) => 1
    case ForConf(_) => 2
    case ForFinish(_) => 3
  }

  function Count(rd: Round, k: Ballot): nat {
    |Votes(rd.votes, k)|
  }

  /** An early ballot is queued, a late one ignored, a repeated one rejected; any other counts. */
  function Accept(rd: Round, sender: NodeId, k: Ballot, coin: Coin): (Round, Verdict) {
    if PhaseRank(rd.phase) < BallotRank(k) then (rd, Queue)
    else if PhaseRank(rd.phase) > BallotRank(k) then (rd, Ignored)
    else if sender in Votes(rd.votes, k) then (rd, AlreadyAccepted)
    else Decide(Record(rd, sender, k), k, coin)
  }

  function Record(rd: Round, sender: NodeId, k: Ballot): Round {
    rd.(votes := Cast(rd.votes, k, sender))
  }

  /** What a round does once a ballot has gained a vote. */
  function Decide(rd: Round, k: Ballot, coin: Coin): (Round, Verdict) {
    match k
    case ForVal(b) => DecideVal(rd, b)
    case ForAux(vs) =>
      if Count(rd, k) > 2 * rd.f && Covers(rd.valuesR, vs)
      then (rd.(phase := CollectingConf), BroadcastConf(Elements(rd.valuesR)))
      else (rd, Accepted)
    case ForConf(vs) =>
      if Count(rd, k) > 2 * rd.f && Covers(rd.valuesR, vs)
      then FlipCoin(rd, vs, coin)
      else (rd, Accepted)
    case ForFinish(b) =>
      if Count(rd, k) > 2 * rd.f then (rd, Finalized(b))
      else if Count(rd, k) > rd.f && b !in rd.broadcastFinish
      then (rd.(broadcastFinish := rd.broadcastFinish + {b}), BroadcastFinalized(b))
      else (rd, Accepted)
  }

  function DecideVal(rd: Round, b: bool): (Round, Verdict) {
    if Count(rd, ForVal(b)) > 2 * rd.f then
      var values := rd.valuesR + {b};
      (rd.(valuesR := values, phase := CollectingAux), BroadcastAux(Elements(values)))
    else if Count(rd, ForVal(b)) > rd.f && b !in rd.broadcastEstimates
    then (rd.(broadcastEstimates := rd.broadcastEstimates + {b}), BroadcastEst(b))
    else (rd, Accepted)
  }

  function FlipCoin(rd: Round, winning: seq<bool>, coin: Coin): (Round, Verdict) {
    match coin
    case CombineFailed => (rd, Failed(rd.estimate))
    case Combined(bit) =>
      if |winning| != 1 then (rd, Failed(bit))
      else if winning[0] != bit then (rd, Failed(winning[0]))
      else (rd.(phase := Finishing, estimate := bit, broadcastFinish := rd.broadcastFinish + {bit}),
            if bit in rd.broadcastFinish then Accepted else BroadcastFinalized(bit))
  }

  /** A Conf in time either repeats a vote, only counts, or flips the coin. */
  lemma AcceptConf(rd: Round, sender: NodeId, vs: seq<bool>, coin: Coin)
    requires rd.phase.CollectingConf?
    ensures var rd1 := Record(rd, sender, ForConf(vs));
      Accept(rd, sender, ForConf(vs), coin) ==
        if sender in Votes(rd.votes, ForConf(vs)) then (rd, AlreadyAccepted)
        else if Count(rd1, ForConf(vs)) > 2 * rd.f && Covers(rd.valuesR, vs) then FlipCoin(rd1, vs, coin)
        else (rd1, Accepted)
  {
    hide FlipCoin, Votes, Cast, Count, Covers;
  }

  /** This vote makes the round combine shares and flip its coin. */
  predicate Flips(rd: Round, sender: NodeId, k: Ballot) {
    && k.ForConf? && rd.phase.CollectingConf?
    && sender !in Votes(rd.votes, k)
    && Count(rd, k) + 1 > 2 * rd.f
    && Covers(rd.valuesR, k.vs)
  }

  // ---------- Invariant of a round over any sequence of votes ----------

  /** The single accepted value, once there is one. */
  function Value(rd: Round): bool {
    true in rd.valuesR
  }

  /** Nothing is counted for a later phase, and nothing is finished before the last phase. */
  ghost predicate Clean(rd: Round) {
    && (forall k :: BallotRank(k) > PhaseRank(rd.phase) ==> Votes(rd.votes, k) == {})
    && (!rd.phase.Finishing? ==> rd.broadcastFinish == {})
  }

  /** A ballot that could end the current phase. */
  ghost predicate Decisive(rd: Round, k: Ballot) {
    && BallotRank(k) == PhaseRank(rd.phase) < 3
    && (k.ForAux? || k.ForConf? ==> Covers(rd.valuesR, k.vs))
  }

  /** No ballot that could end the current phase has more than 2f votes. */
  ghost predicate Bounded(rd: Round) {
    forall k :: Decisive(rd, k) ==> Count(rd, k) <= 2 * rd.f
  }

  /** Each phase was entered with a ballot of exactly 2f + 1 votes. */
  ghost predicate Founded(rd: Round) {
    && (PhaseRank(rd.phase) == 0 ==>
          rd.valuesR == {} && forall b :: b in rd.broadcastEstimates <==> Count(rd, ForVal(b)) > rd.f)
    && (PhaseRank(rd.phase) >= 1 ==>
          && rd.valuesR == {Value(rd)} && Count(rd, ForVal(Value(rd))) == 2 * rd.f + 1
          && (rd.f > 0 ==> Value(rd) in rd.broadcastEstimates))
    && (PhaseRank(rd.phase) >= 2 ==>
          exists vs :: Covers(rd.valuesR, vs) && Count(rd, ForAux(vs)) == 2 * rd.f + 1)
    && (PhaseRank(rd.phase) >= 3 ==>
          && rd.estimate == Value(rd)
          && Count(rd, ForConf([Value(rd)])) == 2 * rd.f + 1
          && forall b :: b in rd.broadcastFinish <==>
               b == rd.estimate || (rd.f > 0 && Count(rd, ForFinish(b)) > rd.f))
  }

  /** A round in progress. */
  ghost predicate Live(rd: Round) {
    Clean(rd) && Bounded(rd) && Founded(rd)
  }

  /** The winning set with which a round was abandoned, and the next estimate that it and the coin
      decide: the estimate kept after a failed combination, the single winning value if the coin
      is the other bit, or the coin when there are several winning values. */
  ghost predicate Winning(rd: Round, vs: seq<bool>, next: bool, coin: Coin) {
    && Covers(rd.valuesR, vs) && Count(rd, ForConf(vs)) == 2 * rd.f + 1
    && (coin.CombineFailed? ==> next == rd.estimate)
    && (coin.Combined? && |vs| == 1 ==> next == vs[0] && next != coin.bit)
    && (coin.Combined? && |vs| != 1 ==> next == coin.bit)
  }

  /** A round abandoned on this coin with next estimate `next`. */
  ghost predicate Left(rd: Round, next: bool, coin: Coin) {
    && Clean(rd) && Founded(rd) && rd.phase.CollectingConf?
    && exists vs :: Winning(rd, vs, next, coin)
  }

  lemma NewRoundLive(f: nat, estimate: bool)
    ensures Live(NewRound(f, estimate))
  {
  }

  /** `rd1` is `rd` with one more vote for `k` and nothing else changed. */
  ghost predicate Recorded(rd: Round, rd1: Round, sender: NodeId, k: Ballot) {
    && rd1 == rd.(votes := rd1.votes)
    && sender !in Votes(rd.votes, k)
    && Votes(rd1.votes, k) == Votes(rd.votes, k) + {sender}
    && Count(rd1, k) == Count(rd, k) + 1
    && (forall k' :: k' != k ==> Votes(rd1.votes, k') == Votes(rd.votes, k'))
    && (forall k' :: k' != k ==> Count(rd1, k') == Count(rd, k'))
  }

  lemma RecordCounts(rd: Round, sender: NodeId, k: Ballot)
    requires sender !in Votes(rd.votes, k)
    ensures Recorded(rd, Record(rd, sender, k), sender, k)
  {
  }

  /** What a vote leaves behind: a round in progress, or one abandoned through a winning set. */
  ghost predicate Kept(rd: Round, v: Verdict, coin: Coin) {
    if v.Failed? then Left(rd, v.next, coin) else Live(rd)
  }

  lemma ValKeepsLive(rd: Round, rd1: Round, sender: NodeId, k: Ballot, coin: Coin)
    requires Live(rd) && rd.phase.CollectingVal? && k.ForVal? && Recorded(rd, rd1, sender, k)
    ensures var (rd', v) := Decide(rd1, k, coin); Kept(rd', v, coin)
  {
    assert Decisive(rd, k);
    if Count(rd1, k) > 2 * rd.f {
      ValEndsPhase(rd1, k.b);
    } else {
      ValStays(rd, rd1, sender, k.b);
    }
  }

  lemma ValEndsPhase(rd1: Round, b: bool)
    requires Clean(rd1) && rd1.phase.CollectingVal? && rd1.valuesR == {}
    requires Count(rd1, ForVal(b)) == 2 * rd1.f + 1 && (rd1.f > 0 ==> b in rd1.broadcastEstimates)
    ensures Live(DecideVal(rd1, b).0)
  {
    assert rd1.valuesR + {b} == {b};
  }

  lemma ValWaits(rd1: Round, b: bool)
    requires rd1.phase.CollectingVal? && Count(rd1, ForVal(b)) <= 2 * rd1.f
    ensures DecideVal(rd1, b).0 ==
      rd1.(broadcastEstimates := rd1.broadcastEstimates + (if Count(rd1, ForVal(b)) > rd1.f then {b} else {}))
  {
    hide Count;
  }

  lemma ValStaysFounded(rd: Round, rd1: Round, sender: NodeId, b: bool)
    requires Founded(rd) && rd.phase.CollectingVal? && Recorded(rd, rd1, sender, ForVal(b))
    ensures Founded(rd1.(broadcastEstimates := rd1.broadcastEstimates + (if Count(rd1, ForVal(b)) > rd1.f then {b} else {})))
  {
    assert forall c :: c != b ==> Count(rd1, ForVal(c)) == Count(rd, ForVal(c));
    hide Votes, Covers, Recorded;
  }

  lemma ValStays(rd: Round, rd1: Round, sender: NodeId, b: bool)
    requires Live(rd) && rd.phase.CollectingVal? && Recorded(rd, rd1, sender, ForVal(b))
    requires Count(rd1, ForVal(b)) <= 2 * rd.f
    ensures Live(DecideVal(rd1, b).0)
  {
    ValWaits(rd1, b);
    ValStaysFounded(rd, rd1, sender, b);
    hide DecideVal, Founded;
  }

  lemma AuxKeepsLive(rd: Round, rd1: Round, sender: NodeId, k: Ballot, coin: Coin)
    requires Live(rd) && rd.phase.CollectingAux? && k.ForAux? && Recorded(rd, rd1, sender, k)
    ensures var (rd', v) := Decide(rd1, k, coin); Kept(rd', v, coin)
  {
    if Covers(rd.valuesR, k.vs) {
      assert Decisive(rd, k);
    }
  }

  lemma ConfKeepsLive(rd: Round, rd1: Round, sender: NodeId, k: Ballot, coin: Coin)
    requires Live(rd) && rd.phase.CollectingConf? && k.ForConf? && Recorded(rd, rd1, sender, k)
    ensures var (rd', v) := Decide(rd1, k, coin); Kept(rd', v, coin)
  {
    if Covers(rd.valuesR, k.vs) {
      assert Decisive(rd, k);
      if Count(rd1, k) > 2 * rd.f {
        FlipKeepsLive(rd1, k.vs, coin);
      }
    }
  }

  lemma FlipKeepsLive(rd1: Round, vs: seq<bool>, coin: Coin)
    requires Clean(rd1) && Founded(rd1) && rd1.phase.CollectingConf?
    requires Covers(rd1.valuesR, vs) && Count(rd1, ForConf(vs)) == 2 * rd1.f + 1
    ensures var (rd', v) := FlipCoin(rd1, vs, coin); Kept(rd', v, coin)
  {
    var (rd', v) := FlipCoin(rd1, vs, coin);
    if v.Failed? {
      assert Winning(rd', vs, v.next, coin);
    } else {
      assert vs[0] in vs;
      assert vs == [Value(rd1)];
    }
  }

  lemma FinishKeepsLive(rd: Round, rd1: Round, sender: NodeId, k: Ballot, coin: Coin)
    requires Live(rd) && rd.phase.Finishing? && k.ForFinish? && Recorded(rd, rd1, sender, k)
    ensures var (rd', v) := Decide(rd1, k, coin); Kept(rd', v, coin)
  {
    var (rd', v) := Decide(rd1, k, coin);
    assert rd'.votes == rd1.votes && rd'.valuesR == rd.valuesR && rd'.phase == rd.phase;
    var vs :| Covers(rd.valuesR, vs) && Count(rd, ForAux(vs)) == 2 * rd.f + 1;
    assert Covers(rd'.valuesR, vs) && Count(rd', ForAux(vs)) == 2 * rd.f + 1;
  }

  /** Any vote keeps a round in progress, or abandons it through a full winning set. */
  lemma AcceptKeepsLive(rd: Round, sender: NodeId, k: Ballot, coin: Coin)
    requires Live(rd)
    ensures var (rd', v) := Accept(rd, sender, k, coin); Kept(rd', v, coin)
  {
    hide Decide, Record, Live, Left, Recorded;
    if PhaseRank(rd.phase) == BallotRank(k) && sender !in Votes(rd.votes, k) {
      var rd1 := Record(rd, sender, k);
      RecordCounts(rd, sender, k);
      match k
      case ForVal(_) => ValKeepsLive(rd, rd1, sender, k, coin);
      case ForAux(_) => AuxKeepsLive(rd, rd1, sender, k, coin);
      case ForConf(_) => ConfKeepsLive(rd, rd1, sender, k, coin);
      case ForFinish(_) => FinishKeepsLive(rd, rd1, sender, k, coin);
    }
  }

  /** The coin is flipped over exactly 2f + 1 distinct members' shares. The round then finishes
      with the winning value or is abandoned; abandoned with a one-element winning set, its next
      estimate is the winning value exactly when the shares combine or the estimate was it. */
  lemma FlipOutcome(rd: Round, sender: NodeId, k: Ballot, coin: Coin)
    requires Live(rd) && Flips(rd, sender, k)
    ensures var (rd', v) := Accept(rd, sender, k, coin);
      && Count(rd', k) == 2 * rd.f + 1
      && (v.Failed? ==> rd'.phase.CollectingConf?)
      && (!v.Failed? ==> rd'.phase.Finishing? && v == BroadcastFinalized(Value(rd)) && k.vs == [Value(rd)] && coin == Combined(Value(rd)))
      && (v.Failed? && |k.vs| == 1 ==>
            (v.next == Value(rd) <==> coin.Combined? || rd.estimate == Value(rd)))
  {
    RecordCounts(rd, sender, k);
    assert Decisive(rd, k);
    if |k.vs| == 1 {
      assert k.vs[0] in k.vs;
    }
  }

  // ---------- What one vote can change ----------

  /** Phases only advance, the accepted value never changes once fixed, and the entry estimate
      stays until the round finishes. */
  ghost predicate Advances(rd: Round, rd': Round) {
    && rd'.f == rd.f
    && PhaseRank(rd.phase) <= PhaseRank(rd'.phase) <= PhaseRank(rd.phase) + 1
    && (!rd.phase.CollectingVal? ==> rd'.valuesR == rd.valuesR)
    && (rd.phase.Finishing? || !rd'.phase.Finishing? ==> rd'.estimate == rd.estimate)
    && rd.broadcastEstimates <= rd'.broadcastEstimates && rd.broadcastFinish <= rd'.broadcastFinish
  }

  /** Votes are only ever added, and only the voter's own. */
  ghost predicate Tallies(rd: Round, sender: NodeId, k: Ballot, rd': Round) {
    && Votes(rd.votes, k) <= Votes(rd'.votes, k) <= Votes(rd.votes, k) + {sender}
    && forall k' :: k' != k ==> Votes(rd'.votes, k') == Votes(rd.votes, k')
  }

  /** A round broadcasts exactly when it enters a phase or registers a new value to repeat or to
      finish with, and it decides only with more than 2f votes to finish. */
  ghost predicate Announces(rd: Round, rd': Round, v: Verdict) {
    && (v.BroadcastAux? <==> rd.phase.CollectingVal? && !rd'.phase.CollectingVal?)
    && (v.BroadcastAux? ==> v.vs == [Value(rd')])
    && (v.BroadcastConf? <==> rd.phase.CollectingAux? && !rd'.phase.CollectingAux?)
    && (v.BroadcastConf? ==> v.vs == [Value(rd')])
    && (v.BroadcastFinalized? ==> v.b !in rd.broadcastFinish && rd'.phase.Finishing?)
    && (v.BroadcastFinalized? ==> rd'.broadcastFinish == rd.broadcastFinish + {v.b})
    && (!v.BroadcastFinalized? ==> rd'.broadcastFinish == rd.broadcastFinish)
    && (v.BroadcastEst? ==> Count(rd', ForVal(v.b)) > rd.f && v.b !in rd.broadcastEstimates)
    && (v.BroadcastEst? ==> rd'.broadcastEstimates == rd.broadcastEstimates + {v.b})
    && (!v.BroadcastEst? ==> rd'.broadcastEstimates == rd.broadcastEstimates)
    && (v.Finalized? ==> rd.phase.Finishing? && Count(rd', ForFinish(v.b)) > 2 * rd.f)
  }

  /** A value with more than 2f votes to finish was so before, or is finalized by this vote. */
  ghost predicate Completes(rd: Round, rd': Round, v: Verdict) {
    forall b :: rd'.phase.Finishing? && Count(rd', ForFinish(b)) > 2 * rd.f ==>
      v == Finalized(b) || (rd.phase.Finishing? && Count(rd, ForFinish(b)) > 2 * rd.f)
  }

  /** A ballot that is neither queued nor for an earlier phase has been counted. */
  ghost predicate Counted(rd: Round, sender: NodeId, k: Ballot) {
    PhaseRank(rd.phase) > BallotRank(k) || sender in Votes(rd.votes, k)
  }

  lemma DecideAdvances(rd: Round, k: Ballot, coin: Coin)
    requires PhaseRank(rd.phase) == BallotRank(k)
    ensures var (rd', v) := Decide(rd, k, coin); Advances(rd, rd') && rd'.votes == rd.votes && !v.Queue?
  {
  }

  lemma AcceptAdvances(rd: Round, sender: NodeId, k: Ballot, coin: Coin)
    ensures var (rd', v) := Accept(rd, sender, k, coin);
      Advances(rd, rd') && Tallies(rd, sender, k, rd') && if v.Queue? then rd' == rd else Counted(rd', sender, k)
  {
    hide Decide;
    if PhaseRank(rd.phase) == BallotRank(k) && sender !in Votes(rd.votes, k) {
      RecordCounts(rd, sender, k);
      DecideAdvances(Record(rd, sender, k), k, coin);
    }
  }

  lemma ValAnnounces(rd: Round, k: Ballot, coin: Coin)
    requires rd.valuesR == {} && rd.phase.CollectingVal? && k.ForVal?
    ensures var (rd', v) := Decide(rd, k, coin); Announces(rd, rd', v)
  {
    assert rd.valuesR + {k.b} == {k.b};
  }

  lemma LaterAnnounces(rd: Round, k: Ballot, coin: Coin)
    requires rd.valuesR == {Value(rd)} && PhaseRank(rd.phase) == BallotRank(k) && !k.ForVal?
    requires !rd.phase.Finishing? ==> rd.broadcastFinish == {}
    ensures var (rd', v) := Decide(rd, k, coin); Announces(rd, rd', v)
  {
  }

  lemma AcceptAnnounces(rd: Round, sender: NodeId, k: Ballot, coin: Coin)
    requires Live(rd)
    ensures var (rd', v) := Accept(rd, sender, k, coin); Announces(rd, rd', v)
  {
    hide Decide, Recorded, Bounded;
    if PhaseRank(rd.phase) == BallotRank(k) && sender !in Votes(rd.votes, k) {
      RecordCounts(rd, sender, k);
      var rd1 := Record(rd, sender, k);
      if k.ForVal? {
        ValAnnounces(rd1, k, coin);
      } else {
        LaterAnnounces(rd1, k, coin);
      }
    }
  }

  lemma AcceptCompletes(rd: Round, sender: NodeId, k: Ballot, coin: Coin)
    requires Live(rd)
    ensures var (rd', v) := Accept(rd, sender, k, coin); Completes(rd, rd', v)
  {
    hide Bounded, Founded;
    if PhaseRank(rd.phase) == BallotRank(k) && sender !in Votes(rd.votes, k) {
      RecordCounts(rd, sender, k);
      DecideAdvances(Record(rd, sender, k), k, coin);
      hide Record;
      assert forall b :: !rd.phase.Finishing? ==> Count(rd, ForFinish(b)) == 0;
    }
  }

  // ---------- What one vote does, case by case ----------

  predicate InTime(p: Phase, k: Ballot) {
    match k
    case ForVal(_) => p.CollectingVal?
    case ForAux(_) => p.CollectingAux?
    case ForConf(_) => p.CollectingConf?
    case ForFinish(_) => p.Finishing?
  }

  predicate TooEarly(p: Phase, k: Ballot) {
    match k
    case ForVal(_) => false
    case ForAux(_) => p.CollectingVal?
    case ForConf(_) => p.CollectingVal? || p.CollectingAux?
    case ForFinish(_) => !p.Finishing?
  }

  predicate TooLate(p: Phase, k: Ballot) {
    match k
    case ForVal(_) => !p.CollectingVal?
    case ForAux(_) => p.CollectingConf? || p.Finishing?
    case ForConf(_) => p.Finishing?
    case ForFinish(_) => false
  }

  /** The vote is in time and its sender's first for this ballot. */
  predicate Counts(rd: Round, sender: NodeId, k: Ballot) {
    InTime(rd.phase, k) && sender !in Votes(rd.votes, k)
  }

  /** The vote counts and makes more than 2f for its ballot. */
  predicate Completing(rd: Round, sender: NodeId, k: Ballot) {
    Counts(rd, sender, k) && Count(rd, k) + 1 > 2 * rd.f
  }

  /** The vote counts and makes more than f for its ballot, but no more than 2f. */
  predicate Supporting(rd: Round, sender: NodeId, k: Ballot) {
    Counts(rd, sender, k) && rd.f < Count(rd, k) + 1 <= 2 * rd.f
  }

  /** The vote completes a winning set, with which the round is abandoned for `next`. */
  predicate Abandons(rd: Round, sender: NodeId, k: Ballot, coin: Coin, next: bool) {
    && k.ForConf? && Completing(rd, sender, k) && Covers(rd.valuesR, k.vs)
    && match coin
       case CombineFailed => next == rd.estimate
       case Combined(bit) => if |k.vs| == 1 then next == k.vs[0] != bit else next == bit
  }

  /** The vote completes a winning set of one value, which is the coin. */
  predicate Wins(rd: Round, sender: NodeId, k: Ballot, coin: Coin, b: bool) {
    k.ForConf? && Completing(rd, sender, k) && Covers(rd.valuesR, k.vs) && k.vs == [b] && coin == Combined(b)
  }

  /** The case in which each verdict is due. */
  ghost predicate CallsFor(rd: Round, sender: NodeId, k: Ballot, coin: Coin, v: Verdict) {
    match v
    case Queue => TooEarly(rd.phase, k)
    case Ignored => TooLate(rd.phase, k)
    case AlreadyAccepted => InTime(rd.phase, k) && sender in Votes(rd.votes, k)
    case BroadcastEst(b) => k == ForVal(b) && Supporting(rd, sender, k) && b !in rd.broadcastEstimates
    case BroadcastAux(vs) => k.ForVal? && Completing(rd, sender, k) && vs == [k.b]
    case BroadcastConf(vs) => k.ForAux? && Completing(rd, sender, k) && Covers(rd.valuesR, k.vs) && vs == [Value(rd)]
    case Failed(next) => Abandons(rd, sender, k, coin, next)
    case BroadcastFinalized(b) =>
      Wins(rd, sender, k, coin, b) || (k == ForFinish(b) && Supporting(rd, sender, k) && b !in rd.broadcastFinish)
    case Finalized(b) => k == ForFinish(b) && Completing(rd, sender, k)
    case Accepted =>
      && Counts(rd, sender, k)
      && match k
         case ForVal(b) => !Completing(rd, sender, k) && (Supporting(rd, sender, k) ==> b in rd.broadcastEstimates)
         case ForAux(vs) => Completing(rd, sender, k) ==> !Covers(rd.valuesR, vs)
         case ForConf(vs) => Completing(rd, sender, k) ==> !Covers(rd.valuesR, vs)
         case ForFinish(b) => !Completing(rd, sender, k) && (Supporting(rd, sender, k) ==> b in rd.broadcastFinish)
  }

  /** At most one verdict is due. */
  lemma OneIsDue(rd: Round, sender: NodeId, k: Ballot, coin: Coin, v: Verdict, w: Verdict)
    requires CallsFor(rd, sender, k, coin, v) && CallsFor(rd, sender, k, coin, w)
    ensures v == w
  {
    hide Covers, Votes;
  }

  /** Only the voter's set grows; the phase, the estimate and the three sets of values change with the
      verdict, each in its own way. */
  ghost predicate ChangesWith(rd: Round, rd': Round, sender: NodeId, k: Ballot, v: Verdict) {
    && rd'.f == rd.f
    && (forall k' :: Votes(rd'.votes, k') == Votes(rd.votes, k') + (if k' == k && Counts(rd, sender, k) then {sender} else {}))
    && rd'.phase == (if v.BroadcastAux? then CollectingAux else if v.BroadcastConf? then CollectingConf
                     else if v.BroadcastFinalized? then Finishing else rd.phase)
    && rd'.estimate == (if v.BroadcastFinalized? && k.ForConf? then v.b else rd.estimate)
    && rd'.valuesR == (if v.BroadcastAux? && k.ForVal? then {k.b} else rd.valuesR)
    && rd'.broadcastEstimates == rd.broadcastEstimates + (if v.BroadcastEst? then {v.b} else {})
    && rd'.broadcastFinish == rd.broadcastFinish + (if v.BroadcastFinalized? then {v.b} else {})
  }

  ghost predicate Explained(rd: Round, rd': Round, sender: NodeId, k: Ballot, coin: Coin, v: Verdict) {
    CallsFor(rd, sender, k, coin, v) && ChangesWith(rd, rd', sender, k, v)
  }

  /** What the verdict changes besides the votes. */
  ghost predicate Adjusts(rd1: Round, rd': Round, k: Ballot, v: Verdict) {
    rd' == rd1.(
      phase := if v.BroadcastAux? then CollectingAux else if v.BroadcastConf? then CollectingConf
               else if v.BroadcastFinalized? then Finishing else rd1.phase,
      estimate := if v.BroadcastFinalized? && k.ForConf? then v.b else rd1.estimate,
      valuesR := if v.BroadcastAux? && k.ForVal? then {k.b} else rd1.valuesR,
      broadcastEstimates := rd1.broadcastEstimates + (if v.BroadcastEst? then {v.b} else {}),
      broadcastFinish := rd1.broadcastFinish + (if v.BroadcastFinalized? then {v.b} else {}))
  }

  lemma DecideAdjusts(rd1: Round, k: Ballot, coin: Coin)
    requires if k.ForVal? then rd1.valuesR == {} else rd1.valuesR == {Value(rd1)}
    requires InTime(rd1.phase, k) && (!rd1.phase.Finishing? ==> rd1.broadcastFinish == {})
    ensures var (rd', v) := Decide(rd1, k, coin); Adjusts(rd1, rd', k, v)
  {
    hide Count, Covers;
    assert forall b: bool :: {} + {b} == {b};
    assert rd1.broadcastEstimates + {} == rd1.broadcastEstimates && rd1.broadcastFinish + {} == rd1.broadcastFinish;
  }

  lemma ValIsDue(rd: Round, rd1: Round, sender: NodeId, k: Ballot, coin: Coin)
    requires Counts(rd, sender, k) && k.ForVal? && rd.valuesR == {} && Recorded(rd, rd1, sender, k)
    ensures CallsFor(rd, sender, k, coin, Decide(rd1, k, coin).1)
  {
    assert Count(rd1, k) == Count(rd, k) + 1 && rd1 == rd.(votes := rd1.votes);
    hide Count, Covers, Recorded, Votes, FlipCoin;
    assert {} + {k.b} == {k.b};
  }

  lemma AuxIsDue(rd: Round, rd1: Round, sender: NodeId, k: Ballot, coin: Coin)
    requires Counts(rd, sender, k) && k.ForAux? && rd.valuesR == {Value(rd)} && Recorded(rd, rd1, sender, k)
    ensures CallsFor(rd, sender, k, coin, Decide(rd1, k, coin).1)
  {
    assert Count(rd1, k) == Count(rd, k) + 1 && rd1 == rd.(votes := rd1.votes);
    hide Count, Covers, Recorded, Votes, FlipCoin, DecideVal;
  }

  lemma FinishIsDue(rd: Round, rd1: Round, sender: NodeId, k: Ballot, coin: Coin)
    requires Counts(rd, sender, k) && k.ForFinish? && Recorded(rd, rd1, sender, k)
    ensures CallsFor(rd, sender, k, coin, Decide(rd1, k, coin).1)
  {
    assert Count(rd1, k) == Count(rd, k) + 1 && rd1 == rd.(votes := rd1.votes);
    hide Count, Covers, Recorded, Votes, FlipCoin, DecideVal;
  }

  lemma ConfIsDue(rd: Round, rd1: Round, sender: NodeId, k: Ballot, coin: Coin)
    requires Counts(rd, sender, k) && k.ForConf? && rd.broadcastFinish == {} && Recorded(rd, rd1, sender, k)
    ensures CallsFor(rd, sender, k, coin, Decide(rd1, k, coin).1)
  {
    assert Count(rd1, k) == Count(rd, k) + 1 && rd1 == rd.(votes := rd1.votes);
    hide Count, Covers, Recorded, Votes;
    assert |k.vs| == 1 ==> k.vs == [k.vs[0]];
  }

  lemma AdjustedChanges(rd: Round, rd1: Round, rd': Round, sender: NodeId, k: Ballot, v: Verdict)
    requires Counts(rd, sender, k) && Recorded(rd, rd1, sender, k) && Adjusts(rd1, rd', k, v)
    ensures ChangesWith(rd, rd', sender, k, v)
  {
  }

  lemma CountedMeaning(rd: Round, sender: NodeId, k: Ballot, coin: Coin)
    requires Live(rd) && Counts(rd, sender, k)
    ensures var (rd', v) := Decide(Record(rd, sender, k), k, coin); Explained(rd, rd', sender, k, coin, v)
  {
    RoundBasics(rd);
    RecordCounts(rd, sender, k);
    var rd1 := Record(rd, sender, k);
    RecordedRest(rd, rd1, sender, k);
    assert Value(rd1) == Value(rd);
    hide Decide, Record, Live, Recorded, Adjusts, Value, CallsFor, ChangesWith, Votes;
    var (rd', v) := Decide(rd1, k, coin);
    DecideAdjusts(rd1, k, coin);
    AdjustedChanges(rd, rd1, rd', sender, k, v);
    match k
    case ForVal(_) => ValIsDue(rd, rd1, sender, k, coin);
    case ForAux(_) => AuxIsDue(rd, rd1, sender, k, coin);
    case ForConf(_) => ConfIsDue(rd, rd1, sender, k, coin);
    case ForFinish(_) => FinishIsDue(rd, rd1, sender, k, coin);
  }

  lemma UncountedMeaning(rd: Round, sender: NodeId, k: Ballot, coin: Coin)
    requires !Counts(rd, sender, k)
    ensures var (rd', v) := Accept(rd, sender, k, coin); Explained(rd, rd', sender, k, coin, v) && rd' == rd
  {
    hide Decide, Record;
  }

  /** What a vote does to a round in progress, case by case: its verdict is the one due (`OneIsDue`),
      and the round changes as that verdict says. */
  lemma AcceptMeaning(rd: Round, sender: NodeId, k: Ballot, coin: Coin)
    requires Live(rd)
    ensures var (rd', v) := Accept(rd, sender, k, coin); Explained(rd, rd', sender, k, coin, v)
  {
    if Counts(rd, sender, k) {
      CountedMeaning(rd, sender, k, coin);
      hide Decide, Record, Live, Explained;
    } else {
      UncountedMeaning(rd, sender, k, coin);
    }
  }

  lemma RecordedRest(rd: Round, rd1: Round, sender: NodeId, k: Ballot)
    requires Recorded(rd, rd1, sender, k)
    ensures rd1 == rd.(votes := rd1.votes)
  {
  }

  lemma RoundBasics(rd: Round)
    requires Live(rd)
    ensures if rd.phase.CollectingVal? then rd.valuesR == {} else rd.valuesR == {Value(rd)}
    ensures !rd.phase.Finishing? ==> rd.broadcastFinish == {}
  {
  }
}
