/** One instance of the reliable broadcast as a value: the specification that class
    `ReliableBroadcastInstance` implements, and what holds of it after any events. */
module RbcModel {
  import opened Quorums

  /** Batches and digests are opaque: nothing in the protocol relates one to the other. */
  datatype Payload = Payload(id: nat)
  datatype Digest = Digest(id: nat)

  datatype Message =
    | SendMsg(payload: Payload, digest: Digest)
    | EchoMsg(digest: Digest)
    | ReadyMsg(digest: Digest)

  datatype Stored = Stored(from: NodeId, msg: Message)

  datatype Phase = Init | Proposed | Echoed | Ready

  datatype Instance = Instance(
    sender: NodeId,
    quorum: QuorumInfo,
    proposed: Option<(Payload, Digest)>,
    echoes: set<NodeId>,
    readies: set<NodeId>,
    sentEcho: bool,
    sentReady: bool,
    phase: Phase,
    pendingEchoes: seq<Stored>,
    pendingReadies: seq<Stored>)

  datatype Result = MessageIgnored | MessageQueued | Progressed(msg: Stored) | Finalized

  datatype Reaction = Reaction(inst: Instance, result: Result, broadcast: Option<Message>)

  datatype Outcome = Delivered(payload: Payload, digest: Digest) | NoProposedMessages | NotReadyToFinalize

  function NewInstance(sender: NodeId, quorum: QuorumInfo): Instance {
    Instance(sender, quorum, None, {}, {}, false, false, Init, [], [])
  }

  function CurrentDigest(n: Instance): Option<Digest> {
    if n.proposed.Some? then Some(n.proposed.value.1) else None
  }

  /** The number of echoes that triggers Ready: n - 2f. */
  function EchoGoal(n: Instance): int {
    n.quorum.quorumSize - n.quorum.f
  }

  function Queue(n: Instance, e: Stored): Reaction {
    if e.msg.EchoMsg?
    then Reaction(n.(pendingEchoes := n.pendingEchoes + [e]), MessageQueued, None)
    else Reaction(n.(pendingReadies := n.pendingReadies + [e]), MessageQueued, None)
  }

  function CountEcho(n: Instance, e: Stored): Reaction {
    var n1 := n.(echoes := n.echoes + {e.from});
    if |n1.echoes| >= EchoGoal(n) && !n.sentEcho
    then Reaction(n1.(phase := Echoed, sentEcho := true), Progressed(e), Some(ReadyMsg(e.msg.digest)))
    else Reaction(n1, Progressed(e), None)
  }

  function CountReady(n: Instance, e: Stored): Reaction {
    var n1 := n.(readies := n.readies + {e.from});
    if |n1.readies| > 2 * n.quorum.f && !n.sentReady
    then Reaction(n1.(phase := Ready, sentReady := true), Finalized, None)
    else Reaction(n1, Progressed(e), None)
  }

  function Process(n: Instance, e: Stored): Reaction {
    match e.msg
    case SendMsg(payload, digest) =>
      if n.proposed.None? && n.phase.Init?
      then Reaction(n.(proposed := Some((payload, digest)), phase := Proposed), Progressed(e), Some(EchoMsg(digest)))
      else Reaction(n, MessageIgnored, None)
    case EchoMsg(digest) =>
      if CurrentDigest(n) == Some(digest) && n.phase.Proposed? then CountEcho(n, e) else Queue(n, e)
    case ReadyMsg(digest) =>
      if CurrentDigest(n) == Some(digest) && n.phase.Echoed? then CountReady(n, e) else Queue(n, e)
  }

  function HasPending(n: Instance): bool {
    match n.phase
    case Proposed => n.pendingEchoes != []
    case Echoed => n.pendingReadies != []
    case _ => false
  }

  function Poll(n: Instance): (Instance, Option<Stored>) {
    match n.phase
    case Proposed =>
      if n.pendingEchoes == [] then (n, None)
      else (n.(pendingEchoes := n.pendingEchoes[1..]), Some(n.pendingEchoes[0]))
    case Echoed =>
      if n.pendingReadies == [] then (n, None)
      else (n.(pendingReadies := n.pendingReadies[1..]), Some(n.pendingReadies[0]))
    case _ => (n, None)
  }

  function Finalize(n: Instance): Outcome {
    if n.phase.Ready? then
      if n.proposed.Some? then Delivered(n.proposed.value.0, n.proposed.value.1) else NoProposedMessages
    else NotReadyToFinalize
  }

  function Rank(p: Phase): nat {
    match p
    case Init => 0
    case Proposed => 1
    case Echoed => 2
    case Ready => 3
  }

  // ---------- Exact thresholds ----------

  /** The quorum information passed the constructor's check. */
  ghost predicate Checked(q: QuorumInfo) {
    NewQuorumInfo(q.quorumSize + q.f, q.f, q.members) == Some(q)
  }

  /** In each phase the tracking sets have exactly the sizes that the thresholds allow. */
  ghost predicate Thresholds(n: Instance) {
    && Checked(n.quorum)
    && (n.proposed.None? <==> n.phase.Init?)
    && (Rank(n.phase) == 0 ==> n.echoes == {})
    && (Rank(n.phase) == 1 ==> |n.echoes| < EchoGoal(n))
    && (Rank(n.phase) >= 2 ==> |n.echoes| == EchoGoal(n))
    && (Rank(n.phase) <= 1 ==> n.readies == {})
    && (Rank(n.phase) == 2 ==> |n.readies| <= 2 * n.quorum.f)
    && (Rank(n.phase) == 3 ==> |n.readies| == 2 * n.quorum.f + 1)
    && (n.sentEcho <==> Rank(n.phase) >= 2)
    && (n.sentReady <==> Rank(n.phase) == 3)
  }

  /** Each buffer holds messages of its own kind. */
  ghost predicate Sorted(n: Instance) {
    && (forall x :: x in n.pendingEchoes ==> x.msg.EchoMsg?)
    && (forall x :: x in n.pendingReadies ==> x.msg.ReadyMsg?)
  }

  lemma NewThresholds(sender: NodeId, quorum: QuorumInfo)
    requires Checked(quorum)
    ensures Thresholds(NewInstance(sender, quorum)) && Sorted(NewInstance(sender, quorum))
    ensures EchoGoal(NewInstance(sender, quorum)) > quorum.f
  {
  }

  lemma CountEchoKeepsThresholds(n: Instance, e: Stored)
    requires Thresholds(n) && n.phase.Proposed? && e.msg.EchoMsg?
    ensures Thresholds(CountEcho(n, e).inst)
  {
  }

  lemma CountReadyKeepsThresholds(n: Instance, e: Stored)
    requires Thresholds(n) && n.phase.Echoed?
    ensures Thresholds(CountReady(n, e).inst)
  {
  }

  /** Any message keeps the sets within the thresholds of the phase. */
  lemma ProcessKeepsThresholds(n: Instance, e: Stored)
    requires Thresholds(n)
    ensures Thresholds(Process(n, e).inst)
  {
    hide CountEcho, CountReady;
    match e.msg
    case SendMsg(_, _) =>
    case EchoMsg(_) => if n.phase.Proposed? { CountEchoKeepsThresholds(n, e); }
    case ReadyMsg(_) => if n.phase.Echoed? { CountReadyKeepsThresholds(n, e); }
  }

  predicate FirstSend(n: Instance, e: Stored) {
    e.msg.SendMsg? && n.proposed.None?
  }

  /** An Echo for the proposal while they are counted. */
  predicate EchoInTime(n: Instance, e: Stored) {
    e.msg.EchoMsg? && n.phase.Proposed? && CurrentDigest(n) == Some(e.msg.digest)
  }

  /** A Ready for the proposal while they are counted. */
  predicate ReadyInTime(n: Instance, e: Stored) {
    e.msg.ReadyMsg? && n.phase.Echoed? && CurrentDigest(n) == Some(e.msg.digest)
  }

  /** The Echo makes n - 2f distinct echoers. */
  predicate LastEcho(n: Instance, e: Stored) {
    EchoInTime(n, e) && |n.echoes + {e.from}| == n.quorum.quorumSize - n.quorum.f
  }

  /** The Ready makes 2f + 1 distinct readiers. */
  predicate LastReady(n: Instance, e: Stored) {
    ReadyInTime(n, e) && |n.readies + {e.from}| == 2 * n.quorum.f + 1
  }

  /** The reported result: Finalized exactly on the last Ready, ignored exactly for a Send after the
      first, queued exactly for an Echo or Ready that is not in time; else the message itself. */
  lemma ResultMeaning(n: Instance, e: Stored)
    requires Thresholds(n)
    ensures var r := Process(n, e);
      && (r.result == Finalized <==> LastReady(n, e))
      && (r.result == MessageIgnored <==> e.msg.SendMsg? && !FirstSend(n, e))
      && (r.result == MessageQueued <==>
            (e.msg.EchoMsg? && !EchoInTime(n, e)) || (e.msg.ReadyMsg? && !ReadyInTime(n, e)))
      && (r.result.Progressed? ==> r.result.msg == e)
  {
  }

  /** What a message makes the instance broadcast: Echo for its first proposal, Ready on the last
      Echo, and nothing else. */
  lemma BroadcastMeaning(n: Instance, e: Stored)
    requires Thresholds(n)
    ensures forall m :: Process(n, e).broadcast == Some(m) <==>
      (FirstSend(n, e) && m == EchoMsg(e.msg.digest)) || (LastEcho(n, e) && m == ReadyMsg(e.msg.digest))
  {
  }

  /** The fields that a message changes, each in its own case. */
  predicate Changes(n: Instance, e: Stored, n': Instance) {
    && n'.sender == n.sender && n'.quorum == n.quorum
    && n'.proposed == (if FirstSend(n, e) then Some((e.msg.payload, e.msg.digest)) else n.proposed)
    && n'.phase == (if FirstSend(n, e) then Proposed else if LastEcho(n, e) then Echoed else if LastReady(n, e) then Ready else n.phase)
    && n'.echoes == n.echoes + (if EchoInTime(n, e) then {e.from} else {})
    && n'.readies == n.readies + (if ReadyInTime(n, e) then {e.from} else {})
    && n'.pendingEchoes == n.pendingEchoes + (if e.msg.EchoMsg? && !EchoInTime(n, e) then [e] else [])
    && n'.pendingReadies == n.pendingReadies + (if e.msg.ReadyMsg? && !ReadyInTime(n, e) then [e] else [])
    && (n'.sentEcho <==> n.sentEcho || LastEcho(n, e)) && (n'.sentReady <==> n.sentReady || LastReady(n, e))
  }

  lemma CountedEchoChanges(n: Instance, e: Stored)
    requires Thresholds(n) && EchoInTime(n, e)
    ensures Changes(n, e, CountEcho(n, e).inst)
  {
  }

  lemma CountedReadyChanges(n: Instance, e: Stored)
    requires Thresholds(n) && ReadyInTime(n, e)
    ensures Changes(n, e, CountReady(n, e).inst)
  {
  }

  lemma UncountedChanges(n: Instance, e: Stored)
    requires (n.proposed.None? <==> n.phase.Init?) && !EchoInTime(n, e) && !ReadyInTime(n, e)
    ensures Changes(n, e, Process(n, e).inst)
  {
    hide CountEcho, CountReady;
    assert n.echoes + {} == n.echoes && n.readies + {} == n.readies;
    assert n.pendingEchoes + [] == n.pendingEchoes && n.pendingReadies + [] == n.pendingReadies;
    assert !LastEcho(n, e) && !LastReady(n, e);
    hide EchoInTime, ReadyInTime, LastEcho, LastReady;
  }

  /** What a message changes, field by field. */
  lemma ChangeMeaning(n: Instance, e: Stored)
    requires Thresholds(n)
    ensures Changes(n, e, Process(n, e).inst)
  {
    assert n.proposed.None? <==> n.phase.Init?;
    hide Thresholds, Changes, CountEcho, CountReady;
    if EchoInTime(n, e) {
      CountedEchoChanges(n, e);
    } else if ReadyInTime(n, e) {
      CountedReadyChanges(n, e);
    } else {
      UncountedChanges(n, e);
    }
  }

  /** A poll returns a message exactly while Echoes are counted and one is queued, or Readies are and
      one is queued: the oldest of that buffer, taken off it. In Init and in Ready, or with that
      buffer empty, it returns nothing and changes nothing. */
  lemma PollMeaning(n: Instance)
    ensures var (n', x) := Poll(n);
      && (n.phase.Proposed? && n.pendingEchoes != [] ==>
            x == Some(n.pendingEchoes[0]) && n' == n.(pendingEchoes := n.pendingEchoes[1..]))
      && (n.phase.Echoed? && n.pendingReadies != [] ==>
            x == Some(n.pendingReadies[0]) && n' == n.(pendingReadies := n.pendingReadies[1..]))
      && (n.phase.Init? || n.phase.Ready? ==> x == None && n' == n)
      && (n.phase.Proposed? && n.pendingEchoes == [] ==> x == None && n' == n)
      && (n.phase.Echoed? && n.pendingReadies == [] ==> x == None && n' == n)
      && (HasPending(n) <==> (n.phase.Proposed? && n.pendingEchoes != []) || (n.phase.Echoed? && n.pendingReadies != []))
  {
  }

  lemma ProcessKeepsSorted(n: Instance, e: Stored)
    requires Sorted(n)
    ensures Sorted(Process(n, e).inst)
  {
  }

  lemma PollKeeps(n: Instance)
    requires Sorted(n)
    ensures Sorted(Poll(n).0)
    ensures Thresholds(n) ==> Thresholds(Poll(n).0)
    ensures Poll(n).1.Some? <==> HasPending(n)
  {
  }

  /** Finalizing succeeds exactly in the last phase; the missing-proposal error cannot happen. */
  lemma FinalizeIff(n: Instance)
    requires Thresholds(n)
    ensures Finalize(n).Delivered? <==> n.phase.Ready?
    ensures Finalize(n).NotReadyToFinalize? <==> !n.phase.Ready?
    ensures Finalize(n).Delivered? ==> n.proposed == Some((Finalize(n).payload, Finalize(n).digest))
  {
  }

  // ---------- Events and their history ----------

  /** A message handed over by the network, or a poll whose message is processed at once. */
  datatype Event = Deliver(e: Stored) | PollNext

  /** An instance together with the messages delivered to it. */
  datatype Proc = Proc(inst: Instance, received: set<Stored>)

  function Take(pr: Proc, ev: Event): Proc {
    match ev
    case Deliver(e) => Proc(Process(pr.inst, e).inst, pr.received + {e})
    case PollNext =>
      var (n, e) := Poll(pr.inst);
      if e.Some? then pr.(inst := Process(n, e.value).inst) else pr.(inst := n)
  }

  function Emitted(pr: Proc, ev: Event): Option<Message> {
    match ev
    case Deliver(e) => Process(pr.inst, e).broadcast
    case PollNext =>
      var (n, e) := Poll(pr.inst);
      if e.Some? then Process(n, e.value).broadcast else None
  }

  /** Phases never go back and the proposal never changes once there is one. */
  ghost predicate Advances(n: Instance, n': Instance) {
    && n'.quorum == n.quorum && n'.sender == n.sender
    && Rank(n.phase) <= Rank(n'.phase)
    && (n.proposed.Some? ==> n'.proposed == n.proposed)
    && n.echoes <= n'.echoes && n.readies <= n'.readies
  }

  lemma ProcessAdvances(n: Instance, e: Stored)
    ensures Advances(n, Process(n, e).inst)
  {
  }

  lemma TakeAdvances(pr: Proc, ev: Event)
    ensures Advances(pr.inst, Take(pr, ev).inst)
  {
    hide Process;
    match ev
    case Deliver(e) => ProcessAdvances(pr.inst, e);
    case PollNext =>
      var (n, e) := Poll(pr.inst);
      if e.Some? { ProcessAdvances(n, e.value); }
  }

  // ---------- Accounting for delivered messages ----------

  ghost predicate ProposalSound(n: Instance, received: set<Stored>) {
    n.proposed.Some? ==> exists x :: x in received && x.msg == SendMsg(n.proposed.value.0, n.proposed.value.1)
  }

  ghost predicate VotesSound(n: Instance, received: set<Stored>) {
    && (forall id :: id in n.echoes ==> CurrentDigest(n).Some? && Stored(id, EchoMsg(CurrentDigest(n).value)) in received)
    && (forall id :: id in n.readies ==> CurrentDigest(n).Some? && Stored(id, ReadyMsg(CurrentDigest(n).value)) in received)
  }

  ghost predicate QueuesSound(n: Instance, received: set<Stored>) {
    forall x :: x in n.pendingEchoes || x in n.pendingReadies ==> x in received
  }

  /** The proposal, the counted votes and the queued messages are delivered ones. */
  ghost predicate Sound(pr: Proc) {
    ProposalSound(pr.inst, pr.received) && VotesSound(pr.inst, pr.received) && QueuesSound(pr.inst, pr.received)
  }

  /** A delivered message is counted or still queued; a Send leaves no instance in Init. */
  ghost predicate Accounted(n: Instance, x: Stored) {
    match x.msg
    case SendMsg(_, _) => !n.phase.Init?
    case EchoMsg(d) => x in n.pendingEchoes || (CurrentDigest(n) == Some(d) && x.from in n.echoes)
    case ReadyMsg(d) => x in n.pendingReadies || (CurrentDigest(n) == Some(d) && x.from in n.readies)
  }

  ghost predicate LocalInv(pr: Proc) {
    && Thresholds(pr.inst) && Sorted(pr.inst) && Sound(pr)
    && forall x :: x in pr.received ==> Accounted(pr.inst, x)
  }

  lemma ProcessAccounts(n: Instance, e: Stored, x: Stored)
    requires Thresholds(n) && (Accounted(n, x) || x == e)
    ensures Accounted(Process(n, e).inst, x)
  {
  }

  lemma PollAccounts(n: Instance, x: Stored)
    requires Accounted(n, x)
    ensures var (n', e) := Poll(n); Accounted(n', x) || e == Some(x)
  {
  }

  lemma ProcessProposalSound(n: Instance, received: set<Stored>, e: Stored)
    requires ProposalSound(n, received) && e in received
    ensures ProposalSound(Process(n, e).inst, received)
  {
  }

  lemma ProcessVotesSound(n: Instance, received: set<Stored>, e: Stored)
    requires VotesSound(n, received) && Thresholds(n) && e in received
    ensures VotesSound(Process(n, e).inst, received)
  {
    assert e == Stored(e.from, e.msg);
    assert n.phase.Init? ==> n.echoes == {} && n.readies == {};
    hide Thresholds;
  }

  lemma ProcessQueuesSound(n: Instance, received: set<Stored>, e: Stored)
    requires QueuesSound(n, received) && e in received
    ensures QueuesSound(Process(n, e).inst, received)
  {
  }

  lemma ProcessSound(n: Instance, received: set<Stored>, e: Stored)
    requires Sound(Proc(n, received)) && Thresholds(n) && e in received
    ensures Sound(Proc(Process(n, e).inst, received))
  {
    hide ProposalSound, VotesSound, QueuesSound, Process, Thresholds;
    ProcessProposalSound(n, received, e);
    ProcessVotesSound(n, received, e);
    ProcessQueuesSound(n, received, e);
  }

  lemma SoundGrows(n: Instance, received: set<Stored>, received': set<Stored>)
    requires Sound(Proc(n, received)) && received <= received'
    ensures Sound(Proc(n, received'))
  {
  }

  lemma PollSound(pr: Proc)
    requires Sound(pr)
    ensures var (n, e) := Poll(pr.inst); Sound(pr.(inst := n)) && (e.Some? ==> e.value in pr.received)
  {
  }

  /** Any event keeps the thresholds exact and every delivered message accounted for. */
  lemma TakeKeepsLocal(pr: Proc, ev: Event)
    requires LocalInv(pr)
    ensures LocalInv(Take(pr, ev))
  {
    hide Thresholds, Sorted, Sound, Accounted, Process, Poll;
    match ev
    case Deliver(e) =>
      ProcessKeepsThresholds(pr.inst, e);
      ProcessKeepsSorted(pr.inst, e);
      SoundGrows(pr.inst, pr.received, pr.received + {e});
      ProcessSound(pr.inst, pr.received + {e}, e);
      forall x | x in pr.received + {e} ensures Accounted(Process(pr.inst, e).inst, x) {
        ProcessAccounts(pr.inst, e, x);
      }
    case PollNext =>
      var (n, e) := Poll(pr.inst);
      PollKeeps(pr.inst);
      PollSound(pr);
      if e.Some? {
        ProcessKeepsThresholds(n, e.value);
        ProcessKeepsSorted(n, e.value);
        ProcessSound(n, pr.received, e.value);
      }
      forall x | x in pr.received ensures Accounted(Take(pr, ev).inst, x) {
        PollAccounts(pr.inst, x);
        if e.Some? { ProcessAccounts(n, e.value, x); }
      }
  }

  function Run(start: Proc, events: seq<Event>): Proc {
    if events == [] then start else Take(Run(start, events[..|events| - 1]), events[|events| - 1])
  }

  function NewProc(sender: NodeId, quorum: QuorumInfo): Proc {
    Proc(NewInstance(sender, quorum), {})
  }

  lemma {:induction false} RunKeepsLocal(start: Proc, events: seq<Event>)
    requires LocalInv(start)
    ensures LocalInv(Run(start, events)) && Advances(start.inst, Run(start, events).inst)
  {
    if events != [] {
      RunKeepsLocal(start, events[..|events| - 1]);
      hide LocalInv, Take;
      TakeKeepsLocal(Run(start, events[..|events| - 1]), events[|events| - 1]);
      TakeAdvances(Run(start, events[..|events| - 1]), events[|events| - 1]);
    }
  }

  /** From its start, over any messages and polls: the echo set has fewer than n - 2f members
      while Proposed and exactly n - 2f afterwards, the ready set exactly 2f + 1 once Ready, and
      neither phase nor proposal ever goes back. */
  lemma ThresholdsAlways(sender: NodeId, quorum: QuorumInfo, events: seq<Event>, more: seq<Event>)
    requires Checked(quorum)
    ensures LocalInv(Run(NewProc(sender, quorum), events))
    ensures Advances(Run(NewProc(sender, quorum), events).inst, Run(Run(NewProc(sender, quorum), events), more).inst)
    ensures EchoGoal(NewInstance(sender, quorum)) > quorum.f
  {
    NewThresholds(sender, quorum);
    RunKeepsLocal(NewProc(sender, quorum), events);
    hide LocalInv, Advances;
    RunKeepsLocal(Run(NewProc(sender, quorum), events), more);
  }
}
