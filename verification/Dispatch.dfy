/** Leadership and dispatch along the fallback chain (scheduler/dispatcher.py). */
module Dispatch {
  import opened Contracts
  import opened Etcd
  import opened Node

  const LEADER_KEY := "/distributed-ai/scheduler/leader"
  const LEASE_TTL := 30

  lemma IdentityIsNotLeadership(schedulerId: string)
    ensures IdentityKey(schedulerId) != LEADER_KEY
  {
    var key := IdentityKey(schedulerId);
    assert key[|key| - 1] == 'y' && LEADER_KEY[|LEADER_KEY| - 1] == 'r';
  }

  /** The part of a placement decision that dispatch reads. */
  datatype Decision = Decision(chosenNode: string, fallbackChain: seq<string>)

  /** The chosen node first, then the fallback chain, each node once. */
  function Distinct(seen: seq<string>, rest: seq<string>): seq<string>
    decreases |rest|
  {
    if rest == [] then seen
    else Distinct(if rest[0] in seen then seen else seen + [rest[0]], rest[1..])
  }

  function ChainOf(d: Decision): seq<string>
  {
    Distinct(if d.chosenNode != "" then [d.chosenNode] else [], d.fallbackChain)
  }

  ghost predicate NoRepeats<T(!new)>(s: seq<T>)
  {
    forall i, j :: 0 <= i < j < |s| ==> s[i] != s[j]
  }

  lemma {:induction false} DistinctKeepsMembers(seen: seq<string>, rest: seq<string>)
    requires NoRepeats(seen)
    ensures NoRepeats(Distinct(seen, rest)) && seen <= Distinct(seen, rest)
    ensures forall n :: n in Distinct(seen, rest) <==> n in seen || n in rest
    ensures |Distinct(seen, rest)| <= |seen| + |rest|
    decreases |rest|
  {
    if rest != [] {
      var seen' := if rest[0] in seen then seen else seen + [rest[0]];
      DistinctKeepsMembers(seen', rest[1..]);
      assert rest == [rest[0]] + rest[1..];
    }
  }

  /** All names in a decision, the chosen node first. */
  function Named(d: Decision): seq<string>
  {
    (if d.chosenNode != "" then [d.chosenNode] else []) + d.fallbackChain
  }

  function FirstPlace(s: seq<string>, name: string): nat
  {
    if s == [] || s[0] == name then 0 else 1 + FirstPlace(s[1..], name)
  }

  /** The members are in the order in which they were named first. */
  ghost predicate InOrder(chain: seq<string>, named: seq<string>)
  {
    forall i, j :: 0 <= i < j < |chain| ==> FirstPlace(named, chain[i]) < FirstPlace(named, chain[j])
  }

  lemma {:induction false} FirstPlaceIs(s: seq<string>, name: string)
    ensures FirstPlace(s, name) <= |s| && (FirstPlace(s, name) < |s| <==> name in s)
    ensures name in s ==> s[FirstPlace(s, name)] == name
  {
    if s != [] && s[0] != name {
      FirstPlaceIs(s[1..], name);
      assert s == [s[0]] + s[1..];
    }
  }

  lemma {:induction false} FirstPlaceInPrefix(s: seq<string>, more: seq<string>, name: string)
    ensures name in s ==> FirstPlace(s + more, name) == FirstPlace(s, name)
    ensures name !in s ==> FirstPlace(s + more, name) == |s| + FirstPlace(more, name)
  {
    if s != [] {
      assert (s + more)[1..] == s[1..] + more && s == [s[0]] + s[1..];
      FirstPlaceInPrefix(s[1..], more, name);
    } else {
      assert s + more == more;
    }
  }

  /** `seen` are the distinct names of `done`, in order. */
  ghost predicate Collected(seen: seq<string>, done: seq<string>)
  {
    InOrder(seen, done) && forall n :: n in seen <==> n in done
  }

  lemma CollectOne(seen: seq<string>, done: seq<string>, name: string)
    requires Collected(seen, done)
    ensures Collected(if name in seen then seen else seen + [name], done + [name])
  {
    var seen' := if name in seen then seen else seen + [name];
    forall i, j | 0 <= i < j < |seen'|
      ensures FirstPlace(done + [name], seen'[i]) < FirstPlace(done + [name], seen'[j])
    {
      FirstPlaceInPrefix(done, [name], seen'[i]);
      FirstPlaceInPrefix(done, [name], seen'[j]);
      FirstPlaceIs(done, seen'[i]);
      assert i < |seen| && seen[i] in seen;
      assert j < |seen| ==> seen[j] in seen;
    }
  }

  lemma {:induction false} DistinctKeepsOrder(seen: seq<string>, rest: seq<string>, done: seq<string>)
    requires Collected(seen, done)
    ensures Collected(Distinct(seen, rest), done + rest)
    decreases |rest|
  {
    if rest == [] {
      assert done + rest == done;
    } else {
      CollectOne(seen, done, rest[0]);
      var (seen', done') := (if rest[0] in seen then seen else seen + [rest[0]], done + [rest[0]]);
      DistinctKeepsOrder(seen', rest[1..], done');
      assert done' + rest[1..] == done + rest;
    }
  }

  /** The chain keeps the order of the names: the chosen node, then the fallback chain. */
  lemma ChainInOrder(d: Decision)
    ensures InOrder(ChainOf(d), Named(d))
  {
    var start := if d.chosenNode != "" then [d.chosenNode] else [];
    assert Collected(start, start);
    DistinctKeepsOrder(start, d.fallbackChain, start);
  }

  /** The chain starts with the chosen node, repeats nobody and holds exactly the nodes named by the decision. */
  lemma ChainShape(d: Decision)
    ensures NoRepeats(ChainOf(d)) && |ChainOf(d)| <= |d.fallbackChain| + 1
    ensures d.chosenNode != "" ==> ChainOf(d) != [] && ChainOf(d)[0] == d.chosenNode
    ensures forall n :: n in ChainOf(d) <==> n in d.fallbackChain || (n == d.chosenNode && n != "")
  {
    DistinctKeepsMembers(if d.chosenNode != "" then [d.chosenNode] else [], d.fallbackChain);
  }

  /** The digest named by the task, else the one the registry holds for the model. */
  function ResolveDigest(task: TaskRequest, registered: Option<Value>): Option<string>
  {
    if task.modelDigest.Some? && task.modelDigest.value != "" then task.modelDigest
    else match registered
      case Some(RecordJson(record)) => Some(record.digest)
      case Some(PolicyJson(_)) => None
      case _ => task.modelDigest
  }

  function ExpiryFor(task: TaskRequest, now: real): real { now + task.maxLatencyMs / 1000.0 + 10.0 }

  function EnvelopeFor(task: TaskRequest, nodeId: string, lease: int, schedulerId: string, pem: string,
    now: real, registered: Option<Value>): Envelope
  {
    Envelope(task.taskId, nodeId, lease, now, ExpiryFor(task, now), schedulerId, pem,
      task.modelId, ResolveDigest(task, registered), task.payloadRef, task.idempotencyKey, task.maxLatencyMs)
  }

  /** From the client's task through the envelope to the worker's request: nothing is lost or exchanged. */
  lemma RequestIsTheTask(task: TaskRequest, nodeId: string, lease: int, schedulerId: string, pem: string, now: real,
    registered: Option<Value>)
    ensures
      var r := RequestOf(EnvelopeFor(task, nodeId, lease, schedulerId, pem, now, registered));
      && r.taskId == task.taskId && r.nodeId == nodeId && r.modelId == task.modelId
      && r.payloadRef == task.payloadRef && r.idempotencyKey == task.idempotencyKey && r.timeoutMs == task.maxLatencyMs
      && (task.modelDigest.Some? && task.modelDigest.value != "" ==> r.modelDigest == task.modelDigest)
  {
  }

  /** How one remote call ends: an answer, a transport error or deadline, or an answer that cannot be used. */
  datatype Reply = Lost | Unusable | Received(answer: Answer)

  predicate Succeeds(r: Reply)
  {
    r.Received? && r.answer.Answered? && r.answer.payload.status.Success?
  }

  /** An address that another thread registers while a dispatch is under way. */
  datatype Registration = Registration(node: string, target: string)

  /** What the world shows the scheduler around one attempt: the registrations since the attempt before, the clock,
      the registry entry of the model, and how the call ends. */
  datatype Attempt = Attempt(registrations: seq<Registration>, now: real, registered: Option<Value>, reply: Reply)

  type World = nat -> Attempt

  type Targets = map<string, string>

  function Registered(targets: Targets, registrations: seq<Registration>): Targets
  {
    if registrations == [] then targets
    else
      var last := registrations[|registrations| - 1];
      Registered(targets, registrations[..|registrations| - 1])[last.node := last.target]
  }

  /** The table of addresses after the registrations around the first `n` attempts. */
  function TableAfter(targets: Targets, world: World, n: nat): Targets
  {
    if n == 0 then targets else Registered(TableAfter(targets, world, n - 1), world(n - 1).registrations)
  }

  function ResultOf(answer: Answer, digest: Option<string>): ExecutionResult
    requires answer.Answered?
  {
    var p := answer.payload;
    ExecutionResult(answer.taskId, answer.nodeId, p.nodeClass, p.executionTimeMs,
      if p.modelDigest != "" then p.modelDigest else if digest.Some? then digest.value else "",
      p.output, p.cached, p.idempotencyKey)
  }

  /** A reply that reports a finished execution: a node's answer to one whose outcome was a result. */
  ghost predicate ReportsSuccess(r: Reply)
  {
    r.Received? && r.answer.Answered?
    && exists p, e, result :: r.answer.payload == PayloadOf(p, e, Ok(result))
  }

  /** Every other way for a call to end: nothing usable, an abort, or a node's answer to a failed execution. */
  ghost predicate ReportsFailure(r: Reply)
  {
    || r.Lost? || r.Unusable? || r.answer.Aborted?
    || exists p, e, error :: r.answer.payload == PayloadOf(p, e, Err(error))
  }

  /** A node's answer to an execution is a success for the dispatcher if and only if the execution has a result, and
      then the dispatcher reads just this result from it. */
  lemma AnswersSucceedExactly(taskId: string, nodeId: string, p: Profile, e: Envelope, outcome: Outcome,
    digest: Option<string>)
    ensures Succeeds(Received(Answered(taskId, nodeId, PayloadOf(p, e, outcome)))) <==> outcome.Ok?
    ensures outcome.Ok? ==>
      var (read, r) := (ResultOf(Answered(taskId, nodeId, PayloadOf(p, e, outcome)), digest), outcome.value);
      && read.taskId == taskId && read.nodeId == nodeId && read.nodeClass == r.nodeClass
      && read.executionTimeMs == r.executionTimeMs && read.output == r.output
      && read.cached == r.cached && read.idempotencyKey == r.idempotencyKey
      && (r.modelDigest != "" ==> read.modelDigest == r.modelDigest)
      && (r.modelDigest == "" ==> read.modelDigest == if digest.Some? then digest.value else "")
  {
  }

  lemma ReportsDecide(r: Reply)
    ensures ReportsSuccess(r) ==> Succeeds(r)
    ensures ReportsFailure(r) ==> !Succeeds(r)
  {
  }

  /** The result is what the reply says. */
  ghost predicate ReadFrom(result: ExecutionResult, r: Reply)
  {
    && r.Received? && r.answer.Answered? && r.answer.payload.status == Success
    && result.taskId == r.answer.taskId && result.nodeId == r.answer.nodeId
    && result.nodeClass == r.answer.payload.nodeClass
    && result.executionTimeMs == r.answer.payload.executionTimeMs && result.output == r.answer.payload.output
    && result.cached == r.answer.payload.cached && result.idempotencyKey == r.answer.payload.idempotencyKey
    && (r.answer.payload.modelDigest != "" ==> result.modelDigest == r.answer.payload.modelDigest)
  }

  predicate HasAddress(targets: Targets, nodeId: string)
  {
    nodeId in targets && targets[nodeId] != ""
  }

  /** Does attempt `k` find an address in the table as it is then? */
  predicate Finds(targets: Targets, chain: seq<string>, world: World, k: nat)
    requires k < |chain|
  {
    HasAddress(TableAfter(targets, world, k + 1), chain[k])
  }

  predicate Works(targets: Targets, chain: seq<string>, world: World, k: nat)
    requires k < |chain|
  {
    Finds(targets, chain, world, k) && Succeeds(world(k).reply)
  }

  datatype Sender = Sender(lease: int, schedulerId: string, publicKey: string)

  /** An envelope and where it is sent. */
  datatype Posting = Posting(address: string, envelope: Envelope)

  function PostingAt(targets: Targets, from: Sender, task: TaskRequest, chain: seq<string>, world: World,
    k: nat): Posting
    requires k < |chain| && Finds(targets, chain, world, k)
  {
    Posting(TableAfter(targets, world, k + 1)[chain[k]],
      EnvelopeFor(task, chain[k], from.lease, from.schedulerId, from.publicKey, world(k).now, world(k).registered))
  }

  /** What the first `n` attempts send: one envelope for every member that had an address at its attempt. */
  function Emitted(targets: Targets, from: Sender, task: TaskRequest, chain: seq<string>, world: World, n: nat)
    : seq<Posting>
    requires n <= |chain|
  {
    if n == 0 then []
    else
      Emitted(targets, from, task, chain, world, n - 1)
      + if Finds(targets, chain, world, n - 1) then [PostingAt(targets, from, task, chain, world, n - 1)] else []
  }

  ghost predicate Proper(e: Envelope, from: Sender, task: TaskRequest)
  {
    && e.leaderLeaseId == from.lease && e.signedBy == from.publicKey && e.keyId == from.schedulerId
    && e.taskId == task.taskId && e.idempotencyKey == task.idempotencyKey
    && e.modelId == task.modelId && e.payloadRef == task.payloadRef && e.timeoutMs == task.maxLatencyMs
    && e.expiresAt == e.issueTime + task.maxLatencyMs / 1000.0 + 10.0
  }

  /** The envelope names the digest that the task names; if it names none, the registered one, if there is one. */
  ghost predicate NamesDigest(e: Envelope, task: TaskRequest, registered: Option<Value>)
  {
    && (task.modelDigest.Some? && task.modelDigest.value != "" ==> e.modelDigest == task.modelDigest)
    && ((task.modelDigest.None? || task.modelDigest.value == "") && registered.Some? && registered.value.RecordJson? ==>
      e.modelDigest == Some(registered.value.record.digest))
    && ((task.modelDigest.None? || task.modelDigest.value == "") && registered == None ==>
      e.modelDigest == task.modelDigest)
  }

  /** `p` is what attempt `k` sent: to its member, where that was registered at the time. */
  ghost predicate SentBy(p: Posting, task: TaskRequest, targets: Targets, chain: seq<string>, world: World, k: nat)
    requires k < |chain|
  {
    && NamesDigest(p.envelope, task, world(k).registered)
    && Finds(targets, chain, world, k)
    && p.envelope.nodeId == chain[k] && p.address == TableAfter(targets, world, k + 1)[chain[k]]
    && p.envelope.issueTime == world(k).now
  }

  ghost predicate SentBySome(p: Posting, task: TaskRequest, targets: Targets, chain: seq<string>, world: World, n: nat)
    requires n <= |chain|
  {
    exists k :: 0 <= k < n && SentBy(p, task, targets, chain, world, k)
  }

  ghost predicate Served(sent: seq<Posting>, task: TaskRequest, targets: Targets, chain: seq<string>, world: World,
    k: nat)
    requires k < |chain|
  {
    exists m :: 0 <= m < |sent| && SentBy(sent[m], task, targets, chain, world, k)
  }

  /** Exactly one envelope for each of the first `n` members that had an address at its attempt, all from the same
      sender. */
  ghost predicate OneEach(sent: seq<Posting>, targets: Targets, from: Sender, task: TaskRequest, chain: seq<string>,
    world: World, n: nat)
    requires n <= |chain|
  {
    && (forall m :: 0 <= m < |sent| ==> Proper(sent[m].envelope, from, task))
    && (forall m {:trigger SentBySome(sent[m], task, targets, chain, world, n)} :: 0 <= m < |sent| ==>
      SentBySome(sent[m], task, targets, chain, world, n))
    && (forall i, j :: 0 <= i < j < |sent| ==> sent[i].envelope.nodeId != sent[j].envelope.nodeId)
    && (forall k {:trigger Served(sent, task, targets, chain, world, k)} ::
      0 <= k < n && Finds(targets, chain, world, k) ==> Served(sent, task, targets, chain, world, k))
  }

  lemma OneMore(before: seq<Posting>, sent: seq<Posting>, task: TaskRequest, targets: Targets, chain: seq<string>,
    world: World, n: nat, m: nat)
    requires n < |chain| && before <= sent && m < |before| && SentBySome(before[m], task, targets, chain, world, n)
    requires NoRepeats(chain)
    ensures SentBySome(sent[m], task, targets, chain, world, n + 1) && sent[m].envelope.nodeId != chain[n]
  {
    var k :| 0 <= k < n && SentBy(before[m], task, targets, chain, world, k);
    assert SentBy(sent[m], task, targets, chain, world, k);
  }

  lemma StillServed(before: seq<Posting>, sent: seq<Posting>, task: TaskRequest, targets: Targets, chain: seq<string>,
    world: World, k: nat)
    requires k < |chain| && before <= sent && Served(before, task, targets, chain, world, k)
    ensures Served(sent, task, targets, chain, world, k)
  {
    var m :| 0 <= m < |before| && SentBy(before[m], task, targets, chain, world, k);
    assert SentBy(sent[m], task, targets, chain, world, k);
  }

  /** One more attempt, with an address or without. */
  lemma OneEachGrows(before: seq<Posting>, targets: Targets, from: Sender, task: TaskRequest, chain: seq<string>,
    world: World, n: nat)
    requires n < |chain| && NoRepeats(chain) && OneEach(before, targets, from, task, chain, world, n)
    ensures
      var sent := before
        + if Finds(targets, chain, world, n) then [PostingAt(targets, from, task, chain, world, n)] else [];
      OneEach(sent, targets, from, task, chain, world, n + 1)
  {
    var sent := before
      + if Finds(targets, chain, world, n) then [PostingAt(targets, from, task, chain, world, n)] else [];
    forall m | 0 <= m < |before|
      ensures SentBySome(sent[m], task, targets, chain, world, n + 1) && sent[m].envelope.nodeId != chain[n]
    {
      OneMore(before, sent, task, targets, chain, world, n, m);
    }
    forall k | 0 <= k < n && Finds(targets, chain, world, k) ensures Served(sent, task, targets, chain, world, k) {
      StillServed(before, sent, task, targets, chain, world, k);
    }
    if Finds(targets, chain, world, n) {
      assert SentBy(sent[|before|], task, targets, chain, world, n);
    }
  }

  /** All envelopes of a dispatch carry the one lease it was checked for, go to different chain members where these
      were registered at the time, and outlive their issue by the latency budget and ten seconds. */
  lemma {:induction false} EmittedShape(targets: Targets, from: Sender, task: TaskRequest, chain: seq<string>,
    world: World, n: nat)
    requires n <= |chain| && NoRepeats(chain)
    ensures OneEach(Emitted(targets, from, task, chain, world, n), targets, from, task, chain, world, n)
  {
    if n > 0 {
      EmittedShape(targets, from, task, chain, world, n - 1);
      OneEachGrows(Emitted(targets, from, task, chain, world, n - 1), targets, from, task, chain, world, n - 1);
    }
  }

  datatype DispatchError = NotLeader | Exhausted(chain: seq<string>)

  datatype Dispatched = Dispatched(result: ExecutionResult, fallbackActivated: bool, attempts: nat)

  /** Success comes from the member at position `attempts`, and everybody before it failed. */
  ghost predicate FirstSuccess(r: Dispatched, task: TaskRequest, targets: Targets, chain: seq<string>, world: World)
  {
    var k := r.attempts - 1;
    && 0 <= k < |chain|
    && Works(targets, chain, world, k)
    && (forall i :: 0 <= i < k ==> !Works(targets, chain, world, i))
    && r.result == ResultOf(world(k).reply.answer, ResolveDigest(task, world(k).registered))
    && (r.fallbackActivated <==> r.attempts > 1)
  }

  /** Some member that had an address reported a finished execution. */
  ghost predicate SomebodyReports(targets: Targets, chain: seq<string>, world: World)
  {
    exists k :: 0 <= k < |chain| && Finds(targets, chain, world, k) && ReportsSuccess(world(k).reply)
  }

  /** Every member that had an address failed in some way. */
  ghost predicate EverybodyFails(targets: Targets, chain: seq<string>, world: World)
  {
    forall k :: 0 <= k < |chain| && Finds(targets, chain, world, k) ==> ReportsFailure(world(k).reply)
  }

  ghost predicate NobodyWorks(targets: Targets, chain: seq<string>, world: World)
  {
    forall i :: 0 <= i < |chain| ==> !Works(targets, chain, world, i)
  }

  lemma FailuresAreNoWork(targets: Targets, chain: seq<string>, world: World)
    ensures EverybodyFails(targets, chain, world) ==> NobodyWorks(targets, chain, world)
    ensures SomebodyReports(targets, chain, world) ==> !NobodyWorks(targets, chain, world)
  {
    if EverybodyFails(targets, chain, world) {
      forall k | 0 <= k < |chain| ensures !Works(targets, chain, world, k) {
        ReportsDecide(world(k).reply);
      }
    }
    if k :| 0 <= k < |chain| && Finds(targets, chain, world, k) && ReportsSuccess(world(k).reply) {
      ReportsDecide(world(k).reply);
      assert Works(targets, chain, world, k);
    }
  }

  class TaskScheduler {
    const etcd: SimulatedEtcdProvider
    const schedulerId: string
    const publicKey: string
    var nodeTargets: Targets
    var channels: map<string, string>
    var leaseId: int
    var isLeader: bool

    /** A cached channel always leads to the address registered last. */
    ghost predicate Valid()
      reads this
    {
      forall n :: n in channels ==> n in nodeTargets && channels[n] == nodeTargets[n] && channels[n] != ""
    }

    predicate Reachable(nodeId: string)
      reads `nodeTargets
    {
      HasAddress(nodeTargets, nodeId)
    }

    function Identity(): Sender
      reads `leaseId
    {
      Sender(leaseId, schedulerId, publicKey)
    }

    /** How far along the chain a dispatch got. */
    static function Tried(r: Result<Dispatched, DispatchError>, chain: seq<string>): nat
    {
      match r
      case Ok(d) => d.attempts
      case Err(NotLeader) => 0
      case Err(Exhausted(_)) => |chain|
    }

    constructor (etcd: SimulatedEtcdProvider, nodeTargets: Targets, schedulerId: string, publicKey: string,
      now: real)
      modifies etcd
      ensures Valid() && this.etcd == etcd && this.schedulerId == schedulerId && this.nodeTargets == nodeTargets
      ensures
        var granted := Apply(old(etcd.View()), Grant(LEASE_TTL), now);
        var elected := Apply(granted.0, Cas(LEADER_KEY, None, Plain(schedulerId), Some(leaseId)), now);
        && granted.1 == Lease(leaseId)
        && elected.1 == Flag(isLeader)
        && etcd.View() == Apply(elected.0, Put(IdentityKey(schedulerId), Plain(publicKey)), now).0
    {
      this.etcd, this.schedulerId, this.publicKey := etcd, schedulerId, publicKey;
      this.nodeTargets, channels := nodeTargets, map[];
      var lease := etcd.GrantLease(LEASE_TTL, now);
      leaseId := lease;
      var won := etcd.CompareAndSwap(LEADER_KEY, None, Plain(schedulerId), Some(lease), now);
      isLeader := won;
      new;
      etcd.PutKey(IdentityKey(schedulerId), Plain(publicKey));
    }

    method RegisterWorker(nodeId: string, target: string)
      requires Valid()
      modifies this`nodeTargets, this`channels
      ensures Valid() && nodeTargets == old(nodeTargets)[nodeId := target]
      ensures channels == old(channels) - {nodeId}
    {
      nodeTargets := nodeTargets[nodeId := target];
      if nodeId in channels {
        channels := channels - {nodeId};
      } else {
        assert channels - {nodeId} == channels;
      }
    }

    /** Opens the channel on first use; the answer says whether there is one, to the registered address. */
    method OpenChannel(nodeId: string) returns (ok: bool)
      requires Valid()
      modifies this`channels
      ensures Valid() && ok == Reachable(nodeId)
      ensures ok ==> nodeId in channels && channels[nodeId] == nodeTargets[nodeId]
    {
      if nodeId !in channels {
        if nodeId !in nodeTargets || nodeTargets[nodeId] == "" {
          return false;
        }
        channels := channels[nodeId := nodeTargets[nodeId]];
      }
      return true;
    }

    method BuildChain(decision: Decision) returns (chain: seq<string>)
      ensures chain == ChainOf(decision)
    {
      chain := if decision.chosenNode != "" then [decision.chosenNode] else [];
      var c := 0;
      while c < |decision.fallbackChain|
        invariant 0 <= c <= |decision.fallbackChain|
        invariant Distinct(chain, decision.fallbackChain[c..]) == ChainOf(decision)
      {
        if decision.fallbackChain[c] !in chain {
          chain := chain + [decision.fallbackChain[c]];
        }
        c := c + 1;
      }
    }

    /** Calls of `RegisterWorker` by other threads. */
    method OthersRegister(registrations: seq<Registration>)
      requires Valid()
      modifies this`nodeTargets, this`channels
      ensures Valid() && nodeTargets == Registered(old(nodeTargets), registrations)
    {
      var i := 0;
      while i < |registrations|
        invariant 0 <= i <= |registrations| && Valid()
        invariant nodeTargets == Registered(old(nodeTargets), registrations[..i])
      {
        assert registrations[..i + 1][..i] == registrations[..i];
        RegisterWorker(registrations[i].node, registrations[i].target);
        i := i + 1;
      }
      assert registrations[..i] == registrations;
    }

    /** The loop over the chain. The table of addresses is read anew at each attempt. */
    method TryChain(task: TaskRequest, chain: seq<string>, world: World)
      returns (r: Result<Dispatched, DispatchError>, sent: seq<Posting>)
      requires Valid()
      modifies this`channels, this`nodeTargets
      ensures Valid() && Tried(r, chain) <= |chain|
      ensures nodeTargets == TableAfter(old(nodeTargets), world, Tried(r, chain))
      ensures sent == Emitted(old(nodeTargets), Identity(), task, chain, world, Tried(r, chain))
      ensures r.Ok? ==> FirstSuccess(r.value, task, old(nodeTargets), chain, world)
      ensures r.Ok? ==> ReadFrom(r.value.result, world(r.value.attempts - 1).reply)
      ensures r.Err? ==> r.error == Exhausted(chain) && NobodyWorks(old(nodeTargets), chain, world)
    {
      sent := [];
      var attempts := 0;
      var fallbackActivated := false;
      while attempts < |chain|
        invariant 0 <= attempts <= |chain| && Valid()
        invariant fallbackActivated <==> attempts > 1
        invariant nodeTargets == TableAfter(old(nodeTargets), world, attempts)
        invariant forall i :: 0 <= i < attempts ==> !Works(old(nodeTargets), chain, world, i)
        invariant sent == Emitted(old(nodeTargets), Identity(), task, chain, world, attempts)
      {
        var candidate := chain[attempts];
        var seen := world(attempts);
        OthersRegister(seen.registrations);
        attempts := attempts + 1;
        if attempts > 1 {
          fallbackActivated := true;
        }
        var open := OpenChannel(candidate);
        if !open {
          continue;
        }
        var e := EnvelopeFor(task, candidate, leaseId, schedulerId, publicKey, seen.now, seen.registered);
        sent := sent + [Posting(channels[candidate], e)];
        if Succeeds(seen.reply) {
          return Ok(Dispatched(ResultOf(seen.reply.answer, e.modelDigest), fallbackActivated, attempts)), sent;
        }
      }
      return Err(Exhausted(chain)), sent;
    }

    /** One dispatch. `world(i)` is what attempt `i` meets. */
    method Run(task: TaskRequest, decision: Decision, world: World, now: real)
      returns (r: Result<Dispatched, DispatchError>, sent: seq<Posting>)
      requires Valid()
      modifies this`isLeader, this`channels, this`nodeTargets, etcd
      ensures Valid()
      // Leadership is checked once, against the lease, before the first attempt; once lost it stays lost.
      ensures old(isLeader) ==> (etcd.View(), Flag(isLeader)) == Apply(old(etcd.View()), IsValid(leaseId), now)
      ensures !old(isLeader) ==> !isLeader && etcd.View() == old(etcd.View())
      ensures r == Err(NotLeader) <==> !isLeader
      ensures Tried(r, ChainOf(decision)) <= |ChainOf(decision)|
      ensures nodeTargets == TableAfter(old(nodeTargets), world, Tried(r, ChainOf(decision)))
      ensures
        var chain := ChainOf(decision);
        sent == Emitted(old(nodeTargets), Identity(), task, chain, world, Tried(r, chain))
      ensures r.Ok? ==> FirstSuccess(r.value, task, old(nodeTargets), ChainOf(decision), world)
      ensures r.Ok? ==> ReadFrom(r.value.result, world(r.value.attempts - 1).reply)
      // Exhaustion means that the whole chain failed, and the whole chain failing means exhaustion.
      ensures isLeader ==>
        (r == Err(Exhausted(ChainOf(decision))) <==> NobodyWorks(old(nodeTargets), ChainOf(decision), world))
      ensures isLeader ==> r.Ok? || r.error == Exhausted(ChainOf(decision))
      // What counts is how the executions ended on the nodes.
      ensures isLeader && EverybodyFails(old(nodeTargets), ChainOf(decision), world) ==>
        r == Err(Exhausted(ChainOf(decision)))
      ensures isLeader && SomebodyReports(old(nodeTargets), ChainOf(decision), world) ==> r.Ok?
    {
      if isLeader {
        var valid := etcd.IsLeaseValid(leaseId, now);
        if !valid {
          isLeader := false;
        }
      }
      if !isLeader {
        return Err(NotLeader), [];
      }
      var chain := BuildChain(decision);
      if chain == [] {
        return Err(Exhausted([])), [];
      }
      FailuresAreNoWork(nodeTargets, chain, world);
      r, sent := TryChain(task, chain, world);
    }
  }
}
