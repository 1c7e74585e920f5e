/** The dispatches of the cluster are runs of the dispatcher's loop: what `TaskScheduler.Run` promises about one
    dispatch, given what the world shows it, is what the step system does, and the world there is not arbitrary. */
module Simulation {
  import opened Contracts
  import opened Etcd
  import opened SupplyChain
  import opened Node
  import opened Dispatch
  import opened Cluster
  import opened Fencing

  /** What one dispatch posted, in order. */
  function MailOf(mail: seq<Parcel>, job: nat): seq<Posting>
  {
    if mail == [] then []
    else
      var last := mail[|mail| - 1];
      MailOf(mail[..|mail| - 1], job) + if last.job == job then [Posting(last.address, last.envelope)] else []
  }

  /** How a successful execution is answered. */
  function ReplyOf(x: Executed): Dispatch.Reply
    requires x.outcome.Ok?
  {
    var r := x.outcome.value;
    Received(Answered(x.parcel.envelope.taskId, x.parcel.envelope.nodeId,
      PayloadOf(Profile(r.nodeId, r.nodeClass, false, false), x.parcel.envelope, x.outcome)))
  }

  ghost predicate RealReply(s: State, job: nat, attempt: nat, reply: Dispatch.Reply)
  {
    exists x :: 0 <= x < |s.executed| && s.executed[x].parcel.job == job && s.executed[x].parcel.attempt == attempt
      && s.executed[x].outcome.Ok? && reply == ReplyOf(s.executed[x])
  }

  /** A dispatch that has come as far as `j`, has sent `sent` and now sees the addresses `table` is the loop of the
      dispatcher, started with `targets` and run against `world`. */
  ghost predicate LoopAt(j: Job, sent: seq<Posting>, table: Targets, targets: Targets, from: Sender, world: World)
  {
    && j.attempts <= |j.chain|
    && table == TableAfter(targets, world, j.attempts + 1)
    && (forall k :: k > j.attempts ==> world(k).registrations == [])
    && sent == Emitted(targets, from, j.task, j.chain, world, j.attempts)
    && (j.waiting ==> !j.closed && j.attempts > 0 && Finds(targets, j.chain, world, j.attempts - 1))
    && (j.closed ==> j.attempts > 0 && Works(targets, j.chain, world, j.attempts - 1))
    && (forall k :: 0 <= k < j.attempts - (if j.closed then 1 else 0) ==> !Works(targets, j.chain, world, k))
  }

  function With(world: World, k: nat, seen: Attempt): World
  {
    (n: nat) => if n == k then seen else world(n)
  }

  lemma {:induction false} TableDependsOn(targets: Targets, world: World, other: World, n: nat)
    requires forall k :: 0 <= k < n ==> world(k).registrations == other(k).registrations
    ensures TableAfter(targets, world, n) == TableAfter(targets, other, n)
  {
    if n > 0 {
      TableDependsOn(targets, world, other, n - 1);
    }
  }

  ghost predicate SameButReplies(world: World, other: World, n: nat)
  {
    forall k :: 0 <= k < n ==>
      && world(k).now == other(k).now && world(k).registered == other(k).registered
      && world(k).registrations == other(k).registrations
  }

  /** Replies do not influence what was sent before them. */
  lemma {:induction false} EmittedDependsOn(targets: Targets, from: Sender, task: TaskRequest,
    chain: seq<string>, world: World, other: World, n: nat)
    requires n <= |chain| && SameButReplies(world, other, n)
    ensures Emitted(targets, from, task, chain, world, n) == Emitted(targets, from, task, chain, other, n)
    ensures forall k :: 0 <= k < n ==> Finds(targets, chain, world, k) == Finds(targets, chain, other, k)
  {
    if n > 0 {
      EmittedDependsOn(targets, from, task, chain, world, other, n - 1);
      TableDependsOn(targets, world, other, n);
    }
  }

  /** What agrees so far has led to the same. */
  lemma SameSoFar(targets: Targets, from: Sender, task: TaskRequest, chain: seq<string>, world: World, other: World,
    n: nat)
    requires n <= |chain| && forall k :: 0 <= k < n ==> world(k) == other(k)
    ensures Emitted(targets, from, task, chain, world, n) == Emitted(targets, from, task, chain, other, n)
    ensures forall k :: 0 <= k < n ==> Works(targets, chain, world, k) == Works(targets, chain, other, k)
  {
    EmittedDependsOn(targets, from, task, chain, world, other, n);
  }

  /** The tables of one more attempt, before which nobody has registered anything yet. */
  lemma NextTable(targets: Targets, world: World, other: World, n: nat)
    requires forall k :: 0 <= k <= n ==> world(k).registrations == other(k).registrations
    requires other(n + 1).registrations == []
    ensures TableAfter(targets, other, n + 1) == TableAfter(targets, world, n + 1)
    ensures TableAfter(targets, other, n + 2) == TableAfter(targets, world, n + 1)
  {
    TableDependsOn(targets, world, other, n + 1);
  }

  lemma LoopTries(j: Job, sent: seq<Posting>, table: Targets, targets: Targets, from: Sender, world: World,
    now: real, registered: Option<Value>)
    returns (after: World)
    requires LoopAt(j, sent, table, targets, from, world)
    requires !j.closed && !j.waiting && j.attempts < |j.chain|
    ensures
      var node := j.chain[j.attempts];
      if HasAddress(table, node) then
        LoopAt(j.(attempts := j.attempts + 1, waiting := true),
          sent + [Posting(table[node],
            EnvelopeFor(j.task, node, from.lease, from.schedulerId, from.publicKey, now, registered))],
          table, targets, from, after)
      else LoopAt(j.(attempts := j.attempts + 1), sent, table, targets, from, after)
  {
    var n := j.attempts;
    after := With(world, n, Attempt(world(n).registrations, now, registered, Lost));
    SameSoFar(targets, from, j.task, j.chain, world, after, n);
    NextTable(targets, world, after, n);
    assert Finds(targets, j.chain, after, n) == HasAddress(table, j.chain[n]);
    assert !Works(targets, j.chain, after, n);
    assert forall k :: 0 <= k < n ==> !Works(targets, j.chain, after, k);
  }

  lemma LoopIsAnswered(j: Job, sent: seq<Posting>, table: Targets, targets: Targets, from: Sender, world: World,
    reply: Dispatch.Reply)
    returns (after: World)
    requires LoopAt(j, sent, table, targets, from, world) && j.waiting && Succeeds(reply)
    ensures LoopAt(j.(waiting := false, closed := true), sent, table, targets, from, after)
    ensures after(j.attempts - 1).reply == reply
  {
    var k := j.attempts - 1;
    after := With(world, k, world(k).(reply := reply));
    SameSoFar(targets, from, j.task, j.chain, world, after, k);
    EmittedDependsOn(targets, from, j.task, j.chain, world, after, j.attempts);
    TableDependsOn(targets, world, after, j.attempts + 1);
  }

  /** A registration is one that the next attempt will find. */
  lemma LoopSeesRegistration(j: Job, sent: seq<Posting>, table: Targets, targets: Targets, from: Sender, world: World,
    node: string, target: string)
    returns (after: World)
    requires LoopAt(j, sent, table, targets, from, world)
    ensures LoopAt(j, sent, table[node := target], targets, from, after)
    ensures j.attempts > 0 ==> after(j.attempts - 1).reply == world(j.attempts - 1).reply
  {
    var n := j.attempts;
    var more := world(n).registrations + [Registration(node, target)];
    after := With(world, n, world(n).(registrations := more));
    SameSoFar(targets, from, j.task, j.chain, world, after, n);
    TableDependsOn(targets, world, after, n);
    assert more[..|more| - 1] == world(n).registrations;
  }

  lemma MailOfAppend(mail: seq<Parcel>, p: Parcel, job: nat)
    ensures MailOf(mail + [p], job) == MailOf(mail, job) + if p.job == job then [Posting(p.address, p.envelope)] else []
  {
    assert (mail + [p])[..|mail|] == mail;
  }

  lemma {:induction false} NoMailYet(mail: seq<Parcel>, job: nat)
    requires forall m :: 0 <= m < |mail| ==> mail[m].job != job
    ensures MailOf(mail, job) == []
  {
    if mail != [] {
      NoMailYet(mail[..|mail| - 1], job);
    }
  }

  lemma RealReplyStays(s: State, s': State, job: nat, attempt: nat, reply: Dispatch.Reply)
    requires RealReply(s, job, attempt, reply) && s.executed <= s'.executed
    ensures RealReply(s', job, attempt, reply)
  {
    var x :| 0 <= x < |s.executed| && s.executed[x].parcel.job == job && s.executed[x].parcel.attempt == attempt
      && s.executed[x].outcome.Ok? && reply == ReplyOf(s.executed[x]);
    assert s'.executed[x] == s.executed[x];
  }

  /** The dispatch is the loop, and if it has ended, then with an answer that a node really gave. */
  ghost predicate Traced(s: State, job: nat, i: nat, targets: Targets, from: Sender, task: TaskRequest,
    chain: seq<string>, world: World)
  {
    && i < |s.schedulers| && SenderOf(s.schedulers[i]) == from && job < |s.jobs|
    && var j := s.jobs[job];
    && j.scheduler == i && j.task == task && j.chain == chain
    && LoopAt(j, MailOf(s.mail, job), s.schedulers[i].targets, targets, from, world)
    && (j.closed ==> RealReply(s, job, j.attempts - 1, world(j.attempts - 1).reply))
  }

  lemma TryEffect(s: State, job: nat)
    requires job < |s.jobs| && s.jobs[job].scheduler < |s.schedulers|
    requires !s.jobs[job].closed && !s.jobs[job].waiting && s.jobs[job].attempts < |s.jobs[job].chain|
    ensures
      var (j, me, s') := (s.jobs[job], s.schedulers[s.jobs[job].scheduler], DoTry(s, job));
      var node := j.chain[j.attempts];
      && s'.schedulers == s.schedulers && |s'.jobs| == |s.jobs|
      && if HasAddress(me.targets, node) then
          && s'.jobs[job] == j.(attempts := j.attempts + 1, waiting := true)
          && MailOf(s'.mail, job) == MailOf(s.mail, job) + [Posting(me.targets[node],
            EnvelopeFor(j.task, node, me.lease, me.id, me.pem, s.now, Lookup(s.store.kv, ModelKey(j.task.modelId))))]
        else s'.jobs[job] == j.(attempts := j.attempts + 1) && s'.mail == s.mail
  {
    var s' := DoTry(s, job);
    if s'.mail != s.mail {
      MailOfAppend(s.mail, s'.mail[|s.mail|], job);
    }
  }

  lemma TryIsTraced(s: State, job: nat, i: nat, targets: Targets, from: Sender, task: TaskRequest,
    chain: seq<string>, world: World) returns (after: World)
    requires Traced(s, job, i, targets, from, task, chain, world)
    ensures Traced(DoTry(s, job), job, i, targets, from, task, chain, after)
  {
    var j := s.jobs[job];
    if j.closed || j.waiting || j.attempts >= |j.chain| {
      return world;
    }
    TryEffect(s, job);
    after := LoopTries(j, MailOf(s.mail, job), s.schedulers[i].targets, targets, from, world, s.now,
      Lookup(s.store.kv, ModelKey(task.modelId)));
  }

  lemma SettleIsTraced(s: State, job: nat, reply: Option<nat>, i: nat, targets: Targets, from: Sender,
    task: TaskRequest, chain: seq<string>, world: World) returns (after: World)
    requires Traced(s, job, i, targets, from, task, chain, world)
    ensures Traced(DoSettle(s, job, reply), job, i, targets, from, task, chain, after)
  {
    var (j, s') := (s.jobs[job], DoSettle(s, job, reply));
    if s' == s || reply.None? {
      return world;
    }
    after := LoopIsAnswered(j, MailOf(s.mail, job), s.schedulers[i].targets, targets, from, world,
      ReplyOf(s.executed[reply.value]));
    assert s'.executed[reply.value] == s.executed[reply.value];
  }

  lemma RegisterIsTraced(s: State, node: string, target: string, job: nat, i: nat, targets: Targets, from: Sender,
    task: TaskRequest, chain: seq<string>, world: World) returns (after: World)
    requires Traced(s, job, i, targets, from, task, chain, world)
    ensures Traced(DoRegister(s, i, node, target), job, i, targets, from, task, chain, after)
  {
    after := LoopSeesRegistration(s.jobs[job], MailOf(s.mail, job), s.schedulers[i].targets, targets, from, world,
      node, target);
    var s' := DoRegister(s, i, node, target);
    if s.jobs[job].closed {
      RealReplyStays(s, s', job, s.jobs[job].attempts - 1, world(s.jobs[job].attempts - 1).reply);
    }
  }

  /** What a step that is not this dispatch's own leaves alone. */
  ghost predicate LeavesAlone(s: State, s': State, job: nat, i: nat)
    requires job < |s.jobs| && i < |s.schedulers|
  {
    && job < |s'.jobs| && s'.jobs[job] == s.jobs[job]
    && i < |s'.schedulers| && s'.schedulers[i].targets == s.schedulers[i].targets
    && SenderOf(s'.schedulers[i]) == SenderOf(s.schedulers[i])
    && s.executed <= s'.executed
    && (s'.mail == s.mail || (|s'.mail| == |s.mail| + 1 && s.mail <= s'.mail && s'.mail[|s.mail|].job != job))
  }

  lemma OfficeLeavesAlone(s: State, verifies: SignatureCheck, action: Action, job: nat, i: nat)
    requires job < |s.jobs| && i < |s.schedulers| && IsOffice(action) && !(action.Register? && action.scheduler == i)
    ensures LeavesAlone(s, Next(s, verifies, action), job, i)
  {
  }

  lemma DispatchLeavesAlone(s: State, verifies: SignatureCheck, action: Action, job: nat, i: nat)
    requires job < |s.jobs| && i < |s.schedulers| && IsDispatch(action)
    requires action != Try(job) && !(action.Settle? && action.job == job)
    ensures LeavesAlone(s, Next(s, verifies, action), job, i)
  {
  }

  lemma OthersLeaveAlone(s: State, verifies: SignatureCheck, action: Action, job: nat, i: nat)
    requires job < |s.jobs| && i < |s.schedulers| && !IsOffice(action) && !IsDispatch(action)
    ensures LeavesAlone(s, Next(s, verifies, action), job, i)
  {
  }

  lemma LeftAloneIsTraced(s: State, s': State, job: nat, i: nat, targets: Targets, from: Sender,
    task: TaskRequest, chain: seq<string>, world: World)
    requires Traced(s, job, i, targets, from, task, chain, world) && LeavesAlone(s, s', job, i)
    ensures Traced(s', job, i, targets, from, task, chain, world)
  {
    if s'.mail != s.mail {
      MailOfAppend(s.mail, s'.mail[|s.mail|], job);
      assert s'.mail == s.mail + [s'.mail[|s.mail|]];
    }
    if s.jobs[job].closed {
      RealReplyStays(s, s', job, s.jobs[job].attempts - 1, world(s.jobs[job].attempts - 1).reply);
    }
  }

  lemma NextIsTraced(s: State, verifies: SignatureCheck, action: Action, job: nat, i: nat, targets: Targets,
    from: Sender, task: TaskRequest, chain: seq<string>, world: World) returns (after: World)
    requires Traced(s, job, i, targets, from, task, chain, world)
    ensures Traced(Next(s, verifies, action), job, i, targets, from, task, chain, after)
  {
    if action == Try(job) {
      after := TryIsTraced(s, job, i, targets, from, task, chain, world);
    } else if action.Settle? && action.job == job {
      after := SettleIsTraced(s, job, action.reply, i, targets, from, task, chain, world);
    } else if action.Register? && action.scheduler == i {
      after := RegisterIsTraced(s, action.node, action.target, job, i, targets, from, task, chain, world);
    } else {
      after := world;
      if IsOffice(action) {
        OfficeLeavesAlone(s, verifies, action, job, i);
      } else if IsDispatch(action) {
        DispatchLeavesAlone(s, verifies, action, job, i);
      } else {
        OthersLeaveAlone(s, verifies, action, job, i);
      }
      LeftAloneIsTraced(s, Next(s, verifies, action), job, i, targets, from, task, chain, world);
    }
  }

  lemma {:induction false} RunIsTraced(s: State, verifies: SignatureCheck, actions: seq<Action>, job: nat, i: nat,
    targets: Targets, from: Sender, task: TaskRequest, chain: seq<string>, world: World)
    returns (after: World)
    requires Traced(s, job, i, targets, from, task, chain, world)
    ensures Traced(Run(s, verifies, actions), job, i, targets, from, task, chain, after)
  {
    if actions == [] {
      after := world;
    } else {
      after := RunIsTraced(s, verifies, actions[..|actions| - 1], job, i, targets, from, task, chain, world);
      after := NextIsTraced(Run(s, verifies, actions[..|actions| - 1]), verifies, actions[|actions| - 1],
        job, i, targets, from, task, chain, after);
    }
  }

  /** However its steps are interleaved with everything else, registrations included, a dispatch posts what the
      dispatcher's loop emits in some world, walks on as long as nobody answers, and stops at the first answer, which
      a node really gave to the envelope of that very attempt. */
  lemma DispatchesFollowTheLoop(s: State, verifies: SignatureCheck, i: nat, task: TaskRequest, decision: Decision,
    actions: seq<Action>) returns (world: World)
    requires Fenced(s)
    requires i < |s.schedulers| && DoOpen(s, i, task, decision).jobs != s.jobs
    ensures
      var t := Run(DoOpen(s, i, task, decision), verifies, actions);
      Traced(t, |s.jobs|, i, s.schedulers[i].targets, SenderOf(s.schedulers[i]), task, ChainOf(decision), world)
  {
    var s0 := DoOpen(s, i, task, decision);
    world := n => Attempt([], 0.0, None, Lost);
    assert forall m :: 0 <= m < |s.mail| ==> Fits(s, s.mail[m]);
    NoMailYet(s0.mail, |s.jobs|);
    world := RunIsTraced(s0, verifies, actions, |s.jobs|, i, s.schedulers[i].targets, SenderOf(s.schedulers[i]), task,
      ChainOf(decision), world);
  }
}
