/** Lease fencing over every run of the cluster. */
module Fencing {
  import opened Contracts
  import opened Etcd
  import opened Leases
  import opened SupplyChain
  import opened Node
  import opened Dispatch
  import opened Cluster

  /** The creation of the leader key is what makes a leader, and only one scheduler ever made it. */
  ghost predicate Leadership(s: State)
  {
    && (forall i :: 0 <= i < |s.schedulers| ==> s.schedulers[i].lease in s.authority.granted)
    && (forall i :: 0 <= i < |s.schedulers| && s.schedulers[i].isLeader ==> s.schedulers[i].elected)
    && (forall i :: 0 <= i < |s.schedulers| && s.schedulers[i].elected ==>
      !s.schedulers[i].stage.Granted? && LEADER_KEY in s.store.kv)
    && (forall i, j | 0 <= i < |s.schedulers| && 0 <= j < |s.schedulers| ::
      s.schedulers[i].elected && s.schedulers[j].elected ==> i == j)
  }

  /** Every dispatch was opened by the leader. */
  ghost predicate LeadersJobs(s: State)
  {
    forall j :: 0 <= j < |s.jobs| ==>
      && s.jobs[j].scheduler < |s.schedulers| && s.schedulers[s.jobs[j].scheduler].elected
      && s.jobs[j].attempts <= |s.jobs[j].chain| && NoRepeats(s.jobs[j].chain)
  }

  function SenderOf(me: Scheduler): Sender { Sender(me.lease, me.id, me.pem) }

  /** A digest that the task names is the one that the envelope asks for. */
  predicate Asks(e: Envelope, task: TaskRequest)
  {
    task.modelDigest.Some? && task.modelDigest.value != "" ==> e.modelDigest == task.modelDigest
  }

  /** A parcel carries its dispatch's task, under the lease and the key of its scheduler, to the chain member of its
      attempt. */
  ghost predicate Fits(s: State, p: Parcel)
  {
    && p.job < |s.jobs| && s.jobs[p.job].scheduler < |s.schedulers|
    && p.attempt < s.jobs[p.job].attempts <= |s.jobs[p.job].chain| && p.address != ""
    && p.envelope.nodeId == s.jobs[p.job].chain[p.attempt]
    && Proper(p.envelope, SenderOf(s.schedulers[s.jobs[p.job].scheduler]), s.jobs[p.job].task)
    && Asks(p.envelope, s.jobs[p.job].task)
  }

  ghost predicate LeadersMail(s: State)
  {
    && (forall m :: 0 <= m < |s.mail| ==> Fits(s, s.mail[m]))
    && (forall m, n :: 0 <= m < n < |s.mail| && s.mail[m].job == s.mail[n].job ==>
      s.mail[m].attempt < s.mail[n].attempt)
  }

  ghost predicate InTime(s: State, a: Admitted)
  {
    && a.at <= s.now && a.at <= a.parcel.envelope.expiresAt
    && a.parcel.envelope.leaderLeaseId in s.authority.granted
    && a.at <= s.authority.granted[a.parcel.envelope.leaderLeaseId]
  }

  ghost predicate Letters(s: State)
  {
    LeadersMail(s) && forall a :: 0 <= a < |s.admitted| ==> s.admitted[a].parcel in s.mail && InTime(s, s.admitted[a])
  }

  ghost predicate Fenced(s: State)
  {
    && Refines(s.store, s.authority, s.now)
    && Leadership(s) && LeadersJobs(s) && Letters(s)
  }

  lemma InitFenced(now: real, hosts: map<string, Profile>)
    ensures Fenced(Init(now, hosts))
  {
  }

  /** What keeps envelopes and admissions as they were: leases, dispatches and their senders stay. */
  ghost predicate Extends(s: State, s': State)
  {
    && s.now <= s'.now
    && |s.schedulers| <= |s'.schedulers| && |s.jobs| <= |s'.jobs|
    && (forall i :: 0 <= i < |s.schedulers| ==> SenderOf(s'.schedulers[i]) == SenderOf(s.schedulers[i]))
    && (forall j :: 0 <= j < |s.jobs| ==> s'.jobs[j] == s.jobs[j])
    && s'.mail == s.mail && s'.admitted == s.admitted
    && (forall id :: id in s.authority.granted ==>
      id in s'.authority.granted && s'.authority.granted[id] == s.authority.granted[id])
  }

  lemma LettersStay(s: State, s': State)
    requires Letters(s) && Extends(s, s')
    ensures Letters(s')
  {
    assert forall m :: 0 <= m < |s.mail| ==> Fits(s, s.mail[m]) && Fits(s', s.mail[m]);
    assert forall a :: 0 <= a < |s.admitted| ==> InTime(s, s.admitted[a]) && InTime(s', s.admitted[a]);
  }

  /** A step of the store that leaves the leader key alone. */
  lemma AskKeepsFence(s: State, op: Op)
    requires Fenced(s) && Foreign(op)
    ensures Fenced(Ask(s, op)) && Extends(s, Ask(s, op))
  {
    StepRefines(s.store, s.authority, op, s.now, s.now);
    assert LEADER_KEY in s.store.kv ==> LEADER_KEY in Ask(s, op).store.kv;
    LettersStay(s, Ask(s, op));
  }

  /** Changing what a scheduler knows or believes, without electing it. */
  lemma RevisionKeepsFence(s: State, i: nat, me: Scheduler)
    requires Fenced(s) && i < |s.schedulers|
    requires SenderOf(me) == SenderOf(s.schedulers[i]) && me.elected == s.schedulers[i].elected
    requires me.isLeader ==> me.elected
    requires s.schedulers[i].stage.Granted? || !me.stage.Granted?
    ensures Fenced(s.(schedulers := s.schedulers[i := me]))
  {
    LettersStay(s, s.(schedulers := s.schedulers[i := me]));
  }

  lemma StartKeepsFence(s: State, id: string, pem: string, targets: map<string, string>)
    requires Fenced(s)
    ensures Fenced(DoStart(s, id, pem, targets))
  {
    AskKeepsFence(s, Grant(LEASE_TTL));
    LettersStay(Ask(s, Grant(LEASE_TTL)), DoStart(s, id, pem, targets));
  }

  /** Winning means that the leader key was absent, so that nobody had been elected before. */
  lemma ElectKeepsFence(s: State, i: nat)
    requires Fenced(s)
    ensures Fenced(DoElect(s, i))
  {
    if i < |s.schedulers| && s.schedulers[i].stage.Granted? {
      var op := Cas(LEADER_KEY, None, Plain(s.schedulers[i].id), Some(s.schedulers[i].lease));
      StepRefines(s.store, s.authority, op, s.now, s.now);
      LettersStay(s, DoElect(s, i));
    }
  }

  lemma PublishKeepsFence(s: State, i: nat)
    requires Fenced(s)
    ensures Fenced(DoPublish(s, i))
  {
    if i < |s.schedulers| && s.schedulers[i].stage.Decided? {
      var me := s.schedulers[i];
      var op := Put(IdentityKey(me.id), Plain(me.pem));
      IdentityIsNotLeadership(me.id);
      AskKeepsFence(s, op);
      RevisionKeepsFence(Ask(s, op), i, me.(stage := Serving));
    }
  }

  lemma RegisterKeepsFence(s: State, i: nat, node: string, target: string)
    requires Fenced(s)
    ensures Fenced(DoRegister(s, i, node, target))
  {
    if i < |s.schedulers| {
      RevisionKeepsFence(s, i, s.schedulers[i].(targets := s.schedulers[i].targets[node := target]));
    }
  }

  lemma TickKeepsFence(s: State, seconds: real)
    requires Fenced(s) && seconds >= 0.0
    ensures Fenced(s.(now := s.now + seconds))
  {
    LettersStay(s, s.(now := s.now + seconds));
  }

  lemma NewJobKeepsFence(s: State, job: Job)
    requires Fenced(s) && job.scheduler < |s.schedulers| && s.schedulers[job.scheduler].elected
    requires job.attempts == 0 && NoRepeats(job.chain)
    ensures Fenced(s.(jobs := s.jobs + [job]))
  {
    LettersStay(s, s.(jobs := s.jobs + [job]));
  }

  lemma OpenKeepsFence(s: State, i: nat, task: TaskRequest, decision: Decision)
    requires Fenced(s)
    ensures Fenced(DoOpen(s, i, task, decision))
  {
    if i < |s.schedulers| && s.schedulers[i].stage.Serving? && s.schedulers[i].isLeader {
      var me := s.schedulers[i];
      AskKeepsFence(s, IsValid(me.lease));
      if Confirms(s, IsValid(me.lease)) {
        ChainShape(decision);
        NewJobKeepsFence(Ask(s, IsValid(me.lease)), Job(i, task, ChainOf(decision), 0, false, false));
      } else {
        RevisionKeepsFence(Ask(s, IsValid(me.lease)), i, me.(isLeader := false));
      }
    }
  }

  lemma FitsAfterProgress(s: State, j: nat, job: Job, p: Parcel)
    requires Fits(s, p) && j < |s.jobs|
    requires job.scheduler == s.jobs[j].scheduler && job.task == s.jobs[j].task && job.chain == s.jobs[j].chain
    requires s.jobs[j].attempts <= job.attempts <= |job.chain|
    ensures Fits(s.(jobs := s.jobs[j := job]), p)
  {
  }

  /** A dispatch in progress goes on without a new lease check. */
  lemma ProgressKeepsFence(s: State, j: nat, job: Job, posted: seq<Parcel>)
    requires Fenced(s) && j < |s.jobs|
    requires job.scheduler == s.jobs[j].scheduler && job.task == s.jobs[j].task && job.chain == s.jobs[j].chain
    requires s.jobs[j].attempts <= job.attempts <= |job.chain|
    requires posted == [] || (|posted| == 1 && posted[0].job == j && posted[0].attempt == s.jobs[j].attempts)
    requires forall p :: p in posted ==> Fits(s.(jobs := s.jobs[j := job]), p)
    ensures Fenced(s.(jobs := s.jobs[j := job], mail := s.mail + posted))
  {
    var s' := s.(jobs := s.jobs[j := job], mail := s.mail + posted);
    forall m | 0 <= m < |s'.mail| ensures Fits(s', s'.mail[m]) {
      if m < |s.mail| {
        FitsAfterProgress(s, j, job, s.mail[m]);
      } else {
        assert s'.mail[m] in posted;
      }
    }
    assert forall a :: 0 <= a < |s.admitted| ==> InTime(s, s.admitted[a]) && InTime(s', s.admitted[a]);
  }

  lemma TryKeepsFence(s: State, j: nat)
    requires Fenced(s)
    ensures Fenced(DoTry(s, j))
  {
    if j < |s.jobs| && !s.jobs[j].closed && !s.jobs[j].waiting && s.jobs[j].attempts < |s.jobs[j].chain| {
      var s' := DoTry(s, j);
      var posted := s'.mail[|s.mail|..];
      assert s'.mail == s.mail + posted;
      ProgressKeepsFence(s, j, s'.jobs[j], posted);
    }
  }

  lemma SettleKeepsFence(s: State, j: nat, reply: Option<nat>)
    requires Fenced(s)
    ensures Fenced(DoSettle(s, j, reply))
  {
    if j < |s.jobs| {
      var s' := DoSettle(s, j, reply);
      assert s'.jobs == s.jobs[j := s'.jobs[j]] && s.mail + [] == s.mail;
      ProgressKeepsFence(s, j, s'.jobs[j], []);
    }
  }

  lemma AdmissionKeepsLetters(s: State, m: nat)
    requires Letters(s) && m < |s.mail| && s.now <= s.mail[m].envelope.expiresAt
    requires Alive(s.authority, s.mail[m].envelope.leaderLeaseId, s.now)
    ensures Letters(s.(admitted := s.admitted + [Admitted(s.mail[m], s.now)]))
  {
    var s' := s.(admitted := s.admitted + [Admitted(s.mail[m], s.now)]);
    assert forall n :: 0 <= n < |s.mail| ==> Fits(s, s.mail[n]) && Fits(s', s.mail[n]);
    assert forall a :: 0 <= a < |s.admitted| ==> InTime(s, s.admitted[a]) && InTime(s', s.admitted[a]);
    assert s.mail[m] in s.mail;
  }

  /** What a delivery needs in order to be admitted. */
  lemma DeliveryIsFenced(s: State, m: nat)
    requires Fenced(s)
    ensures Fenced(DoDeliver(s, m))
    ensures DoDeliver(s, m).admitted != s.admitted ==>
      && m < |s.mail|
      && DoDeliver(s, m).admitted == s.admitted + [Admitted(s.mail[m], s.now)]
      && s.now <= s.mail[m].envelope.expiresAt
      && Alive(s.authority, s.mail[m].envelope.leaderLeaseId, s.now)
      && Lookup(s.store.kv, IdentityKey(s.mail[m].envelope.keyId)) == Some(Plain(s.mail[m].envelope.signedBy))
  {
    if m < |s.mail| && s.mail[m].address in s.hosts {
      var lease := s.mail[m].envelope.leaderLeaseId;
      var (store, code) := Admission(s.store, s.mail[m].envelope, s.now);
      StepRefines(s.store, s.authority, IsValid(lease), s.now, s.now);
      assert store == s.store || store == Apply(s.store, IsValid(lease), s.now).0;
      LettersStay(s, s.(store := store));
      if code == None {
        AdmissionKeepsLetters(s.(store := store), m);
      }
    }
  }

  /** Hosts and executions play no part in fencing. */
  lemma NodesKeepFence(s: State, verifies: SignatureCheck, action: Action)
    requires Fenced(s) && (action.Work? || action.SetHealth?)
    ensures Fenced(Next(s, verifies, action))
  {
    var s' := Next(s, verifies, action);
    assert s' == s.(hosts := s'.hosts, worked := s'.worked, executed := s'.executed);
    LettersStay(s, s');
  }

  lemma OfficeKeepsFence(s: State, verifies: SignatureCheck, action: Action)
    requires Fenced(s) && IsOffice(action)
    ensures Fenced(Next(s, verifies, action))
  {
    match action
    case Start(id, pem, targets) => StartKeepsFence(s, id, pem, targets);
    case Elect(i) => ElectKeepsFence(s, i);
    case Publish(i) => PublishKeepsFence(s, i);
    case Register(i, node, target) => RegisterKeepsFence(s, i, node, target);
  }

  lemma DispatchKeepsFence(s: State, verifies: SignatureCheck, action: Action)
    requires Fenced(s) && IsDispatch(action)
    ensures Fenced(Next(s, verifies, action))
  {
    match action
    case Open(i, task, decision) => OpenKeepsFence(s, i, task, decision);
    case Try(j) => TryKeepsFence(s, j);
    case Settle(j, reply) => SettleKeepsFence(s, j, reply);
  }

  lemma OthersKeepFence(s: State, verifies: SignatureCheck, action: Action)
    requires Fenced(s) && !IsOffice(action) && !IsDispatch(action)
    ensures Fenced(Next(s, verifies, action))
  {
    match action
    case Tick(seconds) =>
      if seconds >= 0.0 {
        TickKeepsFence(s, seconds);
      }
    case External(op) =>
      if Foreign(op) {
        AskKeepsFence(s, op);
      }
    case Deliver(m) => DeliveryIsFenced(s, m);
    case _ => NodesKeepFence(s, verifies, action);
  }

  lemma NextFenced(s: State, verifies: SignatureCheck, action: Action)
    requires Fenced(s)
    ensures Fenced(Next(s, verifies, action))
  {
    if IsOffice(action) {
      OfficeKeepsFence(s, verifies, action);
    } else if IsDispatch(action) {
      DispatchKeepsFence(s, verifies, action);
    } else {
      OthersKeepFence(s, verifies, action);
    }
  }

  lemma {:induction false} RunFenced(s: State, verifies: SignatureCheck, actions: seq<Action>)
    requires Fenced(s)
    ensures Fenced(Run(s, verifies, actions))
  {
    if actions != [] {
      RunFenced(s, verifies, actions[..|actions| - 1]);
      NextFenced(Run(s, verifies, actions[..|actions| - 1]), verifies, actions[|actions| - 1]);
    }
  }

  /** Nothing that matters for fencing is ever forgotten. */
  ghost predicate Remembers(s: State, s': State)
  {
    && s.now <= s'.now
    && |s.schedulers| <= |s'.schedulers| && |s.jobs| <= |s'.jobs|
    && (forall i :: 0 <= i < |s.schedulers| ==>
      && SenderOf(s'.schedulers[i]) == SenderOf(s.schedulers[i])
      && (s.schedulers[i].elected ==> s'.schedulers[i].elected))
    && (forall j :: 0 <= j < |s.jobs| ==>
      && s'.jobs[j].scheduler == s.jobs[j].scheduler
      && s'.jobs[j].task == s.jobs[j].task && s'.jobs[j].chain == s.jobs[j].chain)
    && s'.hosts.Keys == s.hosts.Keys
    && s.mail <= s'.mail && s.admitted <= s'.admitted && s.executed <= s'.executed
  }

  /** A lease that is dead, whether or not it was ever granted, stays dead. */
  ghost predicate KeepsDead(s: State, s': State)
  {
    && s.authority.nextLease <= s'.authority.nextLease
    && (forall id :: id < s.authority.nextLease && !Alive(s.authority, id, s.now) ==> !Alive(s'.authority, id, s'.now))
  }

  lemma AskKeepsDead(s: State, op: Op)
    ensures KeepsDead(s, Ask(s, op))
  {
    forall id | id < s.authority.nextLease && !Alive(s.authority, id, s.now)
      ensures !Alive(Ask(s, op).authority, id, s.now)
    {
      DeadStaysDead(s.authority, id, op, s.now, s.now);
    }
  }

  lemma NextKeepsDead(s: State, verifies: SignatureCheck, action: Action)
    ensures KeepsDead(s, Next(s, verifies, action))
  {
    match action
    case External(op) => AskKeepsDead(s, op);
    case Start(_, _, _) => AskKeepsDead(s, Grant(LEASE_TTL));
    case Elect(i) =>
      if i < |s.schedulers| {
        AskKeepsDead(s, Cas(LEADER_KEY, None, Plain(s.schedulers[i].id), Some(s.schedulers[i].lease)));
      }
    case Publish(i) =>
      if i < |s.schedulers| {
        AskKeepsDead(s, Put(IdentityKey(s.schedulers[i].id), Plain(s.schedulers[i].pem)));
      }
    case Open(i, _, _) =>
      if i < |s.schedulers| {
        AskKeepsDead(s, IsValid(s.schedulers[i].lease));
      }
    case _ => assert Next(s, verifies, action).authority == s.authority;
  }

  lemma OfficeRemembers(s: State, verifies: SignatureCheck, action: Action)
    requires Fenced(s) && IsOffice(action)
    ensures Remembers(s, Next(s, verifies, action))
  {
  }

  lemma DispatchRemembers(s: State, verifies: SignatureCheck, action: Action)
    requires IsDispatch(action)
    ensures Remembers(s, Next(s, verifies, action))
  {
  }

  lemma OthersRemember(s: State, verifies: SignatureCheck, action: Action)
    requires !IsOffice(action) && !IsDispatch(action)
    ensures Remembers(s, Next(s, verifies, action))
  {
  }

  lemma NextRemembers(s: State, verifies: SignatureCheck, action: Action)
    requires Fenced(s)
    ensures Remembers(s, Next(s, verifies, action))
  {
    if IsOffice(action) {
      OfficeRemembers(s, verifies, action);
    } else if IsDispatch(action) {
      DispatchRemembers(s, verifies, action);
    } else {
      OthersRemember(s, verifies, action);
    }
  }

  lemma RemembersBoth(s: State, t: State, u: State)
    requires Remembers(s, t) && Remembers(t, u)
    ensures Remembers(s, u)
  {
  }

  lemma {:induction false} RunRemembers(s: State, verifies: SignatureCheck, actions: seq<Action>)
    requires Fenced(s)
    ensures Remembers(s, Run(s, verifies, actions)) && KeepsDead(s, Run(s, verifies, actions))
  {
    if actions != [] {
      RunFenced(s, verifies, actions[..|actions| - 1]);
      RunRemembers(s, verifies, actions[..|actions| - 1]);
      NextRemembers(Run(s, verifies, actions[..|actions| - 1]), verifies, actions[|actions| - 1]);
      NextKeepsDead(Run(s, verifies, actions[..|actions| - 1]), verifies, actions[|actions| - 1]);
    }
  }

  /** At most one scheduler instance is ever elected, however long the run goes on: there is no failover. */
  lemma OneLeaderEver(now: real, hosts: map<string, Profile>, verifies: SignatureCheck,
    before: seq<Action>, after: seq<Action>, i: nat, j: nat)
    requires var s := Run(Init(now, hosts), verifies, before); i < |s.schedulers| && s.schedulers[i].elected
    requires var t := Run(Init(now, hosts), verifies, before + after); j < |t.schedulers| && t.schedulers[j].elected
    ensures i == j
  {
    InitFenced(now, hosts);
    RunFenced(Init(now, hosts), verifies, before);
    RunFenced(Init(now, hosts), verifies, before + after);
    RunSplits(Init(now, hosts), verifies, before, after);
    RunRemembers(Run(Init(now, hosts), verifies, before), verifies, after);
  }

  /** Every envelope in flight, however old, carries the lease of the one elected scheduler. */
  lemma MailIsTheLeaders(now: real, hosts: map<string, Profile>, verifies: SignatureCheck, actions: seq<Action>,
    leader: nat, m: nat)
    requires
      var s := Run(Init(now, hosts), verifies, actions);
      leader < |s.schedulers| && s.schedulers[leader].elected && m < |s.mail|
    ensures
      var s := Run(Init(now, hosts), verifies, actions);
      s.mail[m].envelope.leaderLeaseId == s.schedulers[leader].lease
  {
    var s := Run(Init(now, hosts), verifies, actions);
    InitFenced(now, hosts);
    RunFenced(Init(now, hosts), verifies, actions);
    assert Fits(s, s.mail[m]);
  }

  lemma AdmissionNamesLeader(s: State, m: nat) returns (leader: nat)
    requires Fenced(s) && DoDeliver(s, m).admitted != s.admitted
    ensures m < |s.mail| && DoDeliver(s, m).admitted == s.admitted + [Admitted(s.mail[m], s.now)]
    ensures s.now <= s.mail[m].envelope.expiresAt && leader < |s.schedulers| && s.schedulers[leader].elected
    ensures s.mail[m].envelope.leaderLeaseId == s.schedulers[leader].lease
    ensures Alive(s.authority, s.schedulers[leader].lease, s.now)
    ensures Lookup(s.store.kv, IdentityKey(s.schedulers[leader].id)) == Some(Plain(s.schedulers[leader].pem))
  {
    DeliveryIsFenced(s, m);
    assert Fits(s, s.mail[m]);
    leader := s.jobs[s.mail[m].job].scheduler;
  }

  /** Every admission happens before the envelope expires and while the one leader's lease is granted, unrevoked
      and unexpired, although the scheduler looked at its lease only when it opened the dispatch; and the key stored
      for the leader is then its own. */
  lemma AdmissionsAreFenced(now: real, hosts: map<string, Profile>, verifies: SignatureCheck,
    actions: seq<Action>, action: Action)
    returns (leader: nat, parcel: Parcel)
    requires var s := Run(Init(now, hosts), verifies, actions); Next(s, verifies, action).admitted != s.admitted
    ensures
      var s := Run(Init(now, hosts), verifies, actions);
      && Next(s, verifies, action).admitted == s.admitted + [Admitted(parcel, s.now)]
      && parcel in s.mail && s.now <= parcel.envelope.expiresAt
      && leader < |s.schedulers| && s.schedulers[leader].elected
      && parcel.envelope.leaderLeaseId == s.schedulers[leader].lease
      && Alive(s.authority, s.schedulers[leader].lease, s.now)
      && Lookup(s.store.kv, IdentityKey(s.schedulers[leader].id)) == Some(Plain(s.schedulers[leader].pem))
  {
    var s := Run(Init(now, hosts), verifies, actions);
    InitFenced(now, hosts);
    RunFenced(Init(now, hosts), verifies, actions);
    assert action.Deliver?;
    leader := AdmissionNamesLeader(s, action.mail);
    parcel := s.mail[action.mail];
  }

  lemma DeadLeaseAdmitsNothing(s: State, m: nat, leader: nat)
    requires Fenced(s) && leader < |s.schedulers| && s.schedulers[leader].elected
    requires !Alive(s.authority, s.schedulers[leader].lease, s.now)
    ensures DoDeliver(s, m).admitted == s.admitted
  {
    DeliveryIsFenced(s, m);
    assert m < |s.mail| ==> Fits(s, s.mail[m]);
  }

  lemma DeadLeaseOpensNothing(s: State, i: nat, task: TaskRequest, decision: Decision, leader: nat)
    requires Fenced(s) && leader < |s.schedulers| && s.schedulers[leader].elected
    requires !Alive(s.authority, s.schedulers[leader].lease, s.now)
    ensures DoOpen(s, i, task, decision).jobs == s.jobs
  {
    if i < |s.schedulers| {
      StepRefines(s.store, s.authority, IsValid(s.schedulers[i].lease), s.now, s.now);
    }
  }

  /** Without the lease nothing is admitted and nothing is opened by the step taken. */
  lemma DeadLeaseStops(s: State, verifies: SignatureCheck, action: Action, leader: nat)
    requires Fenced(s) && leader < |s.schedulers| && s.schedulers[leader].elected
    requires !Alive(s.authority, s.schedulers[leader].lease, s.now)
    ensures Next(s, verifies, action).admitted == s.admitted && |Next(s, verifies, action).jobs| == |s.jobs|
  {
    match action
    case Deliver(m) => DeadLeaseAdmitsNothing(s, m, leader);
    case Open(i, task, decision) => DeadLeaseOpensNothing(s, i, task, decision, leader);
    case _ => assert Next(s, verifies, action).admitted == s.admitted;
  }

  lemma {:induction false} DeadLeaseStopsRun(s: State, verifies: SignatureCheck, actions: seq<Action>, leader: nat)
    requires Fenced(s) && leader < |s.schedulers| && s.schedulers[leader].elected
    requires !Alive(s.authority, s.schedulers[leader].lease, s.now)
    ensures Run(s, verifies, actions).admitted == s.admitted && |Run(s, verifies, actions).jobs| == |s.jobs|
  {
    if actions != [] {
      DeadLeaseStopsRun(s, verifies, actions[..|actions| - 1], leader);
      RunFenced(s, verifies, actions[..|actions| - 1]);
      RunRemembers(s, verifies, actions[..|actions| - 1]);
      DeadLeaseStops(Run(s, verifies, actions[..|actions| - 1]), verifies, actions[|actions| - 1], leader);
    }
  }

  /** Once the leader's lease has lapsed or been revoked, no node ever admits anything again and no dispatch is
      ever opened again, by anyone. What had been admitted before may still be executed, and answered. */
  lemma LapseIsFinal(now: real, hosts: map<string, Profile>, verifies: SignatureCheck,
    before: seq<Action>, after: seq<Action>, leader: nat)
    requires
      var s := Run(Init(now, hosts), verifies, before);
      && leader < |s.schedulers| && s.schedulers[leader].elected
      && !Alive(s.authority, s.schedulers[leader].lease, s.now)
    ensures
      var s := Run(Init(now, hosts), verifies, before);
      var t := Run(Init(now, hosts), verifies, before + after);
      t.admitted == s.admitted && |t.jobs| == |s.jobs|
  {
    InitFenced(now, hosts);
    RunFenced(Init(now, hosts), verifies, before);
    RunSplits(Init(now, hosts), verifies, before, after);
    DeadLeaseStopsRun(Run(Init(now, hosts), verifies, before), verifies, after, leader);
  }
}
