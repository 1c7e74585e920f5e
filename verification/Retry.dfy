/** Retries along the chain with one idempotency key: what they guarantee across nodes, and what they do not.

    The architecture document (section 7.4) promises that a retry on a fallback node with the same key cannot
    execute the task twice. Keys are remembered per node, and addresses may be registered at any time. When this can
    go wrong depends on the form that registrations have, and `DoubleExecutionExactly` gives the condition for any
    form: two members of the chain may reach two different nodes that do not remember the key. A later section
    spells it out for the registrations of the gateway, for any use of the scheduler's interface, and for none. */
module Retry {
  import opened Contracts
  import opened Etcd
  import opened Leases
  import opened SupplyChain
  import opened Node
  import opened Dispatch
  import opened Cluster
  import opened Fencing
  import opened Idempotence

  predicate FreshPair(s: State, job: nat, x: nat, y: nat)
  {
    && x < y < |s.executed| && s.executed[x].isFresh && s.executed[y].isFresh
    && s.executed[x].parcel.job == job && s.executed[y].parcel.job == job
  }

  ghost predicate TwoFresh(s: State, job: nat)
  {
    exists x: nat, y: nat :: FreshPair(s, job, x, y)
  }

  function ResolvedFor(s: State, task: TaskRequest): Option<string>
  {
    ResolveDigest(task, Lookup(s.store.kv, ModelKey(task.modelId)))
  }

  /** A leader in office, with a lease, a published key and an approved artifact. */
  ghost predicate InOffice(s: State, verifies: SignatureCheck, i: nat, task: TaskRequest)
  {
    && Fenced(s) && Once(s)
    && i < |s.schedulers| && s.schedulers[i].stage.Serving? && s.schedulers[i].isLeader
    && s.schedulers[i].pem != "" && task.maxLatencyMs >= 1.0
    && Lookup(s.store.kv, IdentityKey(s.schedulers[i].id)) == Some(Plain(s.schedulers[i].pem))
    && Alive(s.authority, s.schedulers[i].lease, s.now)
    && Verify(s.store.kv, verifies, task.modelId, ResolvedFor(s, task)).Ok?
  }

  /** A healthy node that has not seen the key yet. */
  ghost predicate Usable(s: State, address: string, key: string)
  {
    && address in s.hosts && key !in s.hosts[address].cache
    && !s.hosts[address].profile.isOffline && !s.hosts[address].profile.failExecution
  }

  /** The leader is in office, and whoever has an address is usable. */
  ghost predicate Ready(s: State, verifies: SignatureCheck, i: nat, task: TaskRequest)
  {
    && InOffice(s, verifies, i, task)
    && forall n :: HasAddress(s.schedulers[i].targets, n) ==>
      Usable(s, s.schedulers[i].targets[n], task.idempotencyKey)
  }

  // ---- Lost replies

  function EnvelopeTo(s: State, i: nat, task: TaskRequest, node: string): Envelope
    requires i < |s.schedulers|
  {
    var me := s.schedulers[i];
    EnvelopeFor(task, node, me.lease, me.id, me.pem, s.now, Lookup(s.store.kv, ModelKey(task.modelId)))
  }

  /** What the first `n` attempts post when every reply is lost. */
  function Posted(s: State, i: nat, job: nat, task: TaskRequest, chain: seq<string>, n: nat): seq<Parcel>
    requires i < |s.schedulers| && n <= |chain|
  {
    if n == 0 then []
    else
      var targets := s.schedulers[i].targets;
      Posted(s, i, job, task, chain, n - 1)
      + if HasAddress(targets, chain[n - 1])
        then [Parcel(job, n - 1, targets[chain[n - 1]], EnvelopeTo(s, i, task, chain[n - 1]))]
        else []
  }

  lemma {:induction false} PostedHas(s: State, i: nat, job: nat, task: TaskRequest, chain: seq<string>, n: nat, a: nat)
    returns (m: nat)
    requires i < |s.schedulers| && a < n <= |chain| && HasAddress(s.schedulers[i].targets, chain[a])
    ensures var posted := Posted(s, i, job, task, chain, n);
      m < |posted|
      && posted[m] == Parcel(job, a, s.schedulers[i].targets[chain[a]], EnvelopeTo(s, i, task, chain[a]))
  {
    if a == n - 1 {
      m := |Posted(s, i, job, task, chain, n - 1)|;
    } else {
      m := PostedHas(s, i, job, task, chain, n - 1, a);
    }
  }

  /** Nobody registers an address. */
  ghost predicate KeepsTargets(actions: seq<Action>)
  {
    forall k :: 0 <= k < |actions| ==> !actions[k].Register?
  }

  /** `n` attempts, each given up on. */
  function Rounds(job: nat, n: nat): seq<Action>
  {
    if n == 0 then [] else Rounds(job, n - 1) + [Try(job), Settle(job, None)]
  }

  lemma {:induction false} RoundsKeepTargets(job: nat, n: nat)
    ensures KeepsTargets(Rounds(job, n))
  {
    if n > 0 {
      RoundsKeepTargets(job, n - 1);
    }
  }

  lemma RunTwo(s: State, verifies: SignatureCheck, actions: seq<Action>, one: Action, two: Action)
    ensures Run(s, verifies, actions + [one, two])
      == Next(Next(Run(s, verifies, actions), verifies, one), verifies, two)
  {
    var all := actions + [one, two];
    assert all[..|all| - 1] == actions + [one];
    assert (actions + [one])[..|actions|] == actions;
  }

  lemma OneRound(s: State, verifies: SignatureCheck, i: nat, job: nat, task: TaskRequest, chain: seq<string>, n: nat)
    requires i < |s.schedulers| && 0 < n <= |chain|
    requires job < |s.jobs| && s.jobs[job] == Job(i, task, chain, n - 1, false, false)
    ensures
      Next(Next(s, verifies, Try(job)), verifies, Settle(job, None))
      == s.(jobs := s.jobs[job := Job(i, task, chain, n, false, false)],
        mail := s.mail + Posted(s, i, job, task, chain, n)[|Posted(s, i, job, task, chain, n - 1)|..])
  {
    var u := DoTry(s, job);
    var one := Posted(s, i, job, task, chain, n)[|Posted(s, i, job, task, chain, n - 1)|..];
    assert u.mail == s.mail + one;
    var v := DoSettle(u, job, None);
    assert v.jobs == s.jobs[job := Job(i, task, chain, n, false, false)];
  }

  lemma {:induction false} PostedSame(s: State, t: State, i: nat, job: nat, task: TaskRequest, chain: seq<string>,
    n: nat)
    requires t.schedulers == s.schedulers && t.now == s.now && t.store == s.store
    requires i < |s.schedulers| && n <= |chain|
    ensures Posted(t, i, job, task, chain, n) == Posted(s, i, job, task, chain, n)
  {
    if n > 0 {
      PostedSame(s, t, i, job, task, chain, n - 1);
    }
  }

  /** The state after `n` lost rounds. */
  function AfterRounds(s: State, i: nat, job: nat, task: TaskRequest, chain: seq<string>, n: nat): State
    requires i < |s.schedulers| && n <= |chain| && job < |s.jobs|
  {
    s.(jobs := s.jobs[job := Job(i, task, chain, n, false, false)], mail := s.mail + Posted(s, i, job, task, chain, n))
  }

  lemma NextRoundPosts(s: State, verifies: SignatureCheck, i: nat, job: nat, task: TaskRequest, chain: seq<string>,
    n: nat)
    requires i < |s.schedulers| && 0 < n <= |chain| && job < |s.jobs|
    ensures
      var t := AfterRounds(s, i, job, task, chain, n - 1);
      Next(Next(t, verifies, Try(job)), verifies, Settle(job, None)) == AfterRounds(s, i, job, task, chain, n)
  {
    var t := AfterRounds(s, i, job, task, chain, n - 1);
    OneRound(t, verifies, i, job, task, chain, n);
    PostedSame(s, t, i, job, task, chain, n);
    PostedSame(s, t, i, job, task, chain, n - 1);
    var (less, more) := (Posted(s, i, job, task, chain, n - 1), Posted(s, i, job, task, chain, n));
    assert less + more[|less|..] == more;
    assert (s.mail + less) + more[|less|..] == s.mail + more;
  }

  lemma {:induction false} RoundsPost(s: State, verifies: SignatureCheck, i: nat, job: nat, task: TaskRequest,
    chain: seq<string>, n: nat)
    requires i < |s.schedulers| && n <= |chain|
    requires job < |s.jobs| && s.jobs[job] == Job(i, task, chain, 0, false, false)
    ensures Run(s, verifies, Rounds(job, n)) == AfterRounds(s, i, job, task, chain, n)
  {
    if n == 0 {
      assert s.jobs[job := s.jobs[job]] == s.jobs && s.mail + [] == s.mail;
    } else {
      RoundsPost(s, verifies, i, job, task, chain, n - 1);
      RunTwo(s, verifies, Rounds(job, n - 1), Try(job), Settle(job, None));
      NextRoundPosts(s, verifies, i, job, task, chain, n);
    }
  }

  /** A parcel that will be admitted and executed afresh wherever it is delivered. */
  ghost predicate Deliverable(s: State, verifies: SignatureCheck, p: Parcel)
  {
    var e := p.envelope;
    && p.address in s.hosts
    && !s.hosts[p.address].profile.isOffline && !s.hosts[p.address].profile.failExecution
    && e.idempotencyKey !in s.hosts[p.address].cache
    && Verify(s.store.kv, verifies, e.modelId, e.modelDigest).Ok?
    && Admission(s.store, e, s.now) == (s.store, None)
    && (forall a :: a in s.worked ==> a < |s.admitted|)
  }

  /** Delivering a parcel and letting the node work executes it, and touches no other host. */
  lemma DeliverAndWork(s: State, verifies: SignatureCheck, m: nat)
    requires m < |s.mail| && Deliverable(s, verifies, s.mail[m])
    ensures
      var p := s.mail[m];
      var t := Next(Next(s, verifies, Deliver(m)), verifies, Work(|s.admitted|, 0.0, ""));
      && |t.executed| == |s.executed| + 1 && s.executed <= t.executed
      && t.executed[|s.executed|].isFresh && t.executed[|s.executed|].parcel == p
      && t.mail == s.mail && t.store == s.store && t.now == s.now
      && (forall q :: q in t.mail && q.address != p.address && Deliverable(s, verifies, q) ==>
        Deliverable(t, verifies, q))
  {
  }

  lemma OpenForLeader(s: State, verifies: SignatureCheck, i: nat, task: TaskRequest, decision: Decision)
    requires InOffice(s, verifies, i, task)
    ensures DoOpen(s, i, task, decision) == s.(jobs := s.jobs + [Job(i, task, ChainOf(decision), 0, false, false)])
    ensures CheckLease(s.store, s.schedulers[i].lease, s.now) == (s.store, true)
  {
    StepRefines(s.store, s.authority, IsValid(s.schedulers[i].lease), s.now, s.now);
  }

  lemma UsableIsDeliverable(s: State, verifies: SignatureCheck, i: nat, task: TaskRequest, node: string, p: Parcel,
    t: State)
    requires InOffice(s, verifies, i, task) && HasAddress(s.schedulers[i].targets, node)
    requires Usable(s, s.schedulers[i].targets[node], task.idempotencyKey)
    requires p.address == s.schedulers[i].targets[node] && p.envelope == EnvelopeTo(s, i, task, node)
    requires t == s.(jobs := t.jobs, mail := t.mail)
    ensures Deliverable(t, verifies, p)
  {
    StepRefines(s.store, s.authority, IsValid(s.schedulers[i].lease), s.now, s.now);
    assert p.envelope.expiresAt >= s.now;
  }

  /** Both members are asked, both replies are lost, and only then both envelopes arrive. */
  lemma BothArrive(s: State, verifies: SignatureCheck, ma: nat, mb: nat) returns (actions: seq<Action>)
    requires ma < |s.mail| && mb < |s.mail| && s.mail[ma].address != s.mail[mb].address
    requires Deliverable(s, verifies, s.mail[ma]) && Deliverable(s, verifies, s.mail[mb])
    requires s.mail[ma].job == s.mail[mb].job
    ensures KeepsTargets(actions) && TwoFresh(Run(s, verifies, actions), s.mail[ma].job)
  {
    var n := |s.executed|;
    DeliverAndWork(s, verifies, ma);
    var one := [Deliver(ma), Work(|s.admitted|, 0.0, "")];
    RunTwo(s, verifies, [], Deliver(ma), Work(|s.admitted|, 0.0, ""));
    assert [] + one == one;
    var t := Run(s, verifies, one);
    assert t.mail == s.mail && s.mail[mb] in t.mail;
    DeliverAndWork(t, verifies, mb);
    actions := one + [Deliver(mb), Work(|t.admitted|, 0.0, "")];
    RunTwo(s, verifies, one, Deliver(mb), Work(|t.admitted|, 0.0, ""));
    var u := Run(s, verifies, actions);
    assert u.executed[n] == t.executed[n];
    assert FreshPair(u, s.mail[ma].job, n, n + 1);
  }

  /** After all rounds the parcel of each reachable member is in the mail. */
  lemma BothPosted(s: State, verifies: SignatureCheck, i: nat, job: nat, task: TaskRequest, chain: seq<string>, a: nat)
    returns (m: nat)
    requires i < |s.schedulers| && a < |chain| && HasAddress(s.schedulers[i].targets, chain[a])
    requires job < |s.jobs| && s.jobs[job] == Job(i, task, chain, 0, false, false)
    ensures
      var t := Run(s, verifies, Rounds(job, |chain|));
      && t == s.(jobs := t.jobs, mail := t.mail) && m < |t.mail|
      && t.mail[m] == Parcel(job, a, s.schedulers[i].targets[chain[a]], EnvelopeTo(s, i, task, chain[a]))
  {
    RoundsPost(s, verifies, i, job, task, chain, |chain|);
    m := PostedHas(s, i, job, task, chain, |chain|, a);
    m := |s.mail| + m;
  }

  lemma AttemptIsDeliverable(s: State, verifies: SignatureCheck, i: nat, task: TaskRequest, decision: Decision, a: nat)
    returns (m: nat)
    requires InOffice(s, verifies, i, task)
    requires a < |ChainOf(decision)| && HasAddress(s.schedulers[i].targets, ChainOf(decision)[a])
    requires Usable(s, s.schedulers[i].targets[ChainOf(decision)[a]], task.idempotencyKey)
    ensures
      var t := Run(DoOpen(s, i, task, decision), verifies, Rounds(|s.jobs|, |ChainOf(decision)|));
      && m < |t.mail| && Deliverable(t, verifies, t.mail[m])
      && t.mail[m].job == |s.jobs| && t.mail[m].address == s.schedulers[i].targets[ChainOf(decision)[a]]
  {
    OpenForLeader(s, verifies, i, task, decision);
    var s0 := DoOpen(s, i, task, decision);
    m := BothPosted(s0, verifies, i, |s.jobs|, task, ChainOf(decision), a);
    var t := Run(s0, verifies, Rounds(|s.jobs|, |ChainOf(decision)|));
    assert EnvelopeTo(s0, i, task, ChainOf(decision)[a]) == EnvelopeTo(s, i, task, ChainOf(decision)[a]);
    UsableIsDeliverable(s, verifies, i, task, ChainOf(decision)[a], t.mail[m], t);
  }

  lemma BothExecute(s: State, verifies: SignatureCheck, i: nat, task: TaskRequest, decision: Decision, a: nat, b: nat)
    returns (actions: seq<Action>)
    requires InOffice(s, verifies, i, task) && a < b < |ChainOf(decision)|
    requires HasAddress(s.schedulers[i].targets, ChainOf(decision)[a])
    requires HasAddress(s.schedulers[i].targets, ChainOf(decision)[b])
    requires Usable(s, s.schedulers[i].targets[ChainOf(decision)[a]], task.idempotencyKey)
    requires Usable(s, s.schedulers[i].targets[ChainOf(decision)[b]], task.idempotencyKey)
    requires s.schedulers[i].targets[ChainOf(decision)[a]] != s.schedulers[i].targets[ChainOf(decision)[b]]
    ensures KeepsTargets(actions) && TwoFresh(Run(DoOpen(s, i, task, decision), verifies, actions), |s.jobs|)
  {
    var ma := AttemptIsDeliverable(s, verifies, i, task, decision, a);
    var mb := AttemptIsDeliverable(s, verifies, i, task, decision, b);
    var rounds := Rounds(|s.jobs|, |ChainOf(decision)|);
    var s0 := DoOpen(s, i, task, decision);
    var rest := BothArrive(Run(s0, verifies, rounds), verifies, ma, mb);
    actions := rounds + rest;
    RunSplits(s0, verifies, rounds, rest);
    RoundsKeepTargets(|s.jobs|, |ChainOf(decision)|);
  }

  // ---- When a dispatch can execute twice

  /** Which registrations may happen: the pairs of a node and a target. */
  type Form = (string, string) -> bool

  ghost predicate Obeys(actions: seq<Action>, form: Form)
  {
    forall k :: 0 <= k < |actions| && actions[k].Register? ==> form(actions[k].node, actions[k].target)
  }

  /** The node is registered at the address, or may come to be. */
  predicate MayHave(targets: Targets, form: Form, node: string, address: string)
  {
    (HasAddress(targets, node) && targets[node] == address) || form(node, address)
  }

  predicate OpenHost(s: State, address: string, key: string)
  {
    address in s.hosts && address != "" && key !in s.hosts[address].cache
  }

  /** The chain member at place `p` may reach this address, and the node there does not remember the key. */
  ghost predicate Place(s: State, i: nat, form: Form, chain: seq<string>, key: string, p: nat, address: string)
    requires i < |s.schedulers|
  {
    p < |chain| && OpenHost(s, address, key) && MayHave(s.schedulers[i].targets, form, chain[p], address)
  }

  /** Checkable before the call: two members of the chain may reach two different nodes that do not remember the key. */
  ghost predicate TwoPlaces(s: State, i: nat, form: Form, chain: seq<string>, key: string)
    requires i < |s.schedulers|
  {
    exists p: nat, q: nat, a, b :: p != q && a != b && Place(s, i, form, chain, key, p, a)
      && Place(s, i, form, chain, key, q, b)
  }

  /** Repairing a node or registering an address may as well happen before the dispatch is opened. */
  lemma OpenCommutes(s: State, verifies: SignatureCheck, i: nat, task: TaskRequest, decision: Decision, action: Action)
    requires InOffice(s, verifies, i, task) && (action.SetHealth? || action.Register?)
    ensures InOffice(Next(s, verifies, action), verifies, i, task)
    ensures |Next(s, verifies, action).jobs| == |s.jobs|
    ensures Next(DoOpen(s, i, task, decision), verifies, action) == DoOpen(Next(s, verifies, action), i, task, decision)
  {
    NextFenced(s, verifies, action);
    NextOnce(s, verifies, action);
    OpenForLeader(s, verifies, i, task, decision);
    OpenForLeader(Next(s, verifies, action), verifies, i, task, decision);
  }

  /** `t` is `s` after some preparation, and `t0` is the same after opening the dispatch first. */
  ghost predicate Commuted(s: State, t: State, t0: State, verifies: SignatureCheck, i: nat, task: TaskRequest,
    decision: Decision)
  {
    InOffice(t, verifies, i, task) && |t.jobs| == |s.jobs| && t0 == DoOpen(t, i, task, decision)
  }

  lemma OneMoreCommutes(s: State, t: State, t0: State, verifies: SignatureCheck, i: nat, task: TaskRequest,
    decision: Decision, action: Action)
    requires Commuted(s, t, t0, verifies, i, task, decision) && (action.SetHealth? || action.Register?)
    ensures Commuted(s, Next(t, verifies, action), Next(t0, verifies, action), verifies, i, task, decision)
  {
    OpenCommutes(t, verifies, i, task, decision, action);
  }

  lemma {:induction false} PreparationCommutes(s: State, verifies: SignatureCheck, i: nat, task: TaskRequest,
    decision: Decision, actions: seq<Action>)
    requires InOffice(s, verifies, i, task)
    requires forall k :: 0 <= k < |actions| ==> actions[k].SetHealth? || actions[k].Register?
    ensures Commuted(s, Run(s, verifies, actions), Run(DoOpen(s, i, task, decision), verifies, actions), verifies, i,
      task, decision)
  {
    if actions != [] {
      var (first, last) := (actions[..|actions| - 1], actions[|actions| - 1]);
      PreparationCommutes(s, verifies, i, task, decision, first);
      OneMoreCommutes(s, Run(s, verifies, first), Run(DoOpen(s, i, task, decision), verifies, first), verifies, i, task,
        decision, last);
    }
  }

  function AddressIn(targets: Targets, node: string): Option<string>
  {
    if node in targets then Some(targets[node]) else None
  }

  /** Registers the node at the address, if it is not there already. */
  function Assign(i: nat, targets: Targets, node: string, address: string): seq<Action>
  {
    if HasAddress(targets, node) && targets[node] == address then [] else [Register(i, node, address)]
  }

  function Repair(a: string, b: string): seq<Action>
  {
    [SetHealth(a, false, false), SetHealth(b, false, false)]
  }

  lemma RepairRepairs(s: State, verifies: SignatureCheck, a: string, b: string, key: string)
    requires OpenHost(s, a, key) && OpenHost(s, b, key) && a != b
    ensures
      var t := Run(s, verifies, Repair(a, b));
      Usable(t, a, key) && Usable(t, b, key) && t.schedulers == s.schedulers
  {
    RunTwo(s, verifies, [], Repair(a, b)[0], Repair(a, b)[1]);
    assert [] + Repair(a, b) == Repair(a, b);
  }

  lemma AssignAssigns(s: State, verifies: SignatureCheck, i: nat, targets: Targets, node: string, address: string)
    requires i < |s.schedulers| && address != ""
    requires AddressIn(s.schedulers[i].targets, node) == AddressIn(targets, node)
    ensures
      var t := Run(s, verifies, Assign(i, targets, node, address));
      && t.hosts == s.hosts && i < |t.schedulers| && AddressIn(t.schedulers[i].targets, node) == Some(address)
      && (forall n :: n != node ==> AddressIn(t.schedulers[i].targets, n) == AddressIn(s.schedulers[i].targets, n))
  {
    var action := Register(i, node, address);
    assert [action][..0] == [];
    assert Run(s, verifies, [action]) == Next(s, verifies, action);
  }

  function Preparation(i: nat, targets: Targets, first: string, second: string, a: string, b: string): seq<Action>
  {
    Repair(a, b) + Assign(i, targets, first, a) + Assign(i, targets, second, b)
  }

  lemma PreparationPrepares(s: State, verifies: SignatureCheck, i: nat, first: string, second: string, a: string,
    b: string, key: string)
    requires i < |s.schedulers| && first != second
    requires OpenHost(s, a, key) && OpenHost(s, b, key) && a != b
    ensures
      var t := Run(s, verifies, Preparation(i, s.schedulers[i].targets, first, second, a, b));
      && i < |t.schedulers| && Usable(t, a, key) && Usable(t, b, key)
      && AddressIn(t.schedulers[i].targets, first) == Some(a) && AddressIn(t.schedulers[i].targets, second) == Some(b)
  {
    var targets := s.schedulers[i].targets;
    var u := Run(s, verifies, Repair(a, b));
    RepairRepairs(s, verifies, a, b, key);
    AssignAssigns(u, verifies, i, targets, first, a);
    AssignAssigns(Run(u, verifies, Assign(i, targets, first, a)), verifies, i, targets, second, b);
    RunSplits(s, verifies, Repair(a, b), Assign(i, targets, first, a));
    RunSplits(s, verifies, Repair(a, b) + Assign(i, targets, first, a), Assign(i, targets, second, b));
  }

  lemma PreparationObeys(i: nat, targets: Targets, form: Form, first: string, second: string, a: string, b: string)
    requires MayHave(targets, form, first, a) && MayHave(targets, form, second, b)
    ensures
      var actions := Preparation(i, targets, first, second, a, b);
      Obeys(actions, form) && forall k :: 0 <= k < |actions| ==> actions[k].SetHealth? || actions[k].Register?
  {
  }

  /** This run executes the dispatch that is now opened twice. */
  ghost predicate Doubles(s: State, verifies: SignatureCheck, i: nat, task: TaskRequest, decision: Decision,
    actions: seq<Action>)
  {
    TwoFresh(Run(DoOpen(s, i, task, decision), verifies, actions), |s.jobs|)
  }

  lemma PlacesExecuteTwice(s: State, verifies: SignatureCheck, i: nat, task: TaskRequest, decision: Decision,
    form: Form, p: nat, q: nat, a: string, b: string)
    returns (actions: seq<Action>)
    requires InOffice(s, verifies, i, task) && p < q && a != b
    requires Place(s, i, form, ChainOf(decision), task.idempotencyKey, p, a)
    requires Place(s, i, form, ChainOf(decision), task.idempotencyKey, q, b)
    ensures Obeys(actions, form) && Doubles(s, verifies, i, task, decision, actions)
  {
    var (chain, targets) := (ChainOf(decision), s.schedulers[i].targets);
    ChainShape(decision);
    var preparation := Preparation(i, targets, chain[p], chain[q], a, b);
    PreparationPrepares(s, verifies, i, chain[p], chain[q], a, b, task.idempotencyKey);
    PreparationObeys(i, targets, form, chain[p], chain[q], a, b);
    PreparationCommutes(s, verifies, i, task, decision, preparation);
    var rest := BothExecute(Run(s, verifies, preparation), verifies, i, task, decision, p, q);
    actions := preparation + rest;
    RunSplits(DoOpen(s, i, task, decision), verifies, preparation, rest);
  }

  lemma OldExecutionIsAnother(s: State, t: State, x: nat, y: nat)
    requires Fenced(s) && Once(s) && Single(t) && s.executed <= t.executed
    requires y < |s.executed| && s.executed[y].isFresh
    requires x < |t.executed| && t.executed[x].isFresh && t.executed[x].parcel.job >= |s.jobs|
    ensures !SamePlace(s.executed[y], t.executed[x])
  {
    assert Kept(s, s.executed[y]);
    var m :| 0 <= m < |s.mail| && s.mail[m] == s.executed[y].parcel;
    assert Fits(s, s.mail[m]);
    assert t.executed[y] == s.executed[y] && x != y;
    assert SamePlace(t.executed[y], t.executed[x]) <==> SamePlace(t.executed[x], t.executed[y]);
  }

  /** A node that executed a dispatch afresh did not know its key when the dispatch was opened. */
  lemma FreshHostWasOpen(s: State, t: State, x: nat)
    requires Fenced(s) && Once(s) && Once(t) && Remembers(s, t)
    requires x < |t.executed| && t.executed[x].isFresh && t.executed[x].parcel.job >= |s.jobs|
    ensures
      var p := t.executed[x].parcel;
      p.address in s.hosts && p.envelope.idempotencyKey !in s.hosts[p.address].cache
  {
    var p := t.executed[x].parcel;
    assert Kept(t, t.executed[x]);
    forall y | 0 <= y < |s.executed| && s.executed[y].isFresh
      ensures s.executed[y].parcel.address != p.address
        || s.executed[y].parcel.envelope.idempotencyKey != p.envelope.idempotencyKey
    {
      OldExecutionIsAnother(s, t, x, y);
    }
    assert !Backed(s.executed, p.address, p.envelope.idempotencyKey);
  }

  lemma FreshFound(s: State, t: State, x: nat)
    requires Fenced(s) && Once(s) && Fenced(t) && Once(t) && Remembers(s, t)
    requires x < |t.executed| && t.executed[x].isFresh && t.executed[x].parcel.job >= |s.jobs|
    ensures
      var p := t.executed[x].parcel;
      p.job < |t.jobs| && OpenHost(s, p.address, t.jobs[p.job].task.idempotencyKey)
  {
    assert Kept(t, t.executed[x]);
    var m :| 0 <= m < |t.mail| && t.mail[m] == t.executed[x].parcel;
    assert Fits(t, t.mail[m]);
    FreshHostWasOpen(s, t, x);
  }

  lemma AfterOpen(s: State, verifies: SignatureCheck, i: nat, task: TaskRequest, decision: Decision,
    actions: seq<Action>)
    requires InOffice(s, verifies, i, task)
    ensures
      var (job, t) := (|s.jobs|, Run(DoOpen(s, i, task, decision), verifies, actions));
      && Fenced(t) && Once(t) && Remembers(s, t)
      && job < |t.jobs| && t.jobs[job].chain == ChainOf(decision) && t.jobs[job].task == task
  {
    var (s0, job) := (DoOpen(s, i, task, decision), |s.jobs|);
    OpenForLeader(s, verifies, i, task, decision);
    OpenKeepsFence(s, i, task, decision);
    CalmKeepsOnce(s, s0);
    RunFenced(s0, verifies, actions);
    RunOnce(s0, verifies, actions);
    RunRemembers(s0, verifies, actions);
    assert s0.jobs[job] == Job(i, task, ChainOf(decision), 0, false, false);
    RemembersBoth(s, s0, Run(s0, verifies, actions));
  }

  /** As long as registrations obey the form, a dispatch's envelopes go where its members may be registered. */
  ghost predicate Routed(s: State, job: nat, i: nat, targets: Targets, form: Form, chain: seq<string>)
  {
    && i < |s.schedulers| && job < |s.jobs| && s.jobs[job].scheduler == i && s.jobs[job].chain == chain
    && (forall n :: HasAddress(s.schedulers[i].targets, n) ==> MayHave(targets, form, n, s.schedulers[i].targets[n]))
    && (forall m :: 0 <= m < |s.mail| && s.mail[m].job == job ==>
      s.mail[m].attempt < |chain| && MayHave(targets, form, chain[s.mail[m].attempt], s.mail[m].address))
  }

  lemma TryRouted(s: State, j: nat, job: nat, i: nat, targets: Targets, form: Form, chain: seq<string>)
    requires Routed(s, job, i, targets, form, chain)
    ensures Routed(DoTry(s, j), job, i, targets, form, chain)
  {
  }

  lemma RegisterRouted(s: State, k: nat, node: string, target: string, job: nat, i: nat, targets: Targets, form: Form,
    chain: seq<string>)
    requires Routed(s, job, i, targets, form, chain) && form(node, target)
    ensures Routed(DoRegister(s, k, node, target), job, i, targets, form, chain)
  {
  }

  /** The tables and the mail stay, and no dispatch changes. */
  ghost predicate Quiet(s: State, s': State)
  {
    && |s.schedulers| <= |s'.schedulers| && |s.jobs| <= |s'.jobs| && s'.mail == s.mail
    && (forall k :: 0 <= k < |s.schedulers| ==> s'.schedulers[k].targets == s.schedulers[k].targets)
    && (forall j :: 0 <= j < |s.jobs| ==>
      s'.jobs[j].scheduler == s.jobs[j].scheduler && s'.jobs[j].chain == s.jobs[j].chain)
  }

  lemma OfficeIsQuiet(s: State, verifies: SignatureCheck, action: Action)
    requires IsOffice(action) && !action.Register?
    ensures Quiet(s, Next(s, verifies, action))
  {
  }

  lemma DispatchIsQuiet(s: State, verifies: SignatureCheck, action: Action)
    requires IsDispatch(action) && !action.Try?
    ensures Quiet(s, Next(s, verifies, action))
  {
  }

  lemma QuietRouted(s: State, s': State, job: nat, i: nat, targets: Targets, form: Form, chain: seq<string>)
    requires Routed(s, job, i, targets, form, chain) && Quiet(s, s')
    ensures Routed(s', job, i, targets, form, chain)
  {
  }

  lemma NextRouted(s: State, verifies: SignatureCheck, action: Action, job: nat, i: nat, targets: Targets, form: Form,
    chain: seq<string>)
    requires Routed(s, job, i, targets, form, chain) && (action.Register? ==> form(action.node, action.target))
    ensures Routed(Next(s, verifies, action), job, i, targets, form, chain)
  {
    if action.Register? {
      RegisterRouted(s, action.scheduler, action.node, action.target, job, i, targets, form, chain);
    } else if action.Try? {
      TryRouted(s, action.job, job, i, targets, form, chain);
    } else {
      if IsOffice(action) {
        OfficeIsQuiet(s, verifies, action);
      } else if IsDispatch(action) {
        DispatchIsQuiet(s, verifies, action);
      }
      QuietRouted(s, Next(s, verifies, action), job, i, targets, form, chain);
    }
  }

  lemma {:induction false} RunRouted(s: State, verifies: SignatureCheck, actions: seq<Action>, job: nat, i: nat,
    targets: Targets, form: Form, chain: seq<string>)
    requires Routed(s, job, i, targets, form, chain) && Obeys(actions, form)
    ensures Routed(Run(s, verifies, actions), job, i, targets, form, chain)
  {
    if actions != [] {
      var (first, last) := (actions[..|actions| - 1], actions[|actions| - 1]);
      RunRouted(s, verifies, first, job, i, targets, form, chain);
      NextRouted(Run(s, verifies, first), verifies, last, job, i, targets, form, chain);
    }
  }

  lemma OpenIsRouted(s: State, verifies: SignatureCheck, i: nat, task: TaskRequest, decision: Decision, form: Form)
    requires InOffice(s, verifies, i, task)
    ensures Routed(DoOpen(s, i, task, decision), |s.jobs|, i, s.schedulers[i].targets, form, ChainOf(decision))
  {
    OpenForLeader(s, verifies, i, task, decision);
    assert forall m :: 0 <= m < |s.mail| ==> Fits(s, s.mail[m]);
  }

  lemma ExecutedInPlace(s: State, t: State, job: nat, i: nat, form: Form, chain: seq<string>, x: nat)
    requires Fenced(s) && Once(s) && Fenced(t) && Once(t) && Remembers(s, t)
    requires i < |s.schedulers| && |s.jobs| <= job && Routed(t, job, i, s.schedulers[i].targets, form, chain)
    requires x < |t.executed| && t.executed[x].isFresh && t.executed[x].parcel.job == job
    ensures
      var p := t.executed[x].parcel;
      Place(s, i, form, chain, t.jobs[job].task.idempotencyKey, p.attempt, p.address)
  {
    FreshFound(s, t, x);
    assert Kept(t, t.executed[x]);
    var m :| 0 <= m < |t.mail| && t.mail[m] == t.executed[x].parcel;
  }

  lemma TwoMembers(t: State, x: nat, y: nat, job: nat)
    requires Fenced(t) && Once(t) && FreshPair(t, job, x, y)
    ensures t.executed[x].parcel.address != t.executed[y].parcel.address
    ensures t.executed[x].parcel.attempt != t.executed[y].parcel.attempt
  {
    SameJobDifferentMembers(t, x, y);
  }

  /** Two executions in different places. */
  ghost predicate PlacedPair(s: State, i: nat, form: Form, chain: seq<string>, key: string, x: Executed, y: Executed)
    requires i < |s.schedulers|
  {
    var (p, q) := (x.parcel, y.parcel);
    && p.attempt != q.attempt && p.address != q.address
    && Place(s, i, form, chain, key, p.attempt, p.address) && Place(s, i, form, chain, key, q.attempt, q.address)
  }

  lemma FreshPairIsPlaced(s: State, t: State, job: nat, i: nat, form: Form, chain: seq<string>, x: nat, y: nat)
    requires Fenced(s) && Once(s) && Fenced(t) && Once(t) && Remembers(s, t)
    requires i < |s.schedulers| && |s.jobs| <= job < |t.jobs|
    requires Routed(t, job, i, s.schedulers[i].targets, form, chain) && FreshPair(t, job, x, y)
    ensures PlacedPair(s, i, form, chain, t.jobs[job].task.idempotencyKey, t.executed[x], t.executed[y])
  {
    TwoMembers(t, x, y, job);
    ExecutedInPlace(s, t, job, i, form, chain, x);
    ExecutedInPlace(s, t, job, i, form, chain, y);
  }

  ghost predicate AllPlaced(s: State, t: State, job: nat, i: nat, form: Form, chain: seq<string>, key: string)
    requires i < |s.schedulers|
  {
    forall x: nat, y: nat :: FreshPair(t, job, x, y) ==>
      PlacedPair(s, i, form, chain, key, t.executed[x], t.executed[y])
  }

  lemma FreshPairsArePlaced(s: State, t: State, job: nat, i: nat, form: Form, chain: seq<string>)
    requires Fenced(s) && Once(s) && Fenced(t) && Once(t) && Remembers(s, t)
    requires i < |s.schedulers| && |s.jobs| <= job < |t.jobs|
    requires Routed(t, job, i, s.schedulers[i].targets, form, chain)
    ensures AllPlaced(s, t, job, i, form, chain, t.jobs[job].task.idempotencyKey)
  {
    forall x: nat, y: nat | FreshPair(t, job, x, y)
      ensures PlacedPair(s, i, form, chain, t.jobs[job].task.idempotencyKey, t.executed[x], t.executed[y])
    {
      FreshPairIsPlaced(s, t, job, i, form, chain, x, y);
    }
  }

  lemma AfterDispatchAllPlaced(s: State, verifies: SignatureCheck, i: nat, task: TaskRequest, decision: Decision,
    form: Form, actions: seq<Action>)
    requires InOffice(s, verifies, i, task) && Obeys(actions, form)
    ensures
      var t := Run(DoOpen(s, i, task, decision), verifies, actions);
      AllPlaced(s, t, |s.jobs|, i, form, ChainOf(decision), task.idempotencyKey)
  {
    var s0 := DoOpen(s, i, task, decision);
    AfterOpen(s, verifies, i, task, decision, actions);
    OpenIsRouted(s, verifies, i, task, decision, form);
    RunRouted(s0, verifies, actions, |s.jobs|, i, s.schedulers[i].targets, form, ChainOf(decision));
    FreshPairsArePlaced(s, Run(s0, verifies, actions), |s.jobs|, i, form, ChainOf(decision));
  }

  lemma PlacedPairIsTwoPlaces(s: State, t: State, job: nat, i: nat, form: Form, chain: seq<string>, key: string)
    requires i < |s.schedulers| && TwoFresh(t, job) && AllPlaced(s, t, job, i, form, chain, key)
    ensures TwoPlaces(s, i, form, chain, key)
  {
    var x: nat, y: nat :| FreshPair(t, job, x, y);
    assert PlacedPair(s, i, form, chain, key, t.executed[x], t.executed[y]);
  }

  lemma DoublesNeedTwoPlaces(s: State, verifies: SignatureCheck, i: nat, task: TaskRequest, decision: Decision,
    form: Form, actions: seq<Action>)
    requires InOffice(s, verifies, i, task) && Obeys(actions, form)
    requires Doubles(s, verifies, i, task, decision, actions)
    ensures TwoPlaces(s, i, form, ChainOf(decision), task.idempotencyKey)
  {
    AfterDispatchAllPlaced(s, verifies, i, task, decision, form, actions);
    PlacedPairIsTwoPlaces(s, Run(DoOpen(s, i, task, decision), verifies, actions), |s.jobs|, i, form, ChainOf(decision),
      task.idempotencyKey);
  }

  lemma TwoPlacesCanExecuteTwice(s: State, verifies: SignatureCheck, i: nat, task: TaskRequest, decision: Decision,
    form: Form)
    returns (actions: seq<Action>)
    requires InOffice(s, verifies, i, task) && TwoPlaces(s, i, form, ChainOf(decision), task.idempotencyKey)
    ensures Obeys(actions, form) && Doubles(s, verifies, i, task, decision, actions)
  {
    var (chain, key) := (ChainOf(decision), task.idempotencyKey);
    var p: nat, q: nat, a, b :| p != q && a != b && Place(s, i, form, chain, key, p, a)
      && Place(s, i, form, chain, key, q, b);
    if p < q {
      actions := PlacesExecuteTwice(s, verifies, i, task, decision, form, p, q, a, b);
    } else {
      actions := PlacesExecuteTwice(s, verifies, i, task, decision, form, q, p, b, a);
    }
  }

  /** There is a way for things to go on, with registrations of this form, in which the dispatch that is now opened
      executes its task on two nodes. */
  ghost predicate CanDouble(s: State, verifies: SignatureCheck, i: nat, task: TaskRequest, decision: Decision,
    form: Form)
  {
    exists actions :: Obeys(actions, form) && Doubles(s, verifies, i, task, decision, actions)
  }

  /** From any state with a leader in office, and whatever form registrations have: a dispatch can execute its task on
      two nodes if and only if two members of its chain may reach two different nodes that do not remember the key. */
  lemma DoubleExecutionExactly(s: State, verifies: SignatureCheck, i: nat, task: TaskRequest, decision: Decision,
    form: Form)
    requires InOffice(s, verifies, i, task)
    ensures CanDouble(s, verifies, i, task, decision, form)
      <==> TwoPlaces(s, i, form, ChainOf(decision), task.idempotencyKey)
  {
    if TwoPlaces(s, i, form, ChainOf(decision), task.idempotencyKey) {
      var actions := TwoPlacesCanExecuteTwice(s, verifies, i, task, decision, form);
    }
    if CanDouble(s, verifies, i, task, decision, form) {
      var actions :| Obeys(actions, form) && Doubles(s, verifies, i, task, decision, actions);
      DoublesNeedTwoPlaces(s, verifies, i, task, decision, form, actions);
    }
  }

  // ---- Three forms of registration

  const PORT := ":50051"

  /** What the gateway registers: every node at its own name. */
  const GATEWAY: Form := (node, target) => target == node + PORT

  /** Where the gateway's registrations can take a chain member. */
  predicate HomeOf(targets: Targets, node: string, address: string)
  {
    (HasAddress(targets, node) && targets[node] == address) || address == node + PORT
  }

  ghost predicate TwoHomes(s: State, targets: Targets, chain: seq<string>, key: string)
  {
    exists m, n, a, b :: m in chain && n in chain && m != n && a != b
      && HomeOf(targets, m, a) && OpenHost(s, a, key) && HomeOf(targets, n, b) && OpenHost(s, b, key)
  }

  lemma HomeIsPlace(s: State, i: nat, chain: seq<string>, key: string, p: nat, address: string)
    requires i < |s.schedulers| && p < |chain|
    ensures Place(s, i, GATEWAY, chain, key, p, address)
      <==> HomeOf(s.schedulers[i].targets, chain[p], address) && OpenHost(s, address, key)
  {
  }

  lemma HomesArePlaces(s: State, i: nat, chain: seq<string>, key: string)
    requires i < |s.schedulers| && TwoHomes(s, s.schedulers[i].targets, chain, key)
    ensures TwoPlaces(s, i, GATEWAY, chain, key)
  {
    var targets := s.schedulers[i].targets;
    var m, n, a, b :| m in chain && n in chain && m != n && a != b
      && HomeOf(targets, m, a) && OpenHost(s, a, key) && HomeOf(targets, n, b) && OpenHost(s, b, key);
    var p: nat :| p < |chain| && chain[p] == m;
    var q: nat :| q < |chain| && chain[q] == n;
    HomeIsPlace(s, i, chain, key, p, a);
    HomeIsPlace(s, i, chain, key, q, b);
  }

  lemma PlacesAreHomes(s: State, i: nat, chain: seq<string>, key: string)
    requires i < |s.schedulers| && NoRepeats(chain) && TwoPlaces(s, i, GATEWAY, chain, key)
    ensures TwoHomes(s, s.schedulers[i].targets, chain, key)
  {
    var p: nat, q: nat, a, b :| p != q && a != b && Place(s, i, GATEWAY, chain, key, p, a)
      && Place(s, i, GATEWAY, chain, key, q, b);
    HomeIsPlace(s, i, chain, key, p, a);
    HomeIsPlace(s, i, chain, key, q, b);
    assert chain[p] in chain && chain[q] in chain && chain[p] != chain[q];
  }

  /** With the registrations that the gateway makes: exactly when two members of the chain have different nodes, each
      where it is registered now or at its own name, and neither of these remembers the key. */
  lemma GatewayExactly(s: State, verifies: SignatureCheck, i: nat, task: TaskRequest, decision: Decision)
    requires InOffice(s, verifies, i, task)
    ensures CanDouble(s, verifies, i, task, decision, GATEWAY)
      <==> TwoHomes(s, s.schedulers[i].targets, ChainOf(decision), task.idempotencyKey)
  {
    DoubleExecutionExactly(s, verifies, i, task, decision, GATEWAY);
    ChainShape(decision);
    if TwoHomes(s, s.schedulers[i].targets, ChainOf(decision), task.idempotencyKey) {
      HomesArePlaces(s, i, ChainOf(decision), task.idempotencyKey);
    }
    if TwoPlaces(s, i, GATEWAY, ChainOf(decision), task.idempotencyKey) {
      PlacesAreHomes(s, i, ChainOf(decision), task.idempotencyKey);
    }
  }

  /** What the scheduler's interface allows: any node anywhere. */
  const ANYTHING: Form := (node, target) => true

  /** Two nodes do not remember the key. */
  ghost predicate TwoOpenHosts(s: State, key: string)
  {
    exists a, b :: a != b && OpenHost(s, a, key) && OpenHost(s, b, key)
  }

  /** With arbitrary registrations through the scheduler's interface: exactly when the chain has two members and two
      nodes do not remember the key. */
  lemma AnyTargetExactly(s: State, verifies: SignatureCheck, i: nat, task: TaskRequest, decision: Decision)
    requires InOffice(s, verifies, i, task)
    ensures CanDouble(s, verifies, i, task, decision, ANYTHING)
      <==> |ChainOf(decision)| >= 2 && TwoOpenHosts(s, task.idempotencyKey)
  {
    var (chain, key) := (ChainOf(decision), task.idempotencyKey);
    DoubleExecutionExactly(s, verifies, i, task, decision, ANYTHING);
    if |chain| >= 2 && TwoOpenHosts(s, key) {
      var a, b :| a != b && OpenHost(s, a, key) && OpenHost(s, b, key);
      assert Place(s, i, ANYTHING, chain, key, 0, a) && Place(s, i, ANYTHING, chain, key, 1, b);
    }
  }

  const NOTHING: Form := (node, target) => false

  ghost predicate TwoAddresses(targets: Targets, chain: seq<string>)
  {
    exists p, q :: 0 <= p < q < |chain| && HasAddress(targets, chain[p]) && HasAddress(targets, chain[q])
      && targets[chain[p]] != targets[chain[q]]
  }

  lemma AddressesArePlaces(s: State, verifies: SignatureCheck, i: nat, task: TaskRequest, chain: seq<string>)
    requires Ready(s, verifies, i, task)
    ensures TwoPlaces(s, i, NOTHING, chain, task.idempotencyKey) <==> TwoAddresses(s.schedulers[i].targets, chain)
  {
    var (targets, key) := (s.schedulers[i].targets, task.idempotencyKey);
    if TwoAddresses(targets, chain) {
      var p, q :| 0 <= p < q < |chain| && HasAddress(targets, chain[p]) && HasAddress(targets, chain[q])
        && targets[chain[p]] != targets[chain[q]];
      assert Place(s, i, NOTHING, chain, key, p, targets[chain[p]]);
      assert Place(s, i, NOTHING, chain, key, q, targets[chain[q]]);
    }
    if TwoPlaces(s, i, NOTHING, chain, key) {
      var p: nat, q: nat, a, b :| p != q && a != b && Place(s, i, NOTHING, chain, key, p, a)
        && Place(s, i, NOTHING, chain, key, q, b);
      assert targets[chain[p]] == a && targets[chain[q]] == b;
    }
  }

  /** Without any registration during the dispatch, all registered nodes being usable: exactly when the members of the
      chain with an address have more than one. */
  lemma FrozenTableExactly(s: State, verifies: SignatureCheck, i: nat, task: TaskRequest, decision: Decision)
    requires Ready(s, verifies, i, task)
    ensures CanDouble(s, verifies, i, task, decision, NOTHING)
      <==> TwoAddresses(s.schedulers[i].targets, ChainOf(decision))
  {
    DoubleExecutionExactly(s, verifies, i, task, decision, NOTHING);
    AddressesArePlaces(s, verifies, i, task, ChainOf(decision));
  }

  // ---- Such states are reached

  lemma FiveSteps(s: State, verifies: SignatureCheck, a: Action, b: Action, c: Action, d: Action, e: Action)
    ensures Run(s, verifies, [a, b, c, d, e])
      == Next(Next(Next(Next(Next(s, verifies, a), verifies, b), verifies, c), verifies, d), verifies, e)
  {
    RunTwo(s, verifies, [], a, b);
    RunTwo(s, verifies, [a, b], c, d);
    assert [] + [a, b] == [a, b] && [a, b] + [c, d] == [a, b, c, d];
    assert [a, b, c, d, e][..4] == [a, b, c, d];
  }

  lemma StoreKeysApart(id: string, modelId: string, keyId: string)
    ensures IdentityKey(id) != LEADER_KEY && IdentityKey(id) != ModelKey(modelId) && IdentityKey(id) != CiKey(keyId)
    ensures LEADER_KEY != ModelKey(modelId) && LEADER_KEY != CiKey(keyId)
    ensures POLICY_KEY != IdentityKey(id) && POLICY_KEY != LEADER_KEY
    ensures forall digest :: RevocationKey(digest) != LEADER_KEY
  {
    IdentityIsNotLeadership(id);
    assert IdentityKey(id)[16] == 's' && LEADER_KEY[16] == 's' && POLICY_KEY[16] == 'p';
    assert ModelKey(modelId)[16] == 'a' && CiKey(keyId)[16] == 'c';
    assert forall digest :: RevocationKey(digest)[16] == 'r';
  }

  lemma RegisteredVerifies(kv: map<string, Value>, verifies: SignatureCheck, id: string, record: ApprovedArtifactRecord,
    ciPem: string)
    requires kv.Keys == {LEADER_KEY, IdentityKey(id)} && ciPem != ""
    requires record == RecordFor(record.modelId, record.digest, record.provenance, record.signature,
      record.signingKeyId)
    requires IsImmutableDigest(record.digest) && verifies(record.provenance, record.signature, Plain(ciPem))
    requires record.provenance.builderIdentity in DEFAULT_POLICY.allowedBuilders
    requires record.provenance.vulnerabilities == map[]
    ensures Verify(WithRegistration(kv, record, ciPem), verifies, record.modelId, Some(record.digest)) == Ok(record)
  {
    StoreKeysApart(id, record.modelId, record.signingKeyId);
    IdentityIsNotRevocation(id, record.digest);
    assert !IsDigestRevoked(kv, record.digest) && ActivePolicy(kv) == DEFAULT_POLICY;
    RegistrationRoundTrip(kv, verifies, record.modelId, record.digest, record.provenance, ciPem, record.signature,
      record.signingKeyId, record.digest);
  }

  ghost predicate Installed(s: State, now: real, hosts: map<string, Profile>, sched: Scheduler, kv: map<string, Value>)
  {
    && s.schedulers == [sched] && s.store.kv == kv && s.now == now && s.hosts == Init(now, hosts).hosts
    && Alive(s.authority, sched.lease, now)
  }

  /** The first scheduler of a cluster wins the election and publishes its key. */
  lemma FirstInOffice(now: real, hosts: map<string, Profile>, verifies: SignatureCheck, id: string, pem: string,
    targets: Targets)
    ensures
      var s := Next(Next(Next(Init(now, hosts), verifies, Start(id, pem, targets)), verifies, Elect(0)),
        verifies, Publish(0));
      Installed(s, now, hosts, Scheduler(id, pem, 1, Serving, true, true, targets),
        map[LEADER_KEY := Plain(id)][IdentityKey(id) := Plain(pem)])
  {
    var s2 := Next(Next(Init(now, hosts), verifies, Start(id, pem, targets)), verifies, Elect(0));
    assert s2.schedulers == [Scheduler(id, pem, 1, Decided, true, true, targets)];
    assert s2.store.kv == map[LEADER_KEY := Plain(id)];
  }

  /** Taking office and registering one artifact. */
  function FirstSteps(id: string, pem: string, targets: Targets, record: ApprovedArtifactRecord, ciPem: string)
    : seq<Action>
  {
    [Start(id, pem, targets), Elect(0), Publish(0), External(Put(CiKey(record.signingKeyId), Plain(ciPem))),
      External(Put(ModelKey(record.modelId), RecordJson(record)))]
  }

  lemma FirstArtifact(now: real, hosts: map<string, Profile>, verifies: SignatureCheck, id: string, pem: string,
    targets: Targets, record: ApprovedArtifactRecord, ciPem: string)
    ensures
      var s := Run(Init(now, hosts), verifies, FirstSteps(id, pem, targets, record, ciPem));
      && Fenced(s) && Once(s)
      && Installed(s, now, hosts, Scheduler(id, pem, 1, Serving, true, true, targets),
        WithRegistration(map[LEADER_KEY := Plain(id)][IdentityKey(id) := Plain(pem)], record, ciPem))
  {
    var actions := FirstSteps(id, pem, targets, record, ciPem);
    FiveSteps(Init(now, hosts), verifies, actions[0], actions[1], actions[2], actions[3], actions[4]);
    FirstInOffice(now, hosts, verifies, id, pem, targets);
    StoreKeysApart(id, record.modelId, record.signingKeyId);
    InitFenced(now, hosts);
    RunFenced(Init(now, hosts), verifies, actions);
    RunOnce(Init(now, hosts), verifies, actions);
  }

  /** Such states are reached: one scheduler takes office, one artifact is registered, all nodes are up. */
  lemma OfficeIsTaken(now: real, hosts: map<string, Profile>, verifies: SignatureCheck, id: string, pem: string,
    targets: Targets, record: ApprovedArtifactRecord, ciPem: string, task: TaskRequest)
    returns (actions: seq<Action>)
    requires pem != "" && ciPem != "" && task.maxLatencyMs >= 1.0
    requires task.modelId == record.modelId && task.modelDigest == None
    requires record == RecordFor(record.modelId, record.digest, record.provenance, record.signature,
      record.signingKeyId)
    requires IsImmutableDigest(record.digest) && verifies(record.provenance, record.signature, Plain(ciPem))
    requires record.provenance.builderIdentity in DEFAULT_POLICY.allowedBuilders
    requires record.provenance.vulnerabilities == map[]
    requires forall n :: HasAddress(targets, n) ==>
      targets[n] in hosts && !hosts[targets[n]].isOffline && !hosts[targets[n]].failExecution
    ensures Ready(Run(Init(now, hosts), verifies, actions), verifies, 0, task)
  {
    actions := FirstSteps(id, pem, targets, record, ciPem);
    FirstArtifact(now, hosts, verifies, id, pem, targets, record, ciPem);
    var kv := map[LEADER_KEY := Plain(id)][IdentityKey(id) := Plain(pem)];
    StoreKeysApart(id, record.modelId, record.signingKeyId);
    RegisteredVerifies(kv, verifies, id, record, ciPem);
  }
}
