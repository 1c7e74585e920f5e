/** What happens around the end of the leader's lease: admissions made before it are used up, and nothing else runs. */
module Lapse {
  import opened Contracts
  import opened Etcd
  import opened Leases
  import opened SupplyChain
  import opened Node
  import opened Dispatch
  import opened Cluster
  import opened Fencing
  import opened Retry

  /** What was executed between `s` and `t` used up admissions that `s` had not worked yet, each at most once. */
  ghost predicate Consumes(s: State, t: State)
  {
    && s.worked <= t.worked && s.admitted <= t.admitted && s.executed <= t.executed
    && (forall x :: |s.executed| <= x < |t.executed| ==>
      var a := t.executed[x].admission;
      a !in s.worked && a in t.worked && a < |t.admitted| && t.executed[x].parcel == t.admitted[a].parcel)
    && (forall x, y :: |s.executed| <= x < y < |t.executed| ==> t.executed[x].admission != t.executed[y].admission)
  }

  lemma WorkConsumes(s: State, t: State, verifies: SignatureCheck, a: nat, elapsedMs: real, output: string)
    requires Consumes(s, t)
    ensures Consumes(s, DoWork(t, verifies, a, elapsedMs, output))
  {
  }

  /** Steps other than an execution. */
  ghost predicate Idle(s: State, s': State)
  {
    s'.worked == s.worked && s'.executed == s.executed && s.admitted <= s'.admitted
  }

  lemma OfficeIsIdle(s: State, verifies: SignatureCheck, action: Action)
    requires IsOffice(action)
    ensures Idle(s, Next(s, verifies, action))
  {
  }

  lemma DispatchIsIdle(s: State, verifies: SignatureCheck, action: Action)
    requires IsDispatch(action)
    ensures Idle(s, Next(s, verifies, action))
  {
  }

  lemma NextConsumes(s: State, t: State, verifies: SignatureCheck, action: Action)
    requires Consumes(s, t)
    ensures Consumes(s, Next(t, verifies, action))
  {
    if IsOffice(action) {
      OfficeIsIdle(t, verifies, action);
    } else if IsDispatch(action) {
      DispatchIsIdle(t, verifies, action);
    } else if action.Work? {
      WorkConsumes(s, t, verifies, action.admission, action.elapsedMs, action.output);
    } else {
      assert Idle(t, Next(t, verifies, action));
    }
  }

  lemma {:induction false} RunConsumes(s: State, verifies: SignatureCheck, actions: seq<Action>)
    ensures Consumes(s, Run(s, verifies, actions))
  {
    if actions != [] {
      RunConsumes(s, verifies, actions[..|actions| - 1]);
      NextConsumes(s, Run(s, verifies, actions[..|actions| - 1]), verifies, actions[|actions| - 1]);
    }
  }

  /** After the leader's lease has lapsed or was revoked, every execution uses up an admission that a node had made
      before and not worked yet, no admission is used twice, and so their number is bounded from then on. */
  lemma LapseDrains(now: real, hosts: map<string, Profile>, verifies: SignatureCheck,
    before: seq<Action>, after: seq<Action>, leader: nat, x: nat)
    requires
      var s := Run(Init(now, hosts), verifies, before);
      && leader < |s.schedulers| && s.schedulers[leader].elected
      && !Alive(s.authority, s.schedulers[leader].lease, s.now)
      && |s.executed| <= x < |Run(Init(now, hosts), verifies, before + after).executed|
    ensures
      var s := Run(Init(now, hosts), verifies, before);
      var log := Run(Init(now, hosts), verifies, before + after).executed;
      var a := log[x].admission;
      && a < |s.admitted| && a !in s.worked && log[x].parcel == s.admitted[a].parcel
      && (forall y :: |s.executed| <= y < |log| && y != x ==> log[y].admission != a)
  {
    LapseIsFinal(now, hosts, verifies, before, after, leader);
    RunSplits(Init(now, hosts), verifies, before, after);
    RunConsumes(Run(Init(now, hosts), verifies, before), verifies, after);
  }

  // ---- Such executions happen

  /** A dispatch that is posted and admitted, and then the lease is revoked. */
  function Revocation(job: nat, mail: nat, lease: int): seq<Action>
  {
    [Try(job), Deliver(mail), External(Revoke(lease))]
  }

  lemma ThreeSteps(s: State, verifies: SignatureCheck, a: Action, b: Action, c: Action)
    ensures Run(s, verifies, [a, b, c]) == Next(Next(Next(s, verifies, a), verifies, b), verifies, c)
  {
    RunTwo(s, verifies, [a], b, c);
    assert [a] + [b, c] == [a, b, c];
    assert [a][..0] == [];
  }

  /** The parcel that the first attempt posts. */
  function FirstParcel(s: State, i: nat, task: TaskRequest, decision: Decision): Parcel
    requires i < |s.schedulers| && ChainOf(decision) != [] && HasAddress(s.schedulers[i].targets, ChainOf(decision)[0])
  {
    var node := ChainOf(decision)[0];
    Parcel(|s.jobs|, 0, s.schedulers[i].targets[node], EnvelopeTo(s, i, task, node))
  }

  lemma FirstParcelIsAdmitted(s: State, verifies: SignatureCheck, i: nat, task: TaskRequest, decision: Decision)
    requires Ready(s, verifies, i, task)
    requires ChainOf(decision) != [] && HasAddress(s.schedulers[i].targets, ChainOf(decision)[0])
    ensures
      var p := FirstParcel(s, i, task, decision);
      var u := Next(Next(DoOpen(s, i, task, decision), verifies, Try(|s.jobs|)), verifies, Deliver(|s.mail|));
      && u == s.(jobs := s.jobs + [Job(i, task, ChainOf(decision), 1, true, false)], mail := s.mail + [p],
        admitted := s.admitted + [Admitted(p, s.now)])
      && Deliverable(u, verifies, p)
  {
    var p := FirstParcel(s, i, task, decision);
    var s0 := DoOpen(s, i, task, decision);
    OpenForLeader(s, verifies, i, task, decision);
    var s1 := DoTry(s0, |s.jobs|);
    assert s1 == s.(jobs := s.jobs + [Job(i, task, ChainOf(decision), 1, true, false)], mail := s.mail + [p]);
    UsableIsDeliverable(s, verifies, i, task, ChainOf(decision)[0], p, s1);
  }

  lemma RevokeKills(s: State, verifies: SignatureCheck, lease: int)
    ensures
      var t := Next(s, verifies, External(Revoke(lease)));
      && t == s.(store := t.store, authority := t.authority) && t.store.kv == s.store.kv
      && !Alive(t.authority, lease, t.now)
  {
  }

  lemma PostedAndRevoked(s: State, verifies: SignatureCheck, i: nat, task: TaskRequest, decision: Decision)
    requires Ready(s, verifies, i, task)
    requires ChainOf(decision) != [] && HasAddress(s.schedulers[i].targets, ChainOf(decision)[0])
    ensures
      var p := FirstParcel(s, i, task, decision);
      var u := Run(DoOpen(s, i, task, decision), verifies, Revocation(|s.jobs|, |s.mail|, s.schedulers[i].lease));
      && !Alive(u.authority, s.schedulers[i].lease, u.now)
      && u == s.(jobs := s.jobs + [Job(i, task, ChainOf(decision), 1, true, false)], mail := s.mail + [p],
        admitted := s.admitted + [Admitted(p, s.now)], store := u.store, authority := u.authority)
      && Verify(u.store.kv, verifies, p.envelope.modelId, p.envelope.modelDigest).Ok?
  {
    FirstParcelIsAdmitted(s, verifies, i, task, decision);
    var s0 := DoOpen(s, i, task, decision);
    var steps := Revocation(|s.jobs|, |s.mail|, s.schedulers[i].lease);
    ThreeSteps(s0, verifies, steps[0], steps[1], steps[2]);
    RevokeKills(Next(Next(s0, verifies, steps[0]), verifies, steps[1]), verifies, s.schedulers[i].lease);
  }

  lemma WorkAndSettle(u: State, verifies: SignatureCheck, job: nat)
    requires u.admitted != [] && |u.admitted| - 1 !in u.worked
    requires job < |u.jobs| && u.jobs[job].waiting && !u.jobs[job].closed
    requires
      var p := u.admitted[|u.admitted| - 1].parcel;
      && p.job == job && p.attempt + 1 == u.jobs[job].attempts && p.address in u.hosts
      && !u.hosts[p.address].profile.isOffline && !u.hosts[p.address].profile.failExecution
      && p.envelope.idempotencyKey !in u.hosts[p.address].cache
      && Verify(u.store.kv, verifies, p.envelope.modelId, p.envelope.modelDigest).Ok?
    ensures
      var t := Run(u, verifies, [Work(|u.admitted| - 1, 0.0, ""), Settle(job, Some(|u.executed|))]);
      && |t.executed| == |u.executed| + 1 && t.executed[|u.executed|].isFresh
      && t.executed[|u.executed|].parcel.job == job && job < |t.jobs| && t.jobs[job].closed
  {
    RunTwo(u, verifies, [], Work(|u.admitted| - 1, 0.0, ""), Settle(job, Some(|u.executed|)));
    assert [] + [Work(|u.admitted| - 1, 0.0, ""), Settle(job, Some(|u.executed|))]
      == [Work(|u.admitted| - 1, 0.0, ""), Settle(job, Some(|u.executed|))];
  }

  /** From any ready state: a dispatch is opened, posted and admitted, then the lease is revoked, and after that the
      task is executed afresh and the dispatch ends in success. A lapsed state is reached, with work left over. */
  lemma LapsedWorkStillSucceeds(s: State, verifies: SignatureCheck, i: nat, task: TaskRequest, decision: Decision)
    returns (first: seq<Action>, rest: seq<Action>)
    requires Ready(s, verifies, i, task)
    requires ChainOf(decision) != [] && HasAddress(s.schedulers[i].targets, ChainOf(decision)[0])
    ensures
      var u := Run(DoOpen(s, i, task, decision), verifies, first);
      var t := Run(u, verifies, rest);
      && |s.jobs| < |u.jobs| && |s.jobs| < |t.jobs| && u.schedulers == s.schedulers
      && !Alive(u.authority, s.schedulers[i].lease, u.now) && !u.jobs[|s.jobs|].closed
      && |t.executed| == |u.executed| + 1 && t.executed[|u.executed|].isFresh
      && t.executed[|u.executed|].parcel.job == |s.jobs| && t.jobs[|s.jobs|].closed
  {
    first := Revocation(|s.jobs|, |s.mail|, s.schedulers[i].lease);
    PostedAndRevoked(s, verifies, i, task, decision);
    var u := Run(DoOpen(s, i, task, decision), verifies, first);
    assert |s.admitted| !in s.worked;
    rest := [Work(|u.admitted| - 1, 0.0, ""), Settle(|s.jobs|, Some(|u.executed|))];
    WorkAndSettle(u, verifies, |s.jobs|);
  }
}
