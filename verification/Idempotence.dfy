/** Executions over every run of the cluster: once per node and key, and never under a revoked digest. */
module Idempotence {
  import opened Etcd
  import opened SupplyChain
  import opened Node
  import opened Contracts
  import opened Cluster
  import opened Fencing
  import Text

  predicate SamePlace(e: Executed, f: Executed)
  {
    e.parcel.address == f.parcel.address && e.parcel.envelope.idempotencyKey == f.parcel.envelope.idempotencyKey
  }

  /** A fresh execution is what the cache of its host holds for its key. */
  ghost predicate Kept(s: State, e: Executed)
  {
    && e.parcel in s.mail && e.parcel.address in s.hosts
    && (e.isFresh ==>
      var cache := s.hosts[e.parcel.address].cache;
      && e.outcome.Ok? && !e.outcome.value.cached
      && e.parcel.envelope.idempotencyKey in cache
      && cache[e.parcel.envelope.idempotencyKey] == e.outcome.value)
  }

  ghost predicate Repeats(log: seq<Executed>, x: nat)
    requires x < |log|
  {
    log[x].outcome.Ok? && !log[x].isFresh ==>
      exists y :: 0 <= y < x && log[y].isFresh && log[y].outcome.Ok? && SamePlace(log[y], log[x])
        && log[x].outcome.value == log[y].outcome.value.(cached := true)
  }

  ghost predicate Backed(log: seq<Executed>, address: string, key: string)
  {
    exists y :: 0 <= y < |log| && log[y].isFresh
      && log[y].parcel.address == address && log[y].parcel.envelope.idempotencyKey == key
  }

  ghost predicate Honest(s: State)
  {
    forall x :: 0 <= x < |s.executed| ==> Kept(s, s.executed[x]) && Repeats(s.executed, x)
  }

  ghost predicate Single(s: State)
  {
    forall x, y :: 0 <= x < y < |s.executed| && s.executed[x].isFresh && s.executed[y].isFresh ==>
      !SamePlace(s.executed[x], s.executed[y])
  }

  ghost predicate AllBacked(s: State)
  {
    forall h, key :: h in s.hosts && key in s.hosts[h].cache ==> Backed(s.executed, h, key)
  }

  ghost predicate Books(s: State)
  {
    && (forall a :: 0 <= a < |s.admitted| ==> s.admitted[a].parcel in s.mail)
    && (forall a :: a in s.worked ==> a < |s.admitted|)
  }

  ghost predicate Once(s: State)
  {
    Honest(s) && Single(s) && AllBacked(s) && Books(s)
  }

  lemma RepeatsStays(log: seq<Executed>, more: seq<Executed>, x: nat)
    requires x < |log| && Repeats(log, x)
    ensures Repeats(log + more, x)
  {
    if log[x].outcome.Ok? && !log[x].isFresh {
      var y :| 0 <= y < x && log[y].isFresh && log[y].outcome.Ok? && SamePlace(log[y], log[x])
        && log[x].outcome.value == log[y].outcome.value.(cached := true);
      assert (log + more)[y] == log[y];
    }
  }

  lemma WorkKeepsHonest(s: State, verifies: SignatureCheck, a: nat, elapsedMs: real, output: string)
    requires Honest(s) && AllBacked(s) && Books(s)
    ensures Honest(DoWork(s, verifies, a, elapsedMs, output))
  {
    var s' := DoWork(s, verifies, a, elapsedMs, output);
    if s' != s {
      var n := |s.executed|;
      var e := s'.executed[n];
      var (h, key) := (e.parcel.address, e.parcel.envelope.idempotencyKey);
      forall x | 0 <= x < |s'.executed| ensures Kept(s', s'.executed[x]) && Repeats(s'.executed, x) {
        if x < n {
          assert Kept(s, s.executed[x]);
          RepeatsStays(s.executed, [e], x);
        } else if key in s.hosts[h].cache {
          assert Backed(s.executed, h, key);
          var y :| 0 <= y < n && s.executed[y].isFresh
            && s.executed[y].parcel.address == h && s.executed[y].parcel.envelope.idempotencyKey == key;
          assert Kept(s, s.executed[y]) && SamePlace(s'.executed[y], e);
        }
      }
    }
  }

  lemma WorkKeepsSingle(s: State, verifies: SignatureCheck, a: nat, elapsedMs: real, output: string)
    requires Honest(s) && Single(s)
    ensures Single(DoWork(s, verifies, a, elapsedMs, output))
  {
    var s' := DoWork(s, verifies, a, elapsedMs, output);
    if s' != s {
      var n := |s.executed|;
      var e := s'.executed[n];
      forall x | 0 <= x < n && s.executed[x].isFresh && e.isFresh ensures !SamePlace(s'.executed[x], e) {
        assert Kept(s, s.executed[x]);
      }
    }
  }

  lemma WorkKeepsBacking(s: State, verifies: SignatureCheck, a: nat, elapsedMs: real, output: string)
    requires AllBacked(s)
    ensures AllBacked(DoWork(s, verifies, a, elapsedMs, output))
  {
    var s' := DoWork(s, verifies, a, elapsedMs, output);
    if s' != s {
      var n := |s.executed|;
      var e := s'.executed[n];
      forall g, k | g in s'.hosts && k in s'.hosts[g].cache ensures Backed(s'.executed, g, k) {
        if g in s.hosts && k in s.hosts[g].cache {
          assert Backed(s.executed, g, k);
          var y :| 0 <= y < n && s.executed[y].isFresh
            && s.executed[y].parcel.address == g && s.executed[y].parcel.envelope.idempotencyKey == k;
          assert s'.executed[y].isFresh;
        } else {
          assert s'.executed[n].isFresh;
        }
      }
    }
  }

  lemma WorkKeepsOnce(s: State, verifies: SignatureCheck, a: nat, elapsedMs: real, output: string)
    requires Once(s)
    ensures Once(DoWork(s, verifies, a, elapsedMs, output))
  {
    WorkKeepsHonest(s, verifies, a, elapsedMs, output);
    WorkKeepsSingle(s, verifies, a, elapsedMs, output);
    WorkKeepsBacking(s, verifies, a, elapsedMs, output);
  }

  /** Nothing is executed and no cache changes. */
  ghost predicate Calm(s: State, s': State)
  {
    && s'.executed == s.executed && s'.worked == s.worked && s.mail <= s'.mail
    && s.admitted <= s'.admitted && |s'.admitted| <= |s.admitted| + 1
    && (|s'.admitted| > |s.admitted| ==> s'.admitted[|s.admitted|].parcel in s.mail)
    && s'.hosts.Keys == s.hosts.Keys && forall h :: h in s.hosts ==> s'.hosts[h].cache == s.hosts[h].cache
  }

  lemma CalmKeepsOnce(s: State, s': State)
    requires Once(s) && Calm(s, s')
    ensures Once(s')
  {
    forall x | 0 <= x < |s'.executed| ensures Kept(s', s'.executed[x]) && Repeats(s'.executed, x) {
      assert Kept(s, s.executed[x]) && Repeats(s.executed, x);
    }
  }

  lemma OfficeIsCalm(s: State, verifies: SignatureCheck, action: Action)
    requires IsOffice(action)
    ensures Calm(s, Next(s, verifies, action))
  {
  }

  lemma DispatchIsCalm(s: State, verifies: SignatureCheck, action: Action)
    requires IsDispatch(action)
    ensures Calm(s, Next(s, verifies, action))
  {
  }

  lemma OthersAreCalm(s: State, verifies: SignatureCheck, action: Action)
    requires !IsOffice(action) && !IsDispatch(action) && !action.Work?
    ensures Calm(s, Next(s, verifies, action))
  {
  }

  lemma NextOnce(s: State, verifies: SignatureCheck, action: Action)
    requires Once(s)
    ensures Once(Next(s, verifies, action))
  {
    if action.Work? {
      WorkKeepsOnce(s, verifies, action.admission, action.elapsedMs, action.output);
    } else {
      if IsOffice(action) {
        OfficeIsCalm(s, verifies, action);
      } else if IsDispatch(action) {
        DispatchIsCalm(s, verifies, action);
      } else {
        OthersAreCalm(s, verifies, action);
      }
      CalmKeepsOnce(s, Next(s, verifies, action));
    }
  }

  lemma {:induction false} RunOnce(s: State, verifies: SignatureCheck, actions: seq<Action>)
    requires Once(s)
    ensures Once(Run(s, verifies, actions))
  {
    if actions != [] {
      RunOnce(s, verifies, actions[..|actions| - 1]);
      NextOnce(Run(s, verifies, actions[..|actions| - 1]), verifies, actions[|actions| - 1]);
    }
  }

  /** However often envelopes are sent, delivered and retried, a node executes a key afresh at most once, and
      every other success for that node and key repeats the first result with only `cached` changed. */
  lemma ExecutedAtMostOnce(now: real, hosts: map<string, Profile>, verifies: SignatureCheck, actions: seq<Action>)
    ensures
      var log := Run(Init(now, hosts), verifies, actions).executed;
      && (forall x, y :: 0 <= x < y < |log| && log[x].isFresh && log[y].isFresh ==> !SamePlace(log[x], log[y]))
      && (forall x :: 0 <= x < |log| && log[x].outcome.Ok? && !log[x].isFresh ==>
        exists y :: 0 <= y < x && log[y].isFresh && log[y].outcome.Ok? && SamePlace(log[y], log[x])
          && log[x].outcome.value == log[y].outcome.value.(cached := true))
  {
    RunOnce(Init(now, hosts), verifies, actions);
    var log := Run(Init(now, hosts), verifies, actions).executed;
    assert forall x :: 0 <= x < |log| ==> Repeats(log, x);
  }

  /** A failed attempt changes no cache, so that a retry may still succeed. */
  lemma FailureLeavesNoTrace(s: State, verifies: SignatureCheck, a: nat, elapsedMs: real, output: string)
    requires var t := DoWork(s, verifies, a, elapsedMs, output);
      t != s && t.executed[|t.executed| - 1].outcome.Err?
    ensures DoWork(s, verifies, a, elapsedMs, output).hosts == s.hosts
  {
    var p := s.admitted[a].parcel;
    assert s.hosts[p.address := s.hosts[p.address].(cache := s.hosts[p.address].cache)] == s.hosts;
  }

  ghost predicate DifferentMembers(s: State, p: Parcel, q: Parcel)
  {
    && p.job < |s.jobs|
    && p.attempt < |s.jobs[p.job].chain| && p.envelope.nodeId == s.jobs[p.job].chain[p.attempt]
    && q.attempt < |s.jobs[p.job].chain| && q.envelope.nodeId == s.jobs[p.job].chain[q.attempt]
    && p.envelope.nodeId != q.envelope.nodeId && p.address != q.address
  }

  lemma SameJobDifferentMembers(s: State, x: nat, y: nat)
    requires LeadersJobs(s) && LeadersMail(s) && Once(s) && x < y < |s.executed|
    requires s.executed[x].isFresh && s.executed[y].isFresh && s.executed[x].parcel.job == s.executed[y].parcel.job
    ensures DifferentMembers(s, s.executed[x].parcel, s.executed[y].parcel)
  {
    assert Kept(s, s.executed[x]) && Kept(s, s.executed[y]);
    var m :| 0 <= m < |s.mail| && s.mail[m] == s.executed[x].parcel;
    var n :| 0 <= n < |s.mail| && s.mail[n] == s.executed[y].parcel;
    assert Fits(s, s.mail[m]) && Fits(s, s.mail[n]);
    assert !SamePlace(s.executed[x], s.executed[y]);
    assert m != n;
  }

  /** One dispatch causes fresh executions at different addresses for different members of its chain only. */
  lemma FreshOncePerMember(now: real, hosts: map<string, Profile>, verifies: SignatureCheck, actions: seq<Action>,
    x: nat, y: nat)
    requires
      var log := Run(Init(now, hosts), verifies, actions).executed;
      x < y < |log| && log[x].isFresh && log[y].isFresh && log[x].parcel.job == log[y].parcel.job
    ensures
      var s := Run(Init(now, hosts), verifies, actions);
      DifferentMembers(s, s.executed[x].parcel, s.executed[y].parcel)
  {
    InitFenced(now, hosts);
    RunFenced(Init(now, hosts), verifies, actions);
    RunOnce(Init(now, hosts), verifies, actions);
    SameJobDifferentMembers(Run(Init(now, hosts), verifies, actions), x, y);
  }

  // ---- Revocation reaches the nodes

  ghost predicate NeverDeletes(actions: seq<Action>, key: string)
  {
    forall k :: 0 <= k < |actions| ==> actions[k] != External(Delete(key))
  }

  lemma IdentityIsNotRevocation(schedulerId: string, digest: string)
    ensures IdentityKey(schedulerId) != RevocationKey(digest)
  {
    assert IdentityKey(schedulerId)[16] == 's' && RevocationKey(digest)[16] == 'r';
  }

  lemma SchedulersLeaveRevocation(s: State, verifies: SignatureCheck, action: Action, digest: string)
    requires IsDigestRevoked(s.store.kv, digest) && (IsOffice(action) || IsDispatch(action))
    ensures IsDigestRevoked(Next(s, verifies, action).store.kv, digest)
  {
  }

  lemma RevocationStays(s: State, verifies: SignatureCheck, action: Action, digest: string)
    requires IsDigestRevoked(s.store.kv, digest) && action != External(Delete(RevocationKey(digest)))
    ensures IsDigestRevoked(Next(s, verifies, action).store.kv, digest)
  {
    if IsOffice(action) || IsDispatch(action) {
      SchedulersLeaveRevocation(s, verifies, action, digest);
    }
  }

  ghost predicate Untainted(e: Executed, digest: string)
  {
    e.isFresh ==> e.outcome.Ok? && Text.Lower(e.outcome.value.modelDigest) != Text.Lower(digest)
  }

  lemma WorkIsUntainted(s: State, verifies: SignatureCheck, action: Action, digest: string)
    requires IsDigestRevoked(s.store.kv, digest)
    ensures
      var t := Next(s, verifies, action);
      t.executed == s.executed
      || (|t.executed| == |s.executed| + 1 && s.executed <= t.executed && Untainted(t.executed[|s.executed|], digest))
  {
    if action.Work? && action.admission < |s.admitted| {
      var e := s.admitted[action.admission].parcel.envelope;
      RevokedNeverVerifies(s.store.kv, verifies, e.modelId, e.modelDigest, digest);
    }
  }

  /** What was executed between `s` and `t` is untainted. */
  ghost predicate UntaintedSince(s: State, t: State, digest: string)
  {
    s.executed <= t.executed && forall x :: |s.executed| <= x < |t.executed| ==> Untainted(t.executed[x], digest)
  }

  lemma OneMoreUntainted(s: State, t: State, u: State, digest: string)
    requires UntaintedSince(s, t, digest)
    requires
      || u.executed == t.executed
      || (|u.executed| == |t.executed| + 1 && t.executed <= u.executed && Untainted(u.executed[|t.executed|], digest))
    ensures UntaintedSince(s, u, digest)
  {
  }

  lemma {:induction false} FreshIsNotRevoked(s: State, verifies: SignatureCheck, actions: seq<Action>, digest: string)
    requires IsDigestRevoked(s.store.kv, digest) && NeverDeletes(actions, RevocationKey(digest))
    ensures IsDigestRevoked(Run(s, verifies, actions).store.kv, digest)
    ensures UntaintedSince(s, Run(s, verifies, actions), digest)
  {
    if actions != [] {
      var (first, last) := (actions[..|actions| - 1], actions[|actions| - 1]);
      FreshIsNotRevoked(s, verifies, first, digest);
      RevocationStays(Run(s, verifies, first), verifies, last, digest);
      WorkIsUntainted(Run(s, verifies, first), verifies, last, digest);
      OneMoreUntainted(s, Run(s, verifies, first), Run(s, verifies, actions), digest);
    }
  }

  /** From its revocation on, no node anywhere starts to execute a digest, in whatever case it is spelled (white
      space around it makes it another one, see `SupplyChain.BareRevocationStopsExactly`); what can still be returned
      for it was executed before. */
  lemma RevocationReachesNodes(now: real, hosts: map<string, Profile>, verifies: SignatureCheck,
    before: seq<Action>, after: seq<Action>, digest: string, x: nat)
    requires IsDigestRevoked(Run(Init(now, hosts), verifies, before).store.kv, digest)
    requires NeverDeletes(after, RevocationKey(digest))
    requires
      var log := Run(Init(now, hosts), verifies, before + after).executed;
      && |Run(Init(now, hosts), verifies, before).executed| <= x < |log|
      && log[x].outcome.Ok? && Text.Lower(log[x].outcome.value.modelDigest) == Text.Lower(digest)
    ensures
      var n := |Run(Init(now, hosts), verifies, before).executed|;
      var log := Run(Init(now, hosts), verifies, before + after).executed;
      !log[x].isFresh && exists y :: 0 <= y < n && log[y].isFresh && SamePlace(log[y], log[x])
  {
    var s := Run(Init(now, hosts), verifies, before);
    var t := Run(Init(now, hosts), verifies, before + after);
    RunSplits(Init(now, hosts), verifies, before, after);
    FreshIsNotRevoked(s, verifies, after, digest);
    RunOnce(Init(now, hosts), verifies, before + after);
    assert Repeats(t.executed, x) && Untainted(t.executed[x], digest);
  }

  // ---- What is executed is what was asked for, and approved

  /** A fresh result is for the task, the key and, up to case, the digest that the envelope names. */
  ghost predicate AsAsked(e: Executed)
  {
    var envelope := e.parcel.envelope;
    e.isFresh ==>
      && e.outcome.Ok? && e.outcome.value.taskId == envelope.taskId
      && e.outcome.value.idempotencyKey == envelope.idempotencyKey
      && (envelope.modelDigest.Some? && envelope.modelDigest.value != "" ==>
        Text.Lower(e.outcome.value.modelDigest) == Text.Lower(envelope.modelDigest.value))
  }

  /** In any state: what a node starts to execute is approved by the store as it is then, for the model and the digest
      that the envelope names, and the node is healthy. */
  lemma FreshIsApproved(s: State, verifies: SignatureCheck, a: nat, elapsedMs: real, output: string)
    returns (record: ApprovedArtifactRecord)
    requires
      var t := DoWork(s, verifies, a, elapsedMs, output);
      t != s && t.executed[|t.executed| - 1].isFresh
    ensures
      var t := DoWork(s, verifies, a, elapsedMs, output);
      var e := t.executed[|t.executed| - 1];
      && a < |s.admitted| && e.admission == a && e.parcel == s.admitted[a].parcel && AsAsked(e)
      && Approves(s.store.kv, verifies, e.parcel.envelope.modelId, e.parcel.envelope.modelDigest, record)
      && e.outcome.value.modelDigest == record.digest
      && e.parcel.address in s.hosts
      && !s.hosts[e.parcel.address].profile.isOffline && !s.hosts[e.parcel.address].profile.failExecution
  {
    var p := s.admitted[a].parcel;
    var asked := p.envelope.modelDigest;
    record := Verify(s.store.kv, verifies, p.envelope.modelId, asked).value;
    VerifiesExactly(s.store.kv, verifies, p.envelope.modelId, asked, record);
  }

  ghost predicate AllAsAsked(log: seq<Executed>)
  {
    forall x :: 0 <= x < |log| ==> AsAsked(log[x])
  }

  lemma NextAsAsked(s: State, verifies: SignatureCheck, action: Action)
    requires AllAsAsked(s.executed)
    ensures AllAsAsked(Next(s, verifies, action).executed)
  {
    if action.Work? {
      var t := DoWork(s, verifies, action.admission, action.elapsedMs, action.output);
      if t != s && t.executed[|t.executed| - 1].isFresh {
        var record := FreshIsApproved(s, verifies, action.admission, action.elapsedMs, action.output);
      }
    } else if IsOffice(action) {
      OfficeIsCalm(s, verifies, action);
    } else if IsDispatch(action) {
      DispatchIsCalm(s, verifies, action);
    } else {
      OthersAreCalm(s, verifies, action);
    }
  }

  lemma {:induction false} RunAsAsked(s: State, verifies: SignatureCheck, actions: seq<Action>)
    requires s.executed == []
    ensures AllAsAsked(Run(s, verifies, actions).executed)
  {
    if actions != [] {
      RunAsAsked(s, verifies, actions[..|actions| - 1]);
      NextAsAsked(Run(s, verifies, actions[..|actions| - 1]), verifies, actions[|actions| - 1]);
    }
  }

  lemma ExecutedParcelFits(s: State, x: nat)
    requires LeadersMail(s) && Honest(s) && x < |s.executed|
    ensures Fits(s, s.executed[x].parcel)
  {
    assert Kept(s, s.executed[x]);
    var m :| 0 <= m < |s.mail| && s.mail[m] == s.executed[x].parcel;
  }

  /** Over every run, from the client's task to the node: a fresh execution is for the task of its dispatch, with its
      key, payload and model, and if the task names a digest, then the artifact executed has it, up to case. */
  lemma TasksRunAsAsked(now: real, hosts: map<string, Profile>, verifies: SignatureCheck, actions: seq<Action>, x: nat)
    requires
      var log := Run(Init(now, hosts), verifies, actions).executed;
      x < |log| && log[x].isFresh
    ensures
      var s := Run(Init(now, hosts), verifies, actions);
      var (p, outcome) := (s.executed[x].parcel, s.executed[x].outcome);
      && p.job < |s.jobs| && outcome.Ok?
      && var task := s.jobs[p.job].task;
      && outcome.value.taskId == task.taskId && outcome.value.idempotencyKey == task.idempotencyKey
      && p.envelope.modelId == task.modelId && p.envelope.payloadRef == task.payloadRef
      && (task.modelDigest.Some? && task.modelDigest.value != "" ==>
        Text.Lower(outcome.value.modelDigest) == Text.Lower(task.modelDigest.value))
  {
    var s := Run(Init(now, hosts), verifies, actions);
    InitFenced(now, hosts);
    RunFenced(Init(now, hosts), verifies, actions);
    RunOnce(Init(now, hosts), verifies, actions);
    RunAsAsked(Init(now, hosts), verifies, actions);
    assert AsAsked(s.executed[x]);
    ExecutedParcelFits(s, x);
  }
}
