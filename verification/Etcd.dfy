/** The authoritative key/value store with leases (common/state.py).

    Every method of the class is specified by `Apply`, a function on the value of its three fields.
    The clock is read at most once per call and is therefore a parameter, `now`; operations that do not
    read it are given an arbitrary time. */
module Etcd {
  import opened Contracts

  /** A stored string, seen through the parser that its readers use. */
  datatype Value =
    | Plain(text: string)
    | RecordJson(record: ApprovedArtifactRecord)
    | PolicyJson(policy: SupplyChainPolicy)

  datatype Store = Store(kv: map<string, Value>, leases: map<int, real>, nextLease: int)

  const EMPTY: Store := Store(map[], map[], 1)

  datatype Op =
    | Put(key: string, value: Value)
    | Delete(key: string)
    | Grant(ttl: int)
    | Revoke(lease: int)
    | IsValid(lease: int)
    | PutWithLease(key: string, value: Value, lease: int)
    | Cas(key: string, expected: Option<Value>, value: Value, guard: Option<int>)

  datatype Reply = Done | Lease(id: int) | Flag(ok: bool)

  function Lookup(kv: map<string, Value>, key: string): Option<Value>
  {
    if key in kv then Some(kv[key]) else None
  }

  /** The validity check deletes the entry of a lease that it finds expired. */
  function CheckLease(s: Store, lease: int, now: real): (Store, bool)
  {
    if lease !in s.leases then (s, false)
    else if now > s.leases[lease] then (s.(leases := s.leases - {lease}), false)
    else (s, true)
  }

  function Apply(s: Store, op: Op, now: real): (Store, Reply)
  {
    match op
    case Put(key, value) => (s.(kv := s.kv[key := value]), Done)
    case Delete(key) => (s.(kv := s.kv - {key}), Done)
    case Grant(ttl) =>
      (s.(leases := s.leases[s.nextLease := now + ttl as real], nextLease := s.nextLease + 1), Lease(s.nextLease))
    case Revoke(lease) => (s.(leases := s.leases - {lease}), Done)
    case IsValid(lease) =>
      var (s', ok) := CheckLease(s, lease, now);
      (s', Flag(ok))
    case PutWithLease(key, value, lease) =>
      var (s', ok) := CheckLease(s, lease, now);
      if ok then (s'.(kv := s'.kv[key := value]), Flag(true)) else (s', Flag(false))
    case Cas(key, expected, value, guard) =>
      var (s', ok) := if guard.Some? then CheckLease(s, guard.value, now) else (s, true);
      if ok && Lookup(s'.kv, key) == expected then (s'.(kv := s'.kv[key := value]), Flag(true))
      else (s', Flag(false))
  }

  class SimulatedEtcdProvider {
    var kv: map<string, Value>
    var leases: map<int, real>
    var leaseIdCounter: int

    constructor ()
      ensures View() == EMPTY
    {
      kv, leases, leaseIdCounter := map[], map[], 1;
    }

    ghost function View(): Store
      reads this
    {
      Store(kv, leases, leaseIdCounter)
    }

    method PutKey(key: string, value: Value)
      modifies this
      ensures View() == Apply(old(View()), Put(key, value), 0.0).0
    {
      kv := kv[key := value];
    }

    method Get(key: string) returns (r: Option<Value>)
      ensures r == Lookup(kv, key)
    {
      r := if key in kv then Some(kv[key]) else None;
    }

    method DeleteKey(key: string)
      modifies this
      ensures View() == Apply(old(View()), Delete(key), 0.0).0
    {
      if key in kv {
        kv := kv - {key};
      } else {
        assert kv - {key} == kv;
      }
    }

    method GrantLease(ttl: int, now: real) returns (leaseId: int)
      modifies this
      ensures (View(), Lease(leaseId)) == Apply(old(View()), Grant(ttl), now)
    {
      leaseId := leaseIdCounter;
      leaseIdCounter := leaseIdCounter + 1;
      var expiry := now + ttl as real;
      leases := leases[leaseId := expiry];
    }

    method RevokeLease(leaseId: int)
      modifies this
      ensures View() == Apply(old(View()), Revoke(leaseId), 0.0).0
    {
      if leaseId in leases {
        leases := leases - {leaseId};
      } else {
        assert leases - {leaseId} == leases;
      }
    }

    method IsLeaseValid(leaseId: int, now: real) returns (ok: bool)
      modifies this
      ensures (View(), Flag(ok)) == Apply(old(View()), IsValid(leaseId), now)
    {
      if leaseId !in leases {
        return false;
      }
      if now > leases[leaseId] {
        leases := leases - {leaseId};
        return false;
      }
      return true;
    }

    method PutKeyWithLease(key: string, value: Value, leaseId: int, now: real) returns (ok: bool)
      modifies this
      ensures (View(), Flag(ok)) == Apply(old(View()), PutWithLease(key, value, leaseId), now)
    {
      ok := IsLeaseValid(leaseId, now);
      if !ok {
        return false;
      }
      kv := kv[key := value];
    }

    method CompareAndSwap(key: string, expected: Option<Value>, value: Value, guard: Option<int>, now: real)
      returns (ok: bool)
      modifies this
      ensures (View(), Flag(ok)) == Apply(old(View()), Cas(key, expected, value, guard), now)
    {
      if guard.Some? {
        var valid := IsLeaseValid(guard.value, now);
        if !valid {
          return false;
        }
      }
      var current := Get(key);
      if current == expected {
        kv := kv[key := value];
        return true;
      }
      return false;
    }
  }
}

/** What leases promise, without deletion on read: the store refines this specification over whole runs. */
module Leases {
  import opened Contracts
  import opened Etcd

  /** Everything ever granted and everything ever revoked. */
  datatype Authority = Authority(kv: map<string, Value>, granted: map<int, real>, revoked: set<int>, nextLease: int)

  const NOBODY: Authority := Authority(map[], map[], {}, 1)

  predicate Alive(a: Authority, lease: int, now: real)
  {
    lease in a.granted && lease !in a.revoked && now <= a.granted[lease]
  }

  function Decree(a: Authority, op: Op, now: real): (Authority, Reply)
  {
    match op
    case Put(key, value) => (a.(kv := a.kv[key := value]), Done)
    case Delete(key) => (a.(kv := a.kv - {key}), Done)
    case Grant(ttl) =>
      (a.(granted := a.granted[a.nextLease := now + ttl as real], nextLease := a.nextLease + 1), Lease(a.nextLease))
    case Revoke(lease) => (if lease in a.granted then a.(revoked := a.revoked + {lease}) else a, Done)
    case IsValid(lease) => (a, Flag(Alive(a, lease, now)))
    case PutWithLease(key, value, lease) =>
      if Alive(a, lease, now) then (a.(kv := a.kv[key := value]), Flag(true)) else (a, Flag(false))
    case Cas(key, expected, value, guard) =>
      if (guard.Some? ==> Alive(a, guard.value, now)) && Lookup(a.kv, key) == expected
      then (a.(kv := a.kv[key := value]), Flag(true))
      else (a, Flag(false))
  }

  /** The entries kept are exact, and an entry that is gone belongs to a dead lease. */
  ghost predicate Refines(s: Store, a: Authority, now: real)
  {
    && s.kv == a.kv
    && s.nextLease == a.nextLease
    && (forall id :: id in a.granted ==> id < a.nextLease)
    && (forall id :: id in a.revoked ==> id in a.granted)
    && (forall id :: id in s.leases ==> id in a.granted && id !in a.revoked && s.leases[id] == a.granted[id])
    && (forall id :: id in a.granted && id !in s.leases ==> id in a.revoked || now > a.granted[id])
  }

  lemma StepRefines(s: Store, a: Authority, op: Op, before: real, now: real)
    requires Refines(s, a, before) && before <= now
    ensures Refines(Apply(s, op, now).0, Decree(a, op, now).0, now)
    ensures Apply(s, op, now).1 == Decree(a, op, now).1
  {
  }

  lemma DeadStaysDead(a: Authority, lease: int, op: Op, before: real, now: real)
    requires lease < a.nextLease && !Alive(a, lease, before) && before <= now
    ensures !Alive(Decree(a, op, now).0, lease, now) && lease < Decree(a, op, now).0.nextLease
  {
  }

  datatype Timed = Timed(op: Op, at: real)

  ghost predicate Timeline(ops: seq<Timed>)
  {
    forall i, j :: 0 <= i < j < |ops| ==> ops[i].at <= ops[j].at
  }

  function StoreAfter(ops: seq<Timed>): Store
  {
    if ops == [] then EMPTY
    else var last := ops[|ops| - 1]; Apply(StoreAfter(ops[..|ops| - 1]), last.op, last.at).0
  }

  function AuthorityAfter(ops: seq<Timed>): Authority
  {
    if ops == [] then NOBODY
    else var last := ops[|ops| - 1]; Decree(AuthorityAfter(ops[..|ops| - 1]), last.op, last.at).0
  }

  function ReplyAt(ops: seq<Timed>, i: nat): Reply
    requires i < |ops|
  {
    Apply(StoreAfter(ops[..i]), ops[i].op, ops[i].at).1
  }

  function DecreeAt(ops: seq<Timed>, i: nat): Reply
    requires i < |ops|
  {
    Decree(AuthorityAfter(ops[..i]), ops[i].op, ops[i].at).1
  }

  lemma {:induction false} RunRefines(ops: seq<Timed>, now: real)
    requires Timeline(ops) && (ops != [] ==> ops[|ops| - 1].at <= now)
    ensures Refines(StoreAfter(ops), AuthorityAfter(ops), now)
  {
    if ops != [] {
      var last := ops[|ops| - 1];
      RunRefines(ops[..|ops| - 1], last.at);
      StepRefines(StoreAfter(ops[..|ops| - 1]), AuthorityAfter(ops[..|ops| - 1]), last.op, last.at, last.at);
    }
  }

  /** Over every run under a clock that never goes back, each answer of the store is the one the
      specification gives, although the store forgets leases while it reads them. */
  lemma LazyExpiryRefinesEager(ops: seq<Timed>, i: nat)
    requires Timeline(ops) && i < |ops|
    ensures ReplyAt(ops, i) == DecreeAt(ops, i)
    ensures StoreAfter(ops).kv == AuthorityAfter(ops).kv
  {
    RunRefines(ops[..i], ops[i].at);
    StepRefines(StoreAfter(ops[..i]), AuthorityAfter(ops[..i]), ops[i].op, ops[i].at, ops[i].at);
    RunRefines(ops, ops[|ops| - 1].at);
  }

  lemma {:induction false} DeadThroughRun(ops: seq<Timed>, lease: int, i: nat, j: nat)
    requires Timeline(ops) && i < j < |ops|
    requires lease < AuthorityAfter(ops[..i]).nextLease && !Alive(AuthorityAfter(ops[..i]), lease, ops[i].at)
    ensures lease < AuthorityAfter(ops[..j]).nextLease && !Alive(AuthorityAfter(ops[..j]), lease, ops[j].at)
    decreases j
  {
    var k := j - 1;
    if i < k {
      DeadThroughRun(ops, lease, i, k);
    }
    assert ops[..j][..k] == ops[..k] && ops[..j][k] == ops[k];
    DeadStaysDead(AuthorityAfter(ops[..k]), lease, ops[k].op, ops[k].at, ops[k].at);
  }

  /** Once a granted lease has been reported invalid, every later query reports it invalid. */
  lemma InvalidForever(ops: seq<Timed>, lease: int, i: nat, j: nat)
    requires Timeline(ops) && i < j < |ops|
    requires ops[i].op == IsValid(lease) && ops[j].op == IsValid(lease)
    requires lease < StoreAfter(ops[..i]).nextLease
    requires ReplyAt(ops, i) == Flag(false)
    ensures ReplyAt(ops, j) == Flag(false)
  {
    LazyExpiryRefinesEager(ops, i);
    LazyExpiryRefinesEager(ops, j);
    RunRefines(ops[..i], ops[i].at);
    DeadThroughRun(ops, lease, i, j);
  }

  lemma {:induction false} CounterGrows(ops: seq<Timed>, i: nat, j: nat)
    requires i <= j <= |ops|
    ensures StoreAfter(ops[..i]).nextLease <= StoreAfter(ops[..j]).nextLease
    decreases j
  {
    if i < j {
      CounterGrows(ops, i, j - 1);
      assert ops[..j][..j - 1] == ops[..j - 1];
    }
  }

  /** Lease ids are never reused. */
  lemma GrantsAreFresh(ops: seq<Timed>, i: nat, j: nat)
    requires i < j < |ops| && ops[i].op.Grant? && ops[j].op.Grant?
    ensures ReplyAt(ops, i).Lease? && ReplyAt(ops, j).Lease? && ReplyAt(ops, i).id < ReplyAt(ops, j).id
  {
    assert ops[..i + 1][..i] == ops[..i];
    CounterGrows(ops, i + 1, j);
  }

  lemma {:induction false} KeyStays(ops: seq<Timed>, key: string, i: nat, j: nat)
    requires i <= j <= |ops| && key in StoreAfter(ops[..i]).kv
    requires forall k :: i <= k < j ==> ops[k].op != Delete(key)
    ensures key in StoreAfter(ops[..j]).kv
    decreases j
  {
    if i < j {
      KeyStays(ops, key, i, j - 1);
      assert ops[..j][..j - 1] == ops[..j - 1] && ops[..j][j - 1] == ops[j - 1];
    }
  }

  /** Between deletions of a key, at most one "create" compare-and-swap on it succeeds. */
  lemma OneCreatorPerKey(ops: seq<Timed>, key: string, i: nat, j: nat)
    requires i < j < |ops|
    requires ops[i].op.Cas? && ops[i].op.key == key && ops[i].op.expected == None
    requires ops[j].op.Cas? && ops[j].op.key == key && ops[j].op.expected == None
    requires forall k :: i < k < j ==> ops[k].op != Delete(key)
    requires ReplyAt(ops, i) == Flag(true)
    ensures ReplyAt(ops, j) == Flag(false)
  {
    assert ops[..i + 1][..i] == ops[..i] && ops[..i + 1][i] == ops[i];
    KeyStays(ops, key, i + 1, j);
  }

  // ---- The life of a lease, in terms of the operations alone

  /** Nobody revokes the lease in operations `i` to `j - 1`. */
  ghost predicate NotRevoked(ops: seq<Timed>, lease: int, i: nat, j: nat)
    requires i <= j <= |ops|
  {
    forall k :: i <= k < j ==> ops[k].op != Revoke(lease)
  }

  ghost predicate Orderly(a: Authority)
  {
    (forall id :: id in a.granted ==> id < a.nextLease) && (forall id :: id in a.revoked ==> id in a.granted)
  }

  lemma DecreeIsOrderly(a: Authority, op: Op, now: real)
    requires Orderly(a)
    ensures Orderly(Decree(a, op, now).0)
  {
  }

  lemma {:induction false} AuthorityIsOrderly(ops: seq<Timed>)
    ensures Orderly(AuthorityAfter(ops))
  {
    if ops != [] {
      AuthorityIsOrderly(ops[..|ops| - 1]);
      DecreeIsOrderly(AuthorityAfter(ops[..|ops| - 1]), ops[|ops| - 1].op, ops[|ops| - 1].at);
    }
  }

  lemma {:induction false} SameCounter(ops: seq<Timed>)
    ensures StoreAfter(ops).nextLease == AuthorityAfter(ops).nextLease
  {
    if ops != [] {
      SameCounter(ops[..|ops| - 1]);
    }
  }

  lemma {:induction false} GrantLasts(ops: seq<Timed>, lease: int, i: nat, j: nat)
    requires i < j <= |ops| && ops[i].op.Grant? && ReplyAt(ops, i) == Lease(lease)
    ensures
      var a := AuthorityAfter(ops[..j]);
      && lease in a.granted && lease < a.nextLease && a.granted[lease] == ops[i].at + ops[i].op.ttl as real
      && (lease in a.revoked <==> !NotRevoked(ops, lease, i + 1, j))
    decreases j
  {
    AuthorityIsOrderly(ops[..j]);
    var k := j - 1;
    assert ops[..j][..k] == ops[..k] && ops[..j][k] == ops[k];
    if i < k {
      GrantLasts(ops, lease, i, k);
      assert !NotRevoked(ops, lease, i + 1, j) <==> !NotRevoked(ops, lease, i + 1, k) || ops[k].op == Revoke(lease);
    } else {
      AuthorityIsOrderly(ops[..i]);
      SameCounter(ops[..i]);
    }
  }

  /** A lease that was granted for `ttl` seconds is valid up to then, unless it was revoked, and not afterwards. */
  lemma LeaseLivesExactly(ops: seq<Timed>, lease: int, i: nat, j: nat)
    requires Timeline(ops) && i < j < |ops|
    requires ops[i].op.Grant? && ReplyAt(ops, i) == Lease(lease) && ops[j].op == IsValid(lease)
    ensures ReplyAt(ops, j)
      == Flag(NotRevoked(ops, lease, i + 1, j) && ops[j].at <= ops[i].at + ops[i].op.ttl as real)
  {
    LazyExpiryRefinesEager(ops, j);
    GrantLasts(ops, lease, i, j);
  }
}
