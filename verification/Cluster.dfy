/** Schedulers, the shared store, envelopes in flight and nodes as one step system.

    Messages may be delivered late, repeatedly or never, replies may be lost, and any step of one participant
    may fall between two steps of another. An action that is not enabled leaves the state as it is. */
module Cluster {
  import opened Contracts
  import opened Etcd
  import opened Leases
  import opened SupplyChain
  import opened Node
  import opened Dispatch

  datatype Stage = Granted | Decided | Serving

  /** `elected` remembers that the election was won; `isLeader` is what the scheduler still believes. */
  datatype Scheduler = Scheduler(id: string, pem: string, lease: int, stage: Stage,
    isLeader: bool, elected: bool, targets: Targets)

  /** One dispatch: the first `attempts` members of the chain have been tried, the last of them perhaps still
      unanswered. */
  datatype Job = Job(scheduler: nat, task: TaskRequest, chain: seq<string>, attempts: nat, waiting: bool, closed: bool)

  /** An envelope on its way to the address that its attempt used. */
  datatype Parcel = Parcel(job: nat, attempt: nat, address: string, envelope: Envelope)

  datatype Host = Host(profile: Profile, cache: Cache)

  datatype Admitted = Admitted(parcel: Parcel, at: real)

  /** `admission` is the place in `admitted` of what was executed. */
  datatype Executed = Executed(admission: nat, parcel: Parcel, isFresh: bool, outcome: Outcome)

  datatype State = State(
    now: real,
    store: Store,
    authority: Authority,
    schedulers: seq<Scheduler>,
    jobs: seq<Job>,
    mail: seq<Parcel>,
    hosts: map<string, Host>,
    admitted: seq<Admitted>,
    worked: set<nat>,
    executed: seq<Executed>)

  function Init(now: real, hosts: map<string, Profile>): State
  {
    State(now, EMPTY, NOBODY, [], [], [], map a | a in hosts :: Host(hosts[a], map[]), [], {}, [])
  }

  datatype Action =
    | Tick(seconds: real)
    | External(op: Op)
    | Start(id: string, pem: string, targets: Targets)
    | Elect(scheduler: nat)
    | Publish(scheduler: nat)
    | Register(scheduler: nat, node: string, target: string)
    | Open(scheduler: nat, task: TaskRequest, decision: Decision)
    | Try(job: nat)
    | Settle(job: nat, reply: Option<nat>)
    | Deliver(mail: nat)
    | Work(admission: nat, elapsedMs: real, output: string)
    | SetHealth(address: string, isOffline: bool, failExecution: bool)

  /** Steps that make a scheduler what it is. */
  predicate IsOffice(action: Action) { action.Start? || action.Elect? || action.Publish? || action.Register? }

  /** Steps of a dispatch. */
  predicate IsDispatch(action: Action) { action.Open? || action.Try? || action.Settle? }

  /** Other users of the store do anything except touch the leader key. */
  predicate Foreign(op: Op)
  {
    (op.Put? || op.Delete? || op.PutWithLease? || op.Cas?) ==> op.key != LEADER_KEY
  }

  /** The store and its specification take the same step. */
  function Ask(s: State, op: Op): State
  {
    s.(store := Apply(s.store, op, s.now).0, authority := Decree(s.authority, op, s.now).0)
  }

  function Confirms(s: State, op: Op): bool
  {
    Apply(s.store, op, s.now).1 == Flag(true)
  }

  function DoStart(s: State, id: string, pem: string, targets: Targets): State
  {
    var lease := s.store.nextLease;
    Ask(s, Grant(LEASE_TTL)).(schedulers := s.schedulers + [Scheduler(id, pem, lease, Granted, false, false, targets)])
  }

  function DoElect(s: State, i: nat): State
  {
    if i < |s.schedulers| && s.schedulers[i].stage.Granted? then
      var me := s.schedulers[i];
      var op := Cas(LEADER_KEY, None, Plain(me.id), Some(me.lease));
      var won := Confirms(s, op);
      Ask(s, op).(schedulers := s.schedulers[i := me.(stage := Decided, isLeader := won, elected := won)])
    else s
  }

  function DoPublish(s: State, i: nat): State
  {
    if i < |s.schedulers| && s.schedulers[i].stage.Decided? then
      var me := s.schedulers[i];
      Ask(s, Put(IdentityKey(me.id), Plain(me.pem))).(schedulers := s.schedulers[i := me.(stage := Serving)])
    else s
  }

  function DoRegister(s: State, i: nat, node: string, target: string): State
  {
    if i < |s.schedulers| then
      var me := s.schedulers[i];
      s.(schedulers := s.schedulers[i := me.(targets := me.targets[node := target])])
    else s
  }

  function DoOpen(s: State, i: nat, task: TaskRequest, decision: Decision): State
  {
    if i < |s.schedulers| && s.schedulers[i].stage.Serving? && s.schedulers[i].isLeader then
      var me := s.schedulers[i];
      var s' := Ask(s, IsValid(me.lease));
      if Confirms(s, IsValid(me.lease))
      then s'.(jobs := s.jobs + [Job(i, task, ChainOf(decision), 0, false, false)])
      else s'.(schedulers := s.schedulers[i := me.(isLeader := false)])
    else s
  }

  function DoTry(s: State, j: nat): State
  {
    if j < |s.jobs| && !s.jobs[j].closed && !s.jobs[j].waiting && s.jobs[j].attempts < |s.jobs[j].chain|
      && s.jobs[j].scheduler < |s.schedulers| then
      var (job, me) := (s.jobs[j], s.schedulers[s.jobs[j].scheduler]);
      var node := job.chain[job.attempts];
      if !HasAddress(me.targets, node) then s.(jobs := s.jobs[j := job.(attempts := job.attempts + 1)])
      else
        var e := EnvelopeFor(job.task, node, me.lease, me.id, me.pem, s.now,
          Lookup(s.store.kv, ModelKey(job.task.modelId)));
        s.(jobs := s.jobs[j := job.(attempts := job.attempts + 1, waiting := true)],
          mail := s.mail + [Parcel(j, job.attempts, me.targets[node], e)])
    else s
  }

  /** The call of the current attempt ends: with the success of an execution it caused, or with nothing usable. */
  function DoSettle(s: State, j: nat, reply: Option<nat>): State
  {
    if j < |s.jobs| && s.jobs[j].waiting then
      match reply
      case None => s.(jobs := s.jobs[j := s.jobs[j].(waiting := false)])
      case Some(x) =>
        if x < |s.executed| && s.executed[x].parcel.job == j && s.executed[x].parcel.attempt + 1 == s.jobs[j].attempts
          && s.executed[x].outcome.Ok?
        then s.(jobs := s.jobs[j := s.jobs[j].(waiting := false, closed := true)])
        else s
    else s
  }

  function DoDeliver(s: State, m: nat): State
  {
    if m < |s.mail| && s.mail[m].address in s.hosts then
      var p := s.mail[m];
      var (store, code) := Admission(s.store, p.envelope, s.now);
      s.(store := store, admitted := if code == None then s.admitted + [Admitted(p, s.now)] else s.admitted)
    else s
  }

  function DoWork(s: State, verifies: SignatureCheck, a: nat, elapsedMs: real, output: string): State
  {
    if a < |s.admitted| && a !in s.worked && s.admitted[a].parcel.address in s.hosts then
      var p := s.admitted[a].parcel;
      var h := s.hosts[p.address];
      var request := RequestOf(p.envelope);
      var (cache, outcome) := Execute(h.profile, h.cache, s.store.kv, verifies, request, elapsedMs, output);
      s.(hosts := s.hosts[p.address := h.(cache := cache)], worked := s.worked + {a},
        executed := s.executed + [Executed(a, p, request.idempotencyKey !in h.cache && outcome.Ok?, outcome)])
    else s
  }

  function Next(s: State, verifies: SignatureCheck, action: Action): State
  {
    match action
    case Tick(seconds) => if seconds >= 0.0 then s.(now := s.now + seconds) else s
    case External(op) => if Foreign(op) then Ask(s, op) else s
    case Start(id, pem, targets) => DoStart(s, id, pem, targets)
    case Elect(i) => DoElect(s, i)
    case Publish(i) => DoPublish(s, i)
    case Register(i, node, target) => DoRegister(s, i, node, target)
    case Open(i, task, decision) => DoOpen(s, i, task, decision)
    case Try(j) => DoTry(s, j)
    case Settle(j, reply) => DoSettle(s, j, reply)
    case Deliver(m) => DoDeliver(s, m)
    case Work(a, elapsedMs, output) => DoWork(s, verifies, a, elapsedMs, output)
    case SetHealth(address, isOffline, failExecution) =>
      if address in s.hosts then
        var h := s.hosts[address];
        s.(hosts := s.hosts[address :=
          h.(profile := h.profile.(isOffline := isOffline, failExecution := failExecution))])
      else s
  }

  function Run(s: State, verifies: SignatureCheck, actions: seq<Action>): State
  {
    if actions == [] then s else Next(Run(s, verifies, actions[..|actions| - 1]), verifies, actions[|actions| - 1])
  }

  lemma {:induction false} RunSplits(s: State, verifies: SignatureCheck, first: seq<Action>, rest: seq<Action>)
    ensures Run(s, verifies, first + rest) == Run(Run(s, verifies, first), verifies, rest)
  {
    if rest == [] {
      assert first + rest == first;
    } else {
      var n := |rest| - 1;
      assert (first + rest)[..|first + rest| - 1] == first + rest[..n];
      RunSplits(s, verifies, first, rest[..n]);
    }
  }
}
