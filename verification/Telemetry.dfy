/** Telemetry end to end: the streaming sender (node_agent/grpc_client.py), a channel that loses, repeats and
    reorders but does not forge, and the receiving loop (gateway/grpc_server.py). */
module Telemetry {
  import opened Contracts
  import opened Etcd
  import opened Replay

  const TTL := 10.0

  /** A payload that does or does not describe a snapshot. */
  datatype Body = Readable(snapshot: string) | Garbled

  /** `signedBy` is the public key of the pair that signed the payload. */
  datatype Telegram = Telegram(msg: Message, body: Body, signedBy: string)

  // ---- Sender

  function Signed(node: string, sequence: int, nonce: string, now: real, body: Body, pem: string): Telegram
  {
    Telegram(Message(node, sequence, nonce, now, now + TTL), body, pem)
  }

  class TelemetryStreamer {
    const nodeId: string
    const publicKey: string
    var sequenceNumber: int

    constructor (nodeId: string, publicKey: string)
      ensures sequenceNumber == 0 && this.nodeId == nodeId && this.publicKey == publicKey
    {
      this.nodeId, this.publicKey := nodeId, publicKey;
      sequenceNumber := 0;
    }

    method SignTelemetry(body: Body, nonce: string, now: real) returns (t: Telegram)
      modifies this
      ensures sequenceNumber == old(sequenceNumber) + 1
      ensures t == Signed(nodeId, sequenceNumber, nonce, now, body, publicKey)
      ensures t.msg == Message(nodeId, old(sequenceNumber) + 1, nonce, now, now + 10.0)
      ensures t.body == body && t.signedBy == publicKey
    {
      sequenceNumber := sequenceNumber + 1;
      var expiresAt := now + TTL;
      t := Telegram(Message(nodeId, sequenceNumber, nonce, now, expiresAt), body, publicKey);
    }
  }

  // ---- Receiver

  /** Replay state and snapshots; `stored` remembers what was stored, oldest first. */
  datatype Desk = Desk(memory: Memory, latest: map<string, string>, stored: seq<Telegram>)

  const EMPTY_DESK: Desk := Desk(BLANK, map[], [])

  /** One telegram as it reaches the loop: when, and which identity is registered for its node at that time. */
  datatype Letter = Letter(telegram: Telegram, at: real, identity: Option<Value>)

  /** What becomes of a telegram before the store is touched: passed over, the end of its stream, or in hand. */
  datatype Taken = Skipped | Broken | InHand(telegram: Telegram)

  /** Replay state is recorded before the signature is looked at; an unreadable payload ends the stream. */
  function TakeUp(d: Desk, skew: real, l: Letter): (Desk, Taken)
  {
    var t := l.telegram;
    if l.identity == None || l.identity == Some(Plain("")) then (d, Skipped)
    else if !Acceptable(d.memory, skew, t.msg, l.at) then (d, Skipped)
    else
      var d' := d.(memory := Record(d.memory, t.msg));
      (d', if l.identity != Some(Plain(t.signedBy)) then Skipped else if t.body.Garbled? then Broken else InHand(t))
  }

  function PutDown(d: Desk, t: Telegram): Desk
    requires t.body.Readable?
  {
    d.(latest := d.latest[t.msg.node := t.body.snapshot], stored := d.stored + [t])
  }

  lemma InHandIsReadable(d: Desk, skew: real, l: Letter)
    ensures TakeUp(d, skew, l).1.InHand? ==> l.telegram.body.Readable? && TakeUp(d, skew, l).1.telegram == l.telegram
  {
  }

  /** One turn of the loop, undisturbed by other streams; the answer says whether the stream goes on. */
  function TakeIn(d: Desk, skew: real, l: Letter): (Desk, bool)
  {
    InHandIsReadable(d, skew, l);
    match TakeUp(d, skew, l)
    case (d', Skipped) => (d', true)
    case (d', Broken) => (d', false)
    case (d', InHand(t)) => (PutDown(d', t), true)
  }

  function TakeAll(d: Desk, skew: real, stream: seq<Letter>): (Desk, bool)
  {
    if stream == [] then (d, true)
    else
      var (d', open) := TakeAll(d, skew, stream[..|stream| - 1]);
      if open then TakeIn(d', skew, stream[|stream| - 1]) else (d', false)
  }

  lemma {:induction false} ClosedStaysClosed(d: Desk, skew: real, stream: seq<Letter>, i: nat)
    requires i <= |stream| && !TakeAll(d, skew, stream[..i]).1
    ensures TakeAll(d, skew, stream) == TakeAll(d, skew, stream[..i])
  {
    if i < |stream| {
      assert stream[..|stream| - 1][..i] == stream[..i];
      ClosedStaysClosed(d, skew, stream[..|stream| - 1], i);
    } else {
      assert stream[..i] == stream;
    }
  }

  class TelemetryServicer {
    const replayState: ReplayProtectionState
    var snapshots: map<string, string>
    ghost var stored: seq<Telegram>

    constructor ()
      ensures fresh(replayState) && replayState.maxClockSkewSeconds == 5.0 && View() == EMPTY_DESK
    {
      replayState := new ReplayProtectionState(5.0);
      snapshots, stored := map[], [];
    }

    ghost function View(): Desk
      reads this, replayState
    {
      Desk(replayState.View(), snapshots, stored)
    }

    /** The part of a turn before the store; only the replay state is guarded by a lock. */
    method Examine(l: Letter) returns (taken: Taken)
      modifies replayState
      ensures (View(), taken) == TakeUp(old(View()), replayState.maxClockSkewSeconds, l)
    {
      if l.identity == None || l.identity == Some(Plain("")) {
        return Skipped;
      }
      var ok := replayState.ValidateAndRecord(l.telegram.msg, l.at);
      if !ok || l.identity != Some(Plain(l.telegram.signedBy)) {
        return Skipped;
      }
      if l.telegram.body.Garbled? {
        return Broken;
      }
      return InHand(l.telegram);
    }

    method Keep(t: Telegram)
      requires t.body.Readable?
      modifies this
      ensures View() == PutDown(old(View()), t)
    {
      snapshots := snapshots[t.msg.node := t.body.snapshot];
      stored := stored + [t];
    }

    /** A stream that no other one overlaps. The answer is true unless an exception ended it. */
    method StreamTelemetry(stream: seq<Letter>) returns (success: bool)
      modifies this, replayState
      ensures (View(), success) == TakeAll(old(View()), replayState.maxClockSkewSeconds, stream)
    {
      var i := 0;
      while i < |stream|
        invariant 0 <= i <= |stream|
        invariant (View(), true) == TakeAll(old(View()), replayState.maxClockSkewSeconds, stream[..i])
      {
        assert stream[..i + 1][..i] == stream[..i];
        InHandIsReadable(View(), replayState.maxClockSkewSeconds, stream[i]);
        var taken := Examine(stream[i]);
        i := i + 1;
        match taken
        case Skipped => {}
        case Broken =>
          ClosedStaysClosed(old(View()), replayState.maxClockSkewSeconds, stream, i);
          return false;
        case InHand(t) => Keep(t);
      }
      assert stream[..i] == stream;
      return true;
    }
  }

  // ---- The whole system

  /** Every node has one signing key for its lifetime; `counters` survive reconnects. `held` are telegrams that some
      stream has in hand and has not stored yet; after a reconnect there may be several streams of one node.
      `arrivals` is what reached the replay check. */
  datatype Net = Net(now: real, pems: map<string, string>, counters: map<string, int>, registered: set<string>,
    sent: seq<Telegram>, arrivals: seq<Arrival>, held: set<Telegram>, desk: Desk)

  datatype Action =
    | Tick(seconds: real)
    | Reconnect(node: string)
    | Emit(node: string, nonce: string, body: Body)
    | Deliver(mail: nat)
    | Inject(telegram: Telegram)
    | Finish(telegram: Telegram)
    | Abandon(telegram: Telegram)

  function Init(now: real, pems: map<string, string>): Net
  {
    Net(now, pems, map n | n in pems :: 0, {}, [], [], {}, EMPTY_DESK)
  }

  function IdentityOf(net: Net, node: string): Option<Value>
  {
    if node in net.registered && node in net.pems then Some(Plain(net.pems[node])) else None
  }

  /** Can messages that name this node reach the replay check? */
  predicate Known(net: Net, node: string)
  {
    IdentityOf(net, node) != None && IdentityOf(net, node) != Some(Plain(""))
  }

  /** Not signed by the node it names. */
  predicate Foreign(net: Net, t: Telegram)
  {
    t.msg.node !in net.pems || t.signedBy != net.pems[t.msg.node]
  }

  function Arrive(net: Net, skew: real, t: Telegram): Net
  {
    var (d, taken) := TakeUp(net.desk, skew, Letter(t, net.now, IdentityOf(net, t.msg.node)));
    net.(desk := d,
      arrivals := if Known(net, t.msg.node) then net.arrivals + [Arrival(t.msg, net.now)] else net.arrivals,
      held := if taken.InHand? then net.held + {t} else net.held)
  }

  function DoFinish(net: Net, t: Telegram): Net
  {
    if t in net.held && t.body.Readable? then net.(held := net.held - {t}, desk := PutDown(net.desk, t)) else net
  }

  function DoEmit(net: Net, node: string, nonce: string, body: Body): Net
  {
    if node in net.pems && node in net.counters then
      var sequence := net.counters[node] + 1;
      net.(counters := net.counters[node := sequence],
        sent := net.sent + [Signed(node, sequence, nonce, net.now, body, net.pems[node])])
    else net
  }

  function Next(net: Net, skew: real, action: Action): Net
  {
    match action
    case Tick(seconds) => if seconds >= 0.0 then net.(now := net.now + seconds) else net
    case Reconnect(node) => net.(registered := net.registered + {node})
    case Emit(node, nonce, body) => DoEmit(net, node, nonce, body)
    case Deliver(m) => if m < |net.sent| then Arrive(net, skew, net.sent[m]) else net
    case Inject(t) => if Foreign(net, t) then Arrive(net, skew, t) else net
    case Finish(t) => DoFinish(net, t)
    case Abandon(t) => net.(held := net.held - {t})
  }

  function Run(net: Net, skew: real, actions: seq<Action>): Net
  {
    if actions == [] then net
    else Next(Run(net, skew, actions[..|actions| - 1]), skew, actions[|actions| - 1])
  }

  /** Sends are genuine, numbered from 1 and numbered upwards per node. */
  ghost predicate Sends(net: Net)
  {
    && (forall i :: 0 <= i < |net.sent| ==>
      && net.sent[i].msg.node in net.counters && 1 <= net.sent[i].msg.sequence <= net.counters[net.sent[i].msg.node]
      && net.sent[i].msg.expiresAt == net.sent[i].msg.timestamp + TTL
      && net.sent[i].msg.node in net.pems && net.sent[i].signedBy == net.pems[net.sent[i].msg.node])
    && (forall i, j :: 0 <= i < j < |net.sent| && net.sent[i].msg.node == net.sent[j].msg.node ==>
      net.sent[i].msg.sequence < net.sent[j].msg.sequence)
    && (forall n :: n in net.counters ==> net.counters[n] >= 0)
  }

  /** Sent, taken up, and readable. */
  ghost predicate Taking(net: Net, t: Telegram)
  {
    t in net.sent && t.body.Readable? && t.msg.sequence <= HighWater(net.desk.memory, t.msg.node)
  }

  ghost predicate NoRepeats(stored: seq<Telegram>)
  {
    forall k, l :: 0 <= k < l < |stored| ==> stored[k] != stored[l]
  }

  ghost predicate Stores(net: Net)
  {
    && (forall t :: t in net.held ==> Taking(net, t) && t !in net.desk.stored)
    && (forall t :: t in net.desk.stored ==> Taking(net, t))
    && NoRepeats(net.desk.stored)
  }

  ghost predicate LastFrom(stored: seq<Telegram>, k: int, node: string)
  {
    && 0 <= k < |stored| && stored[k].msg.node == node && stored[k].body.Readable?
    && forall l :: k < l < |stored| ==> stored[l].msg.node != node
  }

  ghost predicate ShowsLatest(d: Desk)
  {
    && (forall n :: n in d.latest ==> exists k :: LastFrom(d.stored, k, n) && d.latest[n] == d.stored[k].body.snapshot)
    && (forall k :: 0 <= k < |d.stored| ==> d.stored[k].msg.node in d.latest)
  }

  lemma PutDownShowsLatest(d: Desk, t: Telegram)
    requires ShowsLatest(d) && t.body.Readable?
    ensures ShowsLatest(PutDown(d, t))
  {
    var d' := PutDown(d, t);
    forall n | n in d'.latest
      ensures exists k :: LastFrom(d'.stored, k, n) && d'.latest[n] == d'.stored[k].body.snapshot
    {
      if n == t.msg.node {
        assert LastFrom(d'.stored, |d.stored|, n);
      } else {
        var k :| LastFrom(d.stored, k, n) && d.latest[n] == d.stored[k].body.snapshot;
        assert LastFrom(d'.stored, k, n);
      }
    }
  }

  /** The replay memory is what the arrivals made it. */
  ghost predicate MemoryFits(net: Net, skew: real)
  {
    net.desk.memory == MemoryAfter(skew, net.arrivals)
  }

  ghost predicate Sane(net: Net, skew: real)
  {
    Sends(net) && Stores(net) && ShowsLatest(net.desk) && MemoryFits(net, skew)
  }

  lemma SameStore(net: Net, net': Net)
    requires Stores(net) && net.sent <= net'.sent && net'.held <= net.held && net'.desk.stored == net.desk.stored
    requires forall n :: HighWater(net.desk.memory, n) <= HighWater(net'.desk.memory, n)
    ensures Stores(net')
  {
    forall t | t in net.held || t in net.desk.stored ensures Taking(net', t) {
      assert Taking(net, t);
    }
  }

  lemma HighWaterRises(net: Net, skew: real, t: Telegram)
    ensures forall n :: HighWater(net.desk.memory, n) <= HighWater(Arrive(net, skew, t).desk.memory, n)
    ensures Arrive(net, skew, t).held != net.held ==>
      HighWater(net.desk.memory, t.msg.node) < t.msg.sequence == HighWater(Arrive(net, skew, t).desk.memory, t.msg.node)
  {
  }

  /** A foreign telegram may move the high-water mark, but it does not get into anybody's hands. */
  lemma ArriveStores(net: Net, skew: real, t: Telegram)
    requires Stores(net) && (t in net.sent || Foreign(net, t))
    ensures Stores(Arrive(net, skew, t))
  {
    var net' := Arrive(net, skew, t);
    HighWaterRises(net, skew, t);
    SameStore(net, net'.(held := net.held));
    if net'.held != net.held {
      assert net'.held == net.held + {t} && Taking(net', t);
      assert t in net.desk.stored ==> Taking(net, t);
    }
  }

  lemma ArriveRemembers(net: Net, skew: real, t: Telegram)
    requires MemoryFits(net, skew)
    ensures MemoryFits(Arrive(net, skew, t), skew)
  {
    if Known(net, t.msg.node) {
      assert (net.arrivals + [Arrival(t.msg, net.now)])[..|net.arrivals|] == net.arrivals;
    }
  }

  lemma ArriveIsSane(net: Net, skew: real, t: Telegram)
    requires Sane(net, skew) && (t in net.sent || Foreign(net, t))
    ensures Sane(Arrive(net, skew, t), skew)
  {
    ArriveStores(net, skew, t);
    ArriveRemembers(net, skew, t);
  }

  lemma EmitIsSane(net: Net, skew: real, node: string, nonce: string, body: Body)
    requires Sane(net, skew)
    ensures Sane(DoEmit(net, node, nonce, body), skew)
  {
    SameStore(net, DoEmit(net, node, nonce, body));
  }

  lemma FinishStores(net: Net, t: Telegram)
    requires Stores(net) && t in net.held && t.body.Readable?
    ensures Stores(DoFinish(net, t))
  {
    var net' := DoFinish(net, t);
    assert t !in net.desk.stored;
    forall u | u in net'.desk.stored || u in net'.held ensures Taking(net', u) {
      assert u == t || u in net.desk.stored || u in net.held;
      assert Taking(net, u);
    }
  }

  lemma FinishIsSane(net: Net, skew: real, t: Telegram)
    requires Sane(net, skew)
    ensures Sane(DoFinish(net, t), skew)
  {
    if t in net.held && t.body.Readable? {
      PutDownShowsLatest(net.desk, t);
      FinishStores(net, t);
    }
  }

  lemma CalmIsSane(net: Net, skew: real, action: Action)
    requires Sane(net, skew) && (action.Tick? || action.Reconnect? || action.Abandon?)
    ensures Sane(Next(net, skew, action), skew)
  {
    SameStore(net, Next(net, skew, action));
  }

  lemma NextIsSane(net: Net, skew: real, action: Action)
    requires Sane(net, skew)
    ensures Sane(Next(net, skew, action), skew)
  {
    match action
    case Deliver(m) =>
      if m < |net.sent| {
        ArriveIsSane(net, skew, net.sent[m]);
      }
    case Inject(t) =>
      if Foreign(net, t) {
        ArriveIsSane(net, skew, t);
      }
    case Emit(node, nonce, body) => EmitIsSane(net, skew, node, nonce, body);
    case Finish(t) => FinishIsSane(net, skew, t);
    case _ => CalmIsSane(net, skew, action);
  }

  lemma {:induction false} RunIsSane(now: real, pems: map<string, string>, skew: real, actions: seq<Action>)
    ensures Sane(Run(Init(now, pems), skew, actions), skew)
  {
    if actions != [] {
      RunIsSane(now, pems, skew, actions[..|actions| - 1]);
      NextIsSane(Run(Init(now, pems), skew, actions[..|actions| - 1]), skew, actions[|actions| - 1]);
    }
  }

  lemma SameNumberSameTelegram(net: Net, t: Telegram, u: Telegram)
    requires Sends(net) && t in net.sent && u in net.sent && t.msg.node == u.msg.node
    requires t.msg.sequence == u.msg.sequence
    ensures t == u
  {
    var i :| 0 <= i < |net.sent| && net.sent[i] == t;
    var j :| 0 <= j < |net.sent| && net.sent[j] == u;
  }

  lemma {:induction false} RunKeepsKeys(net: Net, skew: real, actions: seq<Action>)
    ensures Run(net, skew, actions).pems == net.pems
  {
    if actions != [] {
      RunKeepsKeys(net, skew, actions[..|actions| - 1]);
    }
  }

  lemma StoredOnce(net: Net, k: nat, l: nat)
    requires Sends(net) && Stores(net) && k < |net.desk.stored| && l < |net.desk.stored|
    ensures
      var (t, u) := (net.desk.stored[k], net.desk.stored[l]);
      && t in net.sent && t.msg.node in net.pems && t.signedBy == net.pems[t.msg.node]
      && (t.msg.node == u.msg.node && t.msg.sequence == u.msg.sequence ==> k == l)
  {
    var (t, u) := (net.desk.stored[k], net.desk.stored[l]);
    assert t in net.desk.stored && u in net.desk.stored;
    assert Taking(net, t) && Taking(net, u);
    if t.msg.node == u.msg.node && t.msg.sequence == u.msg.sequence {
      SameNumberSameTelegram(net, t, u);
    }
  }

  /** Whatever the channel does, and however many streams overlap: what is stored was sent by the node it names, and
      is stored once. */
  lemma StoredWasSentOnce(now: real, pems: map<string, string>, skew: real, actions: seq<Action>, k: nat, l: nat)
    requires k < |Run(Init(now, pems), skew, actions).desk.stored|
      && l < |Run(Init(now, pems), skew, actions).desk.stored|
    ensures
      var net := Run(Init(now, pems), skew, actions);
      var (t, u) := (net.desk.stored[k], net.desk.stored[l]);
      && t in net.sent && t.msg.node in pems && t.signedBy == pems[t.msg.node]
      && (t.msg.node == u.msg.node && t.msg.sequence == u.msg.sequence ==> k == l)
  {
    RunIsSane(now, pems, skew, actions);
    RunKeepsKeys(Init(now, pems), skew, actions);
    var net := Run(Init(now, pems), skew, actions);
    StoredOnce(net, k, l);
  }

  // ---- Which snapshot the store shows

  /** The snapshot shown for the node, the one stored last, has the highest number stored. */
  ghost predicate ShowsHighest(d: Desk, node: string)
  {
    forall k, l :: LastFrom(d.stored, k, node) && 0 <= l < |d.stored| && d.stored[l].msg.node == node ==>
      d.stored[l].msg.sequence <= d.stored[k].msg.sequence
  }

  /** At most one telegram of the node is in hand, and it is newer than those stored. */
  ghost predicate InTurn(net: Net, node: string)
  {
    && (forall t, u :: t in net.held && u in net.held && t.msg.node == node && u.msg.node == node ==> t == u)
    && (forall t, u :: t in net.held && u in net.desk.stored && t.msg.node == node && u.msg.node == node ==>
      u.msg.sequence < t.msg.sequence)
  }

  function FinishAll(net: Net, ts: seq<Telegram>): Net
  {
    if ts == [] then net else DoFinish(FinishAll(net, ts[..|ts| - 1]), ts[|ts| - 1])
  }

  lemma LastAfter(stored: seq<Telegram>, t: Telegram, k: int, node: string)
    requires LastFrom(stored + [t], k, node)
    ensures if t.msg.node == node then k == |stored| else LastFrom(stored, k, node)
  {
    var more := stored + [t];
    assert more[|stored|] == t;
    if t.msg.node != node {
      forall l | k < l < |stored| ensures stored[l].msg.node != node {
        assert more[l] == stored[l];
      }
    }
  }

  lemma FinishKeepsHighest(net: Net, t: Telegram, node: string)
    requires ShowsHighest(net.desk, node) && InTurn(net, node)
    ensures ShowsHighest(DoFinish(net, t).desk, node) && InTurn(DoFinish(net, t), node)
  {
    var (d, d') := (net.desk, DoFinish(net, t).desk);
    if t in net.held && t.body.Readable? {
      assert d'.stored == d.stored + [t];
      forall k, l | LastFrom(d'.stored, k, node) && 0 <= l < |d'.stored| && d'.stored[l].msg.node == node
        ensures d'.stored[l].msg.sequence <= d'.stored[k].msg.sequence
      {
        LastAfter(d.stored, t, k, node);
        assert l < |d.stored| ==> d.stored[l] in d.stored;
      }
    }
  }

  lemma {:induction false} FinishingKeepsHighest(net: Net, ts: seq<Telegram>, node: string)
    requires ShowsHighest(net.desk, node) && InTurn(net, node)
    ensures ShowsHighest(FinishAll(net, ts).desk, node) && InTurn(FinishAll(net, ts), node)
  {
    if ts != [] {
      FinishingKeepsHighest(net, ts[..|ts| - 1], node);
      FinishKeepsHighest(FinishAll(net, ts[..|ts| - 1]), ts[|ts| - 1], node);
    }
  }

  /** Storing a telegram that was overtaken hides the newer one. */
  lemma OvertakenHidesNewer(net: Net, t: Telegram, u: Telegram)
    requires t in net.held && t.body.Readable? && u in net.desk.stored && t.msg.node == u.msg.node
    requires t.msg.sequence < u.msg.sequence
    ensures !ShowsHighest(DoFinish(net, t).desk, t.msg.node)
  {
    var stored := DoFinish(net, t).desk.stored;
    var l :| 0 <= l < |net.desk.stored| && net.desk.stored[l] == u;
    assert LastFrom(stored, |net.desk.stored|, t.msg.node) && stored[l] == u;
  }

  lemma TwoInHandMayHideNewer(net: Net, t: Telegram, u: Telegram)
    requires t in net.held && u in net.held && t.body.Readable? && u.body.Readable? && t.msg.node == u.msg.node
    requires t.msg.sequence < u.msg.sequence
    ensures !ShowsHighest(FinishAll(net, [u, t]).desk, t.msg.node)
  {
    assert [u, t][..1] == [u] && [u][..0] == [];
    assert FinishAll(net, [u]) == DoFinish(net, u);
    OvertakenHidesNewer(DoFinish(net, u), t, u);
  }

  lemma OutOfTurnMayHideNewer(net: Net, skew: real, node: string) returns (ts: seq<Telegram>)
    requires Sane(net, skew) && !InTurn(net, node)
    ensures !ShowsHighest(FinishAll(net, ts).desk, node)
  {
    if t, u :| t in net.held && u in net.held && t.msg.node == node && u.msg.node == node && t != u {
      assert Taking(net, t) && Taking(net, u);
      if t.msg.sequence == u.msg.sequence {
        SameNumberSameTelegram(net, t, u);
      }
      if t.msg.sequence < u.msg.sequence {
        ts := [u, t];
        TwoInHandMayHideNewer(net, t, u);
      } else {
        ts := [t, u];
        TwoInHandMayHideNewer(net, u, t);
      }
    } else {
      var t, u :| t in net.held && u in net.desk.stored && t.msg.node == node && u.msg.node == node
        && u.msg.sequence >= t.msg.sequence;
      assert Taking(net, t) && Taking(net, u) && t != u;
      if t.msg.sequence == u.msg.sequence {
        SameNumberSameTelegram(net, t, u);
      }
      ts := [t];
      assert [t][..0] == [];
      assert FinishAll(net, [t]) == DoFinish(net, t);
      OvertakenHidesNewer(net, t, u);
    }
  }

  lemma SureToShowHighest(net: Net, skew: real, node: string)
    requires Sane(net, skew)
    ensures (forall ts :: ShowsHighest(FinishAll(net, ts).desk, node))
      <==> ShowsHighest(net.desk, node) && InTurn(net, node)
  {
    if ShowsHighest(net.desk, node) && InTurn(net, node) {
      forall ts ensures ShowsHighest(FinishAll(net, ts).desk, node) {
        FinishingKeepsHighest(net, ts, node);
      }
    } else if InTurn(net, node) {
      assert !ShowsHighest(FinishAll(net, []).desk, node);
    } else {
      var ts := OutOfTurnMayHideNewer(net, skew, node);
    }
  }

  /** After any run: the store is sure to show the highest number of a node, in whatever order the telegrams in hand get
      stored, if and only if it shows it now and at most one telegram of the node is in hand, a newer one. */
  lemma ShowsHighestExactly(now: real, pems: map<string, string>, skew: real, actions: seq<Action>, node: string)
    ensures
      var net := Run(Init(now, pems), skew, actions);
      (forall ts :: ShowsHighest(FinishAll(net, ts).desk, node)) <==> ShowsHighest(net.desk, node) && InTurn(net, node)
  {
    RunIsSane(now, pems, skew, actions);
    SureToShowHighest(Run(Init(now, pems), skew, actions), skew, node);
  }

  ghost predicate Increasing(stored: seq<Telegram>, node: string)
  {
    forall k, l :: 0 <= k < l < |stored| && stored[k].msg.node == node && stored[l].msg.node == node ==>
      stored[k].msg.sequence < stored[l].msg.sequence
  }

  /** No telegram of the node arrives while another one of it is in hand. */
  ghost predicate Alone(net: Net, action: Action, node: string)
  {
    action.Deliver? && action.mail < |net.sent| && net.sent[action.mail].msg.node == node ==>
      forall t :: t in net.held ==> t.msg.node != node
  }

  /** So it is throughout a run. */
  ghost predicate NeverOverlaps(net: Net, skew: real, actions: seq<Action>, node: string)
  {
    actions == []
    || (var (first, last) := (actions[..|actions| - 1], actions[|actions| - 1]);
      NeverOverlaps(net, skew, first, node) && Alone(Run(net, skew, first), last, node))
  }

  lemma ArriveInTurn(net: Net, skew: real, t: Telegram, node: string)
    requires Sane(net, skew) && InTurn(net, node)
    requires t.msg.node == node ==> Foreign(net, t) || forall u :: u in net.held ==> u.msg.node != node
    ensures InTurn(Arrive(net, skew, t), node)
  {
    var net' := Arrive(net, skew, t);
    HighWaterRises(net, skew, t);
    if net'.held != net.held {
      assert net'.held == net.held + {t};
      forall u | u in net.desk.stored && u.msg.node == t.msg.node ensures u.msg.sequence < t.msg.sequence {
        assert Taking(net, u);
      }
    }
  }

  lemma FinishInTurn(net: Net, t: Telegram, node: string)
    requires InTurn(net, node) && Increasing(net.desk.stored, node)
    ensures InTurn(DoFinish(net, t), node) && Increasing(DoFinish(net, t).desk.stored, node)
  {
    if t in net.held && t.body.Readable? {
      forall k | 0 <= k < |net.desk.stored| && net.desk.stored[k].msg.node == node == t.msg.node
        ensures net.desk.stored[k].msg.sequence < t.msg.sequence
      {
        assert net.desk.stored[k] in net.desk.stored;
      }
    }
  }

  lemma SameTurn(net: Net, net': Net, node: string)
    requires InTurn(net, node) && net'.held <= net.held && net'.desk.stored == net.desk.stored
    ensures InTurn(net', node)
  {
  }

  lemma DeliverInTurn(net: Net, skew: real, m: nat, node: string)
    requires Sane(net, skew) && InTurn(net, node) && Alone(net, Deliver(m), node) && m < |net.sent|
    ensures InTurn(Arrive(net, skew, net.sent[m]), node)
  {
    ArriveInTurn(net, skew, net.sent[m], node);
  }

  lemma NextInTurn(net: Net, skew: real, action: Action, node: string)
    requires Sane(net, skew) && InTurn(net, node) && Increasing(net.desk.stored, node) && Alone(net, action, node)
    ensures InTurn(Next(net, skew, action), node) && Increasing(Next(net, skew, action).desk.stored, node)
  {
    if action.Finish? {
      FinishInTurn(net, action.telegram, node);
    } else {
      assert Next(net, skew, action).desk.stored == net.desk.stored;
      if action.Deliver? && action.mail < |net.sent| {
        DeliverInTurn(net, skew, action.mail, node);
      } else if action.Inject? && Foreign(net, action.telegram) {
        ArriveInTurn(net, skew, action.telegram, node);
      } else {
        SameTurn(net, Next(net, skew, action), node);
      }
    }
  }

  lemma {:induction false} RunInTurn(now: real, pems: map<string, string>, skew: real, actions: seq<Action>,
    node: string)
    requires NeverOverlaps(Init(now, pems), skew, actions, node)
    ensures
      var net := Run(Init(now, pems), skew, actions);
      InTurn(net, node) && Increasing(net.desk.stored, node)
  {
    if actions != [] {
      var (first, last) := (actions[..|actions| - 1], actions[|actions| - 1]);
      RunInTurn(now, pems, skew, first, node);
      RunIsSane(now, pems, skew, first);
      NextInTurn(Run(Init(now, pems), skew, first), skew, last, node);
    }
  }

  lemma StoredInSent(net: Net, k: nat, l: nat) returns (i: nat, j: nat)
    requires Sends(net) && Stores(net) && k < l < |net.desk.stored|
    requires net.desk.stored[k].msg.node == net.desk.stored[l].msg.node
    requires net.desk.stored[k].msg.sequence < net.desk.stored[l].msg.sequence
    ensures i < j < |net.sent| && net.sent[i] == net.desk.stored[k] && net.sent[j] == net.desk.stored[l]
  {
    StoredOnce(net, k, l);
    StoredOnce(net, l, k);
    i :| 0 <= i < |net.sent| && net.sent[i] == net.desk.stored[k];
    j :| 0 <= j < |net.sent| && net.sent[j] == net.desk.stored[l];
  }

  /** If streams of a node never overlap, what is stored for it is a subsequence of what it sent, with increasing
      numbers, across reconnects and among foreign telegrams. */
  lemma StoredIsSubsequenceOfSent(now: real, pems: map<string, string>, skew: real, actions: seq<Action>, k: nat,
    l: nat)
    returns (i: nat, j: nat)
    requires
      var stored := Run(Init(now, pems), skew, actions).desk.stored;
      && k < l < |stored| && stored[k].msg.node == stored[l].msg.node
      && NeverOverlaps(Init(now, pems), skew, actions, stored[k].msg.node)
    ensures
      var net := Run(Init(now, pems), skew, actions);
      && i < j < |net.sent| && net.sent[i] == net.desk.stored[k] && net.sent[j] == net.desk.stored[l]
      && net.desk.stored[k].msg.sequence < net.desk.stored[l].msg.sequence
  {
    RunIsSane(now, pems, skew, actions);
    var net := Run(Init(now, pems), skew, actions);
    RunInTurn(now, pems, skew, actions, net.desk.stored[k].msg.node);
    i, j := StoredInSent(net, k, l);
  }

  /** If streams of a node never overlap, the store shows the stored snapshot with the highest number. */
  lemma StoreShowsHighest(now: real, pems: map<string, string>, skew: real, actions: seq<Action>, k: nat)
    returns (top: nat)
    requires
      var stored := Run(Init(now, pems), skew, actions).desk.stored;
      k < |stored| && NeverOverlaps(Init(now, pems), skew, actions, stored[k].msg.node)
    ensures
      var d := Run(Init(now, pems), skew, actions).desk;
      var node := d.stored[k].msg.node;
      && top < |d.stored| && d.stored[top].msg.node == node && d.stored[top].body.Readable?
      && node in d.latest && d.latest[node] == d.stored[top].body.snapshot
      && d.stored[k].msg.sequence <= d.stored[top].msg.sequence
  {
    RunIsSane(now, pems, skew, actions);
    var d := Run(Init(now, pems), skew, actions).desk;
    var node := d.stored[k].msg.node;
    RunInTurn(now, pems, skew, actions, node);
    top :| LastFrom(d.stored, top, node) && d.latest[node] == d.stored[top].body.snapshot;
  }

  lemma RunSnoc(net: Net, skew: real, actions: seq<Action>, action: Action)
    ensures Run(net, skew, actions + [action]) == Next(Run(net, skew, actions), skew, action)
  {
    assert (actions + [action])[..|actions|] == actions;
  }

  lemma RunLastTwo(net: Net, skew: real, actions: seq<Action>)
    requires |actions| >= 2
    ensures
      var n := |actions|;
      Run(net, skew, actions)
        == Next(Next(Run(net, skew, actions[..n - 2]), skew, actions[n - 2]), skew, actions[n - 1])
  {
    var n := |actions|;
    assert actions[..n - 1][..n - 2] == actions[..n - 2];
  }

  lemma DeliverBoth(net: Net, skew: real)
    requires |net.sent| == 2
    ensures
      Next(Next(net, skew, Deliver(0)), skew, Deliver(1)) == Arrive(Arrive(net, skew, net.sent[0]), skew, net.sent[1])
  {
  }

  function FirstSend(node: string, now: real, pem: string): Telegram { Signed(node, 1, "1", now, Readable("old"), pem) }

  function SecondSend(node: string, now: real, pem: string): Telegram
  {
    Signed(node, 2, "2", now, Readable("new"), pem)
  }

  /** Two sends, taken up by two streams. */
  function Overlap(node: string): seq<Action>
  {
    [Reconnect(node), Emit(node, "1", Readable("old")), Emit(node, "2", Readable("new")), Deliver(0), Deliver(1)]
  }

  lemma TwoSends(now: real, pems: map<string, string>, skew: real, node: string)
    requires node in pems
    ensures
      var net := Run(Init(now, pems), skew, Overlap(node)[..3]);
      && net.sent == [FirstSend(node, now, pems[node]), SecondSend(node, now, pems[node])]
      && net.desk == EMPTY_DESK && net.held == {} && net.now == now && net.pems == pems && node in net.registered
  {
    var (start, all) := (Init(now, pems), Overlap(node));
    assert all[..1] == [] + [all[0]] && all[..2] == all[..1] + [all[1]] && all[..3] == all[..2] + [all[2]];
    RunSnoc(start, skew, [], all[0]);
    RunSnoc(start, skew, all[..1], all[1]);
    RunSnoc(start, skew, all[..2], all[2]);
  }

  /** A timely telegram with a new number and a new nonce. */
  lemma NextIsTakenUp(net: Net, skew: real, t: Telegram)
    requires Known(net, t.msg.node) && t.signedBy == net.pems[t.msg.node] && t.body.Readable?
    requires net.now <= t.msg.expiresAt && t.msg.timestamp <= net.now + skew
    requires t.msg.sequence > HighWater(net.desk.memory, t.msg.node)
      && t.msg.nonce !in Seen(net.desk.memory, t.msg.node)
    ensures Arrive(net, skew, t).held == net.held + {t}
    ensures HighWater(Arrive(net, skew, t).desk.memory, t.msg.node) == t.msg.sequence
    ensures Seen(Arrive(net, skew, t).desk.memory, t.msg.node) <= Seen(net.desk.memory, t.msg.node) + {t.msg.nonce}
  {
  }

  lemma BothAreTakenUp(net: Net, skew: real, node: string)
    requires node in net.registered && node in net.pems && net.pems[node] != "" && skew >= 0.0
    requires net.desk == EMPTY_DESK && net.held == {}
    ensures
      var (t, u) := (FirstSend(node, net.now, net.pems[node]), SecondSend(node, net.now, net.pems[node]));
      Arrive(Arrive(net, skew, t), skew, u).held == {t, u}
  {
    assert "1"[0] != "2"[0];
    NextIsTakenUp(net, skew, FirstSend(node, net.now, net.pems[node]));
    NextIsTakenUp(Arrive(net, skew, FirstSend(node, net.now, net.pems[node])), skew,
      SecondSend(node, net.now, net.pems[node]));
  }

  lemma OverlapHoldsBoth(now: real, pems: map<string, string>, skew: real, node: string)
    requires node in pems && pems[node] != "" && skew >= 0.0
    ensures
      Run(Init(now, pems), skew, Overlap(node)).held
      == {FirstSend(node, now, pems[node]), SecondSend(node, now, pems[node])}
  {
    TwoSends(now, pems, skew, node);
    RunLastTwo(Init(now, pems), skew, Overlap(node));
    var net := Run(Init(now, pems), skew, Overlap(node)[..3]);
    BothAreTakenUp(net, skew, node);
    DeliverBoth(net, skew);
  }

  /** A run that ends with the older of two snapshots in the store: both are taken up after a reconnect, and the
      second one is stored first. */
  lemma OverlapShowsOlder(now: real, pems: map<string, string>, skew: real, node: string)
    requires node in pems && pems[node] != "" && skew >= 0.0
    ensures
      var net := Run(Init(now, pems), skew, Overlap(node));
      var after := FinishAll(net, [SecondSend(node, now, pems[node]), FirstSend(node, now, pems[node])]);
      !ShowsHighest(after.desk, node) && node in after.desk.latest && after.desk.latest[node] == "old"
  {
    OverlapHoldsBoth(now, pems, skew, node);
    var net := Run(Init(now, pems), skew, Overlap(node));
    var (t, u) := (FirstSend(node, now, pems[node]), SecondSend(node, now, pems[node]));
    TwoInHandMayHideNewer(net, t, u);
    assert [u, t][..1] == [u] && [u][..0] == [];
    assert FinishAll(net, [u]) == DoFinish(net, u);
  }

  // ---- Nothing is lost needlessly

  /** In time and readable, from a registered node, and above every number of the node that was accepted before,
      whoever signed that, with a nonce that is not remembered. */
  ghost predicate Admissible(net: Net, skew: real, t: Telegram)
  {
    var accepted := AcceptedFrom(skew, net.arrivals, t.msg.node);
    && Known(net, t.msg.node) && t.body.Readable?
    && net.now <= t.msg.expiresAt && t.msg.timestamp <= net.now + skew
    && AboveAll(accepted, t.msg.sequence) && Unused(Window(accepted), t.msg.nonce)
  }

  lemma TakenUp(net: Net, skew: real, t: Telegram)
    requires Sane(net, skew) && t in net.sent
    ensures Arrive(net, skew, t).held != net.held <==> Admissible(net, skew, t)
    ensures Admissible(net, skew, t) ==> t in Arrive(net, skew, t).held
  {
    AcceptedExactlyWhen(skew, net.arrivals, t.msg, net.now);
    HighWaterRises(net, skew, t);
    assert t in net.held ==> Taking(net, t);
  }

  /** After any run: the delivery of a telegram that was sent puts it into somebody's hands if and only if it is
      admissible. */
  lemma TakenUpExactly(now: real, pems: map<string, string>, skew: real, actions: seq<Action>, m: nat)
    requires m < |Run(Init(now, pems), skew, actions).sent|
    ensures
      var net := Run(Init(now, pems), skew, actions);
      Next(net, skew, Deliver(m)).held != net.held <==> Admissible(net, skew, net.sent[m])
  {
    RunIsSane(now, pems, skew, actions);
    var net := Run(Init(now, pems), skew, actions);
    TakenUp(net, skew, net.sent[m]);
  }

  /** A delivery is admissible when it happens, and no stream gives up on a telegram in hand. */
  ghost predicate SmoothStep(net: Net, skew: real, action: Action)
  {
    && !action.Abandon?
    && (action.Deliver? && action.mail < |net.sent| ==> Admissible(net, skew, net.sent[action.mail]))
  }

  ghost predicate Smooth(net: Net, skew: real, actions: seq<Action>)
  {
    actions == []
    || (var (first, last) := (actions[..|actions| - 1], actions[|actions| - 1]);
      Smooth(net, skew, first) && SmoothStep(Run(net, skew, first), skew, last))
  }

  predicate Delivers(net: Net, action: Action, t: Telegram)
  {
    action.Deliver? && action.mail < |net.sent| && net.sent[action.mail] == t
  }

  /** Was `t` delivered in this run? */
  predicate Delivered(net: Net, skew: real, actions: seq<Action>, t: Telegram)
  {
    actions != []
    && var (first, last) := (actions[..|actions| - 1], actions[|actions| - 1]);
    Delivered(net, skew, first, t) || Delivers(Run(net, skew, first), last, t)
  }

  ghost predicate Safe(net: Net, t: Telegram) { t in net.held || t in net.desk.stored }

  lemma SafeStays(net: Net, skew: real, action: Action, t: Telegram)
    requires Safe(net, t) && !action.Abandon?
    ensures Safe(Next(net, skew, action), t)
  {
  }

  lemma DeliveryArrives(net: Net, skew: real, action: Action, t: Telegram)
    requires Delivers(net, action, t)
    ensures Next(net, skew, action) == Arrive(net, skew, t) && t in net.sent
  {
  }

  lemma JustDeliveredIsSafe(net: Net, skew: real, action: Action, t: Telegram)
    requires Sane(net, skew) && SmoothStep(net, skew, action) && Delivers(net, action, t)
    ensures Safe(Next(net, skew, action), t)
  {
    DeliveryArrives(net, skew, action, t);
    TakenUp(net, skew, t);
  }

  /** Every telegram delivered in a smooth run is stored or in hand. */
  lemma {:induction false} DeliveredIsSafe(now: real, pems: map<string, string>, skew: real, actions: seq<Action>,
    t: Telegram)
    requires Smooth(Init(now, pems), skew, actions) && Delivered(Init(now, pems), skew, actions, t)
    ensures Safe(Run(Init(now, pems), skew, actions), t)
  {
    var (first, last) := (actions[..|actions| - 1], actions[|actions| - 1]);
    if Delivered(Init(now, pems), skew, first, t) {
      DeliveredIsSafe(now, pems, skew, first, t);
      SafeStays(Run(Init(now, pems), skew, first), skew, last, t);
    } else {
      RunIsSane(now, pems, skew, first);
      JustDeliveredIsSafe(Run(Init(now, pems), skew, first), skew, last, t);
    }
  }

  lemma SafeSendsAreStored(now: real, pems: map<string, string>, skew: real, actions: seq<Action>)
    requires Smooth(Init(now, pems), skew, actions) && Run(Init(now, pems), skew, actions).held == {}
    requires forall t :: t in Run(Init(now, pems), skew, actions).sent ==> Delivered(Init(now, pems), skew, actions, t)
    ensures
      var net := Run(Init(now, pems), skew, actions);
      forall t :: t in net.desk.stored <==> t in net.sent
  {
    var net := Run(Init(now, pems), skew, actions);
    RunIsSane(now, pems, skew, actions);
    forall t | t in net.sent ensures t in net.desk.stored {
      DeliveredIsSafe(now, pems, skew, actions, t);
    }
    forall t | t in net.desk.stored ensures t in net.sent {
      assert Taking(net, t);
    }
  }

  /** What the channel has brought so far: deliveries, and foreign telegrams. */
  function Brought(net: Net, skew: real, actions: seq<Action>): seq<Message>
  {
    if actions == [] then []
    else
      var (first, last) := (actions[..|actions| - 1], actions[|actions| - 1]);
      var before := Run(net, skew, first);
      Brought(net, skew, first)
      + if last.Deliver? && last.mail < |before.sent| then [before.sent[last.mail].msg]
        else if last.Inject? && Foreign(before, last.telegram) then [last.telegram.msg]
        else []
  }

  /** Readable, from a registered node, within its lifetime and the skew of the clocks. */
  predicate Timely(net: Net, skew: real, t: Telegram)
  {
    Known(net, t.msg.node) && t.body.Readable? && t.msg.timestamp - skew <= net.now <= t.msg.expiresAt
  }

  /** Numbered above everything that was brought for its node before, with another nonce. */
  ghost predicate Newer(brought: seq<Message>, msg: Message)
  {
    forall k :: 0 <= k < |brought| && brought[k].node == msg.node ==>
      brought[k].sequence < msg.sequence && brought[k].nonce != msg.nonce
  }

  /** The channel keeps the order of each node's telegrams and brings them in time; foreign telegrams do not run
      ahead of the node's own. No stream gives up on a telegram in hand. */
  ghost predicate OrderlyStep(net: Net, skew: real, brought: seq<Message>, action: Action)
  {
    && !action.Abandon?
    && (action.Deliver? && action.mail < |net.sent| ==>
      Timely(net, skew, net.sent[action.mail]) && Newer(brought, net.sent[action.mail].msg))
  }

  ghost predicate Orderly(net: Net, skew: real, actions: seq<Action>)
  {
    actions == []
    || (var (first, last) := (actions[..|actions| - 1], actions[|actions| - 1]);
      Orderly(net, skew, first) && OrderlyStep(Run(net, skew, first), skew, Brought(net, skew, first), last))
  }

  ghost predicate ArrivalsWithin(arrivals: seq<Arrival>, brought: seq<Message>)
  {
    forall k :: 0 <= k < |arrivals| ==> arrivals[k].msg in brought
  }

  lemma ArrivalIsBrought(net: Net, skew: real, t: Telegram, brought: seq<Message>)
    requires ArrivalsWithin(net.arrivals, brought)
    ensures ArrivalsWithin(Arrive(net, skew, t).arrivals, brought + [t.msg])
  {
    var net' := Arrive(net, skew, t);
    forall k | 0 <= k < |net'.arrivals| ensures net'.arrivals[k].msg in brought + [t.msg] {
      assert k < |net.arrivals| ==> net.arrivals[k].msg in brought;
    }
  }

  lemma {:induction false} ArrivalsWereBrought(net: Net, skew: real, actions: seq<Action>)
    requires net.arrivals == []
    ensures ArrivalsWithin(Run(net, skew, actions).arrivals, Brought(net, skew, actions))
  {
    if actions != [] {
      var (first, last) := (actions[..|actions| - 1], actions[|actions| - 1]);
      ArrivalsWereBrought(net, skew, first);
      var before := Run(net, skew, first);
      if last.Deliver? && last.mail < |before.sent| {
        ArrivalIsBrought(before, skew, before.sent[last.mail], Brought(net, skew, first));
      } else if last.Inject? && Foreign(before, last.telegram) {
        ArrivalIsBrought(before, skew, last.telegram, Brought(net, skew, first));
      }
    }
  }

  lemma {:induction false} AcceptedWereBrought(skew: real, arrivals: seq<Arrival>, node: string, brought: seq<Message>)
    requires ArrivalsWithin(arrivals, brought)
    ensures forall i :: 0 <= i < |AcceptedFrom(skew, arrivals, node)| ==>
      AcceptedFrom(skew, arrivals, node)[i].node == node && AcceptedFrom(skew, arrivals, node)[i] in brought
  {
    if arrivals != [] {
      AcceptedWereBrought(skew, arrivals[..|arrivals| - 1], node, brought);
    }
  }

  lemma NewerIsAdmissible(net: Net, skew: real, t: Telegram, brought: seq<Message>)
    requires ArrivalsWithin(net.arrivals, brought) && Timely(net, skew, t) && Newer(brought, t.msg)
    requires t.msg.sequence >= 0
    ensures Admissible(net, skew, t)
  {
    var accepted := AcceptedFrom(skew, net.arrivals, t.msg.node);
    AcceptedWereBrought(skew, net.arrivals, t.msg.node, brought);
    forall i | 0 <= i < |accepted| ensures accepted[i].sequence < t.msg.sequence && accepted[i].nonce != t.msg.nonce {
      var k :| 0 <= k < |brought| && brought[k] == accepted[i];
    }
    var window := Window(accepted);
    RememberedSteps(|accepted|);
    forall i | 0 <= i < |window| ensures window[i].nonce != t.msg.nonce {
      assert window[i] == accepted[|accepted| - |window| + i];
    }
  }

  lemma OrderlyStepIsSmooth(net: Net, skew: real, brought: seq<Message>, action: Action)
    requires Sane(net, skew) && ArrivalsWithin(net.arrivals, brought) && OrderlyStep(net, skew, brought, action)
    ensures SmoothStep(net, skew, action)
  {
    if action.Deliver? && action.mail < |net.sent| {
      NewerIsAdmissible(net, skew, net.sent[action.mail], brought);
    }
  }

  lemma {:induction false} OrderlyIsSmooth(now: real, pems: map<string, string>, skew: real, actions: seq<Action>)
    requires Orderly(Init(now, pems), skew, actions)
    ensures Smooth(Init(now, pems), skew, actions)
  {
    if actions != [] {
      var (first, last) := (actions[..|actions| - 1], actions[|actions| - 1]);
      OrderlyIsSmooth(now, pems, skew, first);
      RunIsSane(now, pems, skew, first);
      ArrivalsWereBrought(Init(now, pems), skew, first);
      OrderlyStepIsSmooth(Run(Init(now, pems), skew, first), skew, Brought(Init(now, pems), skew, first), last);
    }
  }

  /** If the channel loses nothing, brings each node's telegrams in order and in time, and nonces differ, then every
      send is stored once nothing is in hand any more: among foreign telegrams that do not run ahead, and whatever the
      nodes do relative to each other. */
  lemma EverySendIsStored(now: real, pems: map<string, string>, skew: real, actions: seq<Action>)
    requires Orderly(Init(now, pems), skew, actions) && Run(Init(now, pems), skew, actions).held == {}
    requires forall t :: t in Run(Init(now, pems), skew, actions).sent ==> Delivered(Init(now, pems), skew, actions, t)
    ensures
      var net := Run(Init(now, pems), skew, actions);
      forall t :: t in net.desk.stored <==> t in net.sent
  {
    OrderlyIsSmooth(now, pems, skew, actions);
    SafeSendsAreStored(now, pems, skew, actions);
  }

  // ---- The plain case: everything is delivered once, in the order of sending

  function Deliveries(actions: seq<Action>): nat
  {
    if actions == [] then 0
    else Deliveries(actions[..|actions| - 1]) + if actions[|actions| - 1].Deliver? then 1 else 0
  }

  ghost predicate InSequence(net: Net, skew: real, actions: seq<Action>)
  {
    actions == []
    || (var (first, last) := (actions[..|actions| - 1], actions[|actions| - 1]);
      var before := Run(net, skew, first);
      && InSequence(net, skew, first) && !last.Abandon? && !last.Inject?
      && (last.Deliver? ==>
        last.mail == Deliveries(first) < |before.sent| && Timely(before, skew, before.sent[last.mail])))
  }

  ghost predicate NoncesDiffer(sent: seq<Telegram>)
  {
    forall i, j :: 0 <= i < j < |sent| && sent[i].msg.node == sent[j].msg.node ==>
      sent[i].msg.nonce != sent[j].msg.nonce
  }

  function Messages(sent: seq<Telegram>): seq<Message>
  {
    seq(|sent|, i requires 0 <= i < |sent| => sent[i].msg)
  }

  lemma NextSendsMore(net: Net, skew: real, action: Action)
    ensures net.sent <= Next(net, skew, action).sent
  {
  }

  lemma OneMoreMessage(sent: seq<Telegram>, more: seq<Telegram>, n: nat)
    requires n < |sent| && sent <= more
    ensures Messages(more[..n + 1]) == Messages(sent[..n]) + [sent[n].msg]
  {
    assert more[..n + 1] == sent[..n] + [sent[n]];
  }

  lemma SameMessages(sent: seq<Telegram>, more: seq<Telegram>, n: nat)
    requires n <= |sent| && sent <= more
    ensures Messages(more[..n]) == Messages(sent[..n])
  {
    assert more[..n] == sent[..n];
  }

  lemma {:induction false} BroughtInSequence(net: Net, skew: real, actions: seq<Action>)
    requires InSequence(net, skew, actions)
    ensures Deliveries(actions) <= |Run(net, skew, actions).sent|
    ensures Brought(net, skew, actions) == Messages(Run(net, skew, actions).sent[..Deliveries(actions)])
  {
    if actions != [] {
      var (first, last) := (actions[..|actions| - 1], actions[|actions| - 1]);
      BroughtInSequence(net, skew, first);
      var (before, n) := (Run(net, skew, first), Deliveries(first));
      NextSendsMore(before, skew, last);
      if last.Deliver? {
        OneMoreMessage(before.sent, Run(net, skew, actions).sent, n);
      } else {
        SameMessages(before.sent, Run(net, skew, actions).sent, n);
      }
    }
  }

  lemma NextInSequenceIsNewer(net: Net, n: nat)
    requires Sends(net) && NoncesDiffer(net.sent) && n < |net.sent|
    ensures Newer(Messages(net.sent[..n]), net.sent[n].msg)
  {
  }

  lemma {:induction false} InSequenceIsOrderly(now: real, pems: map<string, string>, skew: real, actions: seq<Action>)
    requires InSequence(Init(now, pems), skew, actions)
    requires NoncesDiffer(Run(Init(now, pems), skew, actions).sent)
    ensures Orderly(Init(now, pems), skew, actions)
  {
    if actions != [] {
      var (first, last) := (actions[..|actions| - 1], actions[|actions| - 1]);
      var before := Run(Init(now, pems), skew, first);
      NextSendsMore(before, skew, last);
      assert NoncesDiffer(before.sent);
      InSequenceIsOrderly(now, pems, skew, first);
      if last.Deliver? {
        RunIsSane(now, pems, skew, first);
        BroughtInSequence(Init(now, pems), skew, first);
        NextInSequenceIsNewer(before, last.mail);
      }
    }
  }

  lemma {:induction false} InSequenceDelivers(net: Net, skew: real, actions: seq<Action>, i: nat)
    requires InSequence(net, skew, actions) && i < Deliveries(actions)
    ensures i < |Run(net, skew, actions).sent| && Delivered(net, skew, actions, Run(net, skew, actions).sent[i])
  {
    var (first, last) := (actions[..|actions| - 1], actions[|actions| - 1]);
    var before := Run(net, skew, first);
    NextSendsMore(before, skew, last);
    if i < Deliveries(first) {
      InSequenceDelivers(net, skew, first, i);
    } else {
      assert Delivers(before, last, before.sent[i]);
    }
  }

  /** Sent, delivered once each in the order of sending, in time, with different nonces, and nothing else on the
      channel: the store ends up with exactly the sends. */
  lemma LossFreeInOrderIsStored(now: real, pems: map<string, string>, skew: real, actions: seq<Action>)
    requires InSequence(Init(now, pems), skew, actions)
    requires
      var net := Run(Init(now, pems), skew, actions);
      NoncesDiffer(net.sent) && Deliveries(actions) == |net.sent| && net.held == {}
    ensures
      var net := Run(Init(now, pems), skew, actions);
      NoRepeats(net.desk.stored) && forall t :: t in net.desk.stored <==> t in net.sent
  {
    var net := Run(Init(now, pems), skew, actions);
    InSequenceIsOrderly(now, pems, skew, actions);
    RunIsSane(now, pems, skew, actions);
    forall t | t in net.sent ensures Delivered(Init(now, pems), skew, actions, t) {
      var i :| 0 <= i < |net.sent| && net.sent[i] == t;
      InSequenceDelivers(Init(now, pems), skew, actions, i);
    }
    EverySendIsStored(now, pems, skew, actions);
  }

  // ---- What one foreign telegram can do

  lemma NextRaises(net: Net, skew: real, action: Action, node: string)
    ensures HighWater(net.desk.memory, node) <= HighWater(Next(net, skew, action).desk.memory, node)
  {
    match action
    case Deliver(m) =>
      if m < |net.sent| {
        HighWaterRises(net, skew, net.sent[m]);
      }
    case Inject(t) => HighWaterRises(net, skew, t);
    case _ =>
  }

  lemma {:induction false} RunRaises(net: Net, skew: real, actions: seq<Action>, node: string)
    ensures HighWater(net.desk.memory, node) <= HighWater(Run(net, skew, actions).desk.memory, node)
  {
    if actions != [] {
      RunRaises(net, skew, actions[..|actions| - 1], node);
      NextRaises(Run(net, skew, actions[..|actions| - 1]), skew, actions[|actions| - 1], node);
    }
  }

  /** A number that was recorded once, by whomever, shuts out all telegrams up to it, in all later runs. */
  lemma RecordedNumberShutsOut(net: Net, skew: real, later: seq<Action>, m: nat)
    requires m < |Run(net, skew, later).sent|
    requires
      var t := Run(net, skew, later).sent[m];
      t.msg.sequence <= HighWater(net.desk.memory, t.msg.node)
    ensures
      var after := Run(net, skew, later);
      Next(after, skew, Deliver(m)).held == after.held && Next(after, skew, Deliver(m)).desk == after.desk
  {
    RunRaises(net, skew, later, Run(net, skew, later).sent[m].msg.node);
  }

  /** Replay state is recorded before the signature is looked at. One telegram that names a registered node, is in
      time, carries the number `n` and is signed by nobody in particular, therefore makes all telegrams that the node
      itself numbers up to `n` be refused for good. */
  lemma ForeignNumberShutsOut(now: real, pems: map<string, string>, skew: real, t: Telegram, later: seq<Action>, m: nat)
    requires t.msg.node in pems && pems[t.msg.node] != "" && t.signedBy != pems[t.msg.node]
    requires t.msg.sequence >= 0 && t.msg.timestamp - skew <= now <= t.msg.expiresAt
    requires
      var net := Run(Init(now, pems), skew, [Reconnect(t.msg.node), Inject(t)]);
      var sent := Run(net, skew, later).sent;
      m < |sent| && sent[m].msg.node == t.msg.node && sent[m].msg.sequence <= t.msg.sequence
    ensures
      var net := Run(Init(now, pems), skew, [Reconnect(t.msg.node), Inject(t)]);
      var after := Run(net, skew, later);
      Next(after, skew, Deliver(m)).held == after.held && Next(after, skew, Deliver(m)).desk == after.desk
  {
    var actions := [Reconnect(t.msg.node), Inject(t)];
    RunLastTwo(Init(now, pems), skew, actions);
    assert actions[..0] == [];
    RecordedNumberShutsOut(Run(Init(now, pems), skew, actions), skew, later, m);
  }

  // ---- What the receiving loop does with a stream

  predicate KnownLetter(l: Letter) { l.identity != None && l.identity != Some(Plain("")) }

  /** The letters of a stream that reach the replay check. */
  function ArrivalsOf(stream: seq<Letter>): seq<Arrival>
  {
    if stream == [] then []
    else
      var l := stream[|stream| - 1];
      ArrivalsOf(stream[..|stream| - 1])
      + if KnownLetter(l) then [Arrival(l.telegram.msg, l.at)] else []
  }

  /** After the letters `before`: a letter of a registered node that signed it, in time, numbered above all that was
      accepted for the node, with a nonce that is not remembered. */
  ghost predicate Good(skew: real, before: seq<Letter>, l: Letter)
  {
    var (t, accepted) := (l.telegram, AcceptedFrom(skew, ArrivalsOf(before), l.telegram.msg.node));
    && t.signedBy != "" && l.identity == Some(Plain(t.signedBy))
    && l.at <= t.msg.expiresAt && t.msg.timestamp <= l.at + skew
    && AboveAll(accepted, t.msg.sequence) && Unused(Window(accepted), t.msg.nonce)
  }

  ghost function GoodOnes(skew: real, stream: seq<Letter>): seq<Telegram>
  {
    if stream == [] then []
    else
      var (first, last) := (stream[..|stream| - 1], stream[|stream| - 1]);
      GoodOnes(skew, first) + if Good(skew, first, last) then [last.telegram] else []
  }

  /** No good letter is garbled. */
  ghost predicate Unbroken(skew: real, stream: seq<Letter>)
  {
    stream == []
    || (var (first, last) := (stream[..|stream| - 1], stream[|stream| - 1]);
      Unbroken(skew, first) && (Good(skew, first, last) ==> last.telegram.body.Readable?))
  }

  lemma ArrivalsGrow(first: seq<Letter>, l: Letter)
    ensures ArrivalsOf(first + [l])
      == ArrivalsOf(first) + if KnownLetter(l) then [Arrival(l.telegram.msg, l.at)] else []
  {
    assert (first + [l])[..|first|] == first;
  }

  lemma MemoryGrows(skew: real, arrivals: seq<Arrival>, a: Arrival)
    ensures MemoryAfter(skew, arrivals + [a]) == Receive(MemoryAfter(skew, arrivals), skew, a.msg, a.at)
  {
    assert (arrivals + [a])[..|arrivals|] == arrivals;
  }

  /** Being good is being taken up, by the memory that the letters before have left. */
  lemma GoodIsAcceptable(skew: real, first: seq<Letter>, l: Letter)
    ensures Good(skew, first, l) <==>
      && KnownLetter(l) && l.identity == Some(Plain(l.telegram.signedBy))
      && Acceptable(MemoryAfter(skew, ArrivalsOf(first)), skew, l.telegram.msg, l.at)
  {
    AcceptedExactlyWhen(skew, ArrivalsOf(first), l.telegram.msg, l.at);
  }

  lemma TakeInRecords(d: Desk, skew: real, l: Letter)
    ensures TakeIn(d, skew, l).0.memory
      == if KnownLetter(l) then Receive(d.memory, skew, l.telegram.msg, l.at) else d.memory
  {
    InHandIsReadable(d, skew, l);
  }

  lemma TakeInMemory(d: Desk, skew: real, first: seq<Letter>, l: Letter)
    requires d.memory == MemoryAfter(skew, ArrivalsOf(first))
    ensures TakeIn(d, skew, l).0.memory == MemoryAfter(skew, ArrivalsOf(first + [l]))
  {
    TakeInRecords(d, skew, l);
    ArrivalsGrow(first, l);
    if KnownLetter(l) {
      MemoryGrows(skew, ArrivalsOf(first), Arrival(l.telegram.msg, l.at));
    } else {
      assert ArrivalsOf(first) + [] == ArrivalsOf(first);
    }
  }

  lemma TakeInStores(d: Desk, skew: real, first: seq<Letter>, l: Letter)
    requires d.memory == MemoryAfter(skew, ArrivalsOf(first)) && ShowsLatest(d)
    ensures
      var ((d', open), good) := (TakeIn(d, skew, l), Good(skew, first, l));
      && (open <==> (good ==> l.telegram.body.Readable?)) && ShowsLatest(d')
      && d'.stored == d.stored + if good && open then [l.telegram] else []
  {
    GoodIsAcceptable(skew, first, l);
    if Good(skew, first, l) && l.telegram.body.Readable? {
      PutDownShowsLatest(d.(memory := Record(d.memory, l.telegram.msg)), l.telegram);
    }
  }

  lemma GoodOnesGrow(skew: real, first: seq<Letter>, l: Letter)
    ensures GoodOnes(skew, first + [l]) == GoodOnes(skew, first) + if Good(skew, first, l) then [l.telegram] else []
    ensures Unbroken(skew, first + [l]) <==>
      Unbroken(skew, first) && (Good(skew, first, l) ==> l.telegram.body.Readable?)
  {
    assert (first + [l])[..|first|] == first;
  }

  /** The place of the first good letter that is garbled, if there is one. */
  ghost function BreakPlace(skew: real, stream: seq<Letter>): (k: nat)
    ensures k <= |stream|
  {
    if stream == [] then 0
    else
      var first := stream[..|stream| - 1];
      if Unbroken(skew, first) then |first| else BreakPlace(skew, first)
  }

  ghost predicate BreaksAt(skew: real, stream: seq<Letter>, k: nat)
  {
    && k < |stream| && Unbroken(skew, stream[..k])
    && Good(skew, stream[..k], stream[k]) && stream[k].telegram.body.Garbled?
  }

  lemma BreaksAlike(skew: real, a: seq<Letter>, b: seq<Letter>, k: nat)
    requires k < |a| && k < |b| && a[..k] == b[..k] && a[k] == b[k] && BreaksAt(skew, a, k)
    ensures BreaksAt(skew, b, k)
  {
  }

  lemma BreaksNow(skew: real, first: seq<Letter>, l: Letter)
    requires Unbroken(skew, first) && !Unbroken(skew, first + [l])
    ensures BreaksAt(skew, first + [l], |first|)
  {
    GoodOnesGrow(skew, first, l);
    assert (first + [l])[..|first|] == first;
  }

  lemma {:induction false} BreakPlaceBreaks(skew: real, stream: seq<Letter>)
    requires !Unbroken(skew, stream)
    ensures BreaksAt(skew, stream, BreakPlace(skew, stream))
  {
    var (first, last) := (stream[..|stream| - 1], stream[|stream| - 1]);
    assert stream == first + [last];
    if Unbroken(skew, first) {
      BreaksNow(skew, first, last);
    } else {
      BreakPlaceBreaks(skew, first);
      var k := BreakPlace(skew, first);
      assert first[..k] == stream[..k] && first[k] == stream[k];
      BreaksAlike(skew, first, stream, k);
    }
  }

  lemma TakeAllGrows(d: Desk, skew: real, first: seq<Letter>, l: Letter)
    ensures TakeAll(d, skew, first + [l])
      == if TakeAll(d, skew, first).1 then TakeIn(TakeAll(d, skew, first).0, skew, l) else TakeAll(d, skew, first)
  {
    assert (first + [l])[..|first|] == first;
  }

  /** A fresh receiver that reads one stream answers with success if and only if no good letter is garbled; what is
      kept is exactly the good letters, up to the first good one that is garbled, and the store then shows the last one
      kept of each node. */
  lemma {:induction false} StreamKeepsGoodLetters(skew: real, stream: seq<Letter>)
    ensures
      var (d, open) := TakeAll(EMPTY_DESK, skew, stream);
      && (open <==> Unbroken(skew, stream)) && ShowsLatest(d)
      && d.stored == GoodOnes(skew, if open then stream else stream[..BreakPlace(skew, stream)])
      && (open ==> d.memory == MemoryAfter(skew, ArrivalsOf(stream)))
    ensures !Unbroken(skew, stream) ==> BreaksAt(skew, stream, BreakPlace(skew, stream))
  {
    if !Unbroken(skew, stream) {
      BreakPlaceBreaks(skew, stream);
    }
    if stream != [] {
      var (first, last) := (stream[..|stream| - 1], stream[|stream| - 1]);
      assert stream == first + [last];
      StreamKeepsGoodLetters(skew, first);
      GoodOnesGrow(skew, first, last);
      TakeAllGrows(EMPTY_DESK, skew, first, last);
      var (d, open) := TakeAll(EMPTY_DESK, skew, first);
      if open {
        TakeInMemory(d, skew, first, last);
        TakeInStores(d, skew, first, last);
        assert stream[..|first|] == first;
      } else {
        assert stream[..BreakPlace(skew, first)] == first[..BreakPlace(skew, first)];
      }
    }
  }

  /** Letters as the step system would bring them: sent or foreign, with the identities registered, in the order of
      their times. */
  ghost predicate StreamFrom(net: Net, stream: seq<Letter>)
  {
    && (forall k :: 0 <= k < |stream| ==>
      && (stream[k].telegram in net.sent || Foreign(net, stream[k].telegram))
      && stream[k].identity == IdentityOf(net, stream[k].telegram.msg.node) && net.now <= stream[k].at)
    && (forall j, k :: 0 <= j < k < |stream| ==> stream[j].at <= stream[k].at)
  }

  /** `after` is `before` with another desk, at another time and with more arrivals. */
  ghost predicate SameButDesk(before: Net, after: Net)
  {
    after == before.(desk := after.desk, now := after.now, arrivals := after.arrivals)
  }

  lemma {:induction false} RunSplits(net: Net, skew: real, first: seq<Action>, rest: seq<Action>)
    ensures Run(net, skew, first + rest) == Run(Run(net, skew, first), skew, rest)
  {
    if rest == [] {
      assert first + rest == first;
    } else {
      var n := |rest| - 1;
      assert (first + rest)[..|first + rest| - 1] == first + rest[..n];
      RunSplits(net, skew, first, rest[..n]);
    }
  }

  lemma ArrivalIsAction(net: Net, skew: real, t: Telegram) returns (action: Action)
    requires t in net.sent || Foreign(net, t)
    ensures Next(net, skew, action) == Arrive(net, skew, t)
  {
    if t in net.sent {
      var m :| 0 <= m < |net.sent| && net.sent[m] == t;
      action := Deliver(m);
    } else {
      action := Inject(t);
    }
  }

  lemma InHandIsNew(net: Net, skew: real, t: Telegram)
    requires Sane(net, skew) && (t in net.sent || Foreign(net, t)) && Arrive(net, skew, t).held == net.held
    ensures !TakeUp(net.desk, skew, Letter(t, net.now, IdentityOf(net, t.msg.node))).1.InHand?
  {
    assert t in net.held ==> Taking(net, t);
  }

  /** In hand and finished at once: the same as one turn of the loop. */
  lemma TurnIsArrival(net: Net, skew: real, t: Telegram)
    requires Sane(net, skew) && (t in net.sent || Foreign(net, t))
    ensures
      var turn := TakeIn(net.desk, skew, Letter(t, net.now, IdentityOf(net, t.msg.node))).0;
      var arrived := Arrive(net, skew, t);
      if arrived.held == net.held then turn == arrived.desk
      else DoFinish(arrived, t).desk == turn && DoFinish(arrived, t).held == net.held
  {
    HighWaterRises(net, skew, t);
    var arrived := Arrive(net, skew, t);
    if arrived.held == net.held {
      InHandIsNew(net, skew, t);
    } else {
      assert t in net.held ==> Taking(net, t);
      assert arrived.held - {t} == net.held;
    }
  }

  lemma RunOne(net: Net, skew: real, a: Action)
    ensures Run(net, skew, [a]) == Next(net, skew, a)
  {
    RunSnoc(net, skew, [], a);
    assert [] + [a] == [a];
  }

  /** The arrival of a telegram now, and the end of its turn. */
  function AfterTurn(net: Net, skew: real, t: Telegram): Net
  {
    var arrived := Arrive(net, skew, t);
    if arrived.held == net.held then arrived else DoFinish(arrived, t)
  }

  lemma TurnIsSane(net: Net, skew: real, t: Telegram)
    requires Sane(net, skew) && (t in net.sent || Foreign(net, t))
    ensures Sane(AfterTurn(net, skew, t), skew)
  {
    ArriveIsSane(net, skew, t);
    FinishIsSane(Arrive(net, skew, t), skew, t);
  }

  lemma TurnChangesDesk(net: Net, skew: real, t: Telegram)
    requires Sane(net, skew) && (t in net.sent || Foreign(net, t))
    ensures
      var after := AfterTurn(net, skew, t);
      && SameButDesk(net, after) && after.now == net.now
      && after.desk == TakeIn(net.desk, skew, Letter(t, net.now, IdentityOf(net, t.msg.node))).0
  {
    TurnIsArrival(net, skew, t);
  }

  lemma TurnIsRun(net: Net, skew: real, t: Telegram) returns (actions: seq<Action>)
    requires t in net.sent || Foreign(net, t)
    ensures Run(net, skew, actions) == AfterTurn(net, skew, t)
  {
    var arrival := ArrivalIsAction(net, skew, t);
    RunOne(net, skew, arrival);
    actions := [arrival];
    if Arrive(net, skew, t).held != net.held {
      RunSnoc(net, skew, actions, Finish(t));
      actions := actions + [Finish(t)];
    }
  }

  lemma OneTurn(net: Net, skew: real, l: Letter) returns (actions: seq<Action>)
    requires Sane(net, skew) && net.now <= l.at && (l.telegram in net.sent || Foreign(net, l.telegram))
    requires l.identity == IdentityOf(net, l.telegram.msg.node)
    ensures
      var after := Run(net, skew, actions);
      Sane(after, skew) && SameButDesk(net, after) && after.now == l.at && after.desk == TakeIn(net.desk, skew, l).0
  {
    var tick := Tick(l.at - net.now);
    RunOne(net, skew, tick);
    CalmIsSane(net, skew, tick);
    var ticked := Next(net, skew, tick);
    TurnIsSane(ticked, skew, l.telegram);
    TurnChangesDesk(ticked, skew, l.telegram);
    var rest := TurnIsRun(ticked, skew, l.telegram);
    RunSplits(net, skew, [tick], rest);
    actions := [tick] + rest;
  }

  /** A stream that is handled alone is a run of the step system, in which each arrival is finished before the next:
      what holds of all runs holds of the receiving loop. */
  lemma {:induction false} StreamIsRun(net: Net, skew: real, stream: seq<Letter>) returns (actions: seq<Action>)
    requires Sane(net, skew) && StreamFrom(net, stream)
    ensures
      var after := Run(net, skew, actions);
      && Sane(after, skew) && SameButDesk(net, after) && after.desk == TakeAll(net.desk, skew, stream).0
      && (if stream == [] then after.now == net.now else after.now <= stream[|stream| - 1].at)
  {
    if stream == [] {
      actions := [];
    } else {
      var (first, last) := (stream[..|stream| - 1], stream[|stream| - 1]);
      actions := StreamIsRun(net, skew, first);
      if TakeAll(net.desk, skew, first).1 {
        var before := Run(net, skew, actions);
        assert IdentityOf(before, last.telegram.msg.node) == IdentityOf(net, last.telegram.msg.node);
        var more := OneTurn(before, skew, last);
        RunSplits(net, skew, actions, more);
        actions := actions + more;
      }
    }
  }
}
