/** Replay protection for telemetry (telemetry/replay_state.py). */
module Replay {

  const WINDOW := 1000

  datatype Message = Message(node: string, sequence: int, nonce: string, timestamp: real, expiresAt: real)

  datatype Memory = Memory(highest: map<string, int>, nonces: map<string, set<string>>)

  const BLANK: Memory := Memory(map[], map[])

  function HighWater(m: Memory, node: string): int
  {
    if node in m.highest then m.highest[node] else -1
  }

  function Seen(m: Memory, node: string): set<string>
  {
    if node in m.nonces then m.nonces[node] else {}
  }

  function Remember(seen: set<string>, nonce: string): set<string>
  {
    if |seen + {nonce}| > WINDOW then {nonce} else seen + {nonce}
  }

  predicate Acceptable(m: Memory, skew: real, msg: Message, now: real)
  {
    && now <= msg.expiresAt
    && msg.timestamp <= now + skew
    && msg.sequence > HighWater(m, msg.node)
    && msg.nonce !in Seen(m, msg.node)
  }

  function Record(m: Memory, msg: Message): Memory
  {
    Memory(m.highest[msg.node := msg.sequence], m.nonces[msg.node := Remember(Seen(m, msg.node), msg.nonce)])
  }

  function Receive(m: Memory, skew: real, msg: Message, now: real): Memory
  {
    if Acceptable(m, skew, msg, now) then Record(m, msg) else m
  }

  class ReplayProtectionState {
    const maxClockSkewSeconds: real
    var highestSequence: map<string, int>
    var seenNonces: map<string, set<string>>

    constructor (maxClockSkewSeconds: real)
      ensures View() == BLANK && this.maxClockSkewSeconds == maxClockSkewSeconds
    {
      this.maxClockSkewSeconds := maxClockSkewSeconds;
      highestSequence, seenNonces := map[], map[];
    }

    ghost function View(): Memory
      reads this
    {
      Memory(highestSequence, seenNonces)
    }

    method ValidateAndRecord(msg: Message, now: real) returns (ok: bool)
      modifies this
      ensures ok == Acceptable(old(View()), maxClockSkewSeconds, msg, now)
      ensures View() == Receive(old(View()), maxClockSkewSeconds, msg, now)
    {
      if now > msg.expiresAt {
        return false;
      }
      if msg.timestamp > now + maxClockSkewSeconds {
        return false;
      }
      var highest := if msg.node in highestSequence then highestSequence[msg.node] else -1;
      if msg.sequence <= highest {
        return false;
      }
      // A node's first set of nonces is empty, so that creating it never goes with a rejection.
      if msg.node !in seenNonces {
        seenNonces := seenNonces[msg.node := {}];
      }
      if msg.nonce in seenNonces[msg.node] {
        return false;
      }
      highestSequence := highestSequence[msg.node := msg.sequence];
      seenNonces := seenNonces[msg.node := seenNonces[msg.node] + {msg.nonce}];
      if |seenNonces[msg.node]| > WINDOW {
        seenNonces := seenNonces[msg.node := {}];
        seenNonces := seenNonces[msg.node := {msg.nonce}];
      }
      return true;
    }
  }

  datatype Arrival = Arrival(msg: Message, at: real)

  function MemoryAfter(skew: real, arrivals: seq<Arrival>): Memory
  {
    if arrivals == [] then BLANK
    else
      var last := arrivals[|arrivals| - 1];
      Receive(MemoryAfter(skew, arrivals[..|arrivals| - 1]), skew, last.msg, last.at)
  }

  /** The messages accepted from `node`, oldest first. */
  function AcceptedFrom(skew: real, arrivals: seq<Arrival>, node: string): seq<Message>
  {
    if arrivals == [] then []
    else
      var (before, last) := (arrivals[..|arrivals| - 1], arrivals[|arrivals| - 1]);
      AcceptedFrom(skew, before, node)
      + if last.msg.node == node && Acceptable(MemoryAfter(skew, before), skew, last.msg, last.at)
        then [last.msg] else []
  }

  /** How many nonces are remembered after `n` acceptances. */
  function Remembered(n: nat): nat
  {
    if n == 0 then 0 else (n - 1) % WINDOW + 1
  }

  lemma RememberedSteps(n: nat)
    ensures Remembered(n) <= n && Remembered(n) <= WINDOW
    ensures Remembered(n + 1) == if Remembered(n) == WINDOW then 1 else Remembered(n) + 1
  {
  }

  /** The acceptances whose nonces are remembered. */
  function Window(accepted: seq<Message>): (w: seq<Message>)
    ensures |w| == Remembered(|accepted|)
  {
    RememberedSteps(|accepted|);
    accepted[|accepted| - Remembered(|accepted|)..]
  }

  lemma WindowSteps(accepted: seq<Message>, msg: Message)
    ensures Window(accepted + [msg]) == if |Window(accepted)| == WINDOW then [msg] else Window(accepted) + [msg]
  {
    RememberedSteps(|accepted|);
  }

  function NoncesOf(messages: seq<Message>): set<string>
  {
    set k | 0 <= k < |messages| :: messages[k].nonce
  }

  ghost predicate Increasing(accepted: seq<Message>)
  {
    && (forall i, j :: 0 <= i < j < |accepted| ==> accepted[i].sequence < accepted[j].sequence)
    && (forall i :: 0 <= i < |accepted| ==> accepted[i].sequence >= 0)
  }

  /** The memory for a node whose accepted messages are `accepted`. */
  ghost predicate Exact(m: Memory, node: string, accepted: seq<Message>)
  {
    && HighWater(m, node) == (if accepted == [] then -1 else accepted[|accepted| - 1].sequence)
    && Increasing(accepted)
    && Seen(m, node) == NoncesOf(Window(accepted))
    && |Seen(m, node)| == |Window(accepted)|
  }

  lemma NoncesOfAppend(messages: seq<Message>, msg: Message)
    ensures NoncesOf(messages + [msg]) == NoncesOf(messages) + {msg.nonce}
  {
    var more := messages + [msg];
    assert more[|messages|] == msg;
    forall x | x in NoncesOf(messages) ensures x in NoncesOf(more) {
      var k :| 0 <= k < |messages| && messages[k].nonce == x;
      assert more[k].nonce == x;
    }
  }

  lemma OneNonce(msg: Message)
    ensures NoncesOf([msg]) == {msg.nonce}
  {
    assert [msg][0] == msg;
  }

  lemma RememberCases(seen: set<string>, nonce: string)
    requires nonce !in seen
    ensures Remember(seen, nonce) == if |seen| >= WINDOW then {nonce} else seen + {nonce}
    ensures |Remember(seen, nonce)| == if |seen| >= WINDOW then 1 else |seen| + 1
  {
  }

  lemma WindowIsExact(seen: set<string>, msg: Message, accepted: seq<Message>)
    requires seen == NoncesOf(Window(accepted)) && |seen| == |Window(accepted)| && msg.nonce !in seen
    ensures
      var seen' := Remember(seen, msg.nonce);
      seen' == NoncesOf(Window(accepted + [msg])) && |seen'| == |Window(accepted + [msg])|
  {
    RememberCases(seen, msg.nonce);
    WindowSteps(accepted, msg);
    if |seen| == WINDOW {
      OneNonce(msg);
    } else {
      RememberedSteps(|accepted|);
      NoncesOfAppend(Window(accepted), msg);
    }
  }

  lemma IncreasingGrows(accepted: seq<Message>, msg: Message)
    requires Increasing(accepted) && msg.sequence >= 0
    requires accepted != [] ==> accepted[|accepted| - 1].sequence < msg.sequence
    ensures Increasing(accepted + [msg])
  {
    var n := |accepted|;
    forall i | 0 <= i < n ensures accepted[i].sequence < msg.sequence {
      assert i < n - 1 ==> accepted[i].sequence < accepted[n - 1].sequence;
    }
  }

  lemma RecordIsExact(m: Memory, msg: Message, accepted: seq<Message>)
    requires Exact(m, msg.node, accepted)
    requires msg.sequence > HighWater(m, msg.node) && msg.nonce !in Seen(m, msg.node)
    ensures Exact(Record(m, msg), msg.node, accepted + [msg])
  {
    WindowIsExact(Seen(m, msg.node), msg, accepted);
    IncreasingGrows(accepted, msg);
  }

  /** After any arrivals, the memory for a node is exactly this: the high-water mark is the last and largest
      accepted sequence number, and the nonces, all different, are those of the last ((n-1) mod 1000)+1 acceptances. */
  lemma {:induction false} ExactWindow(skew: real, arrivals: seq<Arrival>, node: string)
    ensures Exact(MemoryAfter(skew, arrivals), node, AcceptedFrom(skew, arrivals, node))
  {
    if arrivals != [] {
      var (before, last) := (arrivals[..|arrivals| - 1], arrivals[|arrivals| - 1]);
      ExactWindow(skew, before, node);
      var m := MemoryAfter(skew, before);
      if Acceptable(m, skew, last.msg, last.at) && last.msg.node == node {
        RecordIsExact(m, last.msg, AcceptedFrom(skew, before, node));
      } else {
        assert AcceptedFrom(skew, arrivals, node) == AcceptedFrom(skew, before, node);
      }
    }
  }

  ghost predicate AboveAll(accepted: seq<Message>, sequence: int)
  {
    sequence >= 0 && forall i :: 0 <= i < |accepted| ==> accepted[i].sequence < sequence
  }

  ghost predicate Unused(messages: seq<Message>, nonce: string)
  {
    forall i :: 0 <= i < |messages| ==> messages[i].nonce != nonce
  }

  lemma UnusedNonce(messages: seq<Message>, nonce: string)
    ensures nonce !in NoncesOf(messages) <==> Unused(messages, nonce)
  {
    if i :| 0 <= i < |messages| && messages[i].nonce == nonce {
      assert messages[i].nonce in NoncesOf(messages);
    }
  }

  lemma AboveTheLast(accepted: seq<Message>, sequence: int)
    requires Increasing(accepted)
    ensures sequence > (if accepted == [] then -1 else accepted[|accepted| - 1].sequence)
      <==> AboveAll(accepted, sequence)
  {
  }

  /** What decides about a message, in terms of the messages accepted before it and nothing else. */
  lemma AcceptedExactlyWhen(skew: real, arrivals: seq<Arrival>, msg: Message, now: real)
    ensures
      var accepted := AcceptedFrom(skew, arrivals, msg.node);
      Acceptable(MemoryAfter(skew, arrivals), skew, msg, now) <==>
        && now <= msg.expiresAt && msg.timestamp <= now + skew
        && AboveAll(accepted, msg.sequence) && Unused(Window(accepted), msg.nonce)
  {
    var accepted := AcceptedFrom(skew, arrivals, msg.node);
    ExactWindow(skew, arrivals, msg.node);
    AboveTheLast(accepted, msg.sequence);
    UnusedNonce(Window(accepted), msg.nonce);
  }

  lemma {:induction false} AcceptedStay(skew: real, arrivals: seq<Arrival>, node: string, i: nat)
    requires i <= |arrivals|
    ensures AcceptedFrom(skew, arrivals[..i], node) <= AcceptedFrom(skew, arrivals, node)
  {
    if i < |arrivals| {
      AcceptedStay(skew, arrivals[..|arrivals| - 1], node, i);
      assert arrivals[..|arrivals| - 1][..i] == arrivals[..i];
    } else {
      assert arrivals[..i] == arrivals;
    }
  }

  /** No sequence number of a node is accepted twice, however far apart and whatever was forgotten in between. */
  lemma NeverTwice(skew: real, arrivals: seq<Arrival>, i: nat, j: nat)
    requires i < j < |arrivals|
    requires arrivals[i].msg.node == arrivals[j].msg.node && arrivals[i].msg.sequence == arrivals[j].msg.sequence
    requires Acceptable(MemoryAfter(skew, arrivals[..i]), skew, arrivals[i].msg, arrivals[i].at)
    ensures !Acceptable(MemoryAfter(skew, arrivals[..j]), skew, arrivals[j].msg, arrivals[j].at)
  {
    var node := arrivals[i].msg.node;
    assert arrivals[..i + 1][..i] == arrivals[..i];
    var first := AcceptedFrom(skew, arrivals[..i + 1], node);
    assert first[|first| - 1] == arrivals[i].msg;
    AcceptedStay(skew, arrivals[..j], node, i + 1);
    assert arrivals[..j][..i + 1] == arrivals[..i + 1];
    AcceptedExactlyWhen(skew, arrivals[..j], arrivals[j].msg, arrivals[j].at);
    var all := AcceptedFrom(skew, arrivals[..j], node);
    assert all[|first| - 1] == arrivals[i].msg;
  }
}
