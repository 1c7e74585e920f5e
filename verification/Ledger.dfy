/** The writer of the audit ledger (results_aggregator/ledger.py) and its agreement with the verifier. */
module Ledger {
  import opened Contracts
  import opened Hashing
  import opened Verifier

  /** An event before it is written: its canonical form, given the previous hash that is put into it. */
  type Draft = Bytes -> Bytes

  function Written(hash: EventHash, draft: Draft, last: Bytes): Entry
  {
    Entry(last, draft(last), hash(last, draft(last)))
  }

  /** The hash stated on the last line that is not blank; nothing if it cannot be decoded. The link stated there plays
      no part. */
  function Recovered(lines: seq<Line>): Bytes
  {
    if lines == [] then []
    else match lines[|lines| - 1]
      case Blank => Recovered(lines[..|lines| - 1])
      case Event(e) => e.hash
      case Unreadable(own) => own
      case NotJson => []
  }

  /** The last line that is not blank decides, and nothing before it. */
  lemma {:induction false} RecoveredExactly(lines: seq<Line>, i: nat)
    requires i < |lines| && !lines[i].Blank? && forall k :: i < k < |lines| ==> lines[k].Blank?
    ensures lines[i].Event? ==> Recovered(lines) == lines[i].entry.hash
    ensures lines[i].Unreadable? ==> Recovered(lines) == lines[i].own
    ensures lines[i].NotJson? ==> Recovered(lines) == []
  {
    if i < |lines| - 1 {
      RecoveredExactly(lines[..|lines| - 1], i);
    }
  }

  function Concat(parts: seq<Bytes>): Bytes
  {
    if parts == [] then [] else Concat(parts[..|parts| - 1]) + parts[|parts| - 1]
  }

  function Flatten(batches: seq<seq<Bytes>>): seq<Bytes>
  {
    if batches == [] then [] else Flatten(batches[..|batches| - 1]) + batches[|batches| - 1]
  }

  /** Intervals below one act like one. */
  function BatchSize(interval: int): nat { if interval >= 1 then interval else 1 }

  datatype Checkpoint = Checkpoint(root: Bytes, eventCount: nat)

  /** The number in a checkpoint's name: the first four bytes of its last leaf. */
  function CheckpointNumber(leaf: Bytes): int
    requires |leaf| >= 4
  {
    ((leaf[0] as int * 256 + leaf[1] as int) * 256 + leaf[2] as int) * 256 + leaf[3] as int
  }

  /** The number's digits to the base 256 are the bytes, the first one being the highest. */
  lemma NumberHasDigits(leaf: Bytes)
    requires |leaf| >= 4
    ensures
      var n := CheckpointNumber(leaf);
      && 0 <= n < 0x1_0000_0000
      && n / 0x100_0000 == leaf[0] as int && n / 0x1_0000 % 256 == leaf[1] as int
      && n / 0x100 % 256 == leaf[2] as int && n % 256 == leaf[3] as int
  {
  }

  /** Checkpoints have the same number exactly if their last leaves begin with the same four bytes. */
  lemma NumbersCollideExactly(a: Bytes, b: Bytes)
    requires |a| >= 4 && |b| >= 4
    ensures CheckpointNumber(a) == CheckpointNumber(b) <==> a[..4] == b[..4]
  {
    NumberHasDigits(a);
    NumberHasDigits(b);
  }

  ghost predicate Digests(leaves: seq<Bytes>)
  {
    forall k :: 0 <= k < |leaves| ==> |leaves[k]| == 32
  }

  lemma {:induction false} ConcatLength(leaves: seq<Bytes>)
    requires Digests(leaves)
    ensures |Concat(leaves)| == 32 * |leaves|
  {
    if leaves != [] {
      ConcatLength(leaves[..|leaves| - 1]);
    }
  }

  lemma SliceOfPrefix(a: Bytes, b: Bytes, i: nat, j: nat)
    requires i <= j <= |a|
    ensures (a + b)[i..j] == a[i..j]
  {
  }

  /** Leaf `i` is at bytes 32i to 32i + 31 of what is hashed. */
  lemma {:induction false} LeafPlace(leaves: seq<Bytes>, i: nat)
    requires Digests(leaves) && i < |leaves|
    ensures |Concat(leaves)| == 32 * |leaves| && Concat(leaves)[32 * i..32 * i + 32] == leaves[i]
  {
    var before := leaves[..|leaves| - 1];
    ConcatLength(before);
    ConcatLength(leaves);
    if i < |before| {
      LeafPlace(before, i);
      SliceOfPrefix(Concat(before), leaves[|leaves| - 1], 32 * i, 32 * i + 32);
    } else {
      assert (Concat(before) + leaves[i])[|Concat(before)|..] == leaves[i];
    }
  }

  /** Full batches in the order of their creation, then less than a batch of pending leaves: all that was appended. */
  ghost predicate Partition(created: seq<seq<Bytes>>, pending: seq<Bytes>, appended: seq<Bytes>, size: nat)
  {
    && Flatten(created) + pending == appended
    && (forall b :: b in created ==> Digests(b) && |b| == size)
    && Digests(pending) && |pending| < size
  }

  lemma PartitionGrows(created: seq<seq<Bytes>>, pending: seq<Bytes>, appended: seq<Bytes>, size: nat, leaf: Bytes)
    requires Partition(created, pending, appended, size) && |leaf| == 32
    ensures
      if |pending| + 1 == size then Partition(created + [pending + [leaf]], [], appended + [leaf], size)
      else Partition(created, pending + [leaf], appended + [leaf], size)
  {
    var more := created + [pending + [leaf]];
    assert more[..|created|] == created;
    assert Flatten(more) == Flatten(created) + (pending + [leaf]);
  }

  class AuditFile {
    var lines: Option<seq<Line>>

    constructor (lines: Option<seq<Line>>)
      ensures this.lines == lines
    {
      this.lines := lines;
    }
  }

  class TamperEvidentLedger {
    const file: AuditFile
    const hash: EventHash
    const sha: Sha
    const checkpointInterval: int
    var lastHash: Bytes
    var eventsSinceCheckpoint: int
    var currentMerkleLeaves: seq<Bytes>
    var published: map<int, Checkpoint>
    /** The event hashes appended through this object, and how the checkpoints created so far divided them. */
    ghost var appended: seq<Bytes>
    ghost var created: seq<seq<Bytes>>

    /** Checkpoints and pending leaves partition what was appended; the counter counts the pending leaves. */
    ghost predicate Valid()
      reads this
    {
      && (forall prev, body :: |hash(prev, body)| == 32)
      && Partition(created, currentMerkleLeaves, appended, BatchSize(checkpointInterval))
      && eventsSinceCheckpoint == |currentMerkleLeaves|
    }

    method RecoverState()
      requires lastHash == []
      modifies this`lastHash, file
      ensures old(file.lines) == None ==> file.lines == Some([])
      ensures old(file.lines) != None ==> file.lines == old(file.lines)
      ensures lastHash == Recovered(file.lines.value)
    {
      if file.lines == None {
        file.lines := Some([]);
        return;
      }
      var lines := file.lines.value;
      var lastLine := Blank;
      var i := 0;
      while i < |lines|
        invariant 0 <= i <= |lines|
        invariant Recovered(lines[..i]) == Recovered([lastLine])
        modifies {}
      {
        assert lines[..i + 1][..i] == lines[..i];
        if lines[i] != Blank {
          lastLine := lines[i];
        }
        i := i + 1;
      }
      assert lines[..i] == lines;
      match lastLine
      case Event(e) => lastHash := e.hash;
      case Unreadable(own) => lastHash := own;
      case _ =>
    }

    constructor (file: AuditFile, hash: EventHash, sha: Sha, checkpointInterval: int)
      requires forall prev, body :: |hash(prev, body)| == 32
      modifies file
      ensures Valid() && this.file == file && this.hash == hash && this.sha == sha
      ensures this.checkpointInterval == checkpointInterval && created == [] && appended == []
      ensures old(file.lines) == None ==> file.lines == Some([])
      ensures old(file.lines) != None ==> file.lines == old(file.lines)
      ensures lastHash == Recovered(file.lines.value)
    {
      this.file, this.hash, this.sha, this.checkpointInterval := file, hash, sha, checkpointInterval;
      lastHash, eventsSinceCheckpoint, currentMerkleLeaves, published := [], 0, [], map[];
      appended, created := [], [];
      new;
      RecoverState();
    }

    method CreateCheckpoint()
      requires Digests(currentMerkleLeaves)
      modifies this`currentMerkleLeaves, this`eventsSinceCheckpoint, this`published, this`created
      ensures lastHash == old(lastHash) && appended == old(appended)
      ensures old(currentMerkleLeaves) == [] ==> unchanged(this)
      ensures old(currentMerkleLeaves) != [] ==>
        && eventsSinceCheckpoint == 0 && currentMerkleLeaves == []
        && created == old(created) + [old(currentMerkleLeaves)]
        && published == old(published)[CheckpointNumber(old(currentMerkleLeaves)[|old(currentMerkleLeaves)| - 1]) :=
          Checkpoint(sha(Concat(old(currentMerkleLeaves))), |old(currentMerkleLeaves)|)]
    {
      if currentMerkleLeaves == [] {
        return;
      }
      var fed: Bytes := [];
      var i := 0;
      while i < |currentMerkleLeaves|
        invariant 0 <= i <= |currentMerkleLeaves| && fed == Concat(currentMerkleLeaves[..i])
        modifies {}
      {
        assert currentMerkleLeaves[..i + 1][..i] == currentMerkleLeaves[..i];
        fed := fed + currentMerkleLeaves[i];
        i := i + 1;
      }
      assert currentMerkleLeaves[..i] == currentMerkleLeaves;
      var number := CheckpointNumber(currentMerkleLeaves[|currentMerkleLeaves| - 1]);
      published := published[number := Checkpoint(sha(fed), |currentMerkleLeaves|)];
      created := created + [currentMerkleLeaves];
      eventsSinceCheckpoint := 0;
      currentMerkleLeaves := [];
    }

    /** The part of `Append` after the file: a checkpoint is due when the pending leaves fill a batch. */
    method AddLeaf(leaf: Bytes)
      requires Valid() && |leaf| == 32
      modifies this`currentMerkleLeaves, this`eventsSinceCheckpoint, this`published, this`appended, this`created
      ensures Valid() && appended == old(appended) + [leaf]
      ensures
        if |old(currentMerkleLeaves)| + 1 == BatchSize(checkpointInterval) then
          && created == old(created) + [old(currentMerkleLeaves) + [leaf]]
          && published == old(published)[CheckpointNumber(leaf) :=
            Checkpoint(sha(Concat(old(currentMerkleLeaves) + [leaf])), BatchSize(checkpointInterval))]
        else created == old(created) && published == old(published)
    {
      PartitionGrows(created, currentMerkleLeaves, appended, BatchSize(checkpointInterval), leaf);
      currentMerkleLeaves := currentMerkleLeaves + [leaf];
      appended := appended + [leaf];
      eventsSinceCheckpoint := eventsSinceCheckpoint + 1;
      if eventsSinceCheckpoint >= checkpointInterval {
        CreateCheckpoint();
      }
    }

    method Append(draft: Draft)
      requires Valid()
      modifies this, file
      ensures Valid()
      ensures file.lines == Some((if old(file.lines) == None then [] else old(file.lines).value)
        + [Event(Entry(old(lastHash), draft(old(lastHash)), lastHash))])
      ensures lastHash == hash(old(lastHash), draft(old(lastHash)))
      ensures appended == old(appended) + [lastHash]
      // A checkpoint is created exactly when the pending leaves fill a batch, over just these leaves.
      ensures created == if |old(currentMerkleLeaves)| + 1 == BatchSize(checkpointInterval)
        then old(created) + [old(currentMerkleLeaves) + [lastHash]] else old(created)
      ensures published == if |old(currentMerkleLeaves)| + 1 == BatchSize(checkpointInterval)
        then old(published)[CheckpointNumber(lastHash) :=
          Checkpoint(sha(Concat(old(currentMerkleLeaves) + [lastHash])), BatchSize(checkpointInterval))]
        else old(published)
    {
      var body := draft(lastHash);
      var current := hash(lastHash, body);
      var line := Event(Entry(lastHash, body, current));
      lastHash := current;
      file.lines := Some((if file.lines == None then [] else file.lines.value) + [line]);
      AddLeaf(current);
    }
  }

  // ---- Agreement with the verifier

  datatype WriterOp = Append(draft: Draft) | Restart

  /** The file and the writer's last hash after some appends and restarts. */
  function After(hash: EventHash, lines: seq<Line>, ops: seq<WriterOp>): (seq<Line>, Bytes)
  {
    if ops == [] then (lines, Recovered(lines))
    else
      var (l, last) := After(hash, lines, ops[..|ops| - 1]);
      match ops[|ops| - 1]
      case Append(draft) => (l + [Event(Written(hash, draft, last))], Written(hash, draft, last).hash)
      case Restart => (l, Recovered(l))
  }

  lemma {:induction false} RecoversLastHash(lines: seq<Line>)
    requires Parses(lines)
    ensures Recovered(lines) == Last(EntriesOf(lines), [])
  {
    if lines != [] && lines[|lines| - 1].Blank? {
      RecoversLastHash(lines[..|lines| - 1]);
    }
  }

  /** After any appends and restarts on an intact file, the verifier accepts the file and the writer's last hash
      is the hash on the file's last event. */
  lemma {:induction false} WriterAgreesWithVerifier(hash: EventHash, lines: seq<Line>, ops: seq<WriterOp>)
    requires VerdictOf(hash, Some(lines)) == Accepted
    ensures
      var (l, last) := After(hash, lines, ops);
      VerdictOf(hash, Some(l)) == Accepted && last == Last(EntriesOf(l), [])
  {
    AcceptsExactlyIntactFiles(hash, Some(lines));
    if ops == [] {
      RecoversLastHash(lines);
    } else {
      WriterAgreesWithVerifier(hash, lines, ops[..|ops| - 1]);
      var (l, last) := After(hash, lines, ops[..|ops| - 1]);
      AcceptsExactlyIntactFiles(hash, Some(l));
      match ops[|ops| - 1]
      case Restart => RecoversLastHash(l);
      case Append(draft) =>
        var e := Written(hash, draft, last);
        ChainGrows(hash, EntriesOf(l), e);
        ParsesGrows(l, Event(e));
        assert (l + [Event(e)])[..|l|] == l;
        AcceptsExactlyIntactFiles(hash, Some(l + [Event(e)]));
    }
  }

  function DraftsOf(ops: seq<WriterOp>): seq<Draft>
  {
    if ops == [] then []
    else
      DraftsOf(ops[..|ops| - 1]) + if ops[|ops| - 1].Append? then [ops[|ops| - 1].draft] else []
  }

  /** `e` is this draft, written after an event with this hash. */
  ghost predicate IsWritten(hash: EventHash, e: Entry, draft: Draft, before: Bytes)
  {
    e.prev == before && e.body == draft(before) && e.hash == hash(before, draft(before))
  }

  /** `all` is `base` and then these drafts, each after the hash stated before it. */
  ghost predicate Extends(hash: EventHash, all: seq<Entry>, base: seq<Entry>, drafts: seq<Draft>)
  {
    && |all| == |base| + |drafts| && all[..|base|] == base
    && forall k :: 0 <= k < |drafts| ==> IsWritten(hash, all[|base| + k], drafts[k], HashBefore(all, |base| + k))
  }

  lemma ExtendsMore(hash: EventHash, all: seq<Entry>, base: seq<Entry>, drafts: seq<Draft>, e: Entry, draft: Draft)
    requires Extends(hash, all, base, drafts) && IsWritten(hash, e, draft, HashBefore(all, |all|))
    ensures Extends(hash, all + [e], base, drafts + [draft])
  {
    var (all', drafts') := (all + [e], drafts + [draft]);
    forall k | 0 <= k < |drafts'| ensures IsWritten(hash, all'[|base| + k], drafts'[k], HashBefore(all', |base| + k)) {
      assert HashBefore(all', |base| + k) == HashBefore(all, |base| + k);
      assert k < |drafts| ==> IsWritten(hash, all[|base| + k], drafts[k], HashBefore(all, |base| + k));
    }
  }

  /** After any appends and restarts on an accepted file, the file holds what it held and one event per append, in
      order: each the appended draft itself, applied to the hash stated on the event before it. */
  lemma {:induction false} AppendsAreKept(hash: EventHash, lines: seq<Line>, ops: seq<WriterOp>)
    requires VerdictOf(hash, Some(lines)) == Accepted
    ensures Extends(hash, EntriesOf(After(hash, lines, ops).0), EntriesOf(lines), DraftsOf(ops))
  {
    if ops != [] {
      var before := ops[..|ops| - 1];
      AppendsAreKept(hash, lines, before);
      WriterAgreesWithVerifier(hash, lines, before);
      var (l, last) := After(hash, lines, before);
      match ops[|ops| - 1]
      case Restart =>
      case Append(draft) =>
        var e := Written(hash, draft, last);
        assert (l + [Event(e)])[..|l|] == l;
        assert HashBefore(EntriesOf(l), |EntriesOf(l)|) == last;
        ExtendsMore(hash, EntriesOf(l), EntriesOf(lines), DraftsOf(before), e, draft);
    }
  }

  // ---- Checkpoint roots

  /** The last 32 bytes are the last leaf. */
  lemma LastLeaf(a: seq<Bytes>)
    requires Digests(a) && a != []
    ensures var (before, n) := (a[..|a| - 1], |Concat(a)| - 32);
      n >= 0 && Concat(a)[n..] == a[|a| - 1] && Concat(a)[..n] == Concat(before) && Digests(before)
  {
  }

  lemma {:induction false} LeavesFromConcat(a: seq<Bytes>, b: seq<Bytes>)
    requires Digests(a) && Digests(b) && Concat(a) == Concat(b)
    ensures a == b
  {
    if a != [] {
      LastLeaf(a);
    }
    if b != [] {
      LastLeaf(b);
    }
    if a != [] && b != [] {
      LeavesFromConcat(a[..|a| - 1], b[..|b| - 1]);
      assert a == a[..|a| - 1] + [a[|a| - 1]];
      assert b == b[..|b| - 1] + [b[|b| - 1]];
    }
  }

  /** Two batches of digests with the same root are the same batch, or two different strings with one digest. */
  lemma RootBindsBatch(sha: Sha, a: seq<Bytes>, b: seq<Bytes>)
    requires Digests(a) && Digests(b)
    requires sha(Concat(a)) == sha(Concat(b))
    ensures a == b || (Concat(a) != Concat(b) && sha(Concat(a)) == sha(Concat(b)))
  {
    if Concat(a) == Concat(b) {
      LeavesFromConcat(a, b);
    }
  }
}

/** Tamper evidence: who shows two different histories with the same final hash has found a collision. */
module TamperEvidence {
  import opened Contracts
  import opened Hashing
  import opened Verifier

  /** Two stored events that differ in what was hashed, but not in the hash. */
  ghost predicate Clash(hash: EventHash, e: Entry, f: Entry)
  {
    (e.prev != f.prev || e.body != f.body) && hash(e.prev, e.body) == hash(f.prev, f.body)
  }

  /** Walks back from a common hash until the inputs differ or both files are used up at the same time. */
  lemma {:induction false} WalkBack(hash: EventHash, a: seq<Entry>, b: seq<Entry>, i: nat, j: nat)
    returns (clash: bool, x: nat, y: nat)
    requires forall prev, body :: |hash(prev, body)| == 32
    requires Chain(hash, a) && Chain(hash, b) && i < |a| && j < |b| && a[i].hash == b[j].hash
    ensures clash ==> x < |a| && y < |b| && Clash(hash, a[x], b[y])
    ensures !clash ==> i == j && forall k :: 0 <= k <= i ==> a[k] == b[k]
  {
    assert LinkedAt(hash, a, i) && LinkedAt(hash, b, j);
    if a[i].prev != b[j].prev || a[i].body != b[j].body {
      return true, i, j;
    }
    // The first event of a file links to nothing, every other one to a digest.
    assert i > 0 ==> LinkedAt(hash, a, i - 1);
    assert j > 0 ==> LinkedAt(hash, b, j - 1);
    if i > 0 {
      clash, x, y := WalkBack(hash, a, b, i - 1, j - 1);
    } else {
      return false, 0, 0;
    }
  }

  ghost predicate Clashing(hash: EventHash, a: seq<Entry>, b: seq<Entry>)
  {
    exists x, y :: 0 <= x < |a| && 0 <= y < |b| && Clash(hash, a[x], b[y])
  }

  lemma SameChainOrClash(hash: EventHash, a: seq<Entry>, b: seq<Entry>)
    requires forall prev, body :: |hash(prev, body)| == 32
    requires Chain(hash, a) && Chain(hash, b) && a != [] && b != [] && Last(a, []) == Last(b, [])
    ensures a == b || Clashing(hash, a, b)
  {
    var clash, x, y := WalkBack(hash, a, b, |a| - 1, |b| - 1);
  }

  /** Two non-empty files of any lengths that the verifier accepts and that end in the same hash hold the same
      events, or contain two different inputs with the same hash. */
  lemma SameHistoryOrCollision(hash: EventHash, file1: seq<Line>, file2: seq<Line>, a: seq<Entry>, b: seq<Entry>)
    requires forall prev, body :: |hash(prev, body)| == 32
    requires VerdictOf(hash, Some(file1)) == Accepted && VerdictOf(hash, Some(file2)) == Accepted
    requires a == EntriesOf(file1) != [] && b == EntriesOf(file2) != [] && Last(a, []) == Last(b, [])
    ensures a == b || Clashing(hash, a, b)
  {
    AcceptsExactlyIntactFiles(hash, Some(file1));
    AcceptsExactlyIntactFiles(hash, Some(file2));
    SameChainOrClash(hash, a, b);
  }

  /** Two different byte strings, hashed for two stored events, with the same digest. */
  ghost predicate ShaCollision(sha: Sha, tag: Bytes, e: Entry, f: Entry)
  {
    && Input(tag, e.prev, e.body) != Input(tag, f.prev, f.body)
    && sha(Input(tag, e.prev, e.body)) == sha(Input(tag, f.prev, f.body))
  }

  lemma ClashIsShaCollision(sha: Sha, tag: Bytes, e: Entry, f: Entry)
    requires Clash(Chained(sha, tag), e, f)
    requires Link(e.prev) && Link(f.prev) && JsonObject(e.body) && JsonObject(f.body)
    ensures ShaCollision(sha, tag, e, f)
  {
    if Input(tag, e.prev, e.body) == Input(tag, f.prev, f.body) {
      InputIsUnambiguous(tag, e.prev, e.body, f.prev, f.body);
    }
  }

  lemma LinksAreDigests(sha: Sha, tag: Bytes, entries: seq<Entry>, i: nat)
    requires DigestLength(sha) && Chain(Chained(sha, tag), entries) && i < |entries|
    ensures Link(entries[i].prev)
  {
    ChainedLength(sha, tag);
    assert LinkedAt(Chained(sha, tag), entries, i);
    if i > 0 {
      assert LinkedAt(Chained(sha, tag), entries, i - 1);
    }
  }

  lemma SameChainOrShaCollision(sha: Sha, tag: Bytes, a: seq<Entry>, b: seq<Entry>)
    requires DigestLength(sha)
    requires Chain(Chained(sha, tag), a) && Chain(Chained(sha, tag), b)
    requires a != [] && b != [] && Last(a, []) == Last(b, [])
    requires (forall i :: 0 <= i < |a| ==> JsonObject(a[i].body))
      && (forall i :: 0 <= i < |b| ==> JsonObject(b[i].body))
    ensures a == b || exists x, y :: 0 <= x < |a| && 0 <= y < |b| && ShaCollision(sha, tag, a[x], b[y])
  {
    ChainedLength(sha, tag);
    SameChainOrClash(Chained(sha, tag), a, b);
    if a != b {
      var x, y :| 0 <= x < |a| && 0 <= y < |b| && Clash(Chained(sha, tag), a[x], b[y]);
      LinksAreDigests(sha, tag, a, x);
      LinksAreDigests(sha, tag, b, y);
      ClashIsShaCollision(sha, tag, a[x], b[y]);
    }
  }

  /** With the ledger's way of hashing and events in canonical JSON, the collision is one of SHA-256 itself. */
  lemma SameHistoryOrShaCollision(sha: Sha, tag: Bytes, file1: seq<Line>, file2: seq<Line>, a: seq<Entry>,
    b: seq<Entry>)
    requires DigestLength(sha)
    requires VerdictOf(Chained(sha, tag), Some(file1)) == Accepted
    requires VerdictOf(Chained(sha, tag), Some(file2)) == Accepted
    requires a == EntriesOf(file1) != [] && b == EntriesOf(file2) != [] && Last(a, []) == Last(b, [])
    requires (forall i :: 0 <= i < |a| ==> JsonObject(a[i].body))
      && (forall i :: 0 <= i < |b| ==> JsonObject(b[i].body))
    ensures a == b || exists x, y :: 0 <= x < |a| && 0 <= y < |b| && ShaCollision(sha, tag, a[x], b[y])
  {
    AcceptsExactlyIntactFiles(Chained(sha, tag), Some(file1));
    AcceptsExactlyIntactFiles(Chained(sha, tag), Some(file2));
    SameChainOrShaCollision(sha, tag, a, b);
  }
}
