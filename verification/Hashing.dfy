/** What the audit chain hashes, and why its framing is unambiguous. */
module Hashing {

  newtype byte = x: int | 0 <= x < 256

  type Bytes = seq<byte>

  /** The hash function is a parameter everywhere; only the length of its digests is ever used. */
  type Sha = Bytes -> Bytes

  ghost predicate DigestLength(sha: Sha)
  {
    forall x :: |sha(x)| == 32
  }

  /** The domain tag ("DISTRIBUTED_AI_AUDIT_V1" in the source, any tag here), the previous hash (empty or a
      digest) and the canonical event follow each other without separators. */
  function Input(tag: Bytes, prev: Bytes, body: Bytes): Bytes
  {
    tag + prev + body
  }

  /** The hash of an event after its predecessor's hash. */
  type EventHash = (Bytes, Bytes) -> Bytes

  function Chained(sha: Sha, tag: Bytes): EventHash
  {
    (prev: Bytes, body: Bytes) => sha(Input(tag, prev, body))
  }

  lemma ChainedLength(sha: Sha, tag: Bytes)
    requires DigestLength(sha)
    ensures forall prev, body :: |Chained(sha, tag)(prev, body)| == 32
  {
    forall prev, body ensures |Chained(sha, tag)(prev, body)| == 32 {
      assert |sha(Input(tag, prev, body))| == 32;
    }
  }

  // ---- Canonical JSON objects, as far as framing needs them

  const QUOTE: byte := 34
  const BACKSLASH: byte := 92

  predicate Opens(b: byte) { b == 123 || b == 91 }

  predicate Closes(b: byte) { b == 125 || b == 93 }

  /** `legal` is lost at a backslash outside a string. */
  datatype Reader = Reader(depth: int, inString: bool, escaped: bool, legal: bool)

  const OUTSIDE: Reader := Reader(0, false, false, true)

  function Feed(r: Reader, b: byte): Reader
  {
    if r.inString then
      if r.escaped then r.(escaped := false)
      else if b == BACKSLASH then r.(escaped := true)
      else if b == QUOTE then r.(inString := false)
      else r
    else if b == QUOTE then r.(inString := true)
    else if b == BACKSLASH then r.(legal := false)
    else if Opens(b) then r.(depth := r.depth + 1)
    else if Closes(b) then r.(depth := r.depth - 1)
    else r
  }

  function Read(r: Reader, text: Bytes): Reader
  {
    if text == [] then r else Feed(Read(r, text[..|text| - 1]), text[|text| - 1])
  }

  /** Starts with a brace, and its brackets outside strings close at its very end and not before. */
  ghost predicate JsonObject(text: Bytes)
  {
    && text != [] && text[0] == 123
    && Read(OUTSIDE, text) == OUTSIDE
    && forall n :: 0 < n < |text| ==> Read(OUTSIDE, text[..n]).depth > 0
  }

  lemma ReadOne(r: Reader, text: Bytes, b: byte)
    ensures Read(r, text + [b]) == Feed(Read(r, text), b)
  {
    assert (text + [b])[..|text|] == text;
  }

  /** The text {"}\""} is an object: braces and escaped quotes in a string do not count. */
  lemma StringsMayHoldBraces()
    ensures JsonObject([123, 34, 125, 92, 34, 34, 125])
  {
    ReadOne(OUTSIDE, [], 123);
    ReadOne(OUTSIDE, [123], 34);
    ReadOne(OUTSIDE, [123, 34], 125);
    ReadOne(OUTSIDE, [123, 34, 125], 92);
    ReadOne(OUTSIDE, [123, 34, 125, 92], 34);
    ReadOne(OUTSIDE, [123, 34, 125, 92, 34], 34);
    ReadOne(OUTSIDE, [123, 34, 125, 92, 34, 34], 125);
    var text: Bytes := [123, 34, 125, 92, 34, 34, 125];
    assert [] + [123 as byte] == [123] == text[..1];
    assert text[..1] + [34] == text[..2] == [123, 34];
    assert text[..2] + [125] == text[..3] == [123, 34, 125];
    assert text[..3] + [92] == text[..4] == [123, 34, 125, 92];
    assert text[..4] + [34] == text[..5] == [123, 34, 125, 92, 34];
    assert text[..5] + [34] == text[..6] == [123, 34, 125, 92, 34, 34];
    assert text[..6] + [125] == text;
    forall n | 0 < n < |text| ensures Read(OUTSIDE, text[..n]).depth > 0 {
      assert n in {1, 2, 3, 4, 5, 6};
    }
  }

  lemma {:induction false} ReadSplits(r: Reader, a: Bytes, b: Bytes)
    ensures Read(r, a + b) == Read(Read(r, a), b)
  {
    if b == [] {
      assert a + b == a;
    } else {
      assert (a + b)[..|a + b| - 1] == a + b[..|b| - 1];
      ReadSplits(r, a, b[..|b| - 1]);
    }
  }

  /** Outside a string a reader that starts deeper stays deeper by the same amount. */
  lemma {:induction false} DeeperStaysDeeper(r: Reader, text: Bytes)
    requires !r.inString && !r.escaped && r.legal
    ensures Read(r, text) == Read(OUTSIDE, text).(depth := Read(OUTSIDE, text).depth + r.depth)
  {
    if text != [] {
      DeeperStaysDeeper(r, text[..|text| - 1]);
    }
  }

  lemma {:induction false} LegalBefore(r: Reader, text: Bytes, n: nat)
    requires n <= |text| && Read(r, text).legal
    ensures Read(r, text[..n]).legal
  {
    if n < |text| {
      assert text[..|text| - 1][..n] == text[..n];
      LegalBefore(r, text[..|text| - 1], n);
    } else {
      assert text[..n] == text;
    }
  }

  predicate OutOfPhase(r: Reader, q: Reader)
  {
    r.inString != q.inString && !r.escaped && !q.escaped
  }

  /** Two readers of one text, one inside a string and one outside, swap at every quote. */
  lemma {:induction false} StayOutOfPhase(r: Reader, q: Reader, text: Bytes)
    requires OutOfPhase(r, q) && Read(r, text).legal && Read(q, text).legal
    ensures OutOfPhase(Read(r, text), Read(q, text))
  {
    if text != [] {
      LegalBefore(r, text, |text| - 1);
      LegalBefore(q, text, |text| - 1);
      StayOutOfPhase(r, q, text[..|text| - 1]);
    }
  }

  lemma {:induction false} OnlyStringsEscape(r: Reader, text: Bytes)
    requires r.escaped ==> r.inString
    ensures Read(r, text).escaped ==> Read(r, text).inString
  {
    if text != [] {
      OnlyStringsEscape(r, text[..|text| - 1]);
    }
  }

  /** No JSON object is a proper suffix of another one. */
  lemma NoObjectEndsAnother(head: Bytes, text: Bytes)
    requires head != [] && JsonObject(text)
    ensures !JsonObject(head + text)
  {
    if JsonObject(head + text) {
      var r := Read(OUTSIDE, head);
      assert (head + text)[..|head|] == head;
      ReadSplits(OUTSIDE, head, text);
      LegalBefore(OUTSIDE, head + text, |head|);
      if !r.inString && !r.escaped {
        DeeperStaysDeeper(r, text);
      } else {
        var (first, rest) := ([text[0]], text[1..]);
        assert text == first + rest;
        OnlyStringsEscape(OUTSIDE, head);
        ReadSplits(r, first, rest);
        ReadSplits(OUTSIDE, first, rest);
        assert first[..0] == [] && Read(r, first) == Feed(r, 123) && Read(OUTSIDE, first) == Feed(OUTSIDE, 123);
        StayOutOfPhase(Feed(r, 123), Feed(OUTSIDE, 123), rest);
      }
    }
  }

  ghost predicate Link(prev: Bytes)
  {
    prev == [] || |prev| == 32
  }

  /** The bytes that are hashed determine the previous hash and the event. */
  lemma InputIsUnambiguous(tag: Bytes, prev: Bytes, body: Bytes, prev': Bytes, body': Bytes)
    requires Link(prev) && Link(prev') && JsonObject(body) && JsonObject(body')
    requires Input(tag, prev, body) == Input(tag, prev', body')
    ensures prev == prev' && body == body'
  {
    assert Input(tag, prev, body)[|tag|..] == prev + body && Input(tag, prev', body')[|tag|..] == prev' + body';
    if |prev| == |prev'| {
      assert prev == (prev + body)[..|prev|] && body == (prev + body)[|prev|..];
    } else if prev == [] {
      assert body == prev' + body';
      NoObjectEndsAnother(prev', body');
    } else {
      assert body' == prev + body;
      NoObjectEndsAnother(prev, body);
    }
  }
}
