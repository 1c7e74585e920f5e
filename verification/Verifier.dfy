/** The independent ledger verifier (tools/verify_audit.py). */
module Verifier {
  import opened Contracts
  import opened Hashing

  /** One stored event: the previous hash it states, everything that is hashed with it, and the hash it states. */
  datatype Entry = Entry(prev: Bytes, body: Bytes, hash: Bytes)

  /** A line of the file: blank, not JSON at all, JSON whose hashes cannot both be decoded (`own` is the stated hash
      of the event if that can be, else empty), or an event. */
  datatype Line = Blank | NotJson | Unreadable(own: Bytes) | Event(entry: Entry)

  datatype Problem = BadJson(line: nat) | BrokenLink(line: nat) | Tampered(line: nat)

  /** The loop's variables; `raised` says that an exception has left the loop. */
  datatype Check = Check(expected: Bytes, lineNumber: nat, problems: seq<Problem>, raised: bool)

  const START: Check := Check([], 0, [], false)

  function LinkProblem(e: Entry, expected: Bytes, line: nat): seq<Problem>
  {
    if e.prev != expected then [BrokenLink(line)] else []
  }

  function HashProblem(hash: EventHash, e: Entry, line: nat): seq<Problem>
  {
    if e.hash != hash(e.prev, e.body) then [Tampered(line)] else []
  }

  function Step(hash: EventHash, c: Check, line: Line): Check
  {
    if c.raised then c
    else match line
      case Blank => c
      case NotJson => c.(lineNumber := c.lineNumber + 1, problems := c.problems + [BadJson(c.lineNumber + 1)])
      case Unreadable(_) => c.(lineNumber := c.lineNumber + 1, raised := true)
      case Event(e) =>
        var n := c.lineNumber + 1;
        Check(hash(e.prev, e.body), n,
          c.problems + LinkProblem(e, c.expected, n) + HashProblem(hash, e, n), false)
  }

  function CheckFrom(hash: EventHash, c: Check, lines: seq<Line>): Check
  {
    if lines == [] then c else Step(hash, CheckFrom(hash, c, lines[..|lines| - 1]), lines[|lines| - 1])
  }

  datatype Verdict = Accepted | Rejected | Raised

  function VerdictOf(hash: EventHash, file: Option<seq<Line>>): Verdict
  {
    match file
    case None => Rejected
    case Some(lines) =>
      var c := CheckFrom(hash, START, lines);
      if c.raised then Raised else if c.problems == [] then Accepted else Rejected
  }

  lemma {:induction false} RaisedStaysRaised(hash: EventHash, c: Check, lines: seq<Line>, i: nat)
    requires i <= |lines| && CheckFrom(hash, c, lines[..i]).raised
    ensures CheckFrom(hash, c, lines).raised
  {
    if i < |lines| {
      assert lines[..|lines| - 1][..i] == lines[..i];
      RaisedStaysRaised(hash, c, lines[..|lines| - 1], i);
    } else {
      assert lines[..i] == lines;
    }
  }

  /** Walks the file, reports every problem and goes on with the calculated hash, so that later links can still
      be checked. `problems` is what it prints. */
  method VerifyLedger(hash: EventHash, file: Option<seq<Line>>) returns (verdict: Verdict, problems: seq<Problem>)
    ensures verdict == VerdictOf(hash, file)
    ensures file.Some? && verdict != Raised ==> problems == CheckFrom(hash, START, file.value).problems
  {
    problems := [];
    if file == None {
      return Rejected, [];
    }
    var lines := file.value;
    var expected: Bytes := [];
    var lineNumber := 0;
    var i := 0;
    while i < |lines|
      invariant 0 <= i <= |lines|
      invariant CheckFrom(hash, START, lines[..i]) == Check(expected, lineNumber, problems, false)
    {
      var line := lines[i];
      i := i + 1;
      assert lines[..i][..i - 1] == lines[..i - 1];
      if line == Blank {
        continue;
      }
      lineNumber := lineNumber + 1;
      if line == NotJson {
        problems := problems + [BadJson(lineNumber)];
        continue;
      }
      if line.Unreadable? {
        RaisedStaysRaised(hash, START, lines, i);
        return Raised, problems;
      }
      var e := line.entry;
      if e.prev != expected {
        problems := problems + [BrokenLink(lineNumber)];
      }
      var calculated := hash(e.prev, e.body);
      if e.hash != calculated {
        problems := problems + [Tampered(lineNumber)];
        expected := calculated;
      } else {
        expected := e.hash;
      }
    }
    assert lines[..i] == lines;
    verdict := if problems == [] then Accepted else Rejected;
  }

  lemma {:induction false} CheckSplits(hash: EventHash, c: Check, a: seq<Line>, b: seq<Line>)
    ensures CheckFrom(hash, c, a + b) == CheckFrom(hash, CheckFrom(hash, c, a), b)
  {
    if b == [] {
      assert a + b == a;
    } else {
      assert (a + b)[..|a + b| - 1] == a + b[..|b| - 1];
      CheckSplits(hash, c, a, b[..|b| - 1]);
    }
  }

  // ---- What acceptance means

  function EntriesOf(lines: seq<Line>): seq<Entry>
  {
    if lines == [] then []
    else
      EntriesOf(lines[..|lines| - 1])
      + if lines[|lines| - 1].Event? then [lines[|lines| - 1].entry] else []
  }

  function HashBefore(entries: seq<Entry>, i: nat): Bytes
    requires i <= |entries|
  {
    if i == 0 then [] else entries[i - 1].hash
  }

  ghost predicate Sound(hash: EventHash, e: Entry)
  {
    e.hash == hash(e.prev, e.body)
  }

  ghost predicate LinkedAt(hash: EventHash, entries: seq<Entry>, i: nat)
    requires i < |entries|
  {
    entries[i].prev == HashBefore(entries, i) && Sound(hash, entries[i])
  }

  /** Every event links to its predecessor's hash and states its own. */
  ghost predicate Chain(hash: EventHash, entries: seq<Entry>)
  {
    forall i :: 0 <= i < |entries| ==> LinkedAt(hash, entries, i)
  }

  lemma ChainGrows(hash: EventHash, entries: seq<Entry>, e: Entry)
    ensures Chain(hash, entries + [e]) <==>
      Chain(hash, entries) && e.prev == HashBefore(entries, |entries|) && Sound(hash, e)
    ensures HashBefore(entries + [e], |entries| + 1) == e.hash
  {
    var all := entries + [e];
    assert forall i :: 0 <= i < |entries| ==> LinkedAt(hash, all, i) == LinkedAt(hash, entries, i);
    assert HashBefore(all, |entries|) == HashBefore(entries, |entries|);
    assert all[|entries|] == e;
    assert LinkedAt(hash, all, |entries|) <==> e.prev == HashBefore(entries, |entries|) && Sound(hash, e);
  }

  ghost predicate Parses(lines: seq<Line>)
  {
    forall i :: 0 <= i < |lines| ==> lines[i].Blank? || lines[i].Event?
  }

  lemma ParsesGrows(lines: seq<Line>, line: Line)
    ensures Parses(lines + [line]) <==> Parses(lines) && (line.Blank? || line.Event?)
  {
    var all := lines + [line];
    assert all[|lines|] == line;
    assert forall i :: 0 <= i < |lines| ==> all[i] == lines[i];
  }

  ghost predicate Clean(c: Check)
  {
    !c.raised && c.problems == []
  }

  lemma StepIsClean(hash: EventHash, c: Check, line: Line)
    ensures Clean(Step(hash, c, line)) <==>
      Clean(c) && (line.Blank? || (line.Event? && line.entry.prev == c.expected && Sound(hash, line.entry)))
    ensures Clean(Step(hash, c, line)) ==>
      Step(hash, c, line).expected == if line.Event? then line.entry.hash else c.expected
  {
  }

  lemma {:induction false} CleanExactlyWhenIntact(hash: EventHash, lines: seq<Line>)
    ensures
      var c := CheckFrom(hash, START, lines);
      && (Clean(c) <==> Parses(lines) && Chain(hash, EntriesOf(lines)))
      && (Clean(c) ==> c.expected == HashBefore(EntriesOf(lines), |EntriesOf(lines)|))
  {
    if lines != [] {
      var (before, last) := (lines[..|lines| - 1], lines[|lines| - 1]);
      CleanExactlyWhenIntact(hash, before);
      StepIsClean(hash, CheckFrom(hash, START, before), last);
      assert before + [last] == lines;
      ParsesGrows(before, last);
      if last.Event? {
        ChainGrows(hash, EntriesOf(before), last.entry);
      } else {
        assert EntriesOf(lines) == EntriesOf(before);
      }
    }
  }

  /** The verifier returns true exactly for existing files in which every line parses, links to its predecessor
      and matches its own hash; resynchronising after an error never hides one. */
  lemma AcceptsExactlyIntactFiles(hash: EventHash, file: Option<seq<Line>>)
    ensures VerdictOf(hash, file) == Accepted <==>
      file.Some? && Parses(file.value) && Chain(hash, EntriesOf(file.value))
  {
    if file.Some? {
      CleanExactlyWhenIntact(hash, file.value);
    }
  }

  // ---- What is reported, for any file

  /** The lines that count, in order. */
  function NonBlank(lines: seq<Line>): seq<Line>
  {
    if lines == [] then []
    else NonBlank(lines[..|lines| - 1]) + if lines[|lines| - 1].Blank? then [] else [lines[|lines| - 1]]
  }

  /** The hash calculated for the last event among these lines; lines that are no JSON leave it alone. */
  function LastCalculated(hash: EventHash, lines: seq<Line>): Bytes
  {
    if lines == [] then []
    else if lines[|lines| - 1].Event? then hash(lines[|lines| - 1].entry.prev, lines[|lines| - 1].entry.body)
    else LastCalculated(hash, lines[..|lines| - 1])
  }

  /** Is this a problem of these lines? */
  ghost predicate Reported(hash: EventHash, lines: seq<Line>, p: Problem)
  {
    && 1 <= p.line <= |lines|
    && var line := lines[p.line - 1];
    match p
    case BadJson(_) => line.NotJson?
    case BrokenLink(n) => line.Event? && line.entry.prev != LastCalculated(hash, lines[..n - 1])
    case Tampered(_) => line.Event? && line.entry.hash != hash(line.entry.prev, line.entry.body)
  }

  ghost predicate ReportsAll(hash: EventHash, c: Check, lines: seq<Line>)
  {
    && !c.raised && c.lineNumber == |lines| && c.expected == LastCalculated(hash, lines)
    && forall p :: p in c.problems <==> Reported(hash, lines, p)
  }

  lemma OneMoreReport(hash: EventHash, lines: seq<Line>, line: Line, p: Problem)
    ensures Reported(hash, lines + [line], p) <==>
      || Reported(hash, lines, p)
      || (p == BadJson(|lines| + 1) && line.NotJson?)
      || (p == BrokenLink(|lines| + 1) && line.Event? && line.entry.prev != LastCalculated(hash, lines))
      || (p == Tampered(|lines| + 1) && line.Event? && line.entry.hash != hash(line.entry.prev, line.entry.body))
  {
    var more := lines + [line];
    if 1 <= p.line <= |lines| {
      assert more[..p.line - 1] == lines[..p.line - 1];
    } else if p.line == |lines| + 1 {
      assert more[..p.line - 1] == lines;
    }
  }

  lemma StepReports(hash: EventHash, c: Check, lines: seq<Line>, line: Line)
    requires ReportsAll(hash, c, lines) && !line.Blank? && !line.Unreadable?
    ensures ReportsAll(hash, Step(hash, c, line), lines + [line])
  {
    assert (lines + [line])[..|lines|] == lines;
    forall p ensures p in Step(hash, c, line).problems <==> Reported(hash, lines + [line], p) {
      OneMoreReport(hash, lines, line, p);
    }
  }

  ghost predicate Decodable(lines: seq<Line>)
  {
    forall i :: 0 <= i < |lines| ==> !lines[i].Unreadable?
  }

  lemma DecodableGrows(lines: seq<Line>, line: Line)
    ensures Decodable(lines + [line]) <==> Decodable(lines) && !line.Unreadable?
  {
    var all := lines + [line];
    assert all[|lines|] == line;
    assert forall i :: 0 <= i < |lines| ==> all[i] == lines[i];
  }

  /** If no line makes it raise, the verifier reports exactly the problems there are, whatever else is wrong with the
      file: each line that is no JSON, each event that does not link to the hash calculated for the event before it
      (lines between that are no JSON do not matter), and each event that does not match its own hash. */
  lemma {:induction false} ReportsExactly(hash: EventHash, lines: seq<Line>)
    requires Decodable(lines)
    ensures ReportsAll(hash, CheckFrom(hash, START, lines), NonBlank(lines))
  {
    if lines != [] {
      var (before, last) := (lines[..|lines| - 1], lines[|lines| - 1]);
      assert lines == before + [last];
      DecodableGrows(before, last);
      ReportsExactly(hash, before);
      if last.Blank? {
        assert NonBlank(lines) == NonBlank(before);
      } else {
        assert NonBlank(lines) == NonBlank(before) + [last];
        StepReports(hash, CheckFrom(hash, START, before), NonBlank(before), last);
      }
    }
  }

  lemma {:induction false} RaisedExactly(hash: EventHash, lines: seq<Line>)
    ensures CheckFrom(hash, START, lines).raised <==> !Decodable(lines)
  {
    if lines != [] {
      var (before, last) := (lines[..|lines| - 1], lines[|lines| - 1]);
      RaisedExactly(hash, before);
      assert lines == before + [last];
      DecodableGrows(before, last);
    }
  }

  /** The verifier raises exactly on files with a line whose hashes cannot be decoded. */
  lemma RaisesExactly(hash: EventHash, file: Option<seq<Line>>)
    ensures VerdictOf(hash, file) == Raised <==> file.Some? && !Decodable(file.value)
  {
    if file.Some? {
      RaisedExactly(hash, file.value);
    }
  }

  // ---- Where errors are reported

  function Lines(entries: seq<Entry>): seq<Line>
  {
    seq(|entries|, i requires 0 <= i < |entries| => Event(entries[i]))
  }

  ghost predicate FollowsAt(hash: EventHash, run: seq<Entry>, k: nat)
    requires k < |run|
  {
    Sound(hash, run[k]) && (k > 0 ==> run[k].prev == run[k - 1].hash)
  }

  /** A run of sound events, each linked to the one before it; the first may link to anything. */
  ghost predicate Stretch(hash: EventHash, run: seq<Entry>)
  {
    forall k :: 0 <= k < |run| ==> FollowsAt(hash, run, k)
  }

  function Last(run: seq<Entry>, otherwise: Bytes): Bytes
  {
    if run == [] then otherwise else run[|run| - 1].hash
  }

  /** Reading a stretch costs one error if it does not start where the verifier is, and none otherwise. */
  lemma {:induction false} StretchCostsOne(hash: EventHash, run: seq<Entry>, c: Check)
    requires Stretch(hash, run) && !c.raised
    ensures CheckFrom(hash, c, Lines(run)) == Check(Last(run, c.expected), c.lineNumber + |run|,
      c.problems + if run != [] then LinkProblem(run[0], c.expected, c.lineNumber + 1) else [], false)
  {
    if run != [] {
      var before := run[..|run| - 1];
      assert Lines(run)[..|run| - 1] == Lines(before);
      forall k | 0 <= k < |before| ensures FollowsAt(hash, before, k) {
        assert FollowsAt(hash, run, k);
      }
      StretchCostsOne(hash, before, c);
      assert FollowsAt(hash, run, |run| - 1);
    }
  }

  lemma ChainIsClean(hash: EventHash, entries: seq<Entry>)
    requires Chain(hash, entries)
    ensures CheckFrom(hash, START, Lines(entries)) == Check(Last(entries, []), |entries|, [], false)
  {
    forall i | 0 <= i < |entries| ensures FollowsAt(hash, entries, i) {
      assert LinkedAt(hash, entries, i);
    }
    assert entries != [] ==> LinkedAt(hash, entries, 0);
    StretchCostsOne(hash, entries, START);
  }

  lemma LinesAppend(a: seq<Entry>, b: seq<Entry>)
    ensures Lines(a + b) == Lines(a) + Lines(b)
  {
  }

  lemma CheckSplitsEvents(hash: EventHash, c: Check, a: seq<Entry>, b: seq<Entry>)
    ensures CheckFrom(hash, c, Lines(a + b)) == CheckFrom(hash, CheckFrom(hash, c, Lines(a)), Lines(b))
  {
    LinesAppend(a, b);
    CheckSplits(hash, c, Lines(a), Lines(b));
  }

  function Problems(hash: EventHash, entries: seq<Entry>): seq<Problem>
  {
    CheckFrom(hash, START, Lines(entries)).problems
  }

  /** The report on an intact beginning, some events in the middle and a stretch at the end. */
  lemma Spliced(hash: EventHash, head: seq<Entry>, middle: seq<Entry>, tail: seq<Entry>, c: Check)
    requires Chain(hash, head) && Stretch(hash, tail)
    requires c == CheckFrom(hash, Check(Last(head, []), |head|, [], false), Lines(middle)) && !c.raised
    ensures Problems(hash, head + middle + tail)
      == c.problems + if tail != [] then LinkProblem(tail[0], c.expected, c.lineNumber + 1) else []
  {
    ChainIsClean(hash, head);
    CheckSplitsEvents(hash, START, head + middle, tail);
    CheckSplitsEvents(hash, START, head, middle);
    StretchCostsOne(hash, tail, c);
  }

  /** Every prefix of an accepted file is accepted: cutting off the end is not noticed. */
  lemma {:induction false} PrefixIsAccepted(hash: EventHash, lines: seq<Line>, i: nat)
    requires VerdictOf(hash, Some(lines)) == Accepted && i <= |lines|
    ensures VerdictOf(hash, Some(lines[..i])) == Accepted
  {
    if i < |lines| {
      StepIsClean(hash, CheckFrom(hash, START, lines[..|lines| - 1]), lines[|lines| - 1]);
      PrefixIsAccepted(hash, lines[..|lines| - 1], i);
      assert lines[..|lines| - 1][..i] == lines[..i];
    } else {
      assert lines[..i] == lines;
    }
  }

  lemma CheckOne(hash: EventHash, c: Check, e: Entry)
    ensures CheckFrom(hash, c, Lines([e])) == Step(hash, c, Event(e))
  {
    assert Lines([e])[..0] == [];
  }

  /** Blank lines change neither the report nor its line numbers, so that what follows holds of files with any. */
  lemma {:induction false} BlankLinesDoNotCount(hash: EventHash, c: Check, lines: seq<Line>)
    requires Parses(lines)
    ensures CheckFrom(hash, c, lines) == CheckFrom(hash, c, Lines(EntriesOf(lines)))
  {
    if lines != [] {
      var (before, last) := (lines[..|lines| - 1], lines[|lines| - 1]);
      BlankLinesDoNotCount(hash, c, before);
      if last.Event? {
        CheckSplitsEvents(hash, c, EntriesOf(before), [last.entry]);
        CheckOne(hash, CheckFrom(hash, c, Lines(EntriesOf(before))), last.entry);
      } else {
        assert EntriesOf(lines) == EntriesOf(before) + [];
        assert EntriesOf(before) + [] == EntriesOf(before);
      }
    }
  }

  /** The two parts of a chain around the places `i` to `j`. */
  lemma AroundIsSound(hash: EventHash, entries: seq<Entry>, i: nat, j: nat)
    requires Chain(hash, entries) && i <= j <= |entries|
    ensures Chain(hash, entries[..i]) && Stretch(hash, entries[j..])
    ensures Last(entries[..i], []) == HashBefore(entries, i)
    ensures j < |entries| ==> entries[j..][0].prev == HashBefore(entries, j)
  {
    var (head, tail) := (entries[..i], entries[j..]);
    forall k | 0 <= k < i ensures LinkedAt(hash, head, k) {
      assert LinkedAt(hash, entries, k) && HashBefore(head, k) == HashBefore(entries, k);
    }
    forall k | 0 <= k < |tail| ensures FollowsAt(hash, tail, k) {
      assert LinkedAt(hash, entries, j + k);
    }
    assert j < |entries| ==> LinkedAt(hash, entries, j);
  }

  lemma CheckTwo(hash: EventHash, c: Check, d: Entry, e: Entry)
    ensures CheckFrom(hash, c, Lines([d, e])) == Step(hash, Step(hash, c, Event(d)), Event(e))
  {
    CheckOne(hash, c, d);
    assert Lines([d, e])[..1] == Lines([d]);
  }

  lemma Rewritten(hash: EventHash, e: Entry, before: Bytes, i: nat) returns (c: Check)
    requires e.prev == before
    ensures c == CheckFrom(hash, Check(before, i, [], false), Lines([e]))
    ensures c == Check(hash(before, e.body), i + 1, if Sound(hash, e) then [] else [Tampered(i + 1)], false)
  {
    CheckOne(hash, Check(before, i, [], false), e);
    c := Step(hash, Check(before, i, [], false), Event(e));
  }

  /** Rewriting the body of event `i` and keeping both its hashes is reported at its line and at the next one,
      unless the new body has the same hash. */
  lemma RewrittenBody(hash: EventHash, entries: seq<Entry>, i: nat, body: Bytes)
    requires Chain(hash, entries) && i < |entries|
    ensures
      Problems(hash, entries[..i] + [entries[i].(body := body)] + entries[i + 1..])
      == if hash(entries[i].prev, body) == entries[i].hash then []
        else [Tampered(i + 1)] + if i + 1 < |entries| then [BrokenLink(i + 2)] else []
  {
    var e := entries[i].(body := body);
    assert LinkedAt(hash, entries, i);
    AroundIsSound(hash, entries, i, i + 1);
    var c := Rewritten(hash, e, HashBefore(entries, i), i);
    Spliced(hash, entries[..i], [e], entries[i + 1..], c);
  }

  /** Removing event `i` is reported once, at the line that takes its place, if there is one. */
  lemma RemovedEvent(hash: EventHash, entries: seq<Entry>, i: nat)
    requires Chain(hash, entries) && i < |entries|
    ensures
      Problems(hash, entries[..i] + [] + entries[i + 1..])
      == if i + 1 < |entries| && entries[i].hash != HashBefore(entries, i) then [BrokenLink(i + 1)] else []
  {
    AroundIsSound(hash, entries, i, i + 1);
    assert Lines([]) == [];
    Spliced(hash, entries[..i], [], entries[i + 1..], Check(HashBefore(entries, i), i, [], false));
  }

  lemma Swapped(hash: EventHash, a: Entry, b: Entry, before: Bytes, i: nat) returns (c: Check)
    requires Sound(hash, a) && Sound(hash, b) && a.prev == before && b.prev == a.hash
    ensures c == CheckFrom(hash, Check(before, i, [], false), Lines([b, a]))
    ensures c == Check(a.hash, i + 2, (if a.hash != before then [BrokenLink(i + 1)] else [])
      + if before != b.hash then [BrokenLink(i + 2)] else [], false)
  {
    CheckTwo(hash, Check(before, i, [], false), b, a);
    c := Step(hash, Step(hash, Check(before, i, [], false), Event(b)), Event(a));
  }

  /** Exchanging two neighbours breaks three links, or two at the end of the file, unless hashes coincide. */
  lemma SwappedEvents(hash: EventHash, entries: seq<Entry>, i: nat)
    requires Chain(hash, entries) && i + 1 < |entries|
    ensures
      Problems(hash, entries[..i] + [entries[i + 1], entries[i]] + entries[i + 2..])
      == (if entries[i].hash != HashBefore(entries, i) then [BrokenLink(i + 1)] else [])
        + (if HashBefore(entries, i) != entries[i + 1].hash then [BrokenLink(i + 2)] else [])
        + (if i + 2 < |entries| && entries[i + 1].hash != entries[i].hash then [BrokenLink(i + 3)] else [])
  {
    var (a, b, before) := (entries[i], entries[i + 1], HashBefore(entries, i));
    assert LinkedAt(hash, entries, i) && LinkedAt(hash, entries, i + 1);
    AroundIsSound(hash, entries, i, i + 2);
    var c := Swapped(hash, a, b, before, i);
    Spliced(hash, entries[..i], [b, a], entries[i + 2..], c);
  }
}
