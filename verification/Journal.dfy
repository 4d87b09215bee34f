/** The crash-safe journal of benchmark runs: persistence.py. */
module Journal {
  import opened ModelTopology

  type Byte = b: int | 0 <= b < 256

  const NEWLINE: Byte := 10

  type Bytes = seq<Byte>

  datatype Record = Record(runId: string, finished: bool, termination: string, details: seq<(string, string)>)

  /** What a line of the journal is: an event, or one of the three errors. */
  datatype Line = Event(record: Record) | Corrupt | Unsupported | Invalid

  /** The serialisation of events; the journal only relies on ValidCodec. */
  datatype Codec = Codec(encode: Record -> Bytes, decode: Bytes -> Line)

  ghost predicate ValidCodec(c: Codec)
  {
    forall r :: NEWLINE !in c.encode(r) && c.decode(c.encode(r)) == Event(r)
  }

  function Payload(c: Codec, r: Record): Bytes
  {
    c.encode(r) + [NEWLINE]
  }

  /** The bytes of committed records. */
  function Committed(c: Codec, records: seq<Record>): Bytes
  {
    if records == [] then [] else Committed(c, records[..|records| - 1]) + Payload(c, records[|records| - 1])
  }

  /** The last record of every run. */
  function LatestOf(records: seq<Record>): map<string, Record>
  {
    if records == [] then map[]
    else LatestOf(records[..|records| - 1])[records[|records| - 1].runId := records[|records| - 1]]
  }

  predicate LastOf(records: seq<Record>, id: string, i: nat)
  {
    i < |records| && records[i].runId == id && forall j :: i < j < |records| ==> records[j].runId != id
  }

  lemma {:induction false} LatestIsLast(records: seq<Record>, id: string, i: nat)
    requires LastOf(records, id, i)
    ensures id in LatestOf(records) && LatestOf(records)[id] == records[i]
  {
    if i < |records| - 1 {
      LatestIsLast(records[..|records| - 1], id, i);
    }
  }

  lemma {:induction false} LatestKnows(records: seq<Record>, id: string) returns (i: nat)
    requires id in LatestOf(records)
    ensures LastOf(records, id, i)
  {
    i := |records| - 1;
    if records[i].runId != id {
      i := LatestKnows(records[..i], id);
    }
  }

  // ----- reading

  /** The position of the first newline, or the length. */
  function LineEnd(bytes: Bytes): (n: nat)
    ensures n <= |bytes| && NEWLINE !in bytes[..n] && (n < |bytes| ==> bytes[n] == NEWLINE)
  {
    if bytes == [] || bytes[0] == NEWLINE then 0 else 1 + LineEnd(bytes[1..])
  }

  datatype Reading = Reading(records: seq<Record>, kept: nat)

  /** All complete lines; the error of the first bad one; a last line without newline is left out. */
  function ReadLines(c: Codec, bytes: Bytes): (r: Result<Reading>)
    ensures r.Ok? ==> r.value.kept <= |bytes|
    decreases |bytes|
  {
    var n := LineEnd(bytes);
    if n == |bytes| then Ok(Reading([], 0)) else
    match c.decode(bytes[..n])
    case Event(record) =>
      var rest := ReadLines(c, bytes[n + 1..]);
      if rest.Err? then rest else Ok(Reading([record] + rest.value.records, n + 1 + rest.value.kept))
    case Corrupt => Err("Corrupt committed JSONL record")
    case Unsupported => Err("Unsupported journal record")
    case Invalid => Err("Invalid journal event")
  }

  lemma {:induction false} LineEndOf(line: Bytes, rest: Bytes)
    requires NEWLINE !in line
    ensures LineEnd(line + [NEWLINE] + rest) == |line|
    decreases |line|
  {
    var bytes := line + [NEWLINE] + rest;
    if line != [] {
      assert line[0] in line;
      assert bytes[1..] == line[1..] + [NEWLINE] + rest;
      assert forall b :: b in line[1..] ==> b in line;
      LineEndOf(line[1..], rest);
    }
  }

  lemma {:induction false} NoLineEnd(line: Bytes)
    requires NEWLINE !in line
    ensures LineEnd(line) == |line|
  {
    assert forall i :: 0 <= i < |line| ==> line[i] != NEWLINE;
  }

  function ReadAfter(first: seq<Record>, kept: nat, rest: Result<Reading>): Result<Reading>
  {
    if rest.Err? then rest else Ok(Reading(first + rest.value.records, kept + rest.value.kept))
  }

  lemma ReadAfterTwice(a: seq<Record>, k: nat, b: seq<Record>, m: nat, rest: Result<Reading>)
    ensures ReadAfter(a, k, ReadAfter(b, m, rest)) == ReadAfter(a + b, k + m, rest)
    ensures ReadAfter([], 0, rest) == rest
  {
    if rest.Ok? {
      assert a + (b + rest.value.records) == (a + b) + rest.value.records;
      assert [] + rest.value.records == rest.value.records;
    }
  }

  /** Reading skips over committed records. */
  lemma {:induction false} ReadCommitted(c: Codec, records: seq<Record>, rest: Bytes)
    requires ValidCodec(c)
    ensures ReadLines(c, Committed(c, records) + rest) == ReadAfter(records, |Committed(c, records)|, ReadLines(c, rest))
    decreases |records|
  {
    hide ReadLines, ReadAfter, Payload;
    if records == [] {
      assert Committed(c, records) + rest == rest;
      ReadAfterTwice([], 0, [], 0, ReadLines(c, rest));
    } else {
      var init, last := records[..|records| - 1], records[|records| - 1];
      assert Committed(c, records) + rest == Committed(c, init) + (Payload(c, last) + rest);
      ReadCommitted(c, init, Payload(c, last) + rest);
      ReadOne(c, last, rest);
      ReadAfterTwice(init, |Committed(c, init)|, [last], |Payload(c, last)|, ReadLines(c, rest));
      assert init + [last] == records;
    }
  }

  lemma {:induction false} ReadOne(c: Codec, r: Record, rest: Bytes)
    requires ValidCodec(c)
    ensures ReadLines(c, Payload(c, r) + rest) == ReadAfter([r], |Payload(c, r)|, ReadLines(c, rest))
  {
    var line := c.encode(r);
    var bytes := Payload(c, r) + rest;
    assert bytes == line + [NEWLINE] + rest;
    LineEndOf(line, rest);
    assert bytes[..|line|] == line && bytes[|line| + 1..] == rest;
  }

  lemma {:induction false} ReadWithTail(c: Codec, records: seq<Record>, tail: Bytes)
    requires ValidCodec(c) && NEWLINE !in tail
    ensures ReadLines(c, Committed(c, records) + tail) == Ok(Reading(records, |Committed(c, records)|))
  {
    ReadCommitted(c, records, tail);
    NoLineEnd(tail);
    assert records + [] == records;
  }

  // ----- what reading means for an arbitrary file

  function Joined(lines: seq<Bytes>): Bytes
  {
    if lines == [] then [] else lines[0] + [NEWLINE] + Joined(lines[1..])
  }

  predicate Unbroken(lines: seq<Bytes>)
  {
    forall i :: 0 <= i < |lines| ==> NEWLINE !in lines[i]
  }

  /** Every file is a sequence of complete lines and a rest without a newline. */
  lemma {:induction false} SplitIntoLines(bytes: Bytes) returns (lines: seq<Bytes>, tail: Bytes)
    ensures bytes == Joined(lines) + tail && Unbroken(lines) && NEWLINE !in tail
    decreases |bytes|
  {
    hide LineEnd;
    var n := LineEnd(bytes);
    if n == |bytes| {
      assert bytes[..n] == bytes && Joined([]) + bytes == bytes;
      return [], bytes;
    }
    lines, tail := SplitIntoLines(bytes[n + 1..]);
    assert bytes == bytes[..n] + [NEWLINE] + bytes[n + 1..];
    assert ([bytes[..n]] + lines)[1..] == lines;
    assert Joined([bytes[..n]] + lines) + tail == bytes[..n] + [NEWLINE] + (Joined(lines) + tail);
    lines := [bytes[..n]] + lines;
  }

  predicate FirstBad(c: Codec, lines: seq<Bytes>, i: nat)
  {
    i < |lines| && !c.decode(lines[i]).Event? && forall j :: 0 <= j < i ==> c.decode(lines[j]).Event?
  }

  /** The error that belongs to a line. */
  predicate Reports(line: Line, error: string)
  {
    && (line.Corrupt? <==> error == "Corrupt committed JSONL record")
    && (line.Unsupported? <==> error == "Unsupported journal record")
    && (line.Invalid? <==> error == "Invalid journal event")
  }

  predicate ReadsAll(c: Codec, lines: seq<Bytes>, r: Reading)
  {
    && r.kept == |Joined(lines)| && |r.records| == |lines|
    && forall i :: 0 <= i < |lines| ==> c.decode(lines[i]) == Event(r.records[i])
  }

  /** All complete lines are events and are read, or the result is the error of the first one that is not. */
  ghost predicate ReadsExactly(c: Codec, lines: seq<Bytes>, r: Result<Reading>)
  {
    && (r.Ok? <==> forall i :: 0 <= i < |lines| ==> c.decode(lines[i]).Event?)
    && (r.Ok? ==> ReadsAll(c, lines, r.value))
    && (r.Err? ==> exists i: nat :: FirstBad(c, lines, i) && Reports(c.decode(lines[i]), r.message))
  }

  /** What reading returns for an arbitrary file, line by line. */
  lemma {:induction false} ReadLinesExact(c: Codec, lines: seq<Bytes>, tail: Bytes)
    requires Unbroken(lines) && NEWLINE !in tail
    ensures ReadsExactly(c, lines, ReadLines(c, Joined(lines) + tail))
    decreases |lines|
  {
    hide ReadsExactly, Continues;
    var bytes := Joined(lines) + tail;
    if lines == [] {
      assert bytes == tail;
      NoLineEnd(tail);
      NothingToRead(c);
    } else {
      var rest := Joined(lines[1..]) + tail;
      assert bytes == lines[0] + [NEWLINE] + rest;
      FirstIsRead(c, lines[0], rest);
      ReadLinesExact(c, lines[1..], tail);
      FirstThenRest(c, lines, ReadLines(c, rest), ReadLines(c, bytes));
    }
  }

  /** The result of a file from its first line and the result of the rest. */
  predicate Continues(first: Line, n: nat, rest: Result<Reading>, r: Result<Reading>)
  {
    if first.Event? then r == ReadAfter([first.record], n + 1, rest) else r.Err? && Reports(first, r.message)
  }

  lemma {:induction false} FirstIsRead(c: Codec, line: Bytes, rest: Bytes)
    requires NEWLINE !in line
    ensures Continues(c.decode(line), |line|, ReadLines(c, rest), ReadLines(c, line + [NEWLINE] + rest))
  {
    var bytes := line + [NEWLINE] + rest;
    LineEndOf(line, rest);
    assert bytes[..|line|] == line && bytes[|line| + 1..] == rest;
  }

  lemma NothingToRead(c: Codec)
    ensures ReadsExactly(c, [], Ok(Reading([], 0)))
  {
  }

  lemma FirstThenRest(c: Codec, lines: seq<Bytes>, rest: Result<Reading>, r: Result<Reading>)
    requires lines != [] && ReadsExactly(c, lines[1..], rest) && Continues(c.decode(lines[0]), |lines[0]|, rest, r)
    ensures ReadsExactly(c, lines, r)
  {
    hide Reports;
    assert forall i :: 0 <= i < |lines| - 1 ==> lines[1..][i] == lines[i + 1];
    if !c.decode(lines[0]).Event? {
      assert FirstBad(c, lines, 0);
    } else if rest.Err? {
      var i: nat :| FirstBad(c, lines[1..], i) && Reports(c.decode(lines[1..][i]), rest.message);
      forall j | 0 <= j < i + 1 ensures c.decode(lines[j]).Event? {
        if j > 0 { assert lines[1..][j - 1] == lines[j]; }
      }
      assert FirstBad(c, lines, i + 1);
    } else {
      forall i | 0 <= i < |lines| ensures c.decode(lines[i]) == Event(r.value.records[i]) {
        if i > 0 { assert lines[1..][i - 1] == lines[i]; }
      }
    }
  }

  class JournalFile {
    var bytes: Bytes

    constructor ()
      ensures bytes == []
    {
      bytes := [];
    }
  }

  /** `read_journal`: with `repair`, an unfinished last line is cut off. */
  method ReadJournal(c: Codec, file: JournalFile, repair: bool) returns (r: Result<map<string, Record>>)
    modifies file
    ensures r.Ok? <==> ReadLines(c, old(file.bytes)).Ok?
    ensures r.Ok? ==> r.value == LatestOf(ReadLines(c, old(file.bytes)).value.records)
    ensures file.bytes == if r.Ok? && repair then old(file.bytes)[..ReadLines(c, old(file.bytes)).value.kept]
                          else old(file.bytes)
  {
    hide LineEnd;
    var bytes, offset, latest := file.bytes, 0, map[];
    ghost var records: seq<Record> := [];
    assert bytes[0..] == bytes;
    ReadAfterTwice([], 0, [], 0, ReadLines(c, bytes));
    while true
      invariant offset <= |bytes| && file.bytes == bytes == old(file.bytes)
      invariant latest == LatestOf(records)
      invariant ReadLines(c, bytes) == ReadAfter(records, offset, ReadLines(c, bytes[offset..]))
      decreases |bytes| - offset
    {
      var rest := bytes[offset..];
      var n := LineEnd(rest);
      if n == |rest| {
        // Only a final, uncommitted line is discarded.
        if repair && n > 0 {
          file.bytes := bytes[..offset];
        }
        assert bytes[..|bytes|] == bytes && records + [] == records;
        return Ok(latest);
      }
      match c.decode(rest[..n])
      case Corrupt => return Err("Corrupt committed JSONL record");
      case Unsupported => return Err("Unsupported journal record");
      case Invalid => return Err("Invalid journal event");
      case Event(record) =>
        ReadNext(c, records, offset, rest, n, record);
        latest := latest[record.runId := record];
        assert (records + [record])[..|records|] == records;
        records := records + [record];
        assert rest[n + 1..] == bytes[offset + n + 1..];
        offset := offset + n + 1;
    }
  }

  lemma {:induction false} ReadNext(c: Codec, records: seq<Record>, offset: nat, rest: Bytes, n: nat, record: Record)
    requires n == LineEnd(rest) && n < |rest| && c.decode(rest[..n]) == Event(record)
    ensures ReadAfter(records, offset, ReadLines(c, rest))
         == ReadAfter(records + [record], offset + n + 1, ReadLines(c, rest[n + 1..]))
  {
    hide ReadAfter, LineEnd;
    FirstLine(c, rest, n, record);
    ReadAfterTwice(records, offset, [record], n + 1, ReadLines(c, rest[n + 1..]));
  }

  lemma {:induction false} FirstLine(c: Codec, rest: Bytes, n: nat, record: Record)
    requires n == LineEnd(rest) && n < |rest| && c.decode(rest[..n]) == Event(record)
    ensures ReadLines(c, rest) == ReadAfter([record], n + 1, ReadLines(c, rest[n + 1..]))
  {
    hide LineEnd;
  }

  class ResultStore {
    const codec: Codec
    const file: JournalFile
    const retryErrors: bool
    var latest: map<string, Record>
    var entered: bool

    /** While the store is entered, the file holds exactly the committed records, and `latest` sums them up. */
    ghost predicate Consistent(committed: seq<Record>)
      reads this, file
    {
      file.bytes == Committed(codec, committed) && latest == LatestOf(committed)
    }

    constructor (codec: Codec, file: JournalFile, retryErrors: bool)
      ensures this.codec == codec && this.file == file && !entered && latest == map[]
    {
      this.codec, this.file, this.retryErrors, latest, entered := codec, file, retryErrors, map[], false;
    }

    /** `__enter__` with a free lock: existing runs need `resume`; what a crash left behind is repaired. */
    method Enter(resume: bool, ghost committed: seq<Record>, ghost tail: Bytes) returns (ok: bool)
      requires ValidCodec(codec) && file.bytes == Committed(codec, committed) + tail && NEWLINE !in tail
      modifies this, file
      ensures ok <==> resume || old(file.bytes) == []
      ensures ok ==> entered && Consistent(committed)
      ensures !ok ==> file.bytes == old(file.bytes)
    {
      if file.bytes != [] && !resume {
        return false;
      }
      ReadWithTail(codec, committed, tail);
      assert file.bytes[..|Committed(codec, committed)|] == Committed(codec, committed);
      var read := ReadJournal(codec, file, true);
      latest, entered := read.value, true;
      ok := true;
    }

    /** An append that is not interrupted commits its record. */
    method Append(record: Record, ghost committed: seq<Record>)
      requires entered && Consistent(committed)
      modifies this, file
      ensures entered && Consistent(committed + [record])
    {
      file.bytes := file.bytes + Payload(codec, record);
      latest := latest[record.runId := record];
      assert (committed + [record])[..|committed|] == committed;
    }

    /** `completed`: the last record of the run says that it finished, and it is not to be tried again. */
    method Completed(runId: string, ghost committed: seq<Record>) returns (done: bool)
      requires Consistent(committed)
      ensures done <==> (&& runId in LatestOf(committed) && LatestOf(committed)[runId].finished
                         && LatestOf(committed)[runId].termination != "interrupted"
                         && !(retryErrors && LatestOf(committed)[runId].termination == "solver_error"))
    {
      if runId !in latest || !latest[runId].finished || latest[runId].termination == "interrupted" {
        return false;
      }
      done := !(retryErrors && latest[runId].termination == "solver_error");
    }
  }

  // ----- runs with crashes

  /** The disk, the memory of the writer while it is up, and what has been acknowledged and committed so far. */
  datatype System = System(
    bytes: Bytes, up: bool, latest: map<string, Record>, acknowledged: seq<Record>, committed: seq<Record>)

  ghost predicate AppendStep(c: Codec, s: System, s': System, r: Record)
  {
    s.up && s' == s.(bytes := s.bytes + Payload(c, r), latest := s.latest[r.runId := r],
                     acknowledged := s.acknowledged + [r], committed := s.committed + [r])
  }

  /** A crash during an append leaves any prefix of the payload; the whole payload counts as committed. */
  ghost predicate CrashStep(c: Codec, s: System, s': System, r: Record, n: nat)
  {
    s.up && n <= |Payload(c, r)| &&
    s' == s.(bytes := s.bytes + Payload(c, r)[..n], up := false, latest := map[],
             committed := if n == |Payload(c, r)| then s.committed + [r] else s.committed)
  }

  /** Opening again repairs the file and reads it. */
  ghost predicate ReopenStep(c: Codec, s: System, s': System)
  {
    && !s.up && ReadLines(c, s.bytes).Ok?
    && s' == s.(bytes := s.bytes[..ReadLines(c, s.bytes).value.kept], up := true,
                latest := LatestOf(ReadLines(c, s.bytes).value.records))
  }

  ghost predicate Step(c: Codec, s: System, s': System)
  {
    || (exists r :: AppendStep(c, s, s', r))
    || (exists r, n: nat :: CrashStep(c, s, s', r, n))
    || ReopenStep(c, s, s')
  }

  /** What a crash may leave behind the committed records. */
  ghost predicate CleanUpTo(c: Codec, s: System, tail: Bytes)
  {
    s.bytes == Committed(c, s.committed) + tail && NEWLINE !in tail && (s.up ==> tail == [])
  }

  ghost predicate Inv(c: Codec, s: System)
  {
    && (exists tail :: CleanUpTo(c, s, tail))
    && (s.up ==> s.latest == LatestOf(s.committed))
    && multiset(s.acknowledged) <= multiset(s.committed)
  }

  lemma {:induction false} CommittedSnoc(c: Codec, records: seq<Record>, r: Record)
    ensures Committed(c, records + [r]) == Committed(c, records) + Payload(c, r)
    ensures LatestOf(records + [r]) == LatestOf(records)[r.runId := r]
  {
    assert (records + [r])[..|records|] == records;
  }

  lemma StepKeeps(c: Codec, s: System, s': System)
    requires ValidCodec(c) && Inv(c, s) && Step(c, s, s')
    ensures Inv(c, s')
  {
    hide ReadLines, LatestOf, Committed;
    var tail :| CleanUpTo(c, s, tail);
    if r :| AppendStep(c, s, s', r) {
      CommittedSnoc(c, s.committed, r);
      assert s.bytes == Committed(c, s.committed);
      assert s'.bytes == Committed(c, s'.committed) + [];
      assert CleanUpTo(c, s', []);
    } else if r, n: nat :| CrashStep(c, s, s', r, n) {
      CommittedSnoc(c, s.committed, r);
      assert s.bytes == Committed(c, s.committed);
      if n == |Payload(c, r)| {
        assert Payload(c, r)[..n] == Payload(c, r);
        assert s'.bytes == Committed(c, s'.committed) + [];
        assert CleanUpTo(c, s', []);
      } else {
        assert forall b :: b in Payload(c, r)[..n] ==> b in c.encode(r);
        assert CleanUpTo(c, s', Payload(c, r)[..n]);
      }
    } else {
      ReadWithTail(c, s.committed, tail);
      assert s'.bytes == Committed(c, s.committed) + [];
      assert CleanUpTo(c, s', []);
    }
  }

  ghost predicate IsRun(c: Codec, run: seq<System>)
  {
    && run != [] && run[0] == System([], true, map[], [], [])
    && forall i :: 0 < i < |run| ==> Step(c, run[i - 1], run[i])
  }

  lemma {:induction false} RunKeeps(c: Codec, run: seq<System>)
    requires ValidCodec(c) && IsRun(c, run)
    ensures Inv(c, run[|run| - 1])
  {
    hide Inv, Step;
    if |run| == 1 {
      StartOk(c);
    } else {
      var init := run[..|run| - 1];
      assert forall i :: 0 <= i < |init| ==> init[i] == run[i];
      RunKeeps(c, init);
      assert Step(c, run[|run| - 2], run[|run| - 1]);
      StepKeeps(c, run[|run| - 2], run[|run| - 1]);
    }
  }

  lemma StartOk(c: Codec)
    ensures Inv(c, System([], true, map[], [], []))
  {
    assert CleanUpTo(c, System([], true, map[], [], []), []);
  }

  /**
   Crash recovery: after any appends, crashes and reopenings, a running writer has exactly the committed
   records on disk and their last one per run in memory, and no acknowledged record is ever missing.
   */
  lemma {:induction false} RunningWriterIsConsistent(c: Codec, run: seq<System>, s: System)
    requires ValidCodec(c) && IsRun(c, run) && s == run[|run| - 1] && s.up
    ensures s.bytes == Committed(c, s.committed) && s.latest == LatestOf(s.committed)
    ensures multiset(s.acknowledged) <= multiset(s.committed)
  {
    hide IsRun, ReadLines;
    RunKeeps(c, run);
    var tail :| CleanUpTo(c, s, tail);
    assert Committed(c, s.committed) + [] == Committed(c, s.committed);
  }

  /** Reopening after a crash always succeeds, and loses nothing that was committed. */
  lemma {:induction false} ReopeningSucceeds(c: Codec, run: seq<System>, s: System)
    requires ValidCodec(c) && IsRun(c, run) && s == run[|run| - 1]
    ensures ReadLines(c, s.bytes) == Ok(Reading(s.committed, |Committed(c, s.committed)|))
  {
    hide IsRun, ReadLines, Committed;
    RunKeeps(c, run);
    var tail :| CleanUpTo(c, s, tail);
    ReadWithTail(c, s.committed, tail);
  }
}
