/**
 `LogFile`: appending to the current file, and starting a new one by size or by day. The clock and the
 device are parameters: `began` is the time at which an append begins, `check` and `roll` are what the two
 calls of `time` return if they are made, and attempt `k` to write takes at most `accept(k)` bytes.
 `count_` and `writtenBytes_`, which the source never initialises, are assumed to start at 0.
*/
module LogFiles {
  import opened Numerals
  import opened Sequences

  const CHECK_TIME_ROLL := 1024
  const ROLL_PER_SECONDS := 86400

  function Period(now: int): int { TruncDiv(now, ROLL_PER_SECONDS) * ROLL_PER_SECONDS }

  // ---------------------------------------------------------------- writing one line

  function Clip(x: nat, remain: nat): nat { if x < remain then x else remain }

  /** What attempts `k`, `k` + 1, ... deliver of `remain` bytes; an attempt that takes nothing is the last. */
  function Retry(accept: nat -> nat, k: nat, remain: nat): (n: nat)
    ensures n <= remain
    decreases remain
  {
    var x := Clip(accept(k), remain);
    if x == 0 then 0 else x + Retry(accept, k + 1, remain - x)
  }

  /** What `File::append` delivers of `len` bytes; the first attempt may take nothing. */
  function Delivered(accept: nat -> nat, len: nat): (n: nat)
    ensures n <= len
  {
    var x := Clip(accept(0), len);
    x + Retry(accept, 1, len - x)
  }

  /** How many bytes the device offers to take in the attempts before number `k`. */
  function Offered(accept: nat -> nat, k: nat): nat {
    if k == 0 then 0 else Offered(accept, k - 1) + accept(k - 1)
  }

  lemma {:induction false} OfferedGrows(accept: nat -> nat, j: nat, k: nat)
    requires j <= k
    ensures Offered(accept, j) <= Offered(accept, k)
  {
    if j == k {
    } else {
      OfferedGrows(accept, j, k - 1);
    }
  }

  /** An attempt that takes nothing comes only after `len` bytes have been offered. */
  ghost predicate NoGap(accept: nat -> nat, from: nat, len: nat) {
    forall k: nat :: k >= from && accept(k) == 0 ==> Offered(accept, k) >= len
  }

  lemma {:induction false} RetryCompleteIff(accept: nat -> nat, k: nat, remain: nat)
    ensures Retry(accept, k, remain) == remain <==> NoGap(accept, k, Offered(accept, k) + remain)
    decreases remain
  {
    var len := Offered(accept, k) + remain;
    var x := Clip(accept(k), remain);
    if remain == 0 {
      forall j: nat | j >= k ensures Offered(accept, j) >= len { OfferedGrows(accept, k, j); }
    } else if x == 0 {
      assert accept(k) == 0 && Offered(accept, k) < len;
    } else if accept(k) >= remain {
      assert Retry(accept, k + 1, 0) == 0;
      forall j: nat | j >= k && accept(j) == 0 ensures Offered(accept, j) >= len {
        OfferedGrows(accept, k + 1, j);
      }
    } else {
      RetryCompleteIff(accept, k + 1, remain - x);
      assert Offered(accept, k + 1) + (remain - x) == len;
    }
  }

  /** A line is written in full exactly when no attempt after the first takes nothing too early. */
  lemma DeliveredInFullIff(accept: nat -> nat, len: nat)
    ensures Delivered(accept, len) == len <==> NoGap(accept, 1, len)
  {
    var x := Clip(accept(0), len);
    assert Offered(accept, 1) == Offered(accept, 0) + accept(0) == accept(0);
    if accept(0) <= len {
      RetryCompleteIff(accept, 1, len - x);
    } else {
      RetryCompleteIff(accept, 1, 0);
      forall j: nat | j >= 1 ensures Offered(accept, j) >= len { OfferedGrows(accept, 1, j); }
    }
  }

  lemma {:induction false} RetryAtGap(accept: nat -> nat, k: nat, remain: nat, gap: nat)
    requires k <= gap && accept(gap) == 0 && Offered(accept, gap) < Offered(accept, k) + remain
    requires forall j: nat :: k <= j < gap ==> accept(j) > 0
    ensures Offered(accept, k) + Retry(accept, k, remain) == Offered(accept, gap)
    decreases gap - k
  {
    if k == gap {
    } else {
      OfferedGrows(accept, k + 1, gap);
      assert Clip(accept(k), remain) == accept(k);
      RetryAtGap(accept, k + 1, remain - accept(k), gap);
    }
  }

  /** Otherwise it is cut at the first such attempt: what was offered before it has been written. */
  lemma DeliveredAtGap(accept: nat -> nat, len: nat, gap: nat)
    requires gap >= 1 && accept(gap) == 0 && Offered(accept, gap) < len
    requires forall j: nat :: 1 <= j < gap ==> accept(j) > 0
    ensures Delivered(accept, len) == Offered(accept, gap)
  {
    OfferedGrows(accept, 1, gap);
    assert Offered(accept, 1) == Offered(accept, 0) + accept(0) == accept(0);
    RetryAtGap(accept, 1, len - accept(0), gap);
  }

  lemma AppendSlice(before: string, line: string, m: nat, n: nat)
    requires m <= n <= |line|
    ensures (before + line[..m]) + line[m..n] == before + line[..n]
  {
  }

  /** `LogFile::File`: `bytes` is what the file holds. */
  class File {
    var bytes: string
    var written: nat
    var flushed: nat

    constructor ()
      ensures bytes == "" && written == 0 && flushed == 0
    {
      bytes, written, flushed := "", 0, 0;
    }

    /** The loop of `File::append`. It ends whatever the device does. */
    method Append(logline: string, accept: nat -> nat)
      modifies this
      ensures bytes == old(bytes) + logline[..Delivered(accept, |logline|)]
      ensures written == old(written) + |logline| && flushed == old(flushed)
    {
      var len := |logline|;
      var n: nat := Clip(accept(0), len);
      bytes := bytes + logline[..n];
      var remain: nat, attempt: nat := len - n, 1;
      while remain > 0
        invariant n <= len && n + remain == len
        invariant bytes == old(bytes) + logline[..n]
        invariant n + Retry(accept, attempt, remain) == Delivered(accept, len)
        invariant written == old(written) && flushed == old(flushed)
      {
        var x := Clip(accept(attempt), remain);
        if x == 0 {
          break;
        }
        AppendSlice(old(bytes), logline, n, n + x);
        bytes := bytes + logline[n..n + x];
        n := n + x;
        remain := len - n;
        attempt := attempt + 1;
      }
      written := written + len;
    }

    method Flush()
      modifies this`flushed
      ensures flushed == |bytes|
    {
      flushed := |bytes|;
    }
  }

  // ---------------------------------------------------------------- the state machine

  /** One file. The fields from `born` on are history: the clock reading of the roll that created it, the
      number of the first line in it, the bytes whose append began in second `born`, the length of the last
      line, and how many lines began on a later day. */
  datatype FileState = FileState(
    bytes: string, written: nat, flushed: nat,
    born: int, first: nat, early: nat, last: nat, late: nat)

  /** `lines` are the appended lines and `chunks` what was delivered of each; both are history, and so are
      all `files` but the last. */
  datatype Log = Log(
    rollSize: nat, flushInterval: int,
    count: nat, startOfPeriod: int, lastRoll: int, lastFlush: int,
    files: seq<FileState>, lines: seq<string>, chunks: seq<string>)

  datatype Op = Append(line: string, accept: nat -> nat, began: int, check: int, roll: int)

  function Current(s: Log): FileState
    requires s.files != []
  {
    s.files[|s.files| - 1]
  }

  function WithCurrent(s: Log, f: FileState): Log
    requires s.files != []
  {
    s.(files := s.files[|s.files| - 1 := f])
  }

  function Flushed(f: FileState): FileState { f.(flushed := |f.bytes|) }

  /** `rollFile`; closing the old file flushes it. */
  function Rolled(s: Log, now: int): Log {
    if now > s.lastRoll then
      var closed := if s.files == [] then s else WithCurrent(s, Flushed(Current(s)));
      closed.(lastRoll := now, lastFlush := now, startOfPeriod := Period(now),
              files := closed.files + [FileState("", 0, 0, now, |s.lines|, 0, 0, 0)])
    else s
  }

  function Init(rollSize: nat, flushInterval: int, now: int): Log {
    Rolled(Log(rollSize, flushInterval, 0, 0, 0, 0, [], [], []), now)
  }

  function Write(s: Log, op: Op): Log
    requires s.files != []
  {
    var f := Current(s);
    var chunk := op.line[..Delivered(op.accept, |op.line|)];
    WithCurrent(s, f.(
      bytes := f.bytes + chunk, written := f.written + |op.line|,
      early := f.early + (if op.began == f.born then |op.line| else 0), last := |op.line|,
      late := f.late + (if op.began / 86400 > f.born / 86400 then 1 else 0)))
    .(lines := s.lines + [op.line], chunks := s.chunks + [chunk])
  }

  /** The append leaves the file within its size. */
  predicate StaysWithin(s: Log, op: Op)
    requires s.files != []
  {
    Current(s).written + |op.line| <= s.rollSize
  }

  /** The append looks at the clock to see whether the day is over. */
  predicate Checks(s: Log, op: Op)
    requires s.files != []
  {
    StaysWithin(s, op) && s.count > CHECK_TIME_ROLL
  }

  function Next(s: Log, op: Op): Log
    requires s.files != []
  {
    var s1 := Write(s, op);
    if Current(s1).written > s.rollSize then Rolled(s1, op.roll)
    else if s.count > CHECK_TIME_ROLL then
      var s2 := s1.(count := 0);
      if Period(op.check) != s.startOfPeriod then Rolled(s2, op.roll)
      else if op.check - s.lastFlush > s.flushInterval then
        WithCurrent(s2.(lastFlush := op.check), Flushed(Current(s2)))
      else s2
    else s1.(count := s.count + 1)
  }

  function Run(s: Log, ops: seq<Op>): (s': Log)
    requires s.files != []
    ensures s'.files != []
    decreases |ops|
  {
    if ops == [] then s else Run(Next(s, ops[0]), ops[1..])
  }

  // ---------------------------------------------------------------- conservation

  /** Where file `j` ends in the sequence of lines. */
  function End(s: Log, j: nat): nat
    requires j < |s.files|
  {
    if j + 1 < |s.files| then s.files[j + 1].first else |s.lines|
  }

  /** File `j` holds what was delivered of a block of consecutive lines; no line is in two files. */
  ghost predicate BlockOk(s: Log, j: nat)
    requires j < |s.files|
  {
    && s.files[j].first <= End(s, j) <= |s.chunks|
    && s.files[j].bytes == Concat(s.chunks[s.files[j].first..End(s, j)])
  }

  ghost predicate BlocksOk(s: Log) {
    && s.files != [] && s.files[0].first == 0
    && |s.chunks| == |s.lines|
    && (forall j :: 0 <= j < |s.files| ==> BlockOk(s, j))
    && (forall i :: 0 <= i < |s.lines| ==> s.chunks[i] <= s.lines[i])
  }

  /** Each file is younger than the one before, and the last roll created the current one. */
  ghost predicate RollsOk(s: Log) {
    && s.files != [] && Current(s).born == s.lastRoll && s.startOfPeriod == Period(s.lastRoll)
    && (forall i, j :: 0 <= i < j < |s.files| ==> s.files[i].born < s.files[j].born)
    && s.count <= CHECK_TIME_ROLL + 1
  }

  lemma WriteKeepsBlocks(s: Log, op: Op)
    requires BlocksOk(s)
    ensures BlocksOk(Write(s, op))
  {
    var s' := Write(s, op);
    var chunk := s'.chunks[|s.chunks|];
    forall j | 0 <= j < |s'.files| ensures BlockOk(s', j) {
      assert BlockOk(s, j);
      if j == |s.files| - 1 {
        var first := s.files[j].first;
        assert s'.chunks[first..End(s', j)] == s.chunks[first..End(s, j)] + [chunk];
        ConcatAppend(s.chunks[first..End(s, j)], chunk);
      } else {
        assert End(s', j) == End(s, j);
        assert s'.chunks[s.files[j].first..End(s, j)] == s.chunks[s.files[j].first..End(s, j)];
      }
    }
  }

  lemma RollKeepsBlocks(s: Log, now: int)
    requires BlocksOk(s)
    ensures BlocksOk(Rolled(s, now))
  {
    var s' := Rolled(s, now);
    forall j | 0 <= j < |s'.files| ensures BlockOk(s', j) {
      if j < |s.files| {
        assert BlockOk(s, j);
        assert End(s', j) == End(s, j);
      }
    }
  }

  lemma StepKeepsBlocks(s: Log, op: Op)
    requires BlocksOk(s)
    ensures BlocksOk(Next(s, op))
  {
    var s1 := Write(s, op);
    WriteKeepsBlocks(s, op);
    var s2 := s1.(count := 0);
    SameBlocks(s1, s2);
    RollKeepsBlocks(s1, op.roll);
    RollKeepsBlocks(s2, op.roll);
    if |Next(s, op).files| == |s1.files| { SameBlocks(s1, Next(s, op)); }
  }

  /** Flushing, counting and the clock fields do not matter. */
  lemma SameBlocks(s: Log, s': Log)
    requires BlocksOk(s)
    requires s'.lines == s.lines && s'.chunks == s.chunks && |s'.files| == |s.files|
    requires forall j :: 0 <= j < |s.files| ==>
      s'.files[j].first == s.files[j].first && s'.files[j].bytes == s.files[j].bytes
    ensures BlocksOk(s')
  {
    forall j | 0 <= j < |s'.files| ensures BlockOk(s', j) { assert BlockOk(s, j); }
  }

  lemma StepKeepsRolls(s: Log, op: Op)
    requires RollsOk(s)
    ensures RollsOk(Next(s, op))
  {
  }

  lemma InitOk(rollSize: nat, flushInterval: int, now: int)
    requires now > 0
    ensures BlocksOk(Init(rollSize, flushInterval, now)) && RollsOk(Init(rollSize, flushInterval, now))
  {
    var s := Init(rollSize, flushInterval, now);
    assert s.chunks[0..0] == [];
    assert BlockOk(s, 0);
  }

  lemma {:induction false} RunKeepsOk(s: Log, ops: seq<Op>)
    requires BlocksOk(s) && RollsOk(s)
    ensures BlocksOk(Run(s, ops)) && RollsOk(Run(s, ops))
    decreases |ops|
  {
    if ops == [] {
    } else {
      StepKeepsBlocks(s, ops[0]);
      StepKeepsRolls(s, ops[0]);
      RunKeepsOk(Next(s, ops[0]), ops[1..]);
    }
  }

  /** What the operations append, and what is delivered of it. */
  function Lines(ops: seq<Op>): seq<string> { seq(|ops|, i requires 0 <= i < |ops| => ops[i].line) }

  function Chunk(op: Op): string { op.line[..Delivered(op.accept, |op.line|)] }

  function Chunks(ops: seq<Op>): seq<string> { seq(|ops|, i requires 0 <= i < |ops| => Chunk(ops[i])) }

  lemma StepRecordsLine(s: Log, op: Op)
    requires s.files != []
    ensures Next(s, op).lines == s.lines + [op.line] && Next(s, op).chunks == s.chunks + [Chunk(op)]
  {
  }

  lemma FirstLine(op: Op, ops: seq<Op>, lines: seq<string>, chunks: seq<string>)
    requires ops != [] && ops[0] == op
    ensures lines + [op.line] + Lines(ops[1..]) == lines + Lines(ops)
    ensures chunks + [Chunk(op)] + Chunks(ops[1..]) == chunks + Chunks(ops)
  {
  }

  lemma {:induction false} RunRecordsLines(s: Log, ops: seq<Op>)
    requires s.files != []
    ensures Run(s, ops).lines == s.lines + Lines(ops) && Run(s, ops).chunks == s.chunks + Chunks(ops)
    decreases |ops|
  {
    if ops == [] {
    } else {
      StepRecordsLine(s, ops[0]);
      RunRecordsLines(Next(s, ops[0]), ops[1..]);
      FirstLine(ops[0], ops, s.lines, s.chunks);
    }
  }

  /** All bytes of files 0 to `m` - 1, in the order in which the files were created. */
  function AllBytes(files: seq<FileState>): string {
    if files == [] then "" else AllBytes(files[..|files| - 1]) + files[|files| - 1].bytes
  }

  lemma {:induction false} BlocksConcatenate(s: Log, m: nat)
    requires BlocksOk(s) && 1 <= m <= |s.files|
    ensures BlockOk(s, m - 1)
    ensures AllBytes(s.files[..m]) == Concat(s.chunks[..End(s, m - 1)])
  {
    var f := s.files[m - 1];
    assert BlockOk(s, m - 1);
    assert s.files[..m][..m - 1] == s.files[..m - 1];
    assert s.chunks[..End(s, m - 1)] == s.chunks[..f.first] + s.chunks[f.first..End(s, m - 1)];
    ConcatSplit(s.chunks[..f.first], s.chunks[f.first..End(s, m - 1)]);
    if m > 1 {
      BlocksConcatenate(s, m - 1);
    } else {
      assert s.files[..0] == [];
      assert s.chunks[..0] == [];
    }
  }

  lemma AllFiles(s: Log)
    requires BlocksOk(s)
    ensures AllBytes(s.files) == Concat(s.chunks)
  {
    BlocksConcatenate(s, |s.files|);
    assert s.files[..|s.files|] == s.files;
    assert s.chunks[..|s.chunks|] == s.chunks;
  }

  lemma FullChunks(ops: seq<Op>)
    requires forall op :: op in ops ==> NoGap(op.accept, 1, |op.line|)
    ensures Chunks(ops) == Lines(ops)
  {
    forall i | 0 <= i < |ops| ensures Chunks(ops)[i] == Lines(ops)[i] {
      assert ops[i] in ops;
      DeliveredInFullIff(ops[i].accept, |ops[i].line|);
    }
  }

  /** Log bytes are conserved, for any appends, clock readings and short writes: the files in creation
      order hold what was delivered of the lines, in order, each file a block of whole deliveries (so that
      no line is split across files), and with a device that takes everything they concatenate to exactly
      the lines. Every roll that creates a file does so in a later second than the one before. */
  lemma BytesAreConserved(rollSize: nat, flushInterval: int, now: int, ops: seq<Op>)
    requires now > 0
    ensures var s := Run(Init(rollSize, flushInterval, now), ops);
      && AllBytes(s.files) == Concat(Chunks(ops))
      && s.chunks == Chunks(ops) && s.lines == Lines(ops)
      && (forall j :: 0 <= j < |s.files| ==> BlockOk(s, j))
      && ((forall op :: op in ops ==> NoGap(op.accept, 1, |op.line|)) ==> AllBytes(s.files) == Concat(Lines(ops)))
      && (forall i, j :: 0 <= i < j < |s.files| ==> s.files[i].born < s.files[j].born)
  {
    var s0 := Init(rollSize, flushInterval, now);
    InitOk(rollSize, flushInterval, now);
    RunKeepsOk(s0, ops);
    RunRecordsLines(s0, ops);
    var s := Run(s0, ops);
    assert s.chunks == Chunks(ops) && s.lines == Lines(ops);
    AllFiles(s);
    if forall op :: op in ops ==> NoGap(op.accept, 1, |op.line|) { FullChunks(ops); }
  }

  // ---------------------------------------------------------------- what the history fields mean

  function Length(op: Op): int { |op.line| }

  /** The bytes of a line whose append began in second `t`. */
  function LengthIn(t: int): Op -> int { (op: Op) => if op.began == t then |op.line| else 0 }

  /** Counts a line whose append began on a later day than that of `t`. */
  function LateFor(t: int): Op -> int { (op: Op) => if op.began / 86400 > t / 86400 then 1 else 0 }

  /** The appends to file `j`. */
  function Block(s: Log, ops: seq<Op>, j: nat): seq<Op>
    requires j < |s.files| && s.files[j].first <= End(s, j) <= |ops|
  {
    ops[s.files[j].first..End(s, j)]
  }

  function LastLength(block: seq<Op>): nat { if block == [] then 0 else |block[|block| - 1].line| }

  /** The fields of file `j` agree with its block of operations: it was created by the first roll or by the
      append before its first line, and its other fields are sums over its own lines. */
  ghost predicate FileOk(s: Log, now: int, ops: seq<Op>, j: nat)
    requires j < |s.files|
  {
    var f := s.files[j];
    && f.first <= End(s, j) <= |ops|
    && f.born == (if f.first == 0 then now else ops[f.first - 1].roll)
    && FieldsOk(f, Block(s, ops, j))
  }

  ghost predicate FieldsOk(f: FileState, block: seq<Op>) {
    && f.written == Total(Length, block) && f.last == LastLength(block)
    && f.early == Total(LengthIn(f.born), block) && f.late == Total(LateFor(f.born), block)
  }

  ghost predicate HistoryOk(s: Log, now: int, ops: seq<Op>) {
    && s.files != [] && |s.lines| == |ops|
    && forall j :: 0 <= j < |s.files| ==> FileOk(s, now, ops, j)
  }

  lemma FieldsGrow(f: FileState, block: seq<Op>, op: Op, f': FileState)
    requires FieldsOk(f, block)
    requires f'.written == f.written + |op.line| && f'.last == |op.line| && f'.born == f.born
    requires f'.early == f.early + LengthIn(f.born)(op) && f'.late == f.late + LateFor(f.born)(op)
    ensures FieldsOk(f', block + [op])
  {
    TotalAppend(Length, block, op);
    TotalAppend(LengthIn(f.born), block, op);
    TotalAppend(LateFor(f.born), block, op);
  }

  lemma WriteKeepsHistory(s: Log, now: int, ops: seq<Op>, op: Op)
    requires HistoryOk(s, now, ops)
    ensures HistoryOk(Write(s, op), now, ops + [op])
  {
    var s1 := Write(s, op);
    forall j | 0 <= j < |s1.files| ensures FileOk(s1, now, ops + [op], j) {
      assert FileOk(s, now, ops, j);
      if j == |s.files| - 1 {
        assert Block(s1, ops + [op], j) == Block(s, ops, j) + [op];
        FieldsGrow(s.files[j], Block(s, ops, j), op, s1.files[j]);
      } else {
        assert Block(s1, ops + [op], j) == Block(s, ops, j);
      }
    }
  }

  /** Flushing, counting and the clock fields do not matter. */
  lemma SameHistory(s: Log, s': Log, now: int, ops: seq<Op>)
    requires HistoryOk(s, now, ops) && s'.lines == s.lines && |s'.files| == |s.files|
    requires forall j :: 0 <= j < |s.files| ==> s'.files[j].(flushed := s.files[j].flushed) == s.files[j]
    ensures HistoryOk(s', now, ops)
  {
    forall j | 0 <= j < |s'.files| ensures FileOk(s', now, ops, j) {
      assert FileOk(s, now, ops, j);
      assert End(s', j) == End(s, j);
      assert Block(s', ops, j) == Block(s, ops, j);
    }
  }

  lemma RollKeepsHistory(s: Log, now: int, ops: seq<Op>, roll: int)
    requires HistoryOk(s, now, ops) && ops != [] && ops[|ops| - 1].roll == roll
    ensures HistoryOk(Rolled(s, roll), now, ops)
  {
    var s' := Rolled(s, roll);
    forall j | 0 <= j < |s'.files| ensures FileOk(s', now, ops, j) {
      if j < |s.files| {
        assert FileOk(s, now, ops, j);
        assert End(s', j) == End(s, j);
        assert Block(s', ops, j) == Block(s, ops, j);
      } else {
        assert Block(s', ops, j) == [];
      }
    }
  }

  lemma StepKeepsHistory(s: Log, now: int, ops: seq<Op>, op: Op)
    requires HistoryOk(s, now, ops)
    ensures HistoryOk(Next(s, op), now, ops + [op])
  {
    var s1 := Write(s, op);
    var s2 := s1.(count := 0);
    WriteKeepsHistory(s, now, ops, op);
    SameHistory(s1, s2, now, ops + [op]);
    RollKeepsHistory(s1, now, ops + [op], op.roll);
    RollKeepsHistory(s2, now, ops + [op], op.roll);
    if |Next(s, op).files| == |s1.files| { SameHistory(s1, Next(s, op), now, ops + [op]); }
  }

  lemma InitHistory(rollSize: nat, flushInterval: int, now: int)
    requires now > 0
    ensures HistoryOk(Init(rollSize, flushInterval, now), now, [])
  {
    var s := Init(rollSize, flushInterval, now);
    assert FileOk(s, now, [], 0);
  }

  lemma {:induction false} RunKeepsHistory(s: Log, now: int, done: seq<Op>, ops: seq<Op>)
    requires HistoryOk(s, now, done)
    ensures HistoryOk(Run(s, ops), now, done + ops)
    decreases |ops|
  {
    if ops == [] {
      assert done + ops == done;
    } else {
      StepKeepsHistory(s, now, done, ops[0]);
      RunKeepsHistory(Next(s, ops[0]), now, done + [ops[0]], ops[1..]);
      assert done + [ops[0]] + ops[1..] == done + ops;
    }
  }

  /** In every run each file was created by the first roll, or by the append just before its first line, and
      its byte counter is the sum over the lines appended to it. */
  lemma FilesFollowAppends(rollSize: nat, flushInterval: int, now: int, ops: seq<Op>)
    requires now > 0
    ensures HistoryOk(Run(Init(rollSize, flushInterval, now), ops), now, ops)
  {
    InitHistory(rollSize, flushInterval, now);
    RunKeepsHistory(Init(rollSize, flushInterval, now), now, [], ops);
    assert [] + ops == ops;
  }

  // ---------------------------------------------------------------- flushing

  /** Closed files are flushed completely. */
  ghost predicate FlushedOk(s: Log) {
    && s.files != [] && Current(s).flushed <= |Current(s).bytes|
    && forall j :: 0 <= j < |s.files| - 1 ==> s.files[j].flushed == |s.files[j].bytes|
  }

  lemma StepKeepsFlushed(s: Log, op: Op)
    requires FlushedOk(s)
    ensures FlushedOk(Next(s, op))
  {
  }

  lemma {:induction false} RunKeepsFlushed(s: Log, ops: seq<Op>)
    requires FlushedOk(s)
    ensures FlushedOk(Run(s, ops))
    decreases |ops|
  {
    if ops == [] {
    } else {
      StepKeepsFlushed(s, ops[0]);
      RunKeepsFlushed(Next(s, ops[0]), ops[1..]);
    }
  }

  /** In every run all files but the last are flushed completely. */
  lemma ClosedFilesAreFlushed(rollSize: nat, flushInterval: int, now: int, ops: seq<Op>)
    requires now > 0
    ensures FlushedOk(Run(Init(rollSize, flushInterval, now), ops))
  {
    RunKeepsFlushed(Init(rollSize, flushInterval, now), ops);
  }

  // ---------------------------------------------------------------- size of a file

  /** The readings of the clock in the order in which they are taken never decrease, from `t` on. */
  predicate Monotone(t: int, ops: seq<Op>)
    decreases |ops|
  {
    ops == [] || (Follows(t, ops[0]) && Monotone(ops[0].roll, ops[1..]))
  }

  predicate Follows(t: int, op: Op) { t <= op.began <= op.check <= op.roll }

  /** The last of the readings. */
  function LastReading(t: int, ops: seq<Op>): int { if ops == [] then t else ops[|ops| - 1].roll }

  function Max(a: int, b: int): int { if a > b then a else b }

  /** The size of a file exceeds neither limit by more than its last line. */
  predicate SizeOk(f: FileState, rollSize: nat) {
    |f.bytes| <= f.written && f.written <= Max(rollSize, f.early) + f.last
  }

  /** `t` is the last reading of the clock. While it is still the second of the roll, all bytes of the
      current file are early; and only then can an append leave the file above its size. */
  ghost predicate SizesOk(s: Log, t: int) {
    && s.files != [] && Current(s).born == s.lastRoll <= t
    && (forall j :: 0 <= j < |s.files| ==> SizeOk(s.files[j], s.rollSize))
    && (t == s.lastRoll ==> Current(s).early == Current(s).written)
    && (Current(s).written > s.rollSize ==> t == s.lastRoll)
  }

  lemma WriteKeepsSizes(s: Log, op: Op, t: int)
    requires SizesOk(s, t) && t <= op.began
    ensures var s1 := Write(s, op);
      && Current(s1).born == s.lastRoll && (op.began == s.lastRoll ==> Current(s1).early == Current(s1).written)
      && forall j :: 0 <= j < |s1.files| ==> SizeOk(s1.files[j], s.rollSize)
  {
    var s1 := Write(s, op);
    forall j | 0 <= j < |s1.files| ensures SizeOk(s1.files[j], s.rollSize) {
      assert SizeOk(s.files[j], s.rollSize);
    }
  }

  lemma StepKeepsSizes(s: Log, op: Op, t: int)
    requires SizesOk(s, t) && Follows(t, op)
    ensures SizesOk(Next(s, op), op.roll)
  {
    WriteKeepsSizes(s, op, t);
    assert SizeOk(Current(Write(s, op)), s.rollSize);
  }

  lemma {:induction false} RunKeepsSizes(s: Log, ops: seq<Op>, t: int)
    requires SizesOk(s, t) && Monotone(t, ops)
    ensures forall j :: 0 <= j < |Run(s, ops).files| ==> SizeOk(Run(s, ops).files[j], s.rollSize)
    decreases |ops|
  {
    if ops == [] {
    } else {
      StepKeepsSizes(s, ops[0], t);
      assert Next(s, ops[0]).rollSize == s.rollSize;
      RunKeepsSizes(Next(s, ops[0]), ops[1..], ops[0].roll);
    }
  }

  /** With a clock that does not run backwards, no file, closed or open, is longer than the larger of
      `rollSize` and what was appended to it in the very second of its creation, plus its last line. */
  lemma FileSizesAreBounded(rollSize: nat, flushInterval: int, now: int, ops: seq<Op>, j: nat)
    requires now > 0 && Monotone(now, ops)
    requires j < |Run(Init(rollSize, flushInterval, now), ops).files|
    ensures var s := Run(Init(rollSize, flushInterval, now), ops); var f := s.files[j];
      && FileOk(s, now, ops, j)
      && |f.bytes| <= Max(rollSize, Total(LengthIn(f.born), Block(s, ops, j))) + LastLength(Block(s, ops, j))
  {
    var s0 := Init(rollSize, flushInterval, now);
    RunKeepsSizes(s0, ops, now);
    FilesFollowAppends(rollSize, flushInterval, now, ops);
    assert FileOk(Run(s0, ops), now, ops, j) && SizeOk(Run(s0, ops).files[j], rollSize);
  }

  // ---------------------------------------------------------------- rolling by day

  /** A period is a day: 86400 seconds from a multiple of 86400 on. */
  lemma PeriodIsDay(now: int)
    requires now >= 0
    ensures Period(now) % 86400 == 0 && Period(now) <= now < Period(now) + 86400
    ensures Period(now) == now / 86400 * 86400
  {
  }

  lemma PeriodMonotone(a: int, b: int)
    requires 0 < a <= b
    ensures Period(a) <= Period(b)
    ensures Period(a) < Period(b) <==> a / 86400 < b / 86400
  {
    PeriodIsDay(a);
    PeriodIsDay(b);
  }

  /** Lines that began on a later day than their file: at most one more than the counter allows. */
  ghost predicate DaysOk(s: Log, t: int) {
    && s.files != [] && 0 < Current(s).born == s.lastRoll <= t
    && s.startOfPeriod == Period(s.lastRoll) && s.count <= CHECK_TIME_ROLL + 1
    && (forall j :: 0 <= j < |s.files| ==> s.files[j].late <= CHECK_TIME_ROLL + 2)
    && Current(s).late <= s.count
    && (Current(s).late > 0 ==> Period(t) > s.startOfPeriod)
  }

  lemma StepKeepsDays(s: Log, op: Op, t: int)
    requires DaysOk(s, t) && Follows(t, op)
    ensures DaysOk(Next(s, op), op.roll)
  {
    PeriodMonotone(s.lastRoll, t);
    PeriodMonotone(t, op.began);
    PeriodMonotone(op.began, op.check);
    PeriodMonotone(op.check, op.roll);
  }

  lemma {:induction false} RunKeepsDays(s: Log, ops: seq<Op>, t: int)
    requires DaysOk(s, t) && Monotone(t, ops)
    ensures DaysOk(Run(s, ops), LastReading(t, ops))
    decreases |ops|
  {
    if ops == [] {
    } else {
      StepKeepsDays(s, ops[0], t);
      RunKeepsDays(Next(s, ops[0]), ops[1..], ops[0].roll);
    }
  }

  /** With a clock that does not run backwards, at most 1026 lines whose append began after the day of a
      file was over are in that file. */
  lemma FewLinesOfTheNextDay(rollSize: nat, flushInterval: int, now: int, ops: seq<Op>, j: nat)
    requires now > 0 && Monotone(now, ops)
    requires j < |Run(Init(rollSize, flushInterval, now), ops).files|
    ensures var s := Run(Init(rollSize, flushInterval, now), ops);
      && FileOk(s, now, ops, j)
      && Total(LateFor(s.files[j].born), Block(s, ops, j)) <= 1026
      && s.startOfPeriod == s.lastRoll / 86400 * 86400
  {
    var s0 := Init(rollSize, flushInterval, now);
    RunKeepsDays(s0, ops, now);
    FilesFollowAppends(rollSize, flushInterval, now, ops);
    assert FileOk(Run(s0, ops), now, ops, j);
    PeriodIsDay(Run(s0, ops).lastRoll);
  }

  /** What the next append does when the last reading of the clock was `t`. */
  lemma StepCreatesFileIff(s: Log, op: Op, t: int)
    requires DaysOk(s, t) && Follows(t, op)
    ensures var s' := Next(s, op);
      && (|s'.files| == |s.files| + 1 <==>
            if Current(s).written + |op.line| <= s.rollSize
            then s.count > 1024 && op.check / 86400 > s.lastRoll / 86400
            else op.roll > s.lastRoll)
      && (|s'.files| == |s.files| + 1 ==> s'.startOfPeriod == op.roll / 86400 * 86400 && s'.lastRoll == op.roll)
      && (|s'.files| != |s.files| + 1 ==> |s'.files| == |s.files|)
  {
    PeriodMonotone(s.lastRoll, op.check);
    PeriodMonotone(op.check, op.roll);
    PeriodIsDay(op.roll);
  }

  /** With such a clock, after any run, the next append creates a file exactly when it exceeds the size in
      a later second than the last roll, or is a check that sees a later day: that check really rolls. */
  lemma NewFileIff(rollSize: nat, flushInterval: int, now: int, ops: seq<Op>, op: Op)
    requires now > 0 && Monotone(now, ops) && Follows(LastReading(now, ops), op)
    ensures var s := Run(Init(rollSize, flushInterval, now), ops); var s' := Next(s, op);
      && (|s'.files| == |s.files| + 1 <==>
            if Current(s).written + |op.line| <= rollSize
            then s.count > 1024 && op.check / 86400 > s.lastRoll / 86400
            else op.roll > s.lastRoll)
      && (|s'.files| == |s.files| + 1 ==> s'.startOfPeriod == op.roll / 86400 * 86400 && s'.lastRoll == op.roll)
      && (|s'.files| != |s.files| + 1 ==> |s'.files| == |s.files|)
  {
    var s0 := Init(rollSize, flushInterval, now);
    RunKeepsDays(s0, ops, now);
    SettingsAreConstant(s0, ops);
    StepCreatesFileIff(Run(s0, ops), op, LastReading(now, ops));
  }

  lemma CheckFlushes(s: Log, op: Op, t: int)
    requires DaysOk(s, t) && Follows(t, op) && Checks(s, op)
    ensures var s' := Next(s, op);
      && op.check - s'.lastFlush <= Max(s.flushInterval, 0)
      && (|s'.files| == |s.files| ==>
            if op.check - s.lastFlush > s.flushInterval
            then s'.lastFlush == op.check && Current(s').flushed == |Current(s').bytes|
            else s'.lastFlush == s.lastFlush && Current(s').flushed == Current(s).flushed)
  {
    StepCreatesFileIff(s, op, t);
    PeriodMonotone(s.lastRoll, op.check);
  }

  lemma {:induction false} SettingsAreConstant(s: Log, ops: seq<Op>)
    requires s.files != []
    ensures Run(s, ops).flushInterval == s.flushInterval && Run(s, ops).rollSize == s.rollSize
    decreases |ops|
  {
    if ops == [] {
    } else {
      SettingsAreConstant(Next(s, ops[0]), ops[1..]);
    }
  }

  /** With such a clock, after any run, a check leaves the last flush at most `flushInterval` seconds old. If
      it creates no file it flushes everything exactly when the last flush was older, and else nothing. */
  lemma CheckLimitsFlushAge(rollSize: nat, flushInterval: int, now: int, ops: seq<Op>, op: Op)
    requires now > 0 && Monotone(now, ops) && Follows(LastReading(now, ops), op)
    requires Checks(Run(Init(rollSize, flushInterval, now), ops), op)
    ensures var s := Run(Init(rollSize, flushInterval, now), ops); var s' := Next(s, op);
      && FlushedOk(s')
      && op.check - s'.lastFlush <= Max(flushInterval, 0)
      && (|s'.files| == |s.files| ==>
            if op.check - s.lastFlush > flushInterval
            then s'.lastFlush == op.check && Current(s').flushed == |Current(s').bytes|
            else s'.lastFlush == s.lastFlush && Current(s').flushed == Current(s).flushed)
  {
    var s0 := Init(rollSize, flushInterval, now);
    RunKeepsDays(s0, ops, now);
    SettingsAreConstant(s0, ops);
    CheckFlushes(Run(s0, ops), op, LastReading(now, ops));
    RunKeepsFlushed(s0, ops);
    StepKeepsFlushed(Run(s0, ops), op);
  }

  // ---------------------------------------------------------------- how often the clock is checked

  /** The appends of a run that leave their file within its size, and those of them that check the day. */
  function WithinCount(s: Log, ops: seq<Op>): nat
    requires s.files != []
    decreases |ops|
  {
    if ops == [] then 0
    else (if StaysWithin(s, ops[0]) then 1 else 0) + WithinCount(Next(s, ops[0]), ops[1..])
  }

  function CheckCount(s: Log, ops: seq<Op>): nat
    requires s.files != []
    decreases |ops|
  {
    if ops == [] then 0
    else (if Checks(s, ops[0]) then 1 else 0) + CheckCount(Next(s, ops[0]), ops[1..])
  }

  lemma StepCounts(s: Log, op: Op)
    requires s.files != [] && s.count <= CHECK_TIME_ROLL + 1
    ensures Next(s, op).count ==
      if !StaysWithin(s, op) then s.count else if Checks(s, op) then 0 else s.count + 1
    ensures Next(s, op).count <= CHECK_TIME_ROLL + 1
  {
  }

  lemma CountOneMore(count: nat, within: nat)
    requires count <= 1025
    ensures count < 1025 ==> (count + (1 + within)) == (count + 1) + within
    ensures count == 1025 ==> (count + (1 + within)) % 1026 == within % 1026
    ensures count == 1025 ==> (count + (1 + within)) / 1026 == 1 + within / 1026
  {
  }

  /** The counter and the checks divide the appends within size by 1026, whatever other appends roll the
      file by size in between. */
  lemma {:induction false} ChecksDivideAppends(s: Log, ops: seq<Op>)
    requires s.files != [] && s.count <= CHECK_TIME_ROLL + 1
    ensures Run(s, ops).count == (s.count + WithinCount(s, ops)) % 1026
    ensures CheckCount(s, ops) == (s.count + WithinCount(s, ops)) / 1026
    decreases |ops|
  {
    if ops == [] {
    } else {
      StepCounts(s, ops[0]);
      ChecksDivideAppends(Next(s, ops[0]), ops[1..]);
      CountOneMore(s.count, WithinCount(Next(s, ops[0]), ops[1..]));
    }
  }

  /** Every 1026 appends that leave their file within its size include exactly one check. */
  lemma OneCheckIn1026(s: Log, ops: seq<Op>)
    requires s.files != [] && s.count <= CHECK_TIME_ROLL + 1 && WithinCount(s, ops) == 1026
    ensures CheckCount(s, ops) == 1 && Run(s, ops).count == s.count
  {
    ChecksDivideAppends(s, ops);
  }

  // ---------------------------------------------------------------- the class

  class LogFile {
    const rollSize: nat
    const flushInterval: int
    var count: nat
    var startOfPeriod: int
    var lastRoll: int
    var lastFlush: int
    var file: File?
    ghost var closed: seq<FileState>
    ghost var current: FileState
    ghost var lines: seq<string>
    ghost var chunks: seq<string>

    ghost predicate Valid()
      reads this, file
    {
      && (file == null ==> closed == [])
      && (file != null ==>
            current.bytes == file.bytes && current.written == file.written && current.flushed == file.flushed)
    }

    ghost function State(): Log
      reads this
    {
      Log(rollSize, flushInterval, count, startOfPeriod, lastRoll, lastFlush,
          if file == null then closed else closed + [current], lines, chunks)
    }

    /** A clock that reads 0 or less leaves the object without a file. */
    constructor (rollSize: nat, flushInterval: int, now: int)
      ensures Valid() && (file == null || fresh(file)) && State() == Init(rollSize, flushInterval, now)
      ensures file != null <==> now > 0
    {
      this.rollSize, this.flushInterval := rollSize, flushInterval;
      count, startOfPeriod, lastRoll, lastFlush := 0, 0, 0, 0;
      file := null;
      closed, current := [], FileState("", 0, 0, 0, 0, 0, 0, 0);
      lines, chunks := [], [];
      new;
      RollFile(now);
    }

    /** `append_unlocked`, which needs a file. */
    method Append(op: Op)
      requires Valid() && file != null
      modifies this, file
      ensures Valid() && file != null && (file == old(file) || fresh(file))
      ensures State() == Next(old(State()), op)
      ensures file == old(file) ==>
        && file.bytes == old(file.bytes) + op.line[..Delivered(op.accept, |op.line|)]
        && file.written == old(file.written) + |op.line|
      ensures count ==
        if old(file.written) + |op.line| > rollSize then old(count)
        else if old(count) > 1024 then 0
        else old(count) + 1
    {
      ghost var s1 := Write(State(), op);
      file.Append(op.line, op.accept);
      current, lines, chunks := Current(s1), s1.lines, s1.chunks;
      assert State() == s1;
      if file.written > rollSize {
        RollFile(op.roll);
      } else if count > CHECK_TIME_ROLL {
        count := 0;
        var thisPeriod := Period(op.check);
        if thisPeriod != startOfPeriod {
          RollFile(op.roll);
        } else if op.check - lastFlush > flushInterval {
          lastFlush := op.check;
          file.Flush();
          current := Flushed(current);
        }
      } else {
        count := count + 1;
      }
    }

    method RollFile(now: int)
      requires Valid()
      modifies this, file
      ensures Valid() && (file == old(file) || fresh(file))
      ensures State() == Rolled(old(State()), now)
      ensures now <= old(lastRoll) ==> State() == old(State()) && file == old(file)
      ensures now > old(lastRoll) ==>
        && file != null && fresh(file) && file.bytes == "" && file.written == 0
        && lastRoll == now && lastFlush == now && (now >= 0 ==> startOfPeriod == now / 86400 * 86400)
    {
      if now >= 0 { PeriodIsDay(now); }
      if now > lastRoll {
        lastRoll, lastFlush, startOfPeriod := now, now, Period(now);
        if file != null {
          file.Flush();
          closed := closed + [Flushed(current)];
        }
        current := FileState("", 0, 0, now, |lines|, 0, 0, 0);
        file := new File();
      }
    }
  }
}
