/**
 The record that `Logger` builds on a `LogStream`. Texts produced by libraries that are not part of this
 model are parameters: `secondText` is what `snprintf` makes of a second, `micros` of the microseconds.
*/
module Logging {
  import opened Numerals
  import opened Sequences
  import opened LogStreams

  datatype Level = TRACE | DEBUG | INFO | WARN | ERROR | FATAL {
    function Name(): (s: string)
      ensures |s| == 6
    {
      match this
      case TRACE => "TRACE "
      case DEBUG => "DEBUG "
      case INFO => "INFO  "
      case WARN => "WARN  "
      case ERROR => "ERROR "
      case FATAL => "FATAL "
    }
  }

  // ---------------------------------------------------------------- specification

  /** The four texts of the header, with the lengths that the source asserts. */
  datatype Header = Header(time: string, micros: string, tid: string, level: Level) {
    predicate LengthsOk() { |time| == 17 && |micros| == 9 && |tid| == 6 }

    function Fragments(): seq<Fragment> { [Text(time), Text(micros), Text(tid), Text(level.Name())] }

    function Bytes(): string { time + micros + tid + level.Name() }
  }

  function ErrnoFragments(savedErrno: int, message: string): seq<Fragment> {
    if savedErrno == 0 then []
    else [Text(message), Text(" (errno="), Integer(savedErrno), Text(") ")]
  }

  function TrailerFragments(basename: string, line: int): seq<Fragment> {
    [Text(" - "), Text(basename), Text(":"), Integer(line), Text("\n")]
  }

  /** The bytes handed to `g_output` after the insertions `body`. */
  function Record(h: Header, body: seq<Fragment>, basename: string, line: int): string {
    Fold("", h.Fragments() + body + TrailerFragments(basename, line), SMALL_BUFFER)
  }

  // ---------------------------------------------------------------- results

  lemma FoldOne(out: string, f: Fragment, fs: seq<Fragment>, size: nat)
    ensures Fold(out, [f] + fs, size) == Fold(Accept(out, f, size), fs, size)
  {
    assert ([f] + fs)[1..] == fs;
  }

  /** The header always fits. */
  lemma HeaderIsIntact(h: Header)
    requires h.LengthsOk()
    ensures Fold("", h.Fragments(), SMALL_BUFFER) == h.Bytes() && |h.Bytes()| == 38
  {
    var a, b, c, d := Text(h.time), Text(h.micros), Text(h.tid), Text(h.level.Name());
    assert h.Fragments() == [a] + ([b] + ([c] + ([d] + [])));
    FoldOne("", a, [b] + ([c] + ([d] + [])), SMALL_BUFFER);
    assert "" + h.time == h.time;
    FoldOne(h.time, b, [c] + ([d] + []), SMALL_BUFFER);
    FoldOne(h.time + h.micros, c, [d] + [], SMALL_BUFFER);
    FoldOne(h.time + h.micros + h.tid, d, [], SMALL_BUFFER);
  }

  /** What `finish` leaves in a buffer that holds `before`. */
  function Finished(before: string, basename: string, line: int): string {
    Fold(before, TrailerFragments(basename, line), SMALL_BUFFER)
  }

  lemma FinishedUnfolds(before: string, basename: string, line: int)
    ensures Finished(before, basename, line) ==
      Accept(Accept(Accept(Accept(Accept(before, Text(" - "), SMALL_BUFFER), Text(basename), SMALL_BUFFER),
        Text(":"), SMALL_BUFFER), Integer(line), SMALL_BUFFER), Text("\n"), SMALL_BUFFER)
  {
    var a, b, c, d, e := Text(" - "), Text(basename), Text(":"), Integer(line), Text("\n");
    assert TrailerFragments(basename, line) == [a] + ([b] + ([c] + ([d] + ([e] + []))));
    var s1 := Accept(before, a, SMALL_BUFFER);
    var s2 := Accept(s1, b, SMALL_BUFFER);
    var s3 := Accept(s2, c, SMALL_BUFFER);
    var s4 := Accept(s3, d, SMALL_BUFFER);
    FoldOne(before, a, [b] + ([c] + ([d] + ([e] + []))), SMALL_BUFFER);
    FoldOne(s1, b, [c] + ([d] + ([e] + [])), SMALL_BUFFER);
    FoldOne(s2, c, [d] + ([e] + []), SMALL_BUFFER);
    FoldOne(s3, d, [e] + [], SMALL_BUFFER);
    FoldOne(s4, e, [], SMALL_BUFFER);
  }

  lemma RoomForTrailer(before: string, basename: string, line: int)
    requires |before| + |basename| + 36 <= SMALL_BUFFER && |DecimalText(line)| <= 20
    ensures Finished(before, basename, line) == before + (" - " + basename + ":" + DecimalText(line) + "\n")
  {
    FinishedUnfolds(before, basename, line);
    var a, b, c, d := before + " - ", basename, ":", DecimalText(line);
    assert Accept(before, Text(" - "), SMALL_BUFFER) == a;
    assert Accept(a, Text(b), SMALL_BUFFER) == a + b;
    assert Accept(a + b, Text(c), SMALL_BUFFER) == a + b + c;
    assert Accept(a + b + c, Integer(line), SMALL_BUFFER) == a + b + c + d;
    assert Accept(a + b + c + d, Text("\n"), SMALL_BUFFER) == a + b + c + d + "\n";
    Regroup(before, " - ", b, c, d, "\n");
  }

  lemma Regroup(x: string, a: string, b: string, c: string, d: string, e: string)
    ensures x + a + b + c + d + e == x + (a + b + c + d + e)
  {
    Associative(x, a, b);
    Associative(x, a + b, c);
    Associative(x, a + b + c, d);
    Associative(x, a + b + c + d, e);
  }

  /** An insertion adds its whole length or nothing. */
  lemma AcceptLength(out: string, f: Fragment, size: nat)
    ensures |Accept(out, f, size)| == |out| + if f.Fits(size - |out|) then |f.Render()| else 0
  {
  }

  lemma NoRoomForTrailer(before: string, basename: string, line: int)
    requires |before| < SMALL_BUFFER && |before| + |basename| + 36 > SMALL_BUFFER
    ensures |Finished(before, basename, line)| < |before| + |(" - " + basename + ":" + DecimalText(line) + "\n")|
  {
    FinishedUnfolds(before, basename, line);
    var s1 := Accept(before, Text(" - "), SMALL_BUFFER);
    var s2 := Accept(s1, Text(basename), SMALL_BUFFER);
    var s3 := Accept(s2, Text(":"), SMALL_BUFFER);
    var s4 := Accept(s3, Integer(line), SMALL_BUFFER);
    AcceptLength(before, Text(" - "), SMALL_BUFFER);
    AcceptLength(s1, Text(basename), SMALL_BUFFER);
    AcceptLength(s2, Text(":"), SMALL_BUFFER);
    AcceptLength(s3, Integer(line), SMALL_BUFFER);
    AcceptLength(s4, Text("\n"), SMALL_BUFFER);
    assert DecimalText(line) != "";
  }

  /** The trailer is complete exactly when the bytes used before it, the base name and 36 more are at
      most the size of the buffer; the line number asks for 32 of these whatever its length. */
  lemma TrailerCompleteIff(before: string, basename: string, line: int)
    requires |before| < SMALL_BUFFER && IsInteger64(line)
    ensures Finished(before, basename, line) == before + (" - " + basename + ":" + DecimalText(line) + "\n")
            <==> |before| + |basename| + 36 <= SMALL_BUFFER
  {
    DecimalRoundTrip(line);
    if |before| + |basename| + 36 <= SMALL_BUFFER {
      RoomForTrailer(before, basename, line);
    } else {
      NoRoomForTrailer(before, basename, line);
    }
  }

  /** The shape of every record, whatever is inserted: fewer than 4000 bytes, the 38 bytes of the header
      intact in front, then what the insertions left, and the trailer under the condition above. */
  lemma {:induction false} RecordShape(h: Header, body: seq<Fragment>, basename: string, line: int)
    requires h.LengthsOk() && IsInteger64(line) && forall f :: f in body ==> f.Representable()
    ensures var r := Record(h, body, basename, line); var used := Fold(h.Bytes(), body, SMALL_BUFFER);
      && |r| < 4000 && |h.Bytes()| == 38
      && h.Bytes() <= used <= r
      && (r == used + (" - " + basename + ":" + DecimalText(line) + "\n") <==> |used| + |basename| + 36 <= 4000)
  {
    var trailer := TrailerFragments(basename, line);
    HeaderIsIntact(h);
    FoldSplit("", h.Fragments() + body, trailer, SMALL_BUFFER);
    FoldSplit("", h.Fragments(), body, SMALL_BUFFER);
    InsertionsKeepWholeFragments(h.Bytes(), body, SMALL_BUFFER);
    var used := Fold(h.Bytes(), body, SMALL_BUFFER);
    InsertionsKeepWholeFragments(used, trailer, SMALL_BUFFER);
    TrailerCompleteIff(used, basename, line);
  }

  /** Where the four parts of the header are in every record, and the text of each level. */
  lemma RecordHeader(h: Header, body: seq<Fragment>, basename: string, line: int)
    requires h.LengthsOk() && IsInteger64(line) && forall f :: f in body ==> f.Representable()
    ensures var r := Record(h, body, basename, line);
      && |r| >= 38 && r[0..17] == h.time && r[17..26] == h.micros && r[26..32] == h.tid
      && r[32..38] == match h.level
           case TRACE => "TRACE "
           case DEBUG => "DEBUG "
           case INFO => "INFO  "
           case WARN => "WARN  "
           case ERROR => "ERROR "
           case FATAL => "FATAL "
  {
    RecordShape(h, body, basename, line);
    HeaderParts(h);
    var r := Record(h, body, basename, line);
    assert r[..38] == h.Bytes();
    assert r[0..17] == r[..38][0..17] && r[17..26] == r[..38][17..26];
    assert r[26..32] == r[..38][26..32] && r[32..38] == r[..38][32..38];
  }

  lemma HeaderParts(h: Header)
    requires h.LengthsOk()
    ensures var b := h.Bytes();
      |b| == 38 && b[0..17] == h.time && b[17..26] == h.micros && b[26..32] == h.tid && b[32..38] == h.level.Name()
  {
  }

  /** What the constructor puts behind the header: nothing without an error number, and otherwise the text
      "message (errno=number) ", complete exactly when message and 78 bytes more fit. */
  lemma ErrnoTextIff(h: Header, savedErrno: int, message: string)
    requires h.LengthsOk() && IsInteger64(savedErrno)
    ensures var used := Fold(h.Bytes(), ErrnoFragments(savedErrno, message), SMALL_BUFFER);
      if savedErrno == 0 then used == h.Bytes()
      else used == h.Bytes() + (message + " (errno=" + DecimalText(savedErrno) + ") ") <==> |message| + 78 <= 4000
  {
    HeaderParts(h);
    if savedErrno != 0 {
      DecimalRoundTrip(savedErrno);
      ErrnoUnfolds(h.Bytes(), savedErrno, message);
      if |message| + 78 <= 4000 {
        RoomForErrno(h.Bytes(), savedErrno, message);
      } else {
        NoRoomForErrno(h.Bytes(), savedErrno, message);
      }
    }
  }

  lemma ErrnoUnfolds(before: string, savedErrno: int, message: string)
    requires savedErrno != 0
    ensures Fold(before, ErrnoFragments(savedErrno, message), SMALL_BUFFER) ==
      Accept(Accept(Accept(Accept(before, Text(message), SMALL_BUFFER), Text(" (errno="), SMALL_BUFFER),
        Integer(savedErrno), SMALL_BUFFER), Text(") "), SMALL_BUFFER)
  {
    var a, b, c, d := Text(message), Text(" (errno="), Integer(savedErrno), Text(") ");
    assert ErrnoFragments(savedErrno, message) == [a] + ([b] + ([c] + ([d] + [])));
    var s1 := Accept(before, a, SMALL_BUFFER);
    var s2 := Accept(s1, b, SMALL_BUFFER);
    var s3 := Accept(s2, c, SMALL_BUFFER);
    FoldOne(before, a, [b] + ([c] + ([d] + [])), SMALL_BUFFER);
    FoldOne(s1, b, [c] + ([d] + []), SMALL_BUFFER);
    FoldOne(s2, c, [d] + [], SMALL_BUFFER);
    FoldOne(s3, d, [], SMALL_BUFFER);
  }

  lemma RoomForErrno(before: string, savedErrno: int, message: string)
    requires savedErrno != 0 && |before| == 38 && |message| + 78 <= 4000 && |DecimalText(savedErrno)| <= 20
    ensures Fold(before, ErrnoFragments(savedErrno, message), SMALL_BUFFER) ==
      before + (message + " (errno=" + DecimalText(savedErrno) + ") ")
  {
    ErrnoUnfolds(before, savedErrno, message);
    var a, b, c := message, " (errno=", DecimalText(savedErrno);
    assert Accept(before, Text(a), SMALL_BUFFER) == before + a;
    assert Accept(before + a, Text(b), SMALL_BUFFER) == before + a + b;
    assert Accept(before + a + b, Integer(savedErrno), SMALL_BUFFER) == before + a + b + c;
    assert Accept(before + a + b + c, Text(") "), SMALL_BUFFER) == before + a + b + c + ") ";
    Regroup(before, a, b, c, ") ", "");
    assert a + b + c + ") " + "" == a + b + c + ") ";
    assert before + a + b + c + ") " + "" == before + a + b + c + ") ";
  }

  lemma NoRoomForErrno(before: string, savedErrno: int, message: string)
    requires savedErrno != 0 && |before| == 38 && |message| + 78 > 4000
    ensures |Fold(before, ErrnoFragments(savedErrno, message), SMALL_BUFFER)|
            < |before| + |message + " (errno=" + DecimalText(savedErrno) + ") "|
  {
    ErrnoUnfolds(before, savedErrno, message);
    var s1 := Accept(before, Text(message), SMALL_BUFFER);
    var s2 := Accept(s1, Text(" (errno="), SMALL_BUFFER);
    var s3 := Accept(s2, Integer(savedErrno), SMALL_BUFFER);
    AcceptLength(before, Text(message), SMALL_BUFFER);
    AcceptLength(s1, Text(" (errno="), SMALL_BUFFER);
    AcceptLength(s2, Integer(savedErrno), SMALL_BUFFER);
    AcceptLength(s3, Text(") "), SMALL_BUFFER);
    assert DecimalText(savedErrno) != "";
  }

  // ---------------------------------------------------------------- the per-thread cache of formatTime

  /** `t_time` and `t_lastSecond` of one thread; both start zeroed. */
  datatype Cache = Cache(text: string, lastSecond: int)

  const FreshCache := Cache("", 0)

  function Second(micros: int): int { TruncDiv(micros, 1000000) }

  /** What `formatTime` makes of the cache; afterwards `text` is what it inserts. */
  function Formatted(k: Cache, secondText: int -> string, micros: int): Cache {
    if Second(micros) != k.lastSecond then Cache(secondText(Second(micros)), Second(micros)) else k
  }

  /** The cache of a thread that has logged at the readings `times` of the clock. */
  function CacheAfter(secondText: int -> string, times: seq<int>): Cache {
    if times == [] then FreshCache
    else Formatted(CacheAfter(secondText, times[..|times| - 1]), secondText, times[|times| - 1])
  }

  /** Some reading is a whole second or more away from the epoch. */
  ghost predicate LeftSecondZero(times: seq<int>) {
    exists i :: 0 <= i < |times| && (times[i] <= -1_000_000 || times[i] >= 1_000_000)
  }

  /** The second of a reading: rounded down after the epoch, and towards it before. */
  lemma SecondIsWhole(micros: int)
    ensures micros >= 0 ==> Second(micros) == micros / 1_000_000
    ensures micros < 0 ==> Second(micros) == -(-micros / 1_000_000)
    ensures Second(micros) != 0 <==> micros <= -1_000_000 || micros >= 1_000_000
  {
  }

  lemma {:induction false} CacheRemembers(secondText: int -> string, times: seq<int>)
    ensures var k := CacheAfter(secondText, times);
      && k.lastSecond == (if times == [] then 0 else Second(times[|times| - 1]))
      && k.text == if LeftSecondZero(times) then secondText(k.lastSecond) else ""
  {
    if times == [] {
    } else {
      var before := times[..|times| - 1];
      CacheRemembers(secondText, before);
      SecondIsWhole(times[|times| - 1]);
      if LeftSecondZero(before) {
        var i :| 0 <= i < |before| && (before[i] <= -1_000_000 || before[i] >= 1_000_000);
        assert times[i] == before[i];
      }
    }
  }

  /** The time in the last of a thread's records is right exactly when some record of the thread so far,
      this one included, is of a second other than 0. Otherwise it is empty, and the assertion that it has
      17 characters fails. */
  lemma {:induction false} TimeIsRightIffLeftSecondZero(secondText: int -> string, times: seq<int>)
    requires times != [] && forall n :: |secondText(n)| == 17
    ensures var text := CacheAfter(secondText, times).text; var last := times[|times| - 1];
      && (text == secondText(if last >= 0 then last / 1_000_000 else -(-last / 1_000_000)) <==> LeftSecondZero(times))
      && (|text| == 17 <==> LeftSecondZero(times))
      && (!LeftSecondZero(times) ==> text == "")
  {
    CacheRemembers(secondText, times);
    SecondIsWhole(times[|times| - 1]);
  }

  /** A thread whose first record is of the first second of 1970 gets no time at all. */
  lemma TimeIsEmptyInSecondZero(secondText: int -> string)
    requires |secondText(0)| == 17
    ensures CacheAfter(secondText, [0]).text == "" != secondText(Second(0))
  {
    assert [0][..0] == [];
    assert CacheAfter(secondText, []) == FreshCache;
  }

  class TimeCache {
    var text: string
    var lastSecond: int
    ghost var times: seq<int>

    ghost predicate Valid(secondText: int -> string)
      reads this
    {
      Cache(text, lastSecond) == CacheAfter(secondText, times)
    }

    constructor (ghost secondText: int -> string)
      ensures Valid(secondText) && times == []
    {
      text, lastSecond, times := "", 0, [];
    }

    /** The part of `formatTime` that finds the text of the second. */
    method Format(secondText: int -> string, micros: int) returns (time: string)
      requires Valid(secondText)
      modifies this
      ensures Valid(secondText) && times == old(times) + [micros]
      ensures time == if LeftSecondZero(times) then secondText(Second(micros)) else ""
    {
      var seconds := TruncDiv(micros, 1000000);
      if seconds != lastSecond {
        lastSecond := seconds;
        text := secondText(seconds);
      }
      times := times + [micros];
      assert times[..|times| - 1] == old(times);
      CacheRemembers(secondText, times);
      time := text;
    }
  }

  // ---------------------------------------------------------------- the logger

  /** What the end of a logger calls: `g_output`, `g_flush` and `abort`. */
  datatype Call = Output(record: string) | Flush | Abort

  class Logger {
    const stream: LogStream
    const level: Level
    const line: int
    const basename: string
    const header: Header
    ghost var body: seq<Fragment>

    ghost predicate Valid()
      reads this, stream, stream.buffer, stream.buffer.data
    {
      && stream.Valid()
      && IsInteger64(line) && header.LengthsOk()
      && (forall f :: f in body ==> f.Representable())
      && stream.Contents() == Fold("", header.Fragments() + body, SMALL_BUFFER)
    }

    /** `cache` belongs to the calling thread. The source asserts the lengths of the three texts; that of
        the time holds exactly when the thread has left second 0. */
    constructor (cache: TimeCache, secondText: int -> string, now: int, micros: string, tid: string,
                 level: Level, savedErrno: int, message: string, basename: string, line: int)
      requires cache.Valid(secondText) && (forall n :: |secondText(n)| == 17) && |micros| == 9 && |tid| == 6
      requires LeftSecondZero(cache.times + [now])
      requires IsInteger64(line) && IsInteger64(savedErrno)
      modifies cache
      ensures Valid() && fresh(stream) && fresh(stream.buffer) && fresh(stream.buffer.data)
      ensures cache.Valid(secondText) && cache.times == old(cache.times) + [now]
      ensures header == Header(secondText(Second(now)), micros, tid, level)
      ensures this.basename == basename && this.line == line && this.level == level
      ensures body == ErrnoFragments(savedErrno, message)
    {
      var time := cache.Format(secondText, now);
      stream := new LogStream();
      this.level, this.line, this.basename := level, line, basename;
      header := Header(time, micros, tid, level);
      body := [];
      new;
      InsertHeader();
      InsertErrno(savedErrno, message);
    }

    method InsertErrno(savedErrno: int, message: string)
      requires Valid() && IsInteger64(savedErrno)
      modifies this, stream.buffer, stream.buffer.data
      ensures Valid() && body == old(body) + ErrnoFragments(savedErrno, message)
    {
      if savedErrno != 0 {
        Insert(Text(message));
        Insert(Text(" (errno="));
        Insert(Integer(savedErrno));
        Insert(Text(") "));
      }
    }

    method InsertHeader()
      requires stream.Valid() && stream.Contents() == "" && body == []
      requires IsInteger64(line) && header.LengthsOk()
      modifies stream.buffer, stream.buffer.data
      ensures Valid()
    {
      stream.InsertText(header.time);
      stream.InsertText(header.micros);
      stream.InsertText(header.tid);
      stream.InsertText(header.level.Name());
      HeaderSteps(header);
      assert header.Fragments() + [] == header.Fragments();
    }

    /** One insertion by the user of `stream()`. */
    method Insert(f: Fragment)
      requires Valid() && f.Representable()
      modifies this, stream.buffer, stream.buffer.data
      ensures Valid() && body == old(body) + [f]
    {
      stream.Insert(f);
      FoldSplit("", header.Fragments() + body, [f], SMALL_BUFFER);
      assert header.Fragments() + body + [f] == header.Fragments() + (body + [f]);
      FoldOne(Fold("", header.Fragments() + body, SMALL_BUFFER), f, [], SMALL_BUFFER);
      assert [f] + [] == [f];
      body := body + [f];
    }

    /** `~Logger`: `finish`, then the calls it makes, in order. */
    method Destroy() returns (calls: seq<Call>)
      requires Valid()
      modifies stream.buffer, stream.buffer.data
      ensures calls == [Output(Record(header, body, basename, line))] + if level == FATAL then [Flush, Abort] else []
    {
      ghost var before := stream.Contents();
      stream.InsertText(" - ");
      stream.InsertText(basename);
      stream.InsertText(":");
      stream.InsertInteger(line);
      stream.InsertText("\n");
      FinishedUnfolds(before, basename, line);
      FoldSplit("", header.Fragments() + body, TrailerFragments(basename, line), SMALL_BUFFER);
      calls := [Output(stream.buffer.data[..stream.buffer.cur])];
      if level == FATAL {
        calls := calls + [Flush];
        calls := calls + [Abort];
      }
    }
  }

  lemma HeaderSteps(h: Header)
    requires h.LengthsOk()
    ensures Accept(Accept(Accept(Accept("", Text(h.time), SMALL_BUFFER), Text(h.micros), SMALL_BUFFER),
      Text(h.tid), SMALL_BUFFER), Text(h.level.Name()), SMALL_BUFFER) == Fold("", h.Fragments(), SMALL_BUFFER)
  {
    HeaderIsIntact(h);
    assert "" + h.time == h.time;
  }
}
