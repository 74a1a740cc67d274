/** `FixedBuffer` and the insertion operators of `LogStream`, with their two admission rules. */
module LogStreams {
  import opened Numerals
  import opened Sequences

  const SMALL_BUFFER := 4000
  const MAX_NUMERIC_SIZE := 32

  // ---------------------------------------------------------------- specification

  /** One insertion. A `bool` or a `char` is a text of one character. */
  datatype Fragment = Text(s: string) | Integer(v: int) | Pointer(p: nat) {

    function Render(): string {
      match this
      case Text(s) => s
      case Integer(v) => DecimalText(v)
      case Pointer(p) => "0x" + HexText(p)
    }

    /** The value belongs to one of the inserted C++ types. */
    predicate Representable() {
      match this
      case Text(_) => true
      case Integer(v) => IsInteger64(v)
      case Pointer(p) => p < 0x1_0000_0000_0000_0000
    }

    /** Text must leave a byte free; a number asks for 32 bytes whatever its length. */
    predicate Fits(avail: int) {
      if Text? then avail > |s| else avail >= MAX_NUMERIC_SIZE
    }
  }

  function Accept(out: string, f: Fragment, size: nat): string {
    if f.Fits(size - |out|) then out + f.Render() else out
  }

  function Fold(out: string, fs: seq<Fragment>, size: nat): string
    decreases |fs|
  {
    if fs == [] then out else Fold(Accept(out, fs[0], size), fs[1..], size)
  }

  /** The fragments that are not refused. */
  function Kept(out: string, fs: seq<Fragment>, size: nat): seq<Fragment>
    decreases |fs|
  {
    if fs == [] then []
    else
      var rest := Kept(Accept(out, fs[0], size), fs[1..], size);
      if fs[0].Fits(size - |out|) then [fs[0]] + rest else rest
  }

  function Rendered(fs: seq<Fragment>): seq<string> { seq(|fs|, i requires 0 <= i < |fs| => fs[i].Render()) }

  predicate Subsequence(a: seq<Fragment>, b: seq<Fragment>)
    decreases |b|
  {
    a == [] || (b != [] && (Subsequence(a, b[1..]) || (a[0] == b[0] && Subsequence(a[1..], b[1..]))))
  }

  // ---------------------------------------------------------------- results

  /** What the three kinds of insertion write: a text as it is, an integer as a canonical decimal numeral,
      and a pointer as "0x" and hexadecimal digits without superfluous zeros, read without any table. */
  lemma RenderingsReadBack(f: Fragment)
    requires f.Representable()
    ensures match f
      case Text(s) => f.Render() == s
      case Integer(v) => ReadDecimal(f.Render()) == v && |f.Render()| <= 20
      case Pointer(p) =>
        && 3 <= |f.Render()| <= 18 && f.Render()[0] == '0' && f.Render()[1] == 'x'
        && Read(f.Render()[2..], 16) == p && (f.Render()[2] == '0' <==> p == 0)
  {
    match f
    case Text(_) =>
    case Integer(v) => DecimalRoundTrip(v);
    case Pointer(p) =>
      HexRoundTrip(p);
      assert f.Render()[2..] == HexText(p);
  }

  lemma AcceptKeepsRoom(out: string, f: Fragment, size: nat)
    requires f.Representable() && |out| < size
    ensures |out| <= |Accept(out, f, size)| < size
  {
    RenderingsReadBack(f);
  }

  lemma {:induction false} KeptIsSubsequence(out: string, fs: seq<Fragment>, size: nat)
    ensures Subsequence(Kept(out, fs, size), fs)
    decreases |fs|
  {
    if fs == [] {
    } else {
      KeptIsSubsequence(Accept(out, fs[0], size), fs[1..], size);
    }
  }

  lemma RenderedFirst(out: string, f: Fragment, rest: seq<Fragment>)
    ensures out + Concat(Rendered([f] + rest)) == out + f.Render() + Concat(Rendered(rest))
  {
    var texts := Rendered([f] + rest);
    assert texts[0] == f.Render() && texts[1..] == Rendered(rest);
    Associative(out, f.Render(), Concat(Rendered(rest)));
  }

  lemma {:induction false} FoldIsConcatOfKept(out: string, fs: seq<Fragment>, size: nat)
    ensures Fold(out, fs, size) == out + Concat(Rendered(Kept(out, fs, size)))
    decreases |fs|
  {
    if fs == [] {
    } else {
      var out' := Accept(out, fs[0], size);
      FoldIsConcatOfKept(out', fs[1..], size);
      RenderedFirst(out, fs[0], Kept(out', fs[1..], size));
    }
  }

  lemma {:induction false} FoldKeepsRoom(out: string, fs: seq<Fragment>, size: nat)
    requires |out| < size && forall f :: f in fs ==> f.Representable()
    ensures |Fold(out, fs, size)| < size
    decreases |fs|
  {
    if fs == [] {
    } else {
      AcceptKeepsRoom(out, fs[0], size);
      FoldKeepsRoom(Accept(out, fs[0], size), fs[1..], size);
    }
  }

  /** For every sequence of insertions: the buffer holds what it held before followed by whole fragments,
      a subsequence of the inserted ones in their order, and at least one byte stays free. */
  lemma InsertionsKeepWholeFragments(out: string, fs: seq<Fragment>, size: nat)
    requires |out| < size && forall f :: f in fs ==> f.Representable()
    ensures Fold(out, fs, size) == out + Concat(Rendered(Kept(out, fs, size)))
    ensures Subsequence(Kept(out, fs, size), fs)
    ensures |Fold(out, fs, size)| < size && out <= Fold(out, fs, size)
  {
    KeptIsSubsequence(out, fs, size);
    FoldIsConcatOfKept(out, fs, size);
    FoldKeepsRoom(out, fs, size);
  }

  lemma {:induction false} FoldSplit(out: string, fs: seq<Fragment>, gs: seq<Fragment>, size: nat)
    ensures Fold(out, fs + gs, size) == Fold(Fold(out, fs, size), gs, size)
    ensures Kept(out, fs + gs, size) == Kept(out, fs, size) + Kept(Fold(out, fs, size), gs, size)
    decreases |fs|
  {
    if fs == [] {
      assert fs + gs == gs;
    } else {
      assert (fs + gs)[1..] == fs[1..] + gs;
      FoldSplit(Accept(out, fs[0], size), fs[1..], gs, size);
    }
  }

  /** Which fragments are kept: number `i` is, exactly when the first `i` left more bytes than a text has,
      or at least 32 for a number. */
  lemma KeptExactlyWhenFitting(out: string, fs: seq<Fragment>, i: nat, size: nat)
    requires i < |fs|
    ensures Kept(out, fs[..i + 1], size) ==
      Kept(out, fs[..i], size) +
      var room := size - |Fold(out, fs[..i], size)|;
      if (if fs[i].Text? then room > |fs[i].s| else room >= 32) then [fs[i]] else []
  {
    assert fs[..i + 1] == fs[..i] + [fs[i]];
    FoldSplit(out, fs[..i], [fs[i]], size);
    var before := Fold(out, fs[..i], size);
    assert Kept(Accept(before, fs[i], size), [], size) == [];
    assert [fs[i]][1..] == [];
  }

  /** The buffer never gets roomier: what was refused once is refused for the rest of the record. */
  lemma RefusedStaysRefused(out: string, f: Fragment, fs: seq<Fragment>, size: nat)
    requires |out| < size && !f.Fits(size - |out|) && forall g :: g in fs ==> g.Representable()
    ensures Fold(out, fs + [f], size) == Fold(out, fs, size)
  {
    InsertionsKeepWholeFragments(out, fs, size);
    FoldSplit(out, fs, [f], size);
    var before := Fold(out, fs, size);
    assert [f][1..] == [];
    assert Fold(before, [f], size) == Accept(before, f, size);
  }

  // ---------------------------------------------------------------- the classes

  class FixedBuffer {
    const data: array<char>
    var cur: nat

    /** One byte is always free, so that `debugString` can terminate the text. */
    ghost predicate Valid()
      reads this
    {
      cur < data.Length
    }

    ghost function Contents(): string
      requires Valid()
      reads this, data
    {
      data[..cur]
    }

    constructor (size: nat)
      requires size > 0
      ensures Valid() && fresh(data) && data.Length == size && Contents() == ""
    {
      data := new char[size];
      cur := 0;
    }

    function Avail(): int
      reads this
    {
      data.Length - cur
    }

    method Append(s: string)
      requires Valid()
      modifies this, data
      ensures Valid() && Contents() == if data.Length - |old(Contents())| > |s| then old(Contents()) + s else old(Contents())
      ensures Contents() == Accept(old(Contents()), Text(s), data.Length)
    {
      if Avail() > |s| {
        for i := 0 to |s|
          invariant cur == old(cur)
          invariant data[..cur + i] == old(data[..cur]) + s[..i]
        {
          data[cur + i] := s[i];
          assert data[..cur + i + 1] == data[..cur + i] + [s[i]];
        }
        cur := cur + |s|;
      }
    }

    method Reset()
      requires Valid()
      modifies this
      ensures Valid() && Contents() == ""
    {
      cur := 0;
    }

    /** Terminates the text in place, inside the array, without changing the contents. */
    method DebugString()
      requires Valid()
      modifies data
      ensures Valid() && Contents() == old(Contents()) && data[cur] == '\0'
    {
      data[cur] := '\0';
    }
  }

  lemma SliceSplit(s: string, i: nat, j: nat)
    requires i <= j <= |s|
    ensures s[..j] == s[..i] + s[i..j]
  {
  }

  class LogStream {
    const buffer: FixedBuffer

    ghost predicate Valid()
      reads this, buffer
    {
      buffer.Valid() && buffer.data.Length == SMALL_BUFFER
    }

    ghost function Contents(): string
      requires Valid()
      reads this, buffer, buffer.data
    {
      buffer.Contents()
    }

    constructor ()
      ensures Valid() && fresh(buffer) && fresh(buffer.data) && Contents() == ""
    {
      buffer := new FixedBuffer(SMALL_BUFFER);
    }

    method InsertText(s: string)
      requires Valid()
      modifies buffer, buffer.data
      ensures Valid() && Contents() == Accept(old(Contents()), Text(s), SMALL_BUFFER)
    {
      buffer.Append(s);
    }

    method InsertBool(v: bool)
      requires Valid()
      modifies buffer, buffer.data
      ensures Valid() && Contents() == Accept(old(Contents()), Text(if v then "1" else "0"), SMALL_BUFFER)
    {
      buffer.Append(if v then "1" else "0");
    }

    /** `formatInteger`, for every integer type that has an insertion operator. */
    method InsertInteger(v: int)
      requires Valid() && Integer(v).Representable()
      modifies buffer, buffer.data
      ensures Valid() && Contents() == Accept(old(Contents()), Integer(v), SMALL_BUFFER)
    {
      if buffer.Avail() >= MAX_NUMERIC_SIZE {
        RenderingsReadBack(Integer(v));
        var at := buffer.cur;
        ghost var before := buffer.data[..at];
        var len := Convert(buffer.data, at, v);
        buffer.cur := at + len;
        assert buffer.data[..at] == before;
        SliceSplit(buffer.data[..], at, at + len);
        assert buffer.data[..at + len] == before + DecimalText(v);
      }
    }

    method InsertPointer(p: nat)
      requires Valid() && Pointer(p).Representable()
      modifies buffer, buffer.data
      ensures Valid() && Contents() == Accept(old(Contents()), Pointer(p), SMALL_BUFFER)
    {
      if buffer.Avail() >= MAX_NUMERIC_SIZE {
        HexRoundTrip(p);
        var at := buffer.cur;
        ghost var before := buffer.data[..at];
        buffer.data[at] := '0';
        buffer.data[at + 1] := 'x';
        assert buffer.data[..at + 2] == before + "0x";
        ghost var prefix := buffer.data[..at + 2];
        var len := ConvertHex(buffer.data, at + 2, p);
        buffer.cur := at + len + 2;
        assert buffer.data[..at + 2] == prefix;
        SliceSplit(buffer.data[..], at + 2, at + 2 + len);
        assert buffer.data[..at + 2 + len] == prefix + HexText(p);
        Associative(before, "0x", HexText(p));
      }
    }

    method Insert(f: Fragment)
      requires Valid() && f.Representable()
      modifies buffer, buffer.data
      ensures Valid() && Contents() == Accept(old(Contents()), f, SMALL_BUFFER)
    {
      match f {
      case Text(s) => InsertText(s);
      case Integer(v) => InsertInteger(v);
      case Pointer(p) => InsertPointer(p);
      }
    }
  }
}
