/** `StringPiece`: a view of bytes and its ordering, built from `memcmp` and the lengths. */
module StringPieces {

  /** `memcmp` compares bytes as unsigned char (section 7.24.4 of ISO/IEC 9899:2011). */
  newtype Byte = x: int | 0 <= x < 256

  type Bytes = seq<Byte>

  /** `memcmp` of the first `n` bytes; only the sign of the result is used. */
  function MemCmp(a: Bytes, b: Bytes, n: nat): int
    requires n <= |a| && n <= |b|
  {
    if n == 0 then 0
    else if a[0] != b[0] then a[0] as int - b[0] as int
    else MemCmp(a[1..], b[1..], n - 1)
  }

  function Common(a: Bytes, b: Bytes): nat { if |a| < |b| then |a| else |b| }

  function Compare(a: Bytes, b: Bytes): int {
    var r := MemCmp(a, b, Common(a, b));
    if r == 0 then (if |a| < |b| then -1 else if |a| > |b| then 1 else 0) else r
  }

  predicate Equal(a: Bytes, b: Bytes) { |a| == |b| && MemCmp(a, b, |a|) == 0 }

  /** The four operators that one macro generates from a pair of comparisons. */
  predicate Less(a: Bytes, b: Bytes) {
    var r := MemCmp(a, b, Common(a, b)); r < 0 || (r == 0 && |a| < |b|)
  }

  predicate LessOrEqual(a: Bytes, b: Bytes) {
    var r := MemCmp(a, b, Common(a, b)); r < 0 || (r == 0 && |a| <= |b|)
  }

  predicate GreaterOrEqual(a: Bytes, b: Bytes) {
    var r := MemCmp(a, b, Common(a, b)); r > 0 || (r == 0 && |a| >= |b|)
  }

  predicate Greater(a: Bytes, b: Bytes) {
    var r := MemCmp(a, b, Common(a, b)); r > 0 || (r == 0 && |a| > |b|)
  }

  predicate StartsWith(a: Bytes, x: Bytes) { |a| >= |x| && MemCmp(a, x, |x|) == 0 }

  // ---------------------------------------------------------------- results

  /** `a` is lexicographically before `b`: they agree up to `k`, where `a` ends or has the smaller byte. */
  predicate BeforeAt(a: Bytes, b: Bytes, k: nat) {
    && k <= |a| && k < |b| && a[..k] == b[..k]
    && (k == |a| || a[k] < b[k])
  }

  ghost predicate Before(a: Bytes, b: Bytes) { exists k: nat :: BeforeAt(a, b, k) }

  lemma {:induction false} MemCmpFindsDifference(a: Bytes, b: Bytes, n: nat) returns (k: nat)
    requires n <= |a| && n <= |b|
    ensures k <= n && a[..k] == b[..k]
    ensures k < n ==> a[k] != b[k] && MemCmp(a, b, n) == a[k] as int - b[k] as int
    ensures k == n ==> MemCmp(a, b, n) == 0
  {
    if n == 0 || a[0] != b[0] {
      k := 0;
    } else {
      var j := MemCmpFindsDifference(a[1..], b[1..], n - 1);
      k := j + 1;
      assert a[..k] == [a[0]] + a[1..][..j];
      assert b[..k] == [b[0]] + b[1..][..j];
    }
  }

  lemma SameAt(a: Bytes, b: Bytes, n: nat, i: nat)
    requires i < n <= |a| && n <= |b| && a[..n] == b[..n]
    ensures a[i] == b[i]
  {
    assert a[i] == a[..n][i];
  }

  lemma BeforeIsAsymmetric(a: Bytes, b: Bytes, j: nat, k: nat)
    requires BeforeAt(a, b, j)
    ensures a != b && !BeforeAt(b, a, k)
  {
    if BeforeAt(b, a, k) {
      if j < k { SameAt(b, a, k, j); } else if k < j { SameAt(a, b, j, k); }
    }
  }

  /** `compare` is the lexicographic order on unsigned bytes. */
  lemma CompareIsLexicographic(a: Bytes, b: Bytes)
    ensures Compare(a, b) < 0 <==> Before(a, b)
    ensures Compare(a, b) == 0 <==> a == b
    ensures Compare(a, b) > 0 <==> Before(b, a)
  {
    var k := MemCmpFindsDifference(a, b, Common(a, b));
    if Compare(a, b) < 0 {
      assert BeforeAt(a, b, k);
    } else if Compare(a, b) > 0 {
      assert BeforeAt(b, a, k);
    } else {
      assert a[..k] == a && b[..k] == b;
    }
    forall i: nat, j: nat | BeforeAt(a, b, i) ensures a != b && !BeforeAt(b, a, j) { BeforeIsAsymmetric(a, b, i, j); }
  }

  lemma BeforeIsTransitive(a: Bytes, b: Bytes, c: Bytes)
    requires Before(a, b) && Before(b, c)
    ensures Before(a, c)
  {
    var j: nat :| BeforeAt(a, b, j);
    var k: nat :| BeforeAt(b, c, k);
    var m := if j < k then j else k;
    assert a[..m] == a[..j][..m] && b[..m] == b[..j][..m] && b[..m] == b[..k][..m] && c[..m] == c[..k][..m];
    if j < k { SameAt(b, c, k, j); }
    if k < j { SameAt(a, b, j, k); }
    assert BeforeAt(a, c, m);
  }

  /** It is a total order: antisymmetric, transitive, and any two pieces are comparable. */
  lemma CompareIsTotalOrder(a: Bytes, b: Bytes, c: Bytes)
    ensures (Compare(a, b) < 0 <==> Compare(b, a) > 0) && (Compare(a, b) == 0 <==> Compare(b, a) == 0)
    ensures Compare(a, b) <= 0 && Compare(b, a) <= 0 ==> a == b
    ensures Compare(a, b) <= 0 && Compare(b, c) <= 0 ==> Compare(a, c) <= 0
  {
    CompareIsLexicographic(a, b);
    CompareIsLexicographic(b, a);
    CompareIsLexicographic(b, c);
    CompareIsLexicographic(a, c);
    if Before(a, b) && Before(b, c) { BeforeIsTransitive(a, b, c); }
  }

  /** All operators are sign tests of `compare`, and `==` is equality of the bytes. */
  lemma OperatorsAgreeWithCompare(a: Bytes, b: Bytes)
    ensures Less(a, b) <==> Compare(a, b) < 0
    ensures LessOrEqual(a, b) <==> Compare(a, b) <= 0
    ensures GreaterOrEqual(a, b) <==> Compare(a, b) >= 0
    ensures Greater(a, b) <==> Compare(a, b) > 0
    ensures Equal(a, b) <==> Compare(a, b) == 0
    ensures Equal(a, b) <==> a == b
  {
    CompareIsLexicographic(a, b);
  }

  lemma StartsWithIsPrefix(a: Bytes, x: Bytes)
    ensures StartsWith(a, x) <==> x <= a
  {
    if |a| >= |x| {
      var k := MemCmpFindsDifference(a, x, |x|);
      assert x[..|x|] == x;
    }
  }

  /** The pieces with a given prefix form an interval of the order. */
  lemma PrefixIsInterval(a: Bytes, b: Bytes, c: Bytes, x: Bytes)
    requires LessOrEqual(a, b) && LessOrEqual(b, c) && StartsWith(a, x) && StartsWith(c, x)
    ensures StartsWith(b, x)
  {
    OperatorsAgreeWithCompare(a, b);
    OperatorsAgreeWithCompare(b, c);
    CompareIsLexicographic(a, b);
    CompareIsLexicographic(b, c);
    StartsWithIsPrefix(a, x);
    StartsWithIsPrefix(b, x);
    StartsWithIsPrefix(c, x);
    if a != b && b != c {
      BetweenKeepsPrefix(a, b, c, x);
    }
  }

  lemma BetweenKeepsPrefix(a: Bytes, b: Bytes, c: Bytes, x: Bytes)
    requires Before(a, b) && Before(b, c) && x <= a && x <= c
    ensures x <= b
  {
    var j: nat :| BeforeAt(a, b, j);
    var k: nat :| BeforeAt(b, c, k);
    if j >= |x| {
      assert x == a[..j][..|x|] == b[..j][..|x|];
    } else {
      SameAt(a, c, |x|, j);
      if j < k {
        SameAt(b, c, k, j);
      } else if k < j {
        SameAt(a, c, |x|, k);
        SameAt(a, b, j, k);
      }
      assert false;
    }
  }

  // ---------------------------------------------------------------- the class

  /** `ptr_` is a place in `memory`. */
  class StringPiece {
    var memory: Bytes
    var ptr: int
    var length: int

    ghost predicate Valid()
      reads this
    {
      0 <= ptr <= ptr + length <= |memory|
    }

    function Contents(): Bytes
      requires Valid()
      reads this
    {
      memory[ptr..ptr + length]
    }

    constructor (buffer: Bytes, len: nat)
      requires len <= |buffer|
      ensures Valid() && Contents() == buffer[..len]
    {
      memory, ptr, length := buffer, 0, len;
    }

    method Set(buffer: Bytes, len: nat)
      requires len <= |buffer|
      modifies this
      ensures Valid() && Contents() == buffer[..len]
    {
      memory, ptr, length := buffer, 0, len;
    }

    method Clear()
      modifies this
      ensures Valid() && Contents() == []
    {
      memory, ptr, length := [], 0, 0;
    }

    /** The bound is not checked: with more bytes to drop than there are the view is no longer usable, and
        a negative `n` moves its start back. */
    method RemovePrefix(n: int)
      requires Valid()
      modifies this
      ensures memory == old(memory) && ptr == old(ptr) + n && ptr + length == old(ptr + length)
      ensures Valid() <==> -old(ptr) <= n <= old(length)
      ensures 0 <= n <= old(length) ==> Contents() == old(Contents())[n..]
    {
      ptr, length := ptr + n, length - n;
    }

    method RemoveSuffix(n: int)
      requires Valid()
      modifies this
      ensures memory == old(memory) && ptr == old(ptr) && length == old(length) - n
      ensures Valid() <==> old(ptr + length) - |memory| <= n <= old(length)
      ensures 0 <= n <= old(length) ==> Contents() == old(Contents())[..old(length) - n]
    {
      ghost var was := Contents();
      length := length - n;
      if Valid() && n >= 0 {
        assert was[..length] == memory[ptr..ptr + length];
      }
    }
  }
}
