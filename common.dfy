// Shared vocabulary of the model: optional values, error results and the
// fixed-width unsigned arithmetic that the C++ sources rely on.
module Common {

  datatype Option<T> = None | Some(value: T)

  /** The outcome of a call into the accelerator runtime or a driver that the
      model does not look inside: it either succeeds or fails. */
  datatype Outcome = Success | Failure

  /** An operation that either produces a value or raises the named error. */
  datatype Result<T, E> = Ok(value: T) | Err(error: E)

  const U32_MOD: int := 0x1_0000_0000

  /** The value that a C `uint32_t` holds after an assignment from `x`. */
  function U32(x: int): (r: nat)
    ensures r < U32_MOD
    ensures 0 <= x < U32_MOD ==> r == x
  {
    x % U32_MOD
  }

  predicate IsU32(x: int) { 0 <= x < U32_MOD }

  /** One byte of host or device memory. */
  type Byte = x: int | 0 <= x < 256

  /** n zero bytes. */
  function Zeros(n: nat): (z: seq<Byte>)
    ensures |z| == n && forall i :: 0 <= i < n ==> z[i] == 0
  {
    seq(n, _ => 0)
  }

  /** `dst` with the bytes from position `at` on replaced by `src`. */
  function Splice(dst: seq<Byte>, at: nat, src: seq<Byte>): (r: seq<Byte>)
    requires at + |src| <= |dst|
    ensures |r| == |dst|
    ensures r[at..at + |src|] == src
    ensures forall i :: 0 <= i < |dst| && !(at <= i < at + |src|) ==> r[i] == dst[i]
  {
    dst[..at] + src + dst[at + |src|..]
  }

  /** Rounding down to even (`v -= v & 1`), as picture sizes, positions
      and line widths are for the semi-planar formats. */
  function EvenDown(x: nat): (r: nat)
    ensures r % 2 == 0 && r <= x < r + 2
  {
    if x % 2 == 1 then x - 1 else x
  }

  function Min(a: int, b: int): int { if a <= b then a else b }
  function Max(a: int, b: int): int { if a <= b then b else a }

  /** The sum of a sequence of naturals. */
  function Sum(s: seq<nat>): nat
  {
    if |s| == 0 then 0 else Sum(s[..|s| - 1]) + s[|s| - 1]
  }

  /** The product of a sequence of naturals (1 for the empty sequence). */
  function Product(s: seq<nat>): nat
  {
    if |s| == 0 then 1 else Product(s[..|s| - 1]) * s[|s| - 1]
  }

  lemma {:induction false} ProductOfPrefixSnoc(s: seq<nat>, i: nat)
    requires i < |s|
    ensures Product(s[..i + 1]) == Product(s[..i]) * s[i]
  {
    assert s[..i + 1][..i] == s[..i];
  }

  lemma {:induction false} SumOfPrefixSnoc(s: seq<nat>, i: nat)
    requires i < |s|
    ensures Sum(s[..i + 1]) == Sum(s[..i]) + s[i]
  {
    assert s[..i + 1][..i] == s[..i];
  }

  /** The concatenation of a sequence of sequences, in order. */
  function Flatten<T>(ss: seq<seq<T>>): seq<T>
  {
    if |ss| == 0 then [] else Flatten(ss[..|ss| - 1]) + ss[|ss| - 1]
  }

  lemma {:induction false} FlattenSnoc<T>(ss: seq<seq<T>>, s: seq<T>)
    ensures Flatten(ss + [s]) == Flatten(ss) + s
  {
    assert (ss + [s])[..|ss|] == ss;
  }

  lemma {:induction false} FlattenConcat<T>(a: seq<seq<T>>, b: seq<seq<T>>)
    ensures Flatten(a + b) == Flatten(a) + Flatten(b)
    decreases |b|
  {
    if |b| == 0 {
      assert a + b == a;
    } else {
      var b' := b[..|b| - 1];
      assert a + b == (a + b') + [b[|b| - 1]];
      FlattenSnoc(a + b', b[|b| - 1]);
      FlattenConcat(a, b');
      FlattenSnoc(b', b[|b| - 1]);
      assert b' + [b[|b| - 1]] == b;
    }
  }

  /** The names 0 .. n-1 of n preallocated blocks or slots. */
  function Below(n: nat): (r: set<nat>)
    ensures |r| == n
    ensures forall b: nat :: b in r <==> b < n
  {
    if n == 0 then {} else Below(n - 1) + {n - 1}
  }

  /** The names held in a queue. */
  function Elems(s: seq<nat>): (r: set<nat>)
    ensures forall x :: x in r <==> x in s
  {
    set x | x in s
  }

  lemma {:induction false} DistinctCardinality(s: seq<nat>)
    requires forall i, j :: 0 <= i < j < |s| ==> s[i] != s[j]
    ensures |Elems(s)| == |s|
  {
    if |s| > 0 {
      var init := s[..|s| - 1];
      DistinctCardinality(init);
      var last := s[|s| - 1];
      assert s == init + [last];
      assert last !in init;
      assert Elems(s) == Elems(init) + {last};
    } else {
      assert Elems(s) == {};
    }
  }

  /** A queue of distinct idle names and a set of lent names that together
      cover 0 .. n-1 without overlap account for exactly n names. */
  lemma PartitionCount(idle: seq<nat>, lent: set<nat>, n: nat)
    requires forall i, j :: 0 <= i < j < |idle| ==> idle[i] != idle[j]
    requires forall i :: 0 <= i < |idle| ==> idle[i] < n && idle[i] !in lent
    requires forall b :: b in lent ==> b < n
    requires forall b :: 0 <= b < n ==> b in lent || b in idle
    ensures |idle| + |lent| == n
  {
    assert Below(n) == Elems(idle) + lent;
    assert Elems(idle) * lent == {};
    DistinctCardinality(idle);
  }
}
