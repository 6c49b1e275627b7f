/** Vocabulary shared by the models: bounded integers, failure values, the
    order on strings, and the two sorting primitives the Swift code calls. */
module Base {

  const UINT64_LIMIT := 0x1_0000_0000_0000_0000

  type UInt64 = n: int | 0 <= n < UINT64_LIMIT
  type Byte = n: int | 0 <= n < 256
  type Bytes = seq<Byte>

  /** Seconds since the epoch. */
  type Date = real

  datatype Option<+T> = None | Some(value: T)

  datatype Result<+T, +E> = Success(value: T) | Failure(error: E)

  function Min(a: int, b: int): int { if a <= b then a else b }

  function SaturatingAdd(a: UInt64, b: UInt64): UInt64 {
    Min(a + b, UINT64_LIMIT - 1)
  }

  /** Sums stop at the greatest 64-bit number. */
  lemma SaturatingIs(a: UInt64, b: UInt64)
    ensures SaturatingAdd(a, b) == if a + b <= 0xFFFF_FFFF_FFFF_FFFF then a + b else 0xFFFF_FFFF_FFFF_FFFF
  {
  }

  // ---------------------------------------------------------------- sequences

  function Filter<T(!new)>(xs: seq<T>, p: T -> bool): (r: seq<T>)
    ensures forall x :: x in r <==> x in xs && p(x)
    ensures |r| <= |xs|
  {
    if xs == [] then [] else (if p(xs[0]) then [xs[0]] else []) + Filter(xs[1..], p)
  }

  lemma Associative<T>(a: seq<T>, b: seq<T>, c: seq<T>)
    ensures a + (b + c) == a + b + c
  {
  }

  lemma {:induction false} FilterSnoc<T(!new)>(xs: seq<T>, x: T, p: T -> bool)
    ensures Filter(xs + [x], p) == Filter(xs, p) + (if p(x) then [x] else [])
  {
    if xs == [] {
      assert xs + [x] == [x];
    } else {
      FilterSnoc(xs[1..], x, p);
      assert (xs + [x])[1..] == xs[1..] + [x];
      var head, rest, last := if p(xs[0]) then [xs[0]] else [], Filter(xs[1..], p), if p(x) then [x] else [];
      assert Filter(xs, p) == head + rest;
      assert Filter(xs + [x], p) == head + Filter((xs + [x])[1..], p);
      Associative(head, rest, last);
    }
  }

  /** The first index of `xs` whose element satisfies `p`. */
  function FirstIndex<T(!new)>(xs: seq<T>, p: T -> bool): (r: Option<nat>)
    ensures r.Some? ==> r.value < |xs| && p(xs[r.value]) && forall j :: 0 <= j < r.value ==> !p(xs[j])
    ensures r.None? <==> forall j :: 0 <= j < |xs| ==> !p(xs[j])
  {
    if xs == [] then None
    else if p(xs[0]) then Some(0)
    else
      var rest := FirstIndex(xs[1..], p);
      if rest.Some? then Some(rest.value + 1) else None
  }

  // ------------------------------------------------------------ string order

  /** Strict lexicographic order on strings. */
  predicate Less(a: string, b: string) {
    b != [] && (a == [] || a[0] < b[0] || (a[0] == b[0] && Less(a[1..], b[1..])))
  }

  /** `a` and `b` agree up to `k`, where `a` ends or has the lower character. */
  predicate DiffersAt(a: string, b: string, k: nat) {
    k <= |a| && k < |b| && a[..k] == b[..k] && (k == |a| || a[k] < b[k])
  }

  lemma {:induction false} DifferingIsLess(a: string, b: string, k: nat)
    requires DiffersAt(a, b, k)
    ensures Less(a, b)
  {
    if k > 0 {
      assert a[..k][0] == b[..k][0];
      assert a[1..][..k - 1] == a[..k][1..] && b[1..][..k - 1] == b[..k][1..];
      DifferingIsLess(a[1..], b[1..], k - 1);
    }
  }

  lemma {:induction false} LessDiffers(a: string, b: string) returns (k: nat)
    requires Less(a, b)
    ensures DiffersAt(a, b, k)
  {
    k := 0;
    if a != [] && a[0] == b[0] {
      k := LessDiffers(a[1..], b[1..]);
      assert a[..k + 1] == [a[0]] + a[1..][..k] && b[..k + 1] == [b[0]] + b[1..][..k];
      k := k + 1;
    }
  }

  lemma {:induction false} LessTransitive(a: string, b: string, c: string)
    requires Less(a, b) && Less(b, c)
    ensures Less(a, c)
  {
    if a != [] && a[0] == b[0] == c[0] {
      LessTransitive(a[1..], b[1..], c[1..]);
    }
  }

  lemma {:induction false} LessIrreflexive(a: string)
    ensures !Less(a, a)
  {
    if a != [] {
      LessIrreflexive(a[1..]);
    }
  }

  lemma {:induction false} LessTotal(a: string, b: string)
    ensures a == b || Less(a, b) || Less(b, a)
  {
    if a != [] && b != [] && a[0] == b[0] {
      LessTotal(a[1..], b[1..]);
      assert a == [a[0]] + a[1..] && b == [b[0]] + b[1..];
    }
  }

  // --------------------------------------------------- sorted sets of strings

  ghost predicate StrictlySorted(s: seq<string>) {
    forall i, j :: 0 <= i < j < |s| ==> Less(s[i], s[j])
  }

  function InsertSorted(x: string, s: seq<string>): seq<string> {
    if s == [] then [x]
    else if x == s[0] then s
    else if Less(x, s[0]) then [x] + s
    else [s[0]] + InsertSorted(x, s[1..])
  }

  /** `Array(Set(xs)).sorted()`. */
  function SortedSet(xs: seq<string>): seq<string> {
    if xs == [] then [] else InsertSorted(xs[0], SortedSet(xs[1..]))
  }

  lemma {:induction false} InsertSortedIsSorted(x: string, s: seq<string>)
    requires StrictlySorted(s)
    ensures StrictlySorted(InsertSorted(x, s))
    ensures forall y :: y in InsertSorted(x, s) <==> y == x || y in s
  {
    if s == [] || x == s[0] {
    } else if Less(x, s[0]) {
      forall j | 0 <= j < |s| ensures Less(x, s[j]) {
        if j > 0 { LessTransitive(x, s[0], s[j]); }
      }
    } else {
      LessTotal(x, s[0]);
      InsertSortedIsSorted(x, s[1..]);
      var r := InsertSorted(x, s[1..]);
      forall j | 0 <= j < |r| ensures Less(s[0], r[j]) {
        assert r[j] in r;
      }
    }
  }

  lemma {:induction false} SortedSetIsSorted(xs: seq<string>)
    ensures StrictlySorted(SortedSet(xs))
    ensures forall y :: y in SortedSet(xs) <==> y in xs
  {
    if xs != [] {
      SortedSetIsSorted(xs[1..]);
      InsertSortedIsSorted(xs[0], SortedSet(xs[1..]));
    }
  }

  /** A strictly sorted sequence is determined by its members. */
  lemma {:induction false} SortedUnique(s: seq<string>, t: seq<string>)
    requires StrictlySorted(s) && StrictlySorted(t)
    requires forall y :: y in s <==> y in t
    ensures s == t
  {
    if s == [] || t == [] {
      var y := if s != [] then s[0] else if t != [] then t[0] else "";
      assert y in s <==> y in t;
    } else {
      HeadIsLeast(s, t);
      HeadIsLeast(t, s);
      if s[0] != t[0] { NoCycle(s[0], t[0]); }
      TailMembers(s);
      TailMembers(t);
      SortedUnique(s[1..], t[1..]);
    }
  }

  lemma HeadIsLeast(s: seq<string>, t: seq<string>)
    requires StrictlySorted(t) && s != [] && t != [] && s[0] in t
    ensures s[0] == t[0] || Less(t[0], s[0])
  {
    var j :| 0 <= j < |t| && t[j] == s[0];
  }

  lemma NoCycle(a: string, b: string)
    requires Less(a, b)
    ensures !Less(b, a)
  {
    if Less(b, a) { LessTransitive(a, b, a); LessIrreflexive(a); }
  }

  lemma TailMembers(s: seq<string>)
    requires StrictlySorted(s) && s != []
    ensures forall y :: y in s[1..] <==> y in s && y != s[0]
  {
    forall j | 0 < j < |s| ensures s[j] != s[0] {
      LessIrreflexive(s[0]);
    }
    forall y | y in s && y != s[0] ensures y in s[1..] {
      var j :| 0 <= j < |s| && s[j] == y;
      assert s[1..][j - 1] == y;
    }
  }

  // ------------------------------------------------------------- stable sort

  function InsertByKey(x: nat, xs: seq<nat>, key: nat -> int): (r: seq<nat>)
    ensures |r| == |xs| + 1
    ensures forall y :: y in r <==> y == x || y in xs
  {
    if xs == [] then [x]
    else if key(x) <= key(xs[0]) then [x] + xs
    else [xs[0]] + InsertByKey(x, xs[1..], key)
  }

  /** A stable sort by an integer key. With an arbitrary key it also models a
      shuffle: every permutation is the sort by some ranking. */
  function SortByKey(xs: seq<nat>, key: nat -> int): (r: seq<nat>)
    ensures |r| == |xs|
    ensures forall y :: y in r <==> y in xs
  {
    if xs == [] then [] else InsertByKey(xs[0], SortByKey(xs[1..], key), key)
  }

  ghost predicate SortedByKey(xs: seq<nat>, key: nat -> int) {
    forall i, j :: 0 <= i < j < |xs| ==> key(xs[i]) <= key(xs[j])
  }

  ghost predicate NoDuplicates<T>(xs: seq<T>) {
    forall i, j :: 0 <= i < j < |xs| ==> xs[i] != xs[j]
  }

  lemma {:induction false} InsertByKeySorted(x: nat, xs: seq<nat>, key: nat -> int)
    requires SortedByKey(xs, key)
    ensures SortedByKey(InsertByKey(x, xs, key), key)
    decreases xs
  {
    if xs != [] && key(x) > key(xs[0]) {
      InsertByKeySorted(x, xs[1..], key);
      var r := InsertByKey(x, xs[1..], key);
      forall j | 0 <= j < |r| ensures key(xs[0]) <= key(r[j]) {
        assert r[j] in r;
      }
    }
  }

  lemma {:induction false} InsertByKeyDistinct(x: nat, xs: seq<nat>, key: nat -> int)
    requires NoDuplicates(xs) && x !in xs
    ensures NoDuplicates(InsertByKey(x, xs, key))
    decreases xs
  {
    if xs != [] && key(x) > key(xs[0]) {
      InsertByKeyDistinct(x, xs[1..], key);
      var r := InsertByKey(x, xs[1..], key);
      forall j | 0 <= j < |r| ensures xs[0] != r[j] {
        assert r[j] in r;
      }
    }
  }

  /** Sorting orders by the key and neither adds nor repeats an element. */
  lemma {:induction false} SortByKeySorted(xs: seq<nat>, key: nat -> int)
    ensures SortedByKey(SortByKey(xs, key), key)
    ensures NoDuplicates(xs) ==> NoDuplicates(SortByKey(xs, key))
  {
    if xs != [] {
      SortByKeySorted(xs[1..], key);
      InsertByKeySorted(xs[0], SortByKey(xs[1..], key), key);
      if NoDuplicates(xs) { InsertByKeyDistinct(xs[0], SortByKey(xs[1..], key), key); }
    }
  }

  lemma {:induction false} FilterNoDuplicates<T(!new)>(xs: seq<T>, p: T -> bool)
    requires NoDuplicates(xs)
    ensures NoDuplicates(Filter(xs, p))
  {
    if xs != [] {
      FilterNoDuplicates(xs[1..], p);
      assert xs[0] !in xs[1..];
    }
  }

  lemma {:induction false} FilterAgrees<T(!new)>(xs: seq<T>, p: T -> bool, q: T -> bool)
    requires forall x :: x in xs ==> p(x) == q(x)
    ensures Filter(xs, p) == Filter(xs, q)
  {
    if xs != [] {
      assert xs[0] in xs && forall x :: x in xs[1..] ==> x in xs;
      FilterAgrees(xs[1..], p, q);
    }
  }

  predicate HasPrefix(text: string, prefix: string) { |prefix| <= |text| && text[..|prefix|] == prefix }
}
