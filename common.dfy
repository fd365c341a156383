/** Small value types and sequence helpers shared by every module of the model. */
module Common {

  datatype Option<+T> = None | Some(value: T)

  /**
   * A JavaScript value as it can appear in an untyped field of a listing or
   * of a request body. Only integral numbers are modelled.
   */
  datatype JsValue = Undefined | Null | Num(n: int) | Str(s: string) | Bool(b: bool)

  /** JavaScript truthiness (`if (v)`). */
  predicate Truthy(v: JsValue)
  {
    match v
    case Undefined => false
    case Null => false
    case Num(n) => n != 0
    case Str(s) => s != ""
    case Bool(b) => b
  }

  /** The `typeof v === 'number' && v` test: the number when it is a non-zero number. */
  function NonZeroNumber(v: JsValue): (r: Option<int>)
    ensures r.Some? <==> Truthy(v) && v.Num?
    ensures r.Some? ==> r.value == v.n && r.value != 0
  {
    if v.Num? && v.n != 0 then Some(v.n) else None
  }

  function Min(a: int, b: int): int { if a <= b then a else b }
  function Max(a: int, b: int): int { if a >= b then a else b }

  /** The elements of `s` satisfying `p`, in their original order. */
  function Filter<T(!new)>(s: seq<T>, p: T -> bool): (r: seq<T>)
    ensures |r| <= |s|
    ensures forall x :: x in r ==> x in s && p(x)
    ensures forall i :: 0 <= i < |s| && p(s[i]) ==> s[i] in r
  {
    if s == [] then []
    else
      var rest := Filter(s[1..], p);
      assert s == [s[0]] + s[1..];
      if p(s[0]) then [s[0]] + rest else rest
  }

  /** A non-empty sequence is its front followed by its last element. */
  lemma InitLast<T>(s: seq<T>)
    requires s != []
    ensures s[..|s| - 1] + [s[|s| - 1]] == s
  {
  }

  /** `s.map(f)`. */
  function MapSeq<A, B>(f: A -> B, s: seq<A>): (r: seq<B>)
    ensures |r| == |s| && forall k :: 0 <= k < |s| ==> r[k] == f(s[k])
  {
    seq(|s|, k requires 0 <= k < |s| => f(s[k]))
  }

  /** Mapping one more element appends its image. */
  lemma MapSeqPrefix<A, B>(f: A -> B, s: seq<A>, i: nat)
    requires i < |s|
    ensures MapSeq(f, s[..i + 1]) == MapSeq(f, s[..i]) + [f(s[i])]
  {
    var a, b := MapSeq(f, s[..i + 1]), MapSeq(f, s[..i]);
    forall k | 0 <= k < i ensures a[k] == b[k] {
      assert s[..i + 1][k] == s[..i][k];
    }
  }

  /** Filtering keeps exactly the elements satisfying `p`, with their multiplicity. */
  lemma {:induction false} FilterMultiset<T(!new)>(s: seq<T>, p: T -> bool, x: T)
    ensures multiset(Filter(s, p))[x] == if p(x) then multiset(s)[x] else 0
  {
    if s != [] {
      assert s == [s[0]] + s[1..];
      FilterMultiset(s[1..], p, x);
    }
  }

  /** Filtering distributes over concatenation, so it keeps relative order. */
  lemma {:induction false} FilterAppend<T(!new)>(a: seq<T>, b: seq<T>, p: T -> bool)
    ensures Filter(a + b, p) == Filter(a, p) + Filter(b, p)
  {
    if a == [] {
      assert a + b == b;
    } else {
      var ab := a + b;
      assert ab[0] == a[0] && ab[1..] == a[1..] + b;
      FilterAppend(a[1..], b, p);
      assert Filter(ab, p) == (if p(a[0]) then [a[0]] else []) + Filter(ab[1..], p);
      assert Filter(a, p) == (if p(a[0]) then [a[0]] else []) + Filter(a[1..], p);
    }
  }

  /** Two predicates that agree on a sequence filter it alike. */
  lemma {:induction false} FilterAgree<T(!new)>(s: seq<T>, p: T -> bool, q: T -> bool)
    requires forall x :: x in s ==> p(x) == q(x)
    ensures Filter(s, p) == Filter(s, q)
  {
    if s != [] {
      assert forall x :: x in s[1..] ==> x in s;
      FilterAgree(s[1..], p, q);
    }
  }

  /** Number of elements of `s` satisfying `p`. */
  function Count<T(!new)>(s: seq<T>, p: T -> bool): (n: nat)
    ensures n == |Filter(s, p)|
  {
    if s == [] then 0 else (if p(s[0]) then 1 else 0) + Count(s[1..], p)
  }

  /** Counting over one more element at the back. */
  lemma {:induction false} CountSnoc<T(!new)>(s: seq<T>, x: T, p: T -> bool)
    ensures Count(s + [x], p) == Count(s, p) + (if p(x) then 1 else 0)
  {
    if s == [] {
      assert s + [x] == [x] && [x][1..] == [];
    } else {
      assert (s + [x])[0] == s[0] && (s + [x])[1..] == s[1..] + [x];
      CountSnoc(s[1..], x, p);
    }
  }

  /** JavaScript `array.slice(0, end)`: a negative end counts from the back. */
  function SliceTo<T>(s: seq<T>, end: int): (r: seq<T>)
    ensures 0 <= end ==> |r| == Min(end, |s|)
    ensures end < 0 ==> |r| == Max(|s| + end, 0)
    ensures r <= s
  {
    if end >= 0 then s[..Min(end, |s|)] else s[..Max(|s| + end, 0)]
  }

  /** Concatenation of a sequence of sequences. */
  function Flatten<T>(ss: seq<seq<T>>): (r: seq<T>)
  {
    if ss == [] then [] else Flatten(ss[..|ss| - 1]) + ss[|ss| - 1]
  }

  /** A sequence without repeated elements. */
  predicate NoDuplicates<T(==)>(s: seq<T>)
  {
    forall i, j :: 0 <= i < j < |s| ==> s[i] != s[j]
  }

  /** The first position in `lo..hi` where `f` reports something, with what it reports there. */
  function FirstSome<T>(f: nat -> Option<T>, lo: nat, hi: nat): (r: Option<(nat, T)>)
    ensures r.Some? ==> lo <= r.value.0 <= hi && f(r.value.0) == Some(r.value.1)
    decreases if lo <= hi then hi - lo + 1 else 0
  {
    if lo > hi then None
    else if f(lo).Some? then Some((lo, f(lo).value))
    else FirstSome(f, lo + 1, hi)
  }

  /** Nothing is reported before the position `FirstSome` returns, and nowhere when it returns none. */
  lemma {:induction false} FirstSomeLeftmost<T>(f: nat -> Option<T>, lo: nat, hi: nat)
    ensures var r := FirstSome(f, lo, hi);
      && (r.Some? ==> forall k :: lo <= k < r.value.0 ==> f(k).None?)
      && (r.None? ==> forall k :: lo <= k <= hi ==> f(k).None?)
    decreases if lo <= hi then hi - lo + 1 else 0
  {
    if lo <= hi && f(lo).None? {
      FirstSomeLeftmost(f, lo + 1, hi);
    }
  }

  /** A position where `f` reports something, with nothing before it, is the one `FirstSome` returns. */
  lemma {:induction false} FirstSomeAt<T>(f: nat -> Option<T>, lo: nat, hi: nat, i: nat)
    requires lo <= i <= hi && f(i).Some?
    requires forall k :: lo <= k < i ==> f(k).None?
    ensures FirstSome(f, lo, hi) == Some((i, f(i).value))
    decreases i - lo
  {
    if lo < i {
      FirstSomeAt(f, lo + 1, hi, i);
    }
  }
}
