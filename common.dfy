/** Generic sequence helpers shared by the storefront model: an Option type,
    order-preserving filtering (JavaScript's Array.prototype.filter), taking a
    prefix (Array.prototype.slice(0, n)) and the subsequence relation that
    states "keeps the relative order". */
module Common {

  datatype Option<T> = None | Some(value: T)

  function Min(a: int, b: int): int { if a <= b then a else b }

  function Max(a: int, b: int): int { if a >= b then a else b }

  /** `r` can be obtained from `s` by deleting elements: the order of what
      is kept is the order in `s`. */
  ghost predicate IsSubsequence<T>(r: seq<T>, s: seq<T>)
    decreases |s|
  {
    r == [] || (s != [] && ((r[0] == s[0] && IsSubsequence(r[1..], s[1..])) || IsSubsequence(r, s[1..])))
  }

  /** Keeps the elements satisfying `f`, in order. */
  function Filter<T>(s: seq<T>, f: T -> bool): seq<T>
  {
    if s == [] then [] else if f(s[0]) then [s[0]] + Filter(s[1..], f) else Filter(s[1..], f)
  }

  /** The first `n` elements, or all of them when there are fewer. */
  function Take<T>(s: seq<T>, n: nat): (r: seq<T>)
    ensures |r| == Min(n, |s|)
    ensures r == s[..|r|]
  {
    if |s| <= n then s else s[..n]
  }

  lemma {:induction false} FilterMembers<T>(s: seq<T>, f: T -> bool)
    ensures forall x :: x in Filter(s, f) <==> x in s && f(x)
  {
    if s != [] {
      FilterMembers(s[1..], f);
      assert s == [s[0]] + s[1..];
    }
  }

  lemma {:induction false} FilterLength<T>(s: seq<T>, f: T -> bool)
    ensures |Filter(s, f)| <= |s|
    ensures |Filter(s, f)| == |s| <==> forall i :: 0 <= i < |s| ==> f(s[i])
  {
    if s != [] {
      FilterLength(s[1..], f);
      if f(s[0]) {
        assert (forall i :: 0 <= i < |s| ==> f(s[i])) <==> (forall i :: 0 <= i < |s| - 1 ==> f(s[1..][i]));
      }
    }
  }

  /** Filtering with a test every element passes changes nothing. */
  lemma {:induction false} FilterKeepsAll<T>(s: seq<T>, f: T -> bool)
    requires forall i :: 0 <= i < |s| ==> f(s[i])
    ensures Filter(s, f) == s
  {
    if s != [] {
      assert forall i :: 0 <= i < |s| - 1 ==> s[1..][i] == s[i + 1];
      FilterKeepsAll(s[1..], f);
    }
  }

  lemma {:induction false} FilterIsSubsequence<T>(s: seq<T>, f: T -> bool)
    ensures IsSubsequence(Filter(s, f), s)
  {
    if s != [] {
      FilterIsSubsequence(s[1..], f);
      if f(s[0]) {
        assert Filter(s, f)[1..] == Filter(s[1..], f);
      }
    }
  }

  /** The multiplicity of `x` in the filtered sequence is its multiplicity in
      `s` when `f(x)` holds, and zero otherwise. */
  lemma {:induction false} FilterMultiplicity<T>(s: seq<T>, f: T -> bool, x: T)
    ensures multiset(Filter(s, f))[x] == if f(x) then multiset(s)[x] else 0
  {
    if s != [] {
      FilterMultiplicity(s[1..], f, x);
      assert s == [s[0]] + s[1..];
    }
  }

  /** Filtering two permutations of one another yields permutations of one
      another: filtering sees only the multiset of its input. */
  lemma FilterRespectsMultiset<T>(s: seq<T>, t: seq<T>, f: T -> bool)
    requires multiset(s) == multiset(t)
    ensures multiset(Filter(s, f)) == multiset(Filter(t, f))
  {
    var a, b := multiset(Filter(s, f)), multiset(Filter(t, f));
    forall x ensures a[x] == b[x] {
      FilterMultiplicity(s, f, x);
      FilterMultiplicity(t, f, x);
    }
    MultisetExtensional(a, b);
  }

  lemma MultisetExtensional<T>(a: multiset<T>, b: multiset<T>)
    requires forall x :: a[x] == b[x]
    ensures a == b
  {
  }

  lemma {:induction false} SubsequenceMembers<T>(r: seq<T>, s: seq<T>)
    requires IsSubsequence(r, s)
    ensures forall x :: x in r ==> x in s
    decreases |s|
  {
    if r != [] {
      if r[0] == s[0] && IsSubsequence(r[1..], s[1..]) {
        SubsequenceMembers(r[1..], s[1..]);
        assert r == [r[0]] + r[1..];
      } else {
        SubsequenceMembers(r, s[1..]);
      }
    }
  }

  lemma {:induction false} PrefixIsSubsequence<T>(s: seq<T>, n: nat)
    requires n <= |s|
    ensures IsSubsequence(s[..n], s)
  {
    if n > 0 {
      PrefixIsSubsequence(s[1..], n - 1);
      assert s[..n][1..] == s[1..][..n - 1];
    }
  }

  lemma {:induction false} SubsequenceTransitive<T>(a: seq<T>, b: seq<T>, c: seq<T>)
    requires IsSubsequence(a, b) && IsSubsequence(b, c)
    ensures IsSubsequence(a, c)
    decreases |c|
  {
    if a != [] {
      assert b != [];
      if b[0] == c[0] && IsSubsequence(b[1..], c[1..]) {
        if a[0] == b[0] && IsSubsequence(a[1..], b[1..]) {
          SubsequenceTransitive(a[1..], b[1..], c[1..]);
        } else {
          SubsequenceTransitive(a, b[1..], c[1..]);
        }
      } else {
        SubsequenceTransitive(a, b, c[1..]);
      }
    }
  }

  /** Taking the first `n` of the filtered sequence: what the source writes
      as `filter(...).slice(0, n)`. Each kept element satisfies `f`, order is
      kept, and a result shorter than `n` means nothing matching was cut. */
  lemma TakeOfFilter<T>(s: seq<T>, f: T -> bool, n: nat)
    ensures |Take(Filter(s, f), n)| <= n
    ensures IsSubsequence(Take(Filter(s, f), n), s)
    ensures forall x :: x in Take(Filter(s, f), n) ==> x in s && f(x)
    ensures |Take(Filter(s, f), n)| < n ==> forall x :: x in s && f(x) ==> x in Take(Filter(s, f), n)
  {
    var fs := Filter(s, f);
    FilterMembers(s, f);
    FilterIsSubsequence(s, f);
    PrefixIsSubsequence(fs, |Take(fs, n)|);
    SubsequenceTransitive(Take(fs, n), fs, s);
    SubsequenceMembers(Take(fs, n), fs);
  }
}
