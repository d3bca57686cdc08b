/** Go's string order, and sorting by a strict weak order. */
module Ordering {

  /** Byte-wise lexicographic `<` on strings. */
  predicate Less(a: string, b: string) {
    b != [] && (a == [] || a[0] < b[0] || (a[0] == b[0] && Less(a[1..], b[1..])))
  }

  lemma {:induction false} LessTotal(a: string, b: string)
    ensures a == b ==> !Less(a, b)
    ensures a != b ==> Less(a, b) != Less(b, a)
  {
    if a != [] && b != [] && a[0] == b[0] {
      LessTotal(a[1..], b[1..]);
      assert a == [a[0]] + a[1..] && b == [b[0]] + b[1..];
    }
  }

  /** The first position where the strings differ decides; a proper prefix comes first. */
  lemma {:induction false} LessIsLexicographic(a: string, b: string)
    ensures Less(a, b) <==> exists k: nat :: DecidedAt(a, b, k)
  {
    if a != [] && b != [] && a[0] == b[0] {
      LessIsLexicographic(a[1..], b[1..]);
      forall k: nat ensures DecidedAt(a, b, k + 1) <==> DecidedAt(a[1..], b[1..], k) { DecidedLater(a, b, k); }
      if k: nat :| DecidedAt(a, b, k) {
        DecidedLater(a, b, k - 1);
        assert DecidedAt(a[1..], b[1..], k - 1);
      }
    } else if Less(a, b) {
      assert DecidedAt(a, b, 0);
    }
  }

  lemma DecidedLater(a: string, b: string, k: nat)
    requires a != [] && b != [] && a[0] == b[0]
    ensures DecidedAt(a, b, k + 1) <==> DecidedAt(a[1..], b[1..], k)
  {
    if k + 1 <= |a| && k + 1 < |b| {
      assert a[..k + 1] == [a[0]] + a[1..][..k] && b[..k + 1] == [b[0]] + b[1..][..k];
    }
  }

  ghost predicate DecidedAt(a: string, b: string, k: nat) {
    && k <= |a| && k < |b| && a[..k] == b[..k] && (k == |a| || a[k] < b[k])
  }

  lemma {:induction false} LessTransitive(a: string, b: string, c: string)
    requires Less(a, b) && Less(b, c)
    ensures Less(a, c)
  {
    if a != [] && a[0] == b[0] == c[0] {
      LessTransitive(a[1..], b[1..], c[1..]);
    }
  }

  ghost predicate StrictWeakOrder<T(!new)>(less: (T, T) -> bool) {
    && (forall x, y :: less(x, y) ==> !less(y, x))
    && (forall x, y, z :: less(x, z) ==> less(x, y) || less(y, z))
  }

  lemma LessCoTransitive(a: string, b: string, c: string)
    requires Less(a, c)
    ensures Less(a, b) || Less(b, c)
  {
  }

  lemma LessIsStrictWeakOrder()
    ensures StrictWeakOrder(Less)
  {
    forall x: string, y: string | Less(x, y) ensures !Less(y, x) { LessTotal(x, y); }
    forall x: string, y: string, z: string | Less(x, z) ensures Less(x, y) || Less(y, z) {
      LessCoTransitive(x, y, z);
    }
  }

  ghost predicate SortedBy<T>(less: (T, T) -> bool, s: seq<T>) {
    forall i, j :: 0 <= i < j < |s| ==> !less(s[j], s[i])
  }

  /** No two elements are ordered alike. */
  ghost predicate DistinctBy<T>(less: (T, T) -> bool, s: seq<T>) {
    forall i, j :: 0 <= i < j < |s| ==> less(s[i], s[j]) || less(s[j], s[i])
  }

  /** `sort.Slice`: some sorted rearrangement; equal keys come in no promised order. */
  method SortSlice<T(!new)>(s: seq<T>, less: (T, T) -> bool) returns (r: seq<T>)
    requires StrictWeakOrder(less)
    ensures SortedBy(less, r)
    ensures multiset(r) == multiset(s)
  {
    r := [];
    for i := 0 to |s|
      invariant SortedBy(less, r)
      invariant multiset(r) == multiset(s[..i])
    {
      r := InsertSorted(r, s[i], less);
      assert s[..i + 1] == s[..i] + [s[i]];
    }
    assert s[..|s|] == s;
  }

  method InsertSorted<T(!new)>(s: seq<T>, x: T, less: (T, T) -> bool) returns (r: seq<T>)
    requires StrictWeakOrder(less) && SortedBy(less, s)
    ensures SortedBy(less, r)
    ensures multiset(r) == multiset(s) + multiset{x}
  {
    var k := 0;
    while k < |s| && !less(x, s[k])
      invariant 0 <= k <= |s|
      invariant forall j :: 0 <= j < k ==> !less(x, s[j])
    {
      k := k + 1;
    }
    r := s[..k] + ([x] + s[k..]);
    InsertedMultiset(s, x, k);
    InsertedSorted(s, x, k, less);
  }

  lemma InsertedMultiset<T>(s: seq<T>, x: T, k: nat)
    requires k <= |s|
    ensures multiset(s[..k] + ([x] + s[k..])) == multiset(s) + multiset{x}
  {
    assert s == s[..k] + s[k..];
  }

  lemma InsertedSorted<T(!new)>(s: seq<T>, x: T, k: nat, less: (T, T) -> bool)
    requires StrictWeakOrder(less) && SortedBy(less, s) && k <= |s|
    requires (forall j :: 0 <= j < k ==> !less(x, s[j])) && (k < |s| ==> less(x, s[k]))
    ensures SortedBy(less, s[..k] + ([x] + s[k..]))
  {
    var r := s[..k] + ([x] + s[k..]);
    forall i, j | 0 <= i < j < |r| ensures !less(r[j], r[i]) {
      var a, b := if i < k then i else i - 1, if j < k then j else j - 1;
      if i != k && j != k {
        assert r[i] == s[a] && r[j] == s[b];
      } else if j == k {
        assert r[i] == s[i] && r[j] == x;
      } else {
        assert r[i] == x && r[j] == s[b];
        assert k < b ==> !less(s[b], s[k]);
      }
    }
  }

  lemma MultisetMember<T>(a: seq<T>, b: seq<T>, x: T)
    requires multiset(a) == multiset(b)
    ensures x in a <==> x in b
  {
    assert x in a <==> x in multiset(a);
    assert x in b <==> x in multiset(b);
  }

  lemma PermutationLength<T>(a: seq<T>, b: seq<T>)
    requires multiset(a) == multiset(b)
    ensures |a| == |b|
  {
    assert |multiset(a)| == |multiset(b)|;
  }

  lemma RemoveAt<T>(s: seq<T>, i: nat)
    requires i < |s|
    ensures multiset(s) == multiset(s[..i] + s[i + 1..]) + multiset{s[i]}
  {
    assert s == s[..i] + ([s[i]] + s[i + 1..]);
  }

  lemma Cancel<T>(a: multiset<T>, b: multiset<T>, x: T)
    requires a + multiset{x} == b + multiset{x}
    ensures a == b
  {
    forall y ensures a[y] == b[y] { assert (a + multiset{x})[y] == (b + multiset{x})[y]; }
  }

  /** Removing a common element from permutations of each other. */
  lemma RemoveBoth<T>(a: seq<T>, i: nat, b: seq<T>, j: nat)
    requires multiset(a) == multiset(b) && i < |a| && j < |b| && a[i] == b[j]
    ensures multiset(a[..i] + a[i + 1..]) == multiset(b[..j] + b[j + 1..])
  {
    RemoveAt(a, i);
    RemoveAt(b, j);
    Cancel(multiset(a[..i] + a[i + 1..]), multiset(b[..j] + b[j + 1..]), a[i]);
  }

  lemma FindHead<T>(a: seq<T>, b: seq<T>) returns (i: nat)
    requires multiset(a) == multiset(b) && a != []
    ensures i < |b| && b[i] == a[0] && multiset(a[..0] + a[1..]) == multiset(b[..i] + b[i + 1..])
  {
    MultisetMember(a, b, a[0]);
    i :| 0 <= i < |b| && b[i] == a[0];
    RemoveBoth(a, 0, b, i);
  }

  lemma TailPermutation<T>(a: seq<T>, b: seq<T>)
    requires multiset(a) == multiset(b) && a != [] && b != [] && a[0] == b[0]
    ensures multiset(a[1..]) == multiset(b[1..])
  {
    RemoveBoth(a, 0, b, 0);
    assert a[..0] + a[1..] == a[1..] && b[..0] + b[1..] == b[1..];
  }

  lemma HeadAndTail<T>(a: seq<T>, b: seq<T>)
    requires a != [] && b != [] && a[0] == b[0] && a[1..] == b[1..]
    ensures a == b
  {
  }

  lemma SortedTail<T>(less: (T, T) -> bool, s: seq<T>)
    requires s != []
    ensures SortedBy(less, s) ==> SortedBy(less, s[1..])
    ensures DistinctBy(less, s) ==> DistinctBy(less, s[1..])
  {
  }

  lemma SortedHead<T(!new)>(less: (T, T) -> bool, a: seq<T>, b: seq<T>)
    requires StrictWeakOrder(less) && SortedBy(less, a) && SortedBy(less, b)
    requires multiset(a) == multiset(b) && DistinctBy(less, a) && a != [] && b != []
    ensures a[0] == b[0]
  {
    MultisetMember(a, b, a[0]);
    MultisetMember(a, b, b[0]);
    var i :| 0 <= i < |b| && b[i] == a[0];
    var j :| 0 <= j < |a| && a[j] == b[0];
  }

  /** With distinct keys there is exactly one sorted rearrangement. */
  lemma {:induction false} SortUnique<T(!new)>(less: (T, T) -> bool, a: seq<T>, b: seq<T>)
    requires StrictWeakOrder(less) && SortedBy(less, a) && SortedBy(less, b)
    requires multiset(a) == multiset(b) && DistinctBy(less, a)
    ensures a == b
  {
    PermutationLength(a, b);
    if a != [] {
      SortedHead(less, a, b);
      SortedTail(less, a);
      SortedTail(less, b);
      TailPermutation(a, b);
      SortUnique(less, a[1..], b[1..]);
      HeadAndTail(a, b);
    }
  }
}
