/** Filtering, permutation and duplicate-freedom of sequences: the vocabulary the other modules specify loops with. */
module Sequences {

  datatype Option<+T> = None | Some(value: T)

  function ListOf<T>(o: Option<T>): seq<T> {
    match o case Some(x) => [x] case None => []
  }

  function Min(a: nat, b: nat): nat {
    if a < b then a else b
  }

  /** Some element of a set: where the source iterates over a hash map or waits for any callback. */
  method Pick<T(==)>(s: set<T>) returns (x: T)
    requires s != {}
    ensures x in s
  {
    x :| x in s;
  }

  lemma SomeMember<T>(s: set<T>) returns (x: T)
    requires s != {}
    ensures x in s
  {
    x :| x in s;
  }

  /** Keeps f's results for the elements on which f is defined, in order. */
  function FilterMap<T, U>(f: T -> Option<U>, s: seq<T>): seq<U> {
    if s == [] then []
    else
      var rest := FilterMap(f, s[1..]);
      match f(s[0])
      case Some(u) => [u] + rest
      case None => rest
  }

  lemma {:induction false} FilterMapConcat<T, U>(f: T -> Option<U>, a: seq<T>, b: seq<T>)
    ensures FilterMap(f, a + b) == FilterMap(f, a) + FilterMap(f, b)
  {
    if a == [] {
      assert a + b == b;
    } else {
      var s := a + b;
      assert s[0] == a[0];
      assert s[1..] == a[1..] + b;
      FilterMapConcat(f, a[1..], b);
    }
  }

  lemma FilterMapSnoc<T, U>(f: T -> Option<U>, s: seq<T>, x: T)
    ensures FilterMap(f, s + [x]) == FilterMap(f, s) + (match f(x) case Some(u) => [u] case None => [])
  {
    FilterMapConcat(f, s, [x]);
    assert [x][1..] == [];
  }

  lemma {:induction false} FilterMapLength<T, U>(f: T -> Option<U>, s: seq<T>)
    ensures |FilterMap(f, s)| <= |s|
  {
    if s != [] {
      FilterMapLength(f, s[1..]);
    }
  }

  /** Position of an element of a sequence. */
  lemma IndexOf<T>(s: seq<T>, x: T) returns (i: nat)
    requires x in multiset(s)
    ensures i < |s| && s[i] == x
  {
    i :| i < |s| && s[i] == x;
  }

  lemma RemoveAt<T>(s: seq<T>, i: nat)
    requires i < |s|
    ensures multiset(s[..i] + s[i + 1..]) == multiset(s) - multiset{s[i]}
  {
    assert s == s[..i] + [s[i]] + s[i + 1..];
  }

  lemma RemoveHead<T>(s: seq<T>)
    requires s != []
    ensures multiset(s[1..]) == multiset(s) - multiset{s[0]}
  {
    assert s == [s[0]] + s[1..];
  }

  lemma MiddleFirst<T>(front: seq<T>, middle: seq<T>, back: seq<T>)
    ensures multiset(front + middle + back) == multiset(middle) + multiset(front + back)
  {
  }

  lemma FilterMapMiddle<T, U>(f: T -> Option<U>, front: seq<T>, x: T, back: seq<T>)
    ensures FilterMap(f, front + [x] + back) == FilterMap(f, front) + FilterMap(f, [x]) + FilterMap(f, back)
  {
    hide FilterMap;
    FilterMapConcat(f, front, [x]);
    FilterMapConcat(f, front + [x], back);
  }

  lemma FilterMapExtract<T, U>(f: T -> Option<U>, s: seq<T>, i: nat)
    requires i < |s|
    ensures multiset(FilterMap(f, s)) == multiset(FilterMap(f, [s[i]])) + multiset(FilterMap(f, s[..i] + s[i + 1..]))
  {
    hide FilterMap;
    var front, back := s[..i], s[i + 1..];
    assert s == front + [s[i]] + back;
    FilterMapMiddle(f, front, s[i], back);
    FilterMapConcat(f, front, back);
    MiddleFirst(FilterMap(f, front), FilterMap(f, [s[i]]), FilterMap(f, back));
  }

  lemma RemoveFromBoth<T>(a: seq<T>, b: seq<T>, i: nat)
    requires multiset(a) == multiset(b) && 0 < |a| && i < |b| && a[0] == b[i]
    ensures multiset(a[1..]) == multiset(b[..i] + b[i + 1..])
  {
    RemoveHead(a);
    RemoveAt(b, i);
  }

  /** A permuted input gives a permuted result. */
  lemma {:induction false} FilterMapPermutation<T, U>(f: T -> Option<U>, a: seq<T>, b: seq<T>)
    requires multiset(a) == multiset(b)
    ensures multiset(FilterMap(f, a)) == multiset(FilterMap(f, b))
    decreases |a|
  {
    if a == [] {
      assert |multiset(b)| == 0;
    } else {
      assert a[0] in multiset(b);
      var i := IndexOf(b, a[0]);
      RemoveFromBoth(a, b, i);
      FilterMapPermutation(f, a[1..], b[..i] + b[i + 1..]);
      FilterMapExtract(f, b, i);
      FilterMapConcat(f, [a[0]], a[1..]);
      assert a == [a[0]] + a[1..];
    }
  }

  lemma PermutationMembers<T>(a: seq<T>, b: seq<T>)
    requires multiset(a) == multiset(b)
    ensures forall x :: x in a <==> x in b
  {
    assert forall x :: x in a <==> x in multiset(a);
    assert forall x :: x in b <==> x in multiset(b);
  }

  lemma SameLength<T>(a: seq<T>, b: seq<T>)
    requires multiset(a) == multiset(b)
    ensures |a| == |b|
  {
    assert |a| == |multiset(a)| == |multiset(b)| == |b|;
  }

  /** Membership in a filtered sequence, both ways. */
  lemma {:induction false} FilterMapMember<T, U>(f: T -> Option<U>, s: seq<T>, u: U)
    ensures u in FilterMap(f, s) <==> exists x :: x in s && f(x) == Some(u)
  {
    if s != [] {
      FilterMapMember(f, s[1..], u);
      assert s == [s[0]] + s[1..];
    }
  }

  ghost predicate NoDuplicates<T>(s: seq<T>) {
    forall i, j :: 0 <= i < j < |s| ==> s[i] != s[j]
  }

  lemma NoDuplicatesConcat<T>(a: seq<T>, b: seq<T>)
    requires NoDuplicates(a) && NoDuplicates(b) && forall x :: x in a ==> x !in b
    ensures NoDuplicates(a + b)
  {
    var s := a + b;
    forall i, j | 0 <= i < j < |s| ensures s[i] != s[j] {
      if i < |a| <= j {
        assert s[i] in a && s[j] == b[j - |a|];
      }
    }
  }

  ghost predicate Increasing(s: seq<nat>) {
    forall i, j :: 0 <= i < j < |s| ==> s[i] < s[j]
  }

  lemma IncreasingSnoc(s: seq<nat>, x: nat)
    requires Increasing(s) && forall k :: k in s ==> k < x
    ensures Increasing(s + [x])
    ensures forall k :: k in s + [x] <==> k in s || k == x
  {
    assert forall j :: 0 <= j < |s| ==> s[j] in s;
  }

  lemma {:induction false} NoDuplicatesCount<T>(s: seq<T>, x: T)
    requires NoDuplicates(s)
    ensures multiset(s)[x] == if x in s then 1 else 0
  {
    if s != [] {
      assert s == [s[0]] + s[1..];
      NoDuplicatesCount(s[1..], x);
    }
  }

  /** Two duplicate-free listings of the same elements are permutations of each other. */
  lemma SameElements<T>(a: seq<T>, b: seq<T>)
    requires NoDuplicates(a) && NoDuplicates(b)
    requires forall x :: x in a <==> x in b
    ensures multiset(a) == multiset(b)
  {
    forall x ensures multiset(a)[x] == multiset(b)[x] {
      NoDuplicatesCount(a, x);
      NoDuplicatesCount(b, x);
    }
  }

  /** The elements that satisfy p, in order. */
  function KeepIf<T>(p: T -> bool, s: seq<T>): seq<T> {
    if s == [] then [] else (if p(s[0]) then [s[0]] else []) + KeepIf(p, s[1..])
  }

  lemma {:induction false} KeepIfConcat<T>(p: T -> bool, a: seq<T>, b: seq<T>)
    ensures KeepIf(p, a + b) == KeepIf(p, a) + KeepIf(p, b)
  {
    if a == [] {
      assert a + b == b;
    } else {
      var s := a + b;
      assert s[0] == a[0];
      assert s[1..] == a[1..] + b;
      KeepIfConcat(p, a[1..], b);
      var head := if p(a[0]) then [a[0]] else [];
      assert head + (KeepIf(p, a[1..]) + KeepIf(p, b)) == (head + KeepIf(p, a[1..])) + KeepIf(p, b);
    }
  }

  lemma KeepIfSnoc<T>(p: T -> bool, s: seq<T>, x: T)
    ensures KeepIf(p, s + [x]) == KeepIf(p, s) + if p(x) then [x] else []
  {
    KeepIfConcat(p, s, [x]);
    assert [x][1..] == [];
  }

  lemma {:induction false} KeepIfMember<T>(p: T -> bool, s: seq<T>)
    ensures forall x :: x in KeepIf(p, s) <==> x in s && p(x)
    ensures NoDuplicates(s) ==> NoDuplicates(KeepIf(p, s))
  {
    if s != [] {
      KeepIfMember(p, s[1..]);
      assert s == [s[0]] + s[1..];
    }
  }

  lemma {:induction false} KeepIfAll<T>(p: T -> bool, s: seq<T>)
    requires forall x :: x in s ==> p(x)
    ensures KeepIf(p, s) == s
  {
    if s != [] {
      KeepIfAll(p, s[1..]);
    }
  }

  lemma {:induction false} KeepIfLength<T>(p: T -> bool, s: seq<T>)
    ensures |KeepIf(p, s)| <= |s|
    ensures |KeepIf(p, s)| == |s| <==> forall x :: x in s ==> p(x)
  {
    if s != [] {
      KeepIfLength(p, s[1..]);
      assert s == [s[0]] + s[1..];
    }
  }

  lemma {:induction false} KeepIfNone<T>(p: T -> bool, s: seq<T>)
    requires forall x :: x in s ==> !p(x)
    ensures KeepIf(p, s) == []
  {
    if s != [] {
      KeepIfNone(p, s[1..]);
    }
  }

  lemma {:induction false} KeepIfIsFilterMap<T>(p: T -> bool, s: seq<T>)
    ensures KeepIf(p, s) == FilterMap((x: T) => if p(x) then Some(x) else None, s)
  {
    if s != [] {
      KeepIfIsFilterMap(p, s[1..]);
    }
  }

  lemma KeepIfPermutation<T>(p: T -> bool, a: seq<T>, b: seq<T>)
    requires multiset(a) == multiset(b)
    ensures multiset(KeepIf(p, a)) == multiset(KeepIf(p, b))
  {
    KeepIfIsFilterMap(p, a);
    KeepIfIsFilterMap(p, b);
    FilterMapPermutation((x: T) => if p(x) then Some(x) else None, a, b);
  }

  lemma KeepIfAtLeast<T>(p: T -> bool, s: seq<T>, k: nat)
    requires k <= |s| && forall i :: 0 <= i < k ==> p(s[i])
    ensures |KeepIf(p, s)| >= k
  {
    assert s == s[..k] + s[k..];
    KeepIfConcat(p, s[..k], s[k..]);
    KeepIfAll(p, s[..k]);
  }

  lemma KeepIfAtMost<T>(p: T -> bool, s: seq<T>, k: nat)
    requires k <= |s| && forall i :: k <= i < |s| ==> !p(s[i])
    ensures |KeepIf(p, s)| <= k
  {
    assert s == s[..k] + s[k..];
    KeepIfConcat(p, s[..k], s[k..]);
    KeepIfNone(p, s[k..]);
    KeepIfLength(p, s[..k]);
  }

  lemma SwapIsPermutation<T>(s: seq<T>, i: nat, j: nat)
    requires i < |s| && j < |s|
    ensures multiset(s[i := s[j]][j := s[i]]) == multiset(s)
  {
  }

  /** A permutation of a duplicate-free sequence is duplicate-free. */
  lemma PermutationNoDuplicates<T>(a: seq<T>, b: seq<T>)
    requires multiset(a) == multiset(b) && NoDuplicates(a)
    ensures NoDuplicates(b)
  {
    forall i, j | 0 <= i < j < |b| ensures b[i] != b[j] {
      if b[i] == b[j] {
        assert b == b[..i] + [b[i]] + b[i + 1..j] + [b[j]] + b[j + 1..];
        assert multiset(b)[b[i]] >= 2;
        NoDuplicatesCount(a, b[i]);
        assert false;
      }
    }
  }

  lemma SliceSplit<T>(s: seq<T>, i: nat, j: nat, k: nat)
    requires i <= j <= k <= |s|
    ensures s[i..k] == s[i..j] + s[j..k]
  {
  }

  lemma EndsOfSlice<T>(s: seq<T>, i: nat, k: nat)
    requires i < k - 1 < k <= |s|
    ensures multiset(s[i..k]) == multiset{s[i]} + multiset(s[i + 1..k - 1]) + multiset{s[k - 1]}
  {
    assert s[i..k] == [s[i]] + s[i + 1..k - 1] + [s[k - 1]];
  }

  /** Overwriting position i with the last element of the stretch [i, k) removes s[i] from the stretch. */
  lemma FillGapWithLast<T>(s: seq<T>, t: seq<T>, i: nat, k: nat)
    requires i < k <= |s| == |t|
    requires i < k - 1 ==> t[i] == s[k - 1]
    requires forall q :: i < q < k - 1 ==> t[q] == s[q]
    ensures multiset(t[i..k - 1]) + multiset{s[i]} == multiset(s[i..k])
  {
    if i < k - 1 {
      assert t[i..k - 1] == [s[k - 1]] + s[i + 1..k - 1];
      EndsOfSlice(s, i, k);
    } else {
      assert s[i..k] == [s[i]];
    }
  }
}
