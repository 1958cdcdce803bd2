/** Order-insensitive comparison of string lists by sorting copies (equalStrings and
    equalUserGroupIDs in internal/controller/pocketidoidcclient_controller.go). */
module EqualStrings {
  import opened GroupRefs

  /** Lexicographic order, as the sort uses it. */
  predicate Leq(a: string, b: string) {
    a == [] || (b != [] && (a[0] < b[0] || (a[0] == b[0] && Leq(a[1..], b[1..]))))
  }

  lemma {:induction false} LeqTotal(a: string, b: string)
    ensures Leq(a, b) || Leq(b, a)
  {
    if a != [] && b != [] { LeqTotal(a[1..], b[1..]); }
  }

  lemma {:induction false} LeqAntisymmetric(a: string, b: string)
    requires Leq(a, b) && Leq(b, a)
    ensures a == b
  {
    if a != [] && b != [] {
      LeqAntisymmetric(a[1..], b[1..]);
      assert a == [a[0]] + a[1..] && b == [b[0]] + b[1..];
    }
  }

  lemma {:induction false} LeqTransitive(a: string, b: string, c: string)
    requires Leq(a, b) && Leq(b, c)
    ensures Leq(a, c)
  {
    if a != [] && a[0] == b[0] && b[0] == c[0] { LeqTransitive(a[1..], b[1..], c[1..]); }
  }

  ghost predicate Sorted(s: seq<string>) {
    forall i, j :: 0 <= i < j < |s| ==> Leq(s[i], s[j])
  }

  lemma LeastFirst(s: seq<string>, x: string)
    requires Sorted(s) && x in s
    ensures Leq(s[0], x)
  {
    LeqTotal(x, x);
  }

  lemma TailElements(s: seq<string>)
    requires s != []
    ensures multiset(s[1..]) == multiset(s) - multiset{s[0]}
  {
    assert s == [s[0]] + s[1..];
  }

  /** A sorted list is determined by its elements. */
  lemma {:induction false} SortedUnique(a: seq<string>, b: seq<string>)
    requires Sorted(a) && Sorted(b) && multiset(a) == multiset(b)
    ensures a == b
  {
    assert |multiset(a)| == |a| && |multiset(b)| == |b|;
    if a != [] {
      assert a[0] in multiset(b) && b[0] in multiset(a);
      LeastFirst(a, b[0]);
      LeastFirst(b, a[0]);
      LeqAntisymmetric(a[0], b[0]);
      TailElements(a);
      TailElements(b);
      SortedUnique(a[1..], b[1..]);
      assert a == [a[0]] + a[1..] && b == [b[0]] + b[1..];
    }
  }

  /** `a` is sorted up to `n`, except that the entry at `hole` may still be too small. */
  ghost predicate SortedBut(s: seq<string>, hole: int, n: int) {
    0 <= hole < n <= |s| && forall i, j :: 0 <= i < j < n && j != hole ==> Leq(s[i], s[j])
  }

  lemma SinkStep(s: seq<string>, k: int, n: int)
    requires SortedBut(s, k, n) && k > 0 && !Leq(s[k - 1], s[k])
    ensures SortedBut(s[k := s[k - 1]][k - 1 := s[k]], k - 1, n)
  {
    var t := s[k := s[k - 1]][k - 1 := s[k]];
    LeqTotal(s[k - 1], s[k]);
    forall i, j | 0 <= i < j < n && j != k - 1 ensures Leq(t[i], t[j]) {
      if i == k - 1 && j > k { assert Leq(s[k], s[j]); }
    }
  }

  lemma SinkDone(s: seq<string>, k: int, n: int)
    requires SortedBut(s, k, n) && (k == 0 || Leq(s[k - 1], s[k]))
    ensures Sorted(s[..n])
  {
    forall i | 0 <= i < k ensures Leq(s[i], s[k]) {
      if i < k - 1 { LeqTransitive(s[i], s[k - 1], s[k]); }
    }
  }

  /** slices.Sort, in place. */
  method Sort(a: array<string>)
    modifies a
    ensures Sorted(a[..]) && multiset(a[..]) == multiset(old(a[..]))
  {
    var n := 0;
    while n < a.Length
      invariant 0 <= n <= a.Length
      invariant Sorted(a[..n])
      invariant multiset(a[..]) == multiset(old(a[..]))
    {
      Insert(a, n);
      n := n + 1;
    }
    assert a[..n] == a[..];
  }

  method Swap(a: array<string>, k: nat)
    requires 0 < k < a.Length
    modifies a
    ensures a[..] == old(a[..])[k := old(a[k - 1])][k - 1 := old(a[k])]
    ensures multiset(a[..]) == multiset(old(a[..]))
  {
    a[k - 1], a[k] := a[k], a[k - 1];
  }

  /** Sinks entry `n` into the sorted entries before it. */
  method Insert(a: array<string>, n: nat)
    requires n < a.Length && Sorted(a[..n])
    modifies a
    ensures Sorted(a[..n + 1])
    ensures multiset(a[..]) == multiset(old(a[..]))
  {
    var k := n;
    assert SortedBut(a[..], k, n + 1) by {
      assert forall i, j :: 0 <= i < j < n ==> Leq(a[..n][i], a[..n][j]);
    }
    while k > 0 && !Leq(a[k - 1], a[k])
      invariant 0 <= k <= n
      invariant SortedBut(a[..], k, n + 1)
      invariant multiset(a[..]) == multiset(old(a[..]))
    {
      SinkStep(a[..], k, n + 1);
      Swap(a, k);
      k := k - 1;
    }
    SinkDone(a[..], k, n + 1);
  }

  /** equalStrings: equal as multisets, and the inputs are left alone. */
  method EqualStrings(a: array<string>, b: array<string>) returns (equal: bool)
    ensures equal <==> multiset(a[..]) == multiset(b[..])
    ensures a[..] == old(a[..]) && b[..] == old(b[..])
  {
    if a.Length != b.Length {
      assert |multiset(a[..])| == a.Length && |multiset(b[..])| == b.Length;
      return false;
    }
    var aSorted := Copied(a);
    var bSorted := Copied(b);
    Sort(aSorted);
    Sort(bSorted);
    var i := 0;
    while i < aSorted.Length
      invariant 0 <= i <= aSorted.Length
      invariant aSorted[..i] == bSorted[..i]
    {
      if aSorted[i] != bSorted[i] {
        if multiset(a[..]) == multiset(b[..]) { SortedUnique(aSorted[..], bSorted[..]); }
        assert aSorted[..] != bSorted[..];
        return false;
      }
      i := i + 1;
    }
    assert aSorted[..i] == aSorted[..] && bSorted[..i] == bSorted[..];
    return true;
  }

  /** make and copy */
  method Copied(a: array<string>) returns (c: array<string>)
    ensures fresh(c) && c[..] == a[..]
  {
    c := new string[a.Length](i requires 0 <= i < a.Length reads a => a[i]);
  }

  /** equalUserGroupIDs: the same groups in any order, by id alone. */
  method EqualUserGroupIDs(a: seq<Member>, b: seq<Member>) returns (equal: bool)
    ensures equal <==> multiset(Ids(a)) == multiset(Ids(b))
  {
    if |a| != |b| {
      assert |multiset(Ids(a))| == |a| && |multiset(Ids(b))| == |b|;
      return false;
    }
    var aIDs := new string[|a|](i requires 0 <= i < |a| => a[i].id);
    var bIDs := new string[|b|](i requires 0 <= i < |b| => b[i].id);
    assert aIDs[..] == Ids(a) && bIDs[..] == Ids(b);
    equal := EqualStrings(aIDs, bIDs);
  }
}
