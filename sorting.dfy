/** `array.sort((a, b) => key(b).localeCompare(key(a)))`: an in-place sort
    that puts the largest key first. */
module Sorting {
  import opened JsText

  ghost predicate SortedDescending<T>(s: seq<T>, key: T -> string) {
    forall i, j :: 0 <= i < j < |s| ==> LexLe(key(s[j]), key(s[i]))
  }

  /** Insertion sort: afterwards the keys never increase from left to
      right, and the array holds the same elements. */
  method SortByKeyDescending<T>(a: array<T>, key: T -> string)
    modifies a
    ensures SortedDescending(a[..], key)
    ensures multiset(a[..]) == multiset(old(a[..]))
  {
    var i := 0;
    while i < a.Length
      invariant 0 <= i <= a.Length
      invariant SortedDescending(a[..i], key)
      invariant multiset(a[..]) == multiset(old(a[..]))
    {
      Insert(a, i, key);
      i := i + 1;
    }
    assert a[..a.Length] == a[..];
  }

  /** Moves `a[i]` left past every element with a smaller key. */
  method Insert<T>(a: array<T>, i: nat, key: T -> string)
    requires i < a.Length
    requires SortedDescending(a[..i], key)
    modifies a
    ensures SortedDescending(a[..i + 1], key)
    ensures multiset(a[..]) == multiset(old(a[..]))
  {
    var j := i;
    while j > 0 && !LexLe(key(a[j]), key(a[j - 1]))
      invariant 0 <= j <= i
      invariant multiset(a[..]) == multiset(old(a[..]))
      invariant forall p, q :: 0 <= p < q <= i && p != j && q != j ==> LexLe(key(a[q]), key(a[p]))
      invariant forall q :: j < q <= i ==> LexLe(key(a[q]), key(a[j]))
    {
      LexLeTotal(key(a[j]), key(a[j - 1]));
      Swap(a, j - 1, j);
      j := j - 1;
    }
    forall p, q | 0 <= p < q <= i
      ensures LexLe(key(a[q]), key(a[p]))
    {
      if q == j && p < j - 1 {
        LexLeTransitive(key(a[q]), key(a[j - 1]), key(a[p]));
      }
    }
  }

  method Swap<T>(a: array<T>, i: nat, j: nat)
    requires i < j < a.Length
    modifies a
    ensures a[i] == old(a[j]) && a[j] == old(a[i])
    ensures forall k :: 0 <= k < a.Length && k != i && k != j ==> a[k] == old(a[k])
    ensures multiset(a[..]) == multiset(old(a[..]))
  {
    a[i], a[j] := a[j], a[i];
  }
}
