/** Sequences used as ordered collections: duplicate-freedom, the first position of an element,
    and removing one element the way Doctrine's ArrayCollection::removeElement does. */
module Seqs {

  predicate Distinct<T(==)>(s: seq<T>)
  {
    forall i, j :: 0 <= i < j < |s| ==> s[i] != s[j]
  }

  /** The position of the first occurrence of x in s. */
  function IndexOf<T(==)>(s: seq<T>, x: T): (i: nat)
    requires x in s
    ensures i < |s| && s[i] == x
    ensures forall j :: 0 <= j < i ==> s[j] != x
  {
    if s[0] == x then 0 else 1 + IndexOf(s[1..], x)
  }

  /** s with its first occurrence of x taken out, the others kept in order; s itself when x
      does not occur. */
  function RemoveElement<T(==)>(s: seq<T>, x: T): (r: seq<T>)
    ensures x !in s ==> r == s
    ensures x in s ==> |r| == |s| - 1
    ensures multiset(r) == multiset(s) - multiset{x}
  {
    if x in s then
      var i := IndexOf(s, x);
      assert s == s[..i] + [x] + s[i + 1..];
      s[..i] + s[i + 1..]
    else s
  }

  /** Appending an element not yet present keeps a sequence duplicate-free. */
  lemma AppendKeepsDistinct<T>(s: seq<T>, x: T)
    requires Distinct(s) && x !in s
    ensures Distinct(s + [x])
  {
    var r := s + [x];
    forall i, j | 0 <= i < j < |r| ensures r[i] != r[j] {
      if j == |s| {
        assert r[i] == s[i];
      }
    }
  }

  /** Element k of s with position i cut out. */
  lemma CutAt<T>(s: seq<T>, i: nat, k: nat)
    requires i < |s| && k < |s| - 1
    ensures (s[..i] + s[i + 1..])[k] == s[if k < i then k else k + 1]
  {
  }

  /** On a duplicate-free sequence, removing x leaves exactly the other elements, still
      duplicate-free. */
  lemma RemoveElementContents<T>(s: seq<T>, x: T)
    requires Distinct(s)
    ensures Distinct(RemoveElement(s, x))
    ensures x !in RemoveElement(s, x)
    ensures forall y :: y in RemoveElement(s, x) <==> y in s && y != x
  {
    if x in s {
      var i := IndexOf(s, x);
      var r := s[..i] + s[i + 1..];
      assert RemoveElement(s, x) == r;
      forall a, b | 0 <= a < b < |r| ensures r[a] != r[b] {
        CutAt(s, i, a);
        CutAt(s, i, b);
      }
      forall y | y in r ensures y in s && y != x {
        var k :| 0 <= k < |r| && r[k] == y;
        CutAt(s, i, k);
      }
      forall y | y in s && y != x ensures y in r {
        var k :| 0 <= k < |s| && s[k] == y;
        var k' := if k < i then k else k - 1;
        CutAt(s, i, k');
        assert r[k'] == y;
      }
    }
  }
}
