/** A JavaScript Set of strings, which iterates in insertion order: a
    sequence without duplicates. Array.from(set) is the sequence itself. */
module OrderedSet {

  predicate Distinct(s: seq<string>) {
    forall i, j :: 0 <= i < j < |s| ==> s[i] != s[j]
  }

  /** Set.prototype.add: a new element goes to the end; an element already
      present keeps its place. */
  function Add(s: seq<string>, x: string): (r: seq<string>)
    ensures x in s ==> r == s
    ensures x !in s ==> r == s + [x]
    ensures Distinct(s) ==> Distinct(r)
    ensures forall y :: y in r <==> y in s || y == x
  {
    if x in s then s else s + [x]
  }

  /** The position of the first occurrence of x. */
  function IndexOf(s: seq<string>, x: string): (i: nat)
    requires x in s
    ensures i < |s| && s[i] == x
    ensures forall j :: 0 <= j < i ==> s[j] != x
  {
    if s[0] == x then 0 else 1 + IndexOf(s[1..], x)
  }

  /** Set.prototype.delete: the element leaves and the others keep their order;
      deleting an absent element changes nothing. */
  function Delete(s: seq<string>, x: string): (r: seq<string>)
    ensures x !in s ==> r == s
    ensures x in s ==> |r| == |s| - 1 && r == s[..IndexOf(s, x)] + s[IndexOf(s, x) + 1..]
    ensures Distinct(s) ==> Distinct(r) && x !in r
    ensures forall y :: y != x ==> (y in r <==> y in s)
  {
    if x !in s then s
    else
      var i := IndexOf(s, x);
      var r := s[..i] + s[i + 1..];
      assert forall k :: 0 <= k < |r| ==> r[k] == if k < i then s[k] else s[k + 1];
      r
  }

  /** Adding then deleting a new element gives the set back. */
  lemma DeleteAdded(s: seq<string>, x: string)
    requires x !in s
    ensures Delete(Add(s, x), x) == s
  {
    var r := s + [x];
    assert IndexOf(r, x) == |s|;
    assert r[..|s|] == s;
  }
}
