// java.util.List.remove(Object): the first element equal to the argument is
// taken out; the list is unchanged when there is none.
module JavaList {
  /** The position of the first x in s. */
  function FirstIndex<T(==)>(s: seq<T>, x: T): (k: nat)
    requires x in s
    ensures k < |s| && s[k] == x
    ensures x !in s[..k]
  {
    if s[0] == x then 0
    else
      var k := 1 + FirstIndex(s[1..], x);
      assert s[..k] == [s[0]] + s[1..][..k - 1];
      k
  }

  /** list.remove(x). */
  function RemoveFirst<T(==)>(s: seq<T>, x: T): (r: seq<T>)
    ensures x !in s ==> r == s
    ensures x in s ==> |r| == |s| - 1
  {
    if s == [] then []
    else if s[0] == x then s[1..]
    else [s[0]] + RemoveFirst(s[1..], x)
  }

  /** Removal cuts the list at the first occurrence and joins the two sides. */
  lemma {:induction false} RemoveFirstAt<T>(s: seq<T>, x: T)
    requires x in s
    ensures var k := FirstIndex(s, x); RemoveFirst(s, x) == s[..k] + s[k + 1..]
  {
    if s[0] != x {
      RemoveFirstAt(s[1..], x);
      var k := FirstIndex(s[1..], x);
      assert s[1..][..k] + s[1..][k + 1..] == s[1..k + 1] + s[k + 2..];
      assert [s[0]] + s[1..k + 1] == s[..k + 1];
    }
  }

  /** Exactly one copy of x leaves the list and every other element stays. */
  lemma {:induction false} RemoveFirstMultiset<T>(s: seq<T>, x: T)
    ensures multiset(RemoveFirst(s, x)) == multiset(s) - multiset{x}
  {
    if s != [] {
      assert s == [s[0]] + s[1..];
      if s[0] != x {
        RemoveFirstMultiset(s[1..], x);
      }
    }
  }
}
