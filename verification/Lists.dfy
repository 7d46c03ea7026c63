/** Lists of distinct things. */
module Lists {

  predicate NoDuplicates<T(==)>(s: seq<T>) {
    forall i, j :: 0 <= i < j < |s| ==> s[i] != s[j]
  }

  function Without<T(==)>(s: seq<T>, x: T): (r: seq<T>)
    ensures x !in s ==> r == s
  {
    if s == [] then []
    else if s[0] == x then Without(s[1..], x)
    else [s[0]] + Without(s[1..], x)
  }

  lemma {:induction false} WithoutHolds<T>(s: seq<T>, x: T)
    ensures forall y :: y in Without(s, x) <==> y in s && y != x
    ensures NoDuplicates(s) ==>
      NoDuplicates(Without(s, x)) && |Without(s, x)| == if x in s then |s| - 1 else |s|
  {
    if s == [] {
    } else {
      WithoutHolds(s[1..], x);
      assert forall y :: y in s <==> y == s[0] || y in s[1..];
      if NoDuplicates(s) {
        assert s[0] !in s[1..];
        assert NoDuplicates(s[1..]);
      }
    }
  }
}
