/** Lists without repeats, and the set of what a list holds. */
module Lists {
  function Elements<T>(s: seq<T>): set<T> { set x | x in s }

  predicate NoDup<T(==)>(s: seq<T>) { forall i, j :: 0 <= i < j < |s| ==> s[i] != s[j] }

  lemma {:induction false} NoDupConcat<T>(a: seq<T>, b: seq<T>)
    ensures NoDup(a + b) <==> NoDup(a) && NoDup(b) && forall x :: x in b ==> x !in a
  {
    var c := a + b;
    assert (forall i :: 0 <= i < |a| ==> c[i] == a[i]) && (forall j :: 0 <= j < |b| ==> c[|a| + j] == b[j]);
    if NoDup(c) {
      forall x | x in b ensures x !in a {
        var j :| 0 <= j < |b| && b[j] == x;
        assert c[|a| + j] == x;
      }
    } else {
      var i, j :| 0 <= i < j < |c| && c[i] == c[j];
      if i < |a| <= j {
        assert a[i] == b[j - |a|] && b[j - |a|] in b;
      } else if |a| <= i {
        assert b[i - |a|] == b[j - |a|];
      }
    }
  }
}
