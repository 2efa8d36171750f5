/** Intrusive kernel lists seen as duplicate-free sequences of request identifiers. */
module Lists {

  ghost predicate NoDup<T(!new)>(s: seq<T>) {
    forall i, j :: 0 <= i < j < |s| ==> s[i] != s[j]
  }

  /** list_del: the list without `x`. */
  function Without<T(==, !new)>(s: seq<T>, x: T): (r: seq<T>)
    ensures forall y :: y in r <==> y in s && y != x
    ensures |r| <= |s|
    ensures x in s ==> |r| < |s|
    ensures x !in s ==> r == s
  {
    if s == [] then []
    else if s[0] == x then Without(s[1..], x)
    else [s[0]] + Without(s[1..], x)
  }

  lemma {:induction false} WithoutNoDup<T(!new)>(s: seq<T>, x: T)
    requires NoDup(s)
    ensures NoDup(Without(s, x))
    ensures x in s ==> |Without(s, x)| == |s| - 1
  {
    if s != [] {
      WithoutNoDup(s[1..], x);
      if s[0] == x {
        assert x !in s[1..];
      } else {
        var t := Without(s[1..], x);
        assert s[0] !in s[1..];
        assert s[0] !in t;
      }
    }
  }

  /** list_add behind the first `k` entries. */
  function InsertAt<T(!new)>(s: seq<T>, k: nat, x: T): (r: seq<T>)
    requires k <= |s|
    ensures |r| == |s| + 1 && r[k] == x
    ensures r[..k] == s[..k] && r[k + 1..] == s[k..]
    ensures forall y :: y in r <==> y in s || y == x
  {
    var r := s[..k] + [x] + s[k..];
    assert forall y :: y in s <==> y in s[..k] || y in s[k..] by {
      assert s == s[..k] + s[k..];
    }
    r
  }

  lemma InsertNoDup<T(!new)>(s: seq<T>, k: nat, x: T)
    requires k <= |s| && NoDup(s) && x !in s
    ensures NoDup(InsertAt(s, k, x))
  {
    var r := InsertAt(s, k, x);
    forall i, j | 0 <= i < j < |r| ensures r[i] != r[j] {
      var i' := if i < k then i else i - 1;
      var j' := if j < k then j else j - 1;
      assert i != k ==> r[i] == s[i'];
      assert j != k ==> r[j] == s[j'];
    }
  }

  lemma {:induction false} WithoutHead<T(!new)>(s: seq<T>)
    requires s != [] && NoDup(s)
    ensures Without(s, s[0]) == s[1..]
  {
    assert s[0] !in s[1..];
  }

  /** The elements of a list as a set. */
  ghost function Elements<T>(s: seq<T>): set<T> {
    set x | x in s
  }

  lemma Regroup<T>(a: seq<T>, b: seq<T>, c: seq<T>)
    ensures a + b + c == a + (b + c)
  {
  }
}
