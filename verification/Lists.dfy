// The doubly linked lists of the daemon, as the sequence of what they hold, head first.
module Lists {
  import opened Strings

  predicate Distinct<T(==)>(s: seq<T>) {
    forall i, j :: 0 <= i < j < |s| ==> s[i] != s[j]
  }

  /** dlinkDelete of the node that holds x. */
  function Delete<T(==)>(s: seq<T>, x: T): (r: seq<T>)
    requires Distinct(s)
    ensures Distinct(r)
    ensures forall y :: y in r ==> y in s && y != x
    ensures forall y :: y in s && y != x ==> y in r
    ensures |r| == if x in s then |s| - 1 else |s|
  {
    if s == [] then []
    else
      assert forall y :: y in s ==> y == s[0] || y in s[1..];
      if s[0] == x then s[1..]
      else
        var r := Delete(s[1..], x);
        assert s[0] !in s[1..] && forall j :: 0 <= j < |r| ==> r[j] in s[1..];
        [s[0]] + r
  }

  /** What is left of a list when all of `gone` has been deleted from it. */
  function Without<T(==)>(s: seq<T>, gone: set<T>): (r: seq<T>)
    ensures forall y :: y in r ==> y in s && y !in gone
    ensures forall y :: y in s && y !in gone ==> y in r
    ensures |r| <= |s|
  {
    if s == [] then []
    else
      assert forall y :: y in s ==> y == s[0] || y in s[1..];
      if s[0] in gone then Without(s[1..], gone) else [s[0]] + Without(s[1..], gone)
  }

  lemma {:induction false} WithoutDistinct<T>(s: seq<T>, gone: set<T>)
    requires Distinct(s)
    ensures Distinct(Without(s, gone))
  {
    if s != [] {
      WithoutDistinct(s[1..], gone);
      assert s[0] !in s[1..];
    }
  }

  lemma {:induction false} WithoutNone<T>(s: seq<T>, gone: set<T>)
    requires forall y :: y in s ==> y !in gone
    ensures Without(s, gone) == s
  {
    if s != [] { WithoutNone(s[1..], gone); }
  }

  lemma {:induction false} WithoutTwice<T>(s: seq<T>, a: set<T>, b: set<T>)
    ensures Without(Without(s, a), b) == Without(s, a + b)
  {
    if s != [] {
      WithoutTwice(s[1..], a, b);
    }
  }

  lemma {:induction false} DeleteIsWithout<T>(s: seq<T>, x: T)
    requires Distinct(s)
    ensures Delete(s, x) == Without(s, {x})
  {
    if s != [] {
      if s[0] == x {
        WithoutNone(s[1..], {x});
      } else {
        DeleteIsWithout(s[1..], x);
      }
    }
  }

  /** A list that keeps an order keeps it without some of its elements. */
  lemma {:induction false} WithoutAll<T>(s: seq<T>, gone: set<T>, p: (T, T) -> bool)
    requires forall i, j :: 0 <= i < j < |s| ==> p(s[i], s[j])
    ensures forall i, j :: 0 <= i < j < |Without(s, gone)| ==> p(Without(s, gone)[i], Without(s, gone)[j])
  {
    if s != [] {
      WithoutAll(s[1..], gone, p);
      var r := Without(s[1..], gone);
      if s[0] !in gone {
        forall j | 0 <= j < |r| ensures p(s[0], r[j]) {
          assert r[j] in s[1..];
          var k :| 0 <= k < |s[1..]| && s[1..][k] == r[j];
          assert s[k + 1] == r[j];
        }
      }
    }
  }

  lemma {:induction false} WithoutAppend<T>(s: seq<T>, t: seq<T>, gone: set<T>)
    ensures Without(s + t, gone) == Without(s, gone) + Without(t, gone)
  {
    if s == [] {
      assert s + t == t;
    } else {
      assert (s + t)[1..] == s[1..] + t;
      WithoutAppend(s[1..], t, gone);
    }
  }

  lemma {:induction false} DeleteAt<T>(s: seq<T>, k: nat)
    requires Distinct(s) && k < |s|
    ensures Delete(s, s[k]) == s[..k] + s[k + 1..]
  {
    if k == 0 {
      assert s[..0] + s[1..] == s[1..];
    } else {
      var t := s[1..];
      DeleteAt(t, k - 1);
      assert t[k - 1] == s[k] && s[0] != s[k];
      assert Delete(s, s[k]) == [s[0]] + Delete(t, s[k]);
      hide Delete, Distinct;
      assert [s[0]] + t[..k - 1] == s[..k] && t[k..] == s[k + 1..];
      assert [s[0]] + (t[..k - 1] + t[k..]) == ([s[0]] + t[..k - 1]) + t[k..];
    }
  }

  // ---------------------------------------------------------------- walking a list that shrinks

  function First<T>(s: seq<T>): Option<T> {
    if s == [] then None else Some(s[0])
  }

  /** The `next` pointer of the node that holds x. */
  function Next<T(==)>(s: seq<T>, x: T): Option<T> {
    if s == [] then None else if s[0] == x then First(s[1..]) else Next(s[1..], x)
  }

  /** The node saved before the head is deleted is the new head. */
  lemma NextIsNewHead<T>(s: seq<T>)
    requires Distinct(s) && s != []
    ensures Next(s, s[0]) == First(Delete(s, s[0]))
  {
  }
}
