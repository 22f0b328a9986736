/** Facts about sequences without repetitions: the model of the kernel's process and wait lists. */
module Sequences {

  ghost predicate NoDup<T>(s: seq<T>) {
    forall i, j :: 0 <= i < j < |s| ==> s[i] != s[j]
  }

  /** list_remove: drops the (first) occurrence of `x`. */
  function Remove<T(==)>(s: seq<T>, x: T): seq<T> {
    if s == [] then []
    else if s[0] == x then s[1..]
    else [s[0]] + Remove(s[1..], x)
  }

  lemma {:induction false} RemoveMembers<T>(s: seq<T>, x: T)
    requires NoDup(s)
    ensures NoDup(Remove(s, x))
    ensures forall y :: y in Remove(s, x) <==> y in s && y != x
    ensures |Remove(s, x)| == if x in s then |s| - 1 else |s|
  {
    if s != [] && s[0] != x {
      RemoveMembers(s[1..], x);
      var rest := Remove(s[1..], x);
      assert s == [s[0]] + s[1..];
      assert forall y :: y in s <==> y == s[0] || y in s[1..];
      assert forall y :: y in Remove(s, x) <==> y == s[0] || y in rest;
      assert s[0] !in s[1..];
    } else if s != [] {
      assert s == [s[0]] + s[1..];
      assert forall y :: y in s <==> y == s[0] || y in s[1..];
      assert s[0] !in s[1..];
    }
  }

  lemma {:induction false} RemoveKeeps<T>(s: seq<T>, x: T)
    ensures forall y :: y in Remove(s, x) ==> y in s
  {
    if s != [] && s[0] != x {
      RemoveKeeps(s[1..], x);
    }
  }

  lemma {:induction false} RemoveSpares<T>(s: seq<T>, x: T, y: T)
    requires y in s && y != x
    ensures y in Remove(s, x)
  {
    if s[0] != x && s[0] != y {
      RemoveSpares(s[1..], x, y);
    }
  }

  /** Moving a member to the front (list_remove then list_push) keeps the members. */
  lemma {:induction false} MoveFrontMembers<T>(s: seq<T>, x: T)
    requires NoDup(s) && x in s
    ensures NoDup([x] + Remove(s, x))
    ensures forall y :: y in [x] + Remove(s, x) <==> y in s
  {
    RemoveMembers(s, x);
  }

  /** Moving a member to the back (list_remove then list_pushback) keeps the members. */
  lemma {:induction false} MoveBackMembers<T>(s: seq<T>, x: T)
    requires NoDup(s) && x in s
    ensures NoDup(Remove(s, x) + [x])
    ensures forall y :: y in Remove(s, x) + [x] <==> y in s
  {
    RemoveMembers(s, x);
  }
}
