/** Options, duplicate-free lists, and picking elements of sets. */
module Common {

  datatype Option<T> = None | Some(value: T)

  lemma Member<T>(s: set<T>) returns (x: T)
    requires s != {}
    ensures x in s
  {
    x :| x in s;
  }

  /** Some element, in whatever order a set is iterated. */
  method MemberOf<T(==)>(s: set<T>) returns (x: T)
    requires s != {}
    ensures x in s
  {
    x :| x in s;
  }

  ghost predicate Distinct<T>(s: seq<T>) {
    forall i, j :: 0 <= i < j < |s| ==> s[i] != s[j]
  }

  ghost function Elements<T>(s: seq<T>): set<T> { set x | x in s }

  lemma {:induction false} DistinctSize<T>(s: seq<T>)
    requires Distinct(s)
    ensures |Elements(s)| == |s|
  {
    if s != [] {
      var front, x := s[..|s| - 1], s[|s| - 1];
      DistinctSize(front);
      assert Elements(s) == Elements(front) + {x};
    }
  }

  lemma ElementsCons<T>(x: T, s: seq<T>)
    ensures Elements([x] + s) == {x} + Elements(s)
  {}

  lemma NoElements<T>(s: seq<T>)
    ensures Elements(s) == {} <==> s == []
  {
    if s != [] { assert s[0] in Elements(s); }
  }

  lemma ElementsSnoc<T>(s: seq<T>, x: T)
    ensures Elements(s + [x]) == Elements(s) + {x}
  {}

  function Removed<T(==)>(s: seq<T>, x: T): (r: seq<T>)
    requires Distinct(s)
    ensures Distinct(r) && Elements(r) == Elements(s) - {x} && |r| <= |s|
    ensures x !in s ==> r == s
  {
    if s == [] then []
    else
      assert s == [s[0]] + s[1..];
      ElementsCons(s[0], s[1..]);
      if s[0] == x then s[1..]
      else
        var r := Removed(s[1..], x);
        ElementsCons(s[0], r);
        assert s[0] !in Elements(s[1..]);
        [s[0]] + r
  }

  function Dropped<T>(s: seq<T>, i: nat): seq<T>
    requires i < |s|
  {
    s[..i] + s[i + 1..]
  }

  lemma DroppedShorter<T>(s: seq<T>, i: nat)
    requires i < |s|
    ensures |Dropped(s, i)| == |s| - 1
  {}

  /** Listed in the order of `time`. */
  ghost predicate Rising<T>(s: seq<T>, time: T -> int) {
    forall i, j :: 0 <= i < j < |s| ==> time(s[i]) < time(s[j])
  }

  lemma RisingCons<T>(x: T, s: seq<T>, time: T -> int)
    requires Rising(s, time) && forall y :: y in s ==> time(x) < time(y)
    ensures Rising([x] + s, time)
  {
    var all := [x] + s;
    forall i, j | 0 <= i < j < |all| ensures time(all[i]) < time(all[j]) {
      if i == 0 { assert all[j] == s[j - 1] && s[j - 1] in s; }
      else { assert all[i] == s[i - 1] && all[j] == s[j - 1]; }
    }
  }

  lemma RisingUncons<T>(s: seq<T>, time: T -> int)
    requires s != [] && Rising(s, time)
    ensures Rising(s[1..], time) && forall y :: y in s[1..] ==> time(s[0]) < time(y)
  {
    forall y | y in s[1..] ensures time(s[0]) < time(y) {
      var i :| 0 <= i < |s| - 1 && s[1..][i] == y;
      assert s[i + 1] == y;
    }
  }

  lemma RisingSnoc<T>(s: seq<T>, x: T, time: T -> int)
    requires Rising(s, time) && forall y :: y in s ==> time(y) < time(x)
    ensures Rising(s + [x], time)
  {}

  lemma {:induction false} RemovedRises<T>(s: seq<T>, x: T, time: T -> int)
    requires Distinct(s) && Rising(s, time)
    ensures Rising(Removed(s, x), time) && forall y :: y in Removed(s, x) <==> y in s && y != x
  {
    RemovedMembers(s, x);
    if s != [] && s[0] == x {
      RisingUncons(s, time);
    } else if s != [] {
      RisingUncons(s, time);
      RemovedRises(s[1..], x, time);
      var r := Removed(s[1..], x);
      forall y | y in r ensures time(s[0]) < time(y) { assert y in Elements(r) && y in Elements(s[1..]); }
      RisingCons(s[0], r, time);
    }
  }

  lemma RisingSame<T>(s: seq<T>, time: T -> int, other: T -> int)
    requires Rising(s, time) && forall x :: x in s ==> time(x) == other(x)
    ensures Rising(s, other)
  {}

  lemma RemovedMembers<T>(s: seq<T>, x: T)
    requires Distinct(s)
    ensures forall y :: y in Removed(s, x) <==> y in s && y != x
  {
    forall y ensures y in Removed(s, x) <==> y in s && y != x {
      assert y in Elements(Removed(s, x)) <==> y in Elements(s) - {x};
    }
  }
}
