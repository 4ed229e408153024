/** The collection operations of the automation code (filter, firstOrNull,
    minBy, maxBy), each with a contract that says what it selects.
    Kotlin's minBy and maxBy return the FIRST element with the extreme key,
    and so do these (lemmas MinByIsFirst and MaxByIsFirst). */
module Select {
  import opened Wrappers

  /** `filter`: the elements of `s` satisfying `p`, in order. */
  function Filter<T(!new)>(s: seq<T>, p: T -> bool): (r: seq<T>)
    ensures |r| <= |s|
    ensures forall x :: x in r <==> x in s && p(x)
  {
    if s == [] then []
    else if p(s[0]) then [s[0]] + Filter(s[1..], p)
    else Filter(s[1..], p)
  }

  /** `firstOrNull { p }`. */
  function FirstWhere<T(!new)>(s: seq<T>, p: T -> bool): (r: Option<T>)
    ensures r.None? <==> forall x :: x in s ==> !p(x)
    ensures r.Some? ==> r.value in s && p(r.value)
  {
    if s == [] then None
    else if p(s[0]) then Some(s[0])
    else FirstWhere(s[1..], p)
  }

  /** `firstOrNull` finds the first element satisfying `p`. */
  lemma {:induction false} FirstWhereIsFirst<T(!new)>(s: seq<T>, p: T -> bool)
    requires FirstWhere(s, p).Some?
    ensures exists i :: 0 <= i < |s| && s[i] == FirstWhere(s, p).value
                        && forall j :: 0 <= j < i ==> !p(s[j])
  {
    if !p(s[0]) {
      FirstWhereIsFirst(s[1..], p);
      var i :| 0 <= i < |s[1..]| && s[1..][i] == FirstWhere(s[1..], p).value
               && forall j :: 0 <= j < i ==> !p(s[1..][j]);
      assert s[i + 1] == FirstWhere(s, p).value;
    } else {
      assert s[0] == FirstWhere(s, p).value;
    }
  }

  /** `minBy { key }`: the first element of least key, null on an empty list. */
  function MinBy<T(!new)>(s: seq<T>, key: T -> real): (r: Option<T>)
    ensures r.None? <==> s == []
    ensures r.Some? ==> r.value in s && forall x :: x in s ==> key(r.value) <= key(x)
  {
    if s == [] then None
    else
      var rest := MinBy(s[1..], key);
      if rest.None? || key(s[0]) <= key(rest.value) then Some(s[0]) else rest
  }

  /** `minBy` picks the first of the least elements. */
  lemma {:induction false} MinByIsFirst<T(!new)>(s: seq<T>, key: T -> real)
    requires s != []
    ensures exists i :: 0 <= i < |s| && s[i] == MinBy(s, key).value
                        && forall j :: 0 <= j < i ==> key(MinBy(s, key).value) < key(s[j])
  {
    var rest := MinBy(s[1..], key);
    if rest.None? || key(s[0]) <= key(rest.value) {
      assert s[0] == MinBy(s, key).value;
    } else {
      MinByIsFirst(s[1..], key);
      var i :| 0 <= i < |s[1..]| && s[1..][i] == rest.value
               && forall j :: 0 <= j < i ==> key(rest.value) < key(s[1..][j]);
      assert s[i + 1] == MinBy(s, key).value;
    }
  }

  /** `maxBy { key }`: the first element of greatest key, null on an empty list. */
  function MaxBy<T(!new)>(s: seq<T>, key: T -> real): (r: Option<T>)
    ensures r.None? <==> s == []
    ensures r.Some? ==> r.value in s && forall x :: x in s ==> key(x) <= key(r.value)
  {
    if s == [] then None
    else
      var rest := MaxBy(s[1..], key);
      if rest.None? || key(rest.value) <= key(s[0]) then Some(s[0]) else rest
  }

  /** `maxBy` picks the first of the greatest elements. */
  lemma {:induction false} MaxByIsFirst<T(!new)>(s: seq<T>, key: T -> real)
    requires s != []
    ensures exists i :: 0 <= i < |s| && s[i] == MaxBy(s, key).value
                        && forall j :: 0 <= j < i ==> key(s[j]) < key(MaxBy(s, key).value)
  {
    var rest := MaxBy(s[1..], key);
    if rest.None? || key(rest.value) <= key(s[0]) {
      assert s[0] == MaxBy(s, key).value;
    } else {
      MaxByIsFirst(s[1..], key);
      var i :| 0 <= i < |s[1..]| && s[1..][i] == rest.value
               && forall j :: 0 <= j < i ==> key(s[1..][j]) < key(rest.value);
      assert s[i + 1] == MaxBy(s, key).value;
    }
  }
}
