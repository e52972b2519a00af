/** Lists whose elements are looked up, replaced and dropped by a key, as the profile lists are. */
module Keyed {
  import opened Common

  function Find<T>(xs: seq<T>, key: T -> nat, id: nat): Option<T> {
    if xs == [] then None
    else if key(xs[0]) == id then Some(xs[0])
    else Find(xs[1..], key, id)
  }

  /** Replace the first element with the key of `x`, or add `x` at the end. */
  function Put<T>(xs: seq<T>, key: T -> nat, x: T): seq<T> {
    if xs == [] then [x]
    else if key(xs[0]) == key(x) then [x] + xs[1..]
    else [xs[0]] + Put(xs[1..], key, x)
  }

  function Keep<T>(xs: seq<T>, keep: T -> bool): seq<T> {
    if xs == [] then []
    else (if keep(xs[0]) then [xs[0]] else []) + Keep(xs[1..], keep)
  }

  ghost predicate Absent<T(!new)>(xs: seq<T>, key: T -> nat, id: nat) {
    forall x :: x in xs ==> key(x) != id
  }

  ghost predicate Unique<T(!new)>(xs: seq<T>, key: T -> nat) {
    xs == [] || (Absent(xs[1..], key, key(xs[0])) && Unique(xs[1..], key))
  }

  lemma {:induction false} FindMeans<T(!new)>(xs: seq<T>, key: T -> nat, id: nat)
    ensures match Find(xs, key, id)
            case Some(x) => x in xs && key(x) == id
            case None => forall x :: x in xs ==> key(x) != id
  {
    if xs != [] && key(xs[0]) != id {
      FindMeans(xs[1..], key, id);
    }
  }

  /** With unique keys an element is found by its own key. */
  lemma {:induction false} FindsItself<T(!new)>(xs: seq<T>, key: T -> nat, x: T)
    requires Unique(xs, key) && x in xs
    ensures Find(xs, key, key(x)) == Some(x)
  {
    if xs[0] != x {
      assert x in xs[1..];
      var i :| 0 < i < |xs| && xs[i] == x;
      FindsItself(xs[1..], key, x);
    }
  }

  lemma {:induction false} PutMeans<T(!new)>(xs: seq<T>, key: T -> nat, x: T)
    requires Unique(xs, key)
    ensures Unique(Put(xs, key, x), key)
    ensures forall y :: y in Put(xs, key, x) <==> y == x || (y in xs && key(y) != key(x))
  {
    if xs != [] {
      var rest := xs[1..];
      assert forall y :: y in xs <==> y == xs[0] || y in rest;
      if key(xs[0]) == key(x) {
        assert Put(xs, key, x)[1..] == rest;
      } else {
        PutMeans(rest, key, x);
        assert Put(xs, key, x)[1..] == Put(rest, key, x);
      }
    }
  }

  lemma {:induction false} PutFinds<T>(xs: seq<T>, key: T -> nat, x: T, id: nat)
    ensures Find(Put(xs, key, x), key, id) == if id == key(x) then Some(x) else Find(xs, key, id)
  {
    if xs != [] && key(xs[0]) != key(x) {
      PutFinds(xs[1..], key, x, id);
      assert Put(xs, key, x)[1..] == Put(xs[1..], key, x);
    } else if xs != [] {
      assert Put(xs, key, x)[1..] == xs[1..];
    }
  }

  lemma {:induction false} KeepMeans<T(!new)>(xs: seq<T>, key: T -> nat, keep: T -> bool)
    ensures forall y :: y in Keep(xs, keep) <==> y in xs && keep(y)
    ensures Unique(xs, key) ==> Unique(Keep(xs, keep), key)
  {
    if xs != [] {
      var rest := xs[1..];
      KeepMeans(rest, key, keep);
      assert forall y :: y in xs <==> y == xs[0] || y in rest;
      if keep(xs[0]) {
        assert Keep(xs, keep)[1..] == Keep(rest, keep);
      } else {
        assert Keep(xs, keep) == Keep(rest, keep);
      }
    }
  }

  /** Dropping others does not change what is found under a key whose elements are all kept. */
  lemma {:induction false} KeepFinds<T(!new)>(xs: seq<T>, key: T -> nat, keep: T -> bool, id: nat)
    requires forall x :: x in xs && key(x) == id ==> keep(x)
    ensures Find(Keep(xs, keep), key, id) == Find(xs, key, id)
  {
    if xs != [] {
      var rest := xs[1..];
      assert xs[0] in xs && forall x :: x in rest ==> x in xs;
      KeepFinds(rest, key, keep, id);
      if keep(xs[0]) {
        assert Keep(xs, keep)[1..] == Keep(rest, keep);
      } else {
        assert Keep(xs, keep) == Keep(rest, keep);
      }
    }
  }
}
