/** Whole-sequence operations shared by the tables and the client state. */
module Seqs {

  /** The rows satisfying `f`, in table order: a `select` with filters, or what a `delete` leaves. */
  function Filter<T(!new)>(s: seq<T>, f: T -> bool): (r: seq<T>)
    ensures |r| <= |s|
    ensures forall x :: x in r <==> x in s && f(x)
  {
    if s == [] then [] else (if f(s[0]) then [s[0]] else []) + Filter(s[1..], f)
  }

  lemma {:induction false} FilterNone<T(!new)>(s: seq<T>, f: T -> bool)
    requires forall x :: x in s ==> !f(x)
    ensures Filter(s, f) == []
  {
    if s != [] {
      assert s[0] in s;
      FilterNone(s[1..], f);
    }
  }

  lemma {:induction false} FilterAll<T(!new)>(s: seq<T>, f: T -> bool)
    requires forall x :: x in s ==> f(x)
    ensures Filter(s, f) == s
  {
    if s != [] {
      assert s[0] in s;
      FilterAll(s[1..], f);
    }
  }

  /** Two tests that agree on every element keep the same elements. */
  lemma {:induction false} FilterAgree<T(!new)>(s: seq<T>, f: T -> bool, g: T -> bool)
    requires forall x :: x in s ==> f(x) == g(x)
    ensures Filter(s, f) == Filter(s, g)
  {
    if s != [] {
      assert s[0] in s;
      FilterAgree(s[1..], f, g);
    }
  }

  /** An `update` filtered by `f`: matching rows are rewritten by `g`, the rest kept in place. */
  function SetWhere<T>(s: seq<T>, f: T -> bool, g: T -> T): (r: seq<T>)
    ensures |r| == |s|
    ensures forall i :: 0 <= i < |s| ==> r[i] == if f(s[i]) then g(s[i]) else s[i]
  {
    seq(|s|, i requires 0 <= i < |s| => if f(s[i]) then g(s[i]) else s[i])
  }
}
