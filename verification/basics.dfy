/** Types shared by every part of the server model. */
module Basics {

  newtype Byte = x: int | 0 <= x < 256

  /** A std::string of the original: any bytes. */
  type Text = seq<Byte>

  /** An unsigned character id.  Serial columns start at 1, so 0 is free for "no such character". */
  type Uid = nat

  const INVALID_ID: Uid := 0

  datatype Option<+T> = None | Some(value: T)

  /** A character as the world sees it: its id and its nickname. */
  datatype Entity = Entity(uid: Uid, name: Text)

  /** Text from a string literal. */
  function Ascii(s: string): Text {
    seq(|s|, i requires 0 <= i < |s| => (s[i] as int % 256) as Byte)
  }

  // ---------------------------------------------------------------- Iteration orders

  predicate NoDup<T(==)>(s: seq<T>) {
    forall i, j :: 0 <= i < j < |s| ==> s[i] != s[j]
  }

  /** `order` visits every element of `s` exactly once: one possible iteration of a hash set. */
  predicate Enumerates<T(==)>(order: seq<T>, s: set<T>) {
    && NoDup(order)
    && (forall x <- order :: x in s)
    && (forall x <- s :: x in order)
  }

  /** An iteration over `all` that has visited `order` and has not looked at `rest` yet. */
  predicate Visiting<T(==)>(order: seq<T>, rest: set<T>, all: set<T>) {
    && NoDup(order)
    && (forall x <- order :: x in all && x !in rest)
    && (forall x <- all :: x in order || x in rest)
  }

  lemma VisitStep<T>(order: seq<T>, rest: set<T>, all: set<T>, x: T)
    requires Visiting(order, rest, all) && x in rest && x in all
    ensures Visiting(order + [x], rest - {x}, all)
  {
  }

  lemma VisitSkip<T>(order: seq<T>, rest: set<T>, all: set<T>, x: T)
    requires Visiting(order, rest, all) && x !in all
    ensures Visiting(order, rest - {x}, all)
  {
  }

  lemma VisitDone<T>(order: seq<T>, all: set<T>)
    requires Visiting(order, {}, all)
    ensures Enumerates(order, all)
  {
  }

  /** Every finite set can be visited. */
  lemma SomeOrder<T>(all: set<T>) returns (order: seq<T>)
    ensures Enumerates(order, all)
  {
    order := [];
    var rest := all;
    while rest != {}
      invariant rest <= all && Visiting(order, rest, all)
      decreases rest
    {
      var x :| x in rest;
      VisitStep(order, rest, all, x);
      order, rest := order + [x], rest - {x};
    }
    VisitDone(order, all);
  }

  /** The elements of `s` that differ from `x`, in order. */
  function Without<T(==, !new)>(s: seq<T>, x: T): (r: seq<T>)
    ensures forall y :: y in r <==> y in s && y != x
    ensures NoDup(s) ==> NoDup(r)
    ensures |r| <= |s|
  {
    if |s| == 0 then []
    else if s[0] == x then Without(s[1..], x)
    else
      var rest := Without(s[1..], x);
      assert NoDup(s) ==> NoDup(s[1..]) && s[0] !in s[1..];
      assert forall j | 0 <= j < |rest| :: rest[j] in s[1..];
      [s[0]] + rest
  }
}
