/** Small shared vocabulary: optional values, minimum and maximum, the first match in a table. */
module Prelude {

  datatype Option<+T> = None | Some(value: T)

  function Min(a: int, b: int): int {
    if a < b then a else b
  }

  function Max(a: int, b: int): int {
    if a < b then b else a
  }

  /** The index of the first row that satisfies `p`, in row order. */
  function First<T>(rows: seq<T>, p: T -> bool): (r: Option<nat>)
    ensures r.Some? ==> r.value < |rows| && p(rows[r.value])
    ensures r.Some? ==> forall i :: 0 <= i < r.value ==> !p(rows[i])
    ensures r.None? ==> forall i :: 0 <= i < |rows| ==> !p(rows[i])
  {
    if |rows| == 0 then None
    else
      var before := First(rows[..|rows| - 1], p);
      if before.Some? then before
      else if p(rows[|rows| - 1]) then Some(|rows| - 1)
      else None
  }

  /** A set of naturals with a member has a least one. */
  lemma {:induction false} LeastExists(s: set<nat>, x: nat)
    requires x in s
    ensures exists m :: m in s && forall n :: n in s ==> m <= n
    decreases x
  {
    if y :| y in s && y < x {
      LeastExists(s, y);
    }
  }

  function Least(s: set<nat>): (m: nat)
    requires s != {}
    ensures m in s && forall n :: n in s ==> m <= n
  {
    assert exists m :: m in s && forall n :: n in s ==> m <= n by {
      var x :| x in s;
      LeastExists(s, x);
    }
    var m :| m in s && forall n :: n in s ==> m <= n;
    m
  }

  /** The total of a cost over a finite set. */
  ghost function SetSum<T(!new)>(s: set<T>, cost: T -> nat): nat {
    if s == {} then 0
    else
      var x :| x in s;
      cost(x) + SetSum(s - {x}, cost)
  }

  lemma {:induction false} SetSumWith<T(!new)>(s: set<T>, x: T, cost: T -> nat)
    requires x !in s
    ensures SetSum(s + {x}, cost) == SetSum(s, cost) + cost(x)
  {
    var all := s + {x};
    var y :| y in all && SetSum(all, cost) == cost(y) + SetSum(all - {y}, cost);
    if y == x {
      assert all - {y} == s;
    } else {
      assert all - {y} == (s - {y}) + {x};
      SetSumWith(s - {y}, x, cost);
      assert s == (s - {y}) + {y};
      SetSumWith(s - {y}, y, cost);
    }
  }

  lemma {:induction false} SetSumAgrees<T(!new)>(s: set<T>, cost: T -> nat, other: T -> nat)
    requires forall x :: x in s ==> cost(x) == other(x)
    ensures SetSum(s, cost) == SetSum(s, other)
  {
    if x :| x in s {
      SetSumAgrees(s - {x}, cost, other);
      SetSumWith(s - {x}, x, cost);
      SetSumWith(s - {x}, x, other);
      assert s == (s - {x}) + {x};
    }
  }
}
