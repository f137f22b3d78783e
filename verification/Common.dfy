/** Small datatypes shared by the models. */
module Common {
  datatype Option<+T> = None | Some(value: T)

  function Max(a: int, b: int): (m: int)
    ensures m >= a && m >= b && (m == a || m == b)
  {
    if a < b then b else a
  }

  function Min(a: int, b: int): (m: int)
    ensures m <= a && m <= b && (m == a || m == b)
  {
    if a < b then a else b
  }

  /** A database call: acknowledged, or an error after which the statement may or may not have taken effect. */
  datatype Reply = Acked | LostCommitted | LostDropped {
    predicate Committed() { !LostDropped? }
  }

  const SECOND := 1
  const MINUTE := 60 * SECOND
  const DAY := 86400 * SECOND
  const WEEK := 7 * DAY

  /** The rows that are not gone, in their order. */
  function Kept<T>(rows: seq<T>, gone: T -> bool): seq<T> {
    if rows == [] then []
    else
      var rest := Kept(rows[..|rows| - 1], gone);
      if gone(rows[|rows| - 1]) then rest else rest + [rows[|rows| - 1]]
  }

  lemma {:induction false} KeptIs<T>(rows: seq<T>, gone: T -> bool)
    ensures forall x :: x in Kept(rows, gone) <==> x in rows && !gone(x)
  {
    if rows != [] {
      KeptIs(rows[..|rows| - 1], gone);
      assert rows == rows[..|rows| - 1] + [rows[|rows| - 1]];
    }
  }

  /** The numbers below n. */
  function Numbers(n: nat): (all: set<nat>)
    ensures |all| == n && (forall k :: k in all ==> k < n)
  {
    if n == 0 then {} else Numbers(n - 1) + {n - 1}
  }

  lemma {:induction false} InNumbers(k: nat, n: nat)
    requires k < n
    ensures k in Numbers(n)
  {
    if k < n - 1 { InNumbers(k, n - 1); }
  }

  /** A subset as large as the whole is the whole. */
  lemma {:induction false} SameSizeSubset<T>(a: set<T>, b: set<T>)
    requires a <= b && |a| >= |b|
    ensures a == b
  {
    if a != {} {
      var x :| x in a;
      SameSizeSubset(a - {x}, b - {x});
    }
  }
}
