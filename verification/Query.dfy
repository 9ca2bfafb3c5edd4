/** SELECT ... WHERE ... ORDER BY ... LIMIT. */
module Query {

  /** The first `limit` elements of `order` that satisfy `p`. */
  function Picked<T>(p: T -> bool, order: seq<T>, limit: nat): seq<T> {
    if order == [] || limit == 0 then []
    else if p(order[0]) then [order[0]] + Picked(p, order[1..], limit - 1)
    else Picked(p, order[1..], limit)
  }

  lemma {:induction false} PickedSnoc<T>(p: T -> bool, order: seq<T>, x: T, limit: nat)
    ensures Picked(p, order + [x], limit) ==
      Picked(p, order, limit) + (if p(x) && |Picked(p, order, limit)| < limit then [x] else [])
  {
    if order == [] {
      assert order + [x] == [x] && [x][1..] == [];
    } else {
      assert (order + [x])[1..] == order[1..] + [x] && (order + [x])[0] == order[0];
      if limit > 0 {
        PickedSnoc(p, order[1..], x, if p(order[0]) then limit - 1 else limit);
      }
    }
  }

  /** Only rows that qualify are picked, at most `limit`, and one that qualifies is left out only when that many are. */
  lemma {:induction false} PickedIsABatch<T>(p: T -> bool, order: seq<T>, limit: nat)
    ensures var ids := Picked(p, order, limit);
      && |ids| <= limit
      && (forall x :: x in ids ==> x in order && p(x))
      && (|ids| < limit ==> forall x :: x in order && p(x) ==> x in ids)
  {
    if order != [] && limit > 0 {
      PickedIsABatch(p, order[1..], if p(order[0]) then limit - 1 else limit);
      assert forall x :: x in order <==> x == order[0] || x in order[1..];
    }
  }

  /** The earlier rows come first: what is picked from an order is picked from its beginning, and in that order. */
  lemma {:induction false} PickedAreFirst<T>(p: T -> bool, order: seq<T>, limit: nat) returns (n: nat)
    ensures n <= |order| && Picked(p, order, limit) == Filtered(p, order[..n])
    ensures n < |order| ==> |Picked(p, order, limit)| == limit
  {
    if order == [] || limit == 0 {
      n := 0;
    } else {
      var k := PickedAreFirst(p, order[1..], if p(order[0]) then limit - 1 else limit);
      n := k + 1;
      assert order[..n][1..] == order[1..][..k] && order[..n][0] == order[0];
    }
  }

  function Filtered<T>(p: T -> bool, order: seq<T>): seq<T> {
    if order == [] then [] else (if p(order[0]) then [order[0]] else []) + Filtered(p, order[1..])
  }

  /** What lists each row once is picked from once. */
  lemma {:induction false} PickedDistinct<T>(p: T -> bool, order: seq<T>, limit: nat)
    requires forall i, k :: 0 <= i < k < |order| ==> order[i] != order[k]
    ensures var ids := Picked(p, order, limit); forall i, k :: 0 <= i < k < |ids| ==> ids[i] != ids[k]
  {
    if order != [] && limit > 0 {
      var rest := if p(order[0]) then limit - 1 else limit;
      PickedDistinct(p, order[1..], rest);
      PickedIsABatch(p, order[1..], rest);
    }
  }
}
