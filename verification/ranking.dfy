/** ORDER BY: the ids below some bound that satisfy a condition, in a given order, and what LIMIT keeps. */
module Ranking {
  type Order = (nat, nat) -> bool
  type Filter = nat -> bool
  type Key = nat -> int

  /** ORDER BY a number. */
  function ByKey(key: Key): Order {
    (a: nat, b: nat) => key(a) <= key(b)
  }

  /** On the ids that satisfy `p`, the order is a total preorder. */
  ghost predicate Orders(before: Order, p: Filter) {
    && (forall a, b :: p(a) && p(b) ==> before(a, b) || before(b, a))
    && (forall a, b, c :: p(a) && p(b) && p(c) && before(a, b) && before(b, c) ==> before(a, c))
  }

  lemma KeyOrders(key: Key, p: Filter)
    ensures Orders(ByKey(key), p)
  {
  }

  ghost predicate AllSatisfy(p: Filter, ids: seq<nat>) {
    forall k :: 0 <= k < |ids| ==> p(ids[k])
  }

  /** Each id once, in order. */
  ghost predicate Ordered(before: Order, ids: seq<nat>) {
    forall j, k :: 0 <= j < k < |ids| ==> ids[j] != ids[k] && before(ids[j], ids[k])
  }

  function Place(before: Order, x: nat, ids: seq<nat>): seq<nat> {
    if |ids| == 0 || before(x, ids[0]) then [x] + ids else [ids[0]] + Place(before, x, ids[1..])
  }

  lemma {:induction false} PlaceMembers(before: Order, x: nat, ids: seq<nat>, y: nat)
    ensures y in Place(before, x, ids) <==> y == x || y in ids
  {
    if |ids| > 0 && !before(x, ids[0]) {
      PlaceMembers(before, x, ids[1..], y);
      assert ids == [ids[0]] + ids[1..];
    }
  }

  lemma {:induction false} PlaceOrders(before: Order, p: Filter, x: nat, ids: seq<nat>)
    requires Orders(before, p) && AllSatisfy(p, ids) && p(x) && Ordered(before, ids) && x !in ids
    ensures Ordered(before, Place(before, x, ids))
  {
    if |ids| > 0 && before(x, ids[0]) {
      forall k | 0 <= k < |ids| ensures before(x, ids[k]) {
        if k > 0 { assert before(ids[0], ids[k]); }
      }
    } else if |ids| > 0 {
      PlaceOrders(before, p, x, ids[1..]);
      var rest := Place(before, x, ids[1..]);
      hide Place;
      forall k | 0 <= k < |rest| ensures ids[0] != rest[k] && before(ids[0], rest[k]) {
        PlaceMembers(before, x, ids[1..], rest[k]);
        if rest[k] != x { var j :| 0 <= j < |ids[1..]| && ids[1..][j] == rest[k]; assert ids[j + 1] == rest[k]; }
      }
    }
  }

  /** SELECT id ... WHERE p ORDER BY ... */
  function Rank(before: Order, p: Filter, n: nat): seq<nat> {
    if n == 0 then [] else if p(n - 1) then Place(before, n - 1, Rank(before, p, n - 1)) else Rank(before, p, n - 1)
  }

  lemma {:induction false} RankMembers(before: Order, p: Filter, n: nat, y: nat)
    ensures y in Rank(before, p, n) <==> y < n && p(y)
  {
    if n > 0 {
      RankMembers(before, p, n - 1, y);
      if p(n - 1) { PlaceMembers(before, n - 1, Rank(before, p, n - 1), y); }
    }
  }

  lemma RankSatisfies(before: Order, p: Filter, n: nat)
    ensures AllSatisfy(p, Rank(before, p, n))
  {
    hide Rank;
    var ids := Rank(before, p, n);
    forall k | 0 <= k < |ids| ensures p(ids[k]) {
      RankMembers(before, p, n, ids[k]);
    }
  }

  lemma {:induction false} RankOrders(before: Order, p: Filter, n: nat)
    requires Orders(before, p)
    ensures Ordered(before, Rank(before, p, n))
  {
    if n > 0 {
      hide Orders, Ordered;
      RankOrders(before, p, n - 1);
      RankMembers(before, p, n - 1, n - 1);
      RankSatisfies(before, p, n - 1);
      if p(n - 1) { PlaceOrders(before, p, n - 1, Rank(before, p, n - 1)); }
    } else {
      assert Ordered(before, []);
    }
  }

  function First(ids: seq<nat>, n: nat): seq<nat> {
    if |ids| <= n then ids else ids[..n]
  }

  /** The rows that LIMIT keeps are a correct answer: they satisfy the condition and come in order, and
      each of them comes before any that is left out. */
  lemma FirstOfRank(before: Order, p: Filter, n: nat, limit: nat)
    requires Orders(before, p)
    ensures var ids := First(Rank(before, p, n), limit);
            && |ids| <= limit && Ordered(before, ids)
            && (forall k :: 0 <= k < |ids| ==> ids[k] < n && p(ids[k]))
            && (forall y: nat :: y < n && p(y) && y !in ids ==> |ids| == limit && forall k :: 0 <= k < |ids| ==> before(ids[k], y))
  {
    var all, ids := Rank(before, p, n), First(Rank(before, p, n), limit);
    RankOrders(before, p, n);
    hide Rank, Orders;
    forall k | 0 <= k < |ids| ensures ids[k] == all[k] && ids[k] < n && p(ids[k]) {
      RankMembers(before, p, n, all[k]);
    }
    forall y: nat | y < n && p(y) && y !in ids ensures |ids| == limit && forall k :: 0 <= k < |ids| ==> before(ids[k], y) {
      RankMembers(before, p, n, y);
      var j :| 0 <= j < |all| && all[j] == y;
      LeftOut(all, ids, limit, j);
    }
  }

  lemma LeftOut(all: seq<nat>, ids: seq<nat>, limit: nat, j: nat)
    requires ids == First(all, limit) && j < |all| && all[j] !in ids
    ensures |ids| == limit && limit <= j
  {
    assert forall k :: 0 <= k < |ids| ==> ids[k] in ids && ids[k] == all[k];
  }
}
