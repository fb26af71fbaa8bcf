/** Listing an endpoint's queue page by page, with a cursor on `seqNo`, while the service goes on. */
module Paging {
  import opened Tables
  import opened Protocol
  import opened LeaseInvariant
  import opened AttemptInvariant
  import opened GateInvariant
  import opened ExpansionInvariant
  import opened EffectInvariant
  import opened SystemInvariant
  import opened WriteOnce

  predicate PastCursor(d: Delivery, e: nat, cursor: Option<int>) {
    d.endpoint == e && (cursor.Some? ==> d.seqNo > cursor.value)
  }

  /** SELECT ... WHERE endpoint_id = $1 AND seq > $2 ORDER BY seq, from row `i` of the table on; the rows
      of one endpoint are numbered in the order of their seqNo. */
  function RowsPast(ds: seq<Delivery>, i: nat, e: nat, cursor: Option<int>): (ids: seq<nat>)
    ensures forall k :: 0 <= k < |ids| ==> i <= ids[k] < |ds| && PastCursor(ds[ids[k]], e, cursor)
    decreases |ds| - i
  {
    if i >= |ds| then []
    else if PastCursor(ds[i], e, cursor) then [i] + RowsPast(ds, i + 1, e, cursor)
    else RowsPast(ds, i + 1, e, cursor)
  }

  lemma {:induction false} NoneMissed(ds: seq<Delivery>, i: nat, e: nat, cursor: Option<int>, j: nat)
    requires i <= j < |ds| && PastCursor(ds[j], e, cursor)
    ensures j in RowsPast(ds, i, e, cursor)
    decreases |ds| - i
  {
    if i < j { NoneMissed(ds, i + 1, e, cursor, j); }
  }

  lemma {:induction false} Ascending(ds: seq<Delivery>, i: nat, e: nat, cursor: Option<int>)
    ensures forall j, k :: 0 <= j < k < |RowsPast(ds, i, e, cursor)| ==> RowsPast(ds, i, e, cursor)[j] < RowsPast(ds, i, e, cursor)[k]
    decreases |ds| - i
  {
    if i < |ds| { Ascending(ds, i + 1, e, cursor); }
  }

  /** It is that query's answer: all the rows that qualify, in the order of their seqNo. */
  lemma RowsPastIsTheQuery(ds: seq<Delivery>, e: nat, cursor: Option<int>)
    requires QueueOrder(ds)
    ensures var ids := RowsPast(ds, 0, e, cursor);
            && (forall j: nat :: j in ids <==> j < |ds| && ds[j].endpoint == e && (cursor.None? || cursor.value < ds[j].seqNo))
            && (forall j, k :: 0 <= j < k < |ids| ==> ds[ids[j]].seqNo < ds[ids[k]].seqNo)
  {
    forall j: nat | j < |ds| && PastCursor(ds[j], e, cursor)
      ensures j in RowsPast(ds, 0, e, cursor)
    {
      NoneMissed(ds, 0, e, cursor, j);
    }
    Ascending(ds, 0, e, cursor);
  }

  /** Everything on the endpoint, in queue order. */
  function Queue(ds: seq<Delivery>, e: nat): seq<nat> {
    RowsPast(ds, 0, e, None)
  }

  datatype Page = Page(rows: seq<nat>, next: Option<int>)

  /** GET /endpoints/:id/deliveries: one row more than asked for tells whether there is a next page. */
  function ReadPage(ds: seq<Delivery>, e: nat, cursor: Option<int>, limit: nat): (p: Page) {
    var rows := RowsPast(ds, 0, e, cursor);
    if |rows| > limit && limit > 0 then Page(rows[..limit], Some(ds[rows[limit - 1]].seqNo))
    else if |rows| > limit then Page([], None)
    else Page(rows, None)
  }

  /** The rows a client collects by following next_cursor, reading its pages from the given snapshots,
      the first one from snapshot `i`. */
  function Collected(snapshots: seq<seq<Delivery>>, i: nat, e: nat, cursor: Option<int>, limit: nat): seq<nat>
    decreases |snapshots| - i
  {
    if i >= |snapshots| then []
    else
      var p := ReadPage(snapshots[i], e, cursor, limit);
      if p.next.Some? then p.rows + Collected(snapshots, i + 1, e, p.next, limit) else p.rows
  }

  /** The last of the snapshots is the one that gives the page without a next cursor. */
  predicate EndsAtLast(snapshots: seq<seq<Delivery>>, i: nat, e: nat, cursor: Option<int>, limit: nat)
    decreases |snapshots| - i
  {
    i < |snapshots|
    && var p := ReadPage(snapshots[i], e, cursor, limit);
       if p.next.None? then i == |snapshots| - 1 else EndsAtLast(snapshots, i + 1, e, p.next, limit)
  }

  /** Every one of the snapshots gives a page with a next cursor. */
  predicate GoesOn(snapshots: seq<seq<Delivery>>, i: nat, e: nat, cursor: Option<int>, limit: nat)
    decreases |snapshots| - i
  {
    i >= |snapshots|
    || var p := ReadPage(snapshots[i], e, cursor, limit);
       p.next.Some? && GoesOn(snapshots, i + 1, e, p.next, limit)
  }

  // ----------------------------------------------------------------- one page

  lemma {:induction false} AllPast(ds: seq<Delivery>, i: nat, e: nat, c: int)
    requires forall j :: i <= j < |ds| && ds[j].endpoint == e ==> ds[j].seqNo > c
    ensures RowsPast(ds, i, e, Some(c)) == RowsPast(ds, i, e, None)
    decreases |ds| - i
  {
    if i < |ds| { AllPast(ds, i + 1, e, c); }
  }

  /** The rows past a row of the queue are the rest of the queue. */
  lemma {:induction false} RestOfQueue(ds: seq<Delivery>, i: nat, e: nat, n: nat)
    requires QueueOrder(ds) && 0 < n <= |RowsPast(ds, i, e, None)|
    ensures RowsPast(ds, i, e, Some(ds[RowsPast(ds, i, e, None)[n - 1]].seqNo)) == RowsPast(ds, i, e, None)[n..]
    decreases |ds| - i
  {
    var rest := RowsPast(ds, i + 1, e, None);
    if ds[i].endpoint != e {
      RestOfQueue(ds, i + 1, e, n);
    } else if n == 1 {
      AllPast(ds, i + 1, e, ds[i].seqNo);
    } else {
      RestOfQueue(ds, i + 1, e, n - 1);
      assert ds[i].seqNo < ds[rest[n - 2]].seqNo;
    }
  }

  /** The queue of a later state extends the queue of an earlier one. */
  lemma {:induction false} QueueExtends(ds: seq<Delivery>, ds': seq<Delivery>, i: nat, e: nat)
    requires i <= |ds| <= |ds'| && forall j :: 0 <= j < |ds| ==> ds'[j].endpoint == ds[j].endpoint
    ensures RowsPast(ds', i, e, None) == RowsPast(ds, i, e, None) + RowsPast(ds', |ds|, e, None)
    decreases |ds| - i
  {
    if i < |ds| {
      QueueExtends(ds, ds', i + 1, e);
      assert PastCursor(ds'[i], e, None) <==> PastCursor(ds[i], e, None);
    }
  }

  // ------------------------------------------------------------- all the pages

  /** Snapshots of one history: every queue in order, nothing ever taken back. */
  ghost predicate IsHistory(snapshots: seq<seq<Delivery>>) {
    && (forall i :: 0 <= i < |snapshots| ==> QueueOrder(snapshots[i]))
    && (forall i, j :: 0 <= i <= j < |snapshots| ==> DeliveriesGrow(snapshots[i], snapshots[j]))
  }

  /** The cursor after the first `n` rows of the queue. */
  function CursorAt(ds: seq<Delivery>, e: nat, n: nat): Option<int>
    requires n <= |Queue(ds, e)|
  {
    if n == 0 then None else Some(ds[Queue(ds, e)[n - 1]].seqNo)
  }

  lemma PageAt(ds: seq<Delivery>, e: nat, n: nat, limit: nat)
    requires QueueOrder(ds) && n <= |Queue(ds, e)| && limit > 0
    ensures var q := Queue(ds, e); var p := ReadPage(ds, e, CursorAt(ds, e, n), limit);
            if |q| - n > limit then p == Page(q[n..n + limit], CursorAt(ds, e, n + limit)) else p == Page(q[n..], None)
  {
    var q := Queue(ds, e);
    assert RowsPast(ds, 0, e, CursorAt(ds, e, n)) == q[n..] by {
      if n > 0 { RestOfQueue(ds, 0, e, n); } else { assert q[0..] == q; }
    }
    hide RowsPast, QueueOrder;
    if |q| - n > limit {
      assert q[n..][..limit] == q[n..n + limit];
      assert q[n..][limit - 1] == q[n + limit - 1];
    }
  }

  lemma SameCursor(snapshots: seq<seq<Delivery>>, i: nat, j: nat, e: nat, n: nat)
    requires IsHistory(snapshots) && i <= j < |snapshots| && n <= |Queue(snapshots[i], e)|
    ensures n <= |Queue(snapshots[j], e)| && Queue(snapshots[j], e)[..n] == Queue(snapshots[i], e)[..n]
    ensures CursorAt(snapshots[j], e, n) == CursorAt(snapshots[i], e, n)
  {
    var ds, ds' := snapshots[i], snapshots[j];
    assert DeliveriesGrow(ds, ds');
    QueueExtends(ds, ds', 0, e);
    hide IsHistory;
    assert Queue(ds', e) == Queue(ds, e) + RowsPast(ds', |ds|, e, None);
    hide RowsPast;
    if n > 0 { assert Queue(ds', e)[n - 1] == Queue(ds, e)[n - 1]; }
  }

  /** Page `i`, read after `n` rows, lists the next ones; the page after it starts where it ends. */
  lemma NextPage(snapshots: seq<seq<Delivery>>, i: nat, e: nat, n: nat, limit: nat)
    requires IsHistory(snapshots) && i < |snapshots| && limit > 0 && n <= |Queue(snapshots[i], e)|
    ensures var q := Queue(snapshots[i], e); var p := ReadPage(snapshots[i], e, CursorAt(snapshots[i], e, n), limit);
            if |q| - n <= limit then p == Page(q[n..], None)
            else p.rows == q[n..n + limit] && p.next.Some? && (i + 1 < |snapshots| ==> n + limit <= |Queue(snapshots[i + 1], e)| && p.next == CursorAt(snapshots[i + 1], e, n + limit))
  {
    hide QueueOrder, DeliveriesGrow, Queue, ReadPage;
    PageAt(snapshots[i], e, n, limit);
    if i + 1 < |snapshots| && |Queue(snapshots[i], e)| - n > limit { SameCursor(snapshots, i, i + 1, e, n + limit); }
  }

  lemma CollectOne(snapshots: seq<seq<Delivery>>, i: nat, e: nat, n: nat, limit: nat, end: seq<nat>)
    requires IsHistory(snapshots) && i + 1 < |snapshots| && limit > 0 && n + limit < |Queue(snapshots[i], e)|
    requires end == Queue(snapshots[|snapshots| - 1], e) && n + limit <= |Queue(snapshots[i + 1], e)| && n + limit <= |end|
    requires Collected(snapshots, i + 1, e, CursorAt(snapshots[i + 1], e, n + limit), limit) == end[n + limit..]
    ensures Collected(snapshots, i, e, CursorAt(snapshots[i], e, n), limit) == end[n..]
  {
    hide ReadPage, Queue, IsHistory, CursorAt;
    NextPage(snapshots, i, e, n, limit);
    SameCursor(snapshots, i, |snapshots| - 1, e, n + limit);
    Stitch(Queue(snapshots[i], e), end, n, limit);
  }

  lemma {:induction false} CollectedFrom(snapshots: seq<seq<Delivery>>, i: nat, e: nat, n: nat, limit: nat)
    requires IsHistory(snapshots) && i < |snapshots| && limit > 0 && n <= |Queue(snapshots[i], e)|
    requires EndsAtLast(snapshots, i, e, CursorAt(snapshots[i], e, n), limit)
    ensures n <= |Queue(snapshots[|snapshots| - 1], e)|
    ensures Collected(snapshots, i, e, CursorAt(snapshots[i], e, n), limit) == Queue(snapshots[|snapshots| - 1], e)[n..]
    decreases |snapshots| - i
  {
    hide ReadPage, Queue, IsHistory, CursorAt;
    NextPage(snapshots, i, e, n, limit);
    if |Queue(snapshots[i], e)| - n > limit {
      CollectedFrom(snapshots, i + 1, e, n + limit, limit);
      CollectOne(snapshots, i, e, n, limit, Queue(snapshots[|snapshots| - 1], e));
    }
  }

  lemma Stitch(q: seq<nat>, q': seq<nat>, n: nat, limit: nat)
    requires n + limit <= |q| && n + limit <= |q'| && q'[..n + limit] == q[..n + limit]
    ensures q[n..n + limit] + q'[n + limit..] == q'[n..]
  {
    assert q[n..n + limit] == q'[..n + limit][n..];
  }

  /** Following next_cursor to the end, while deliveries are added and change state, lists exactly the
      queue as it is at the last page: every delivery once, in order, starting with all those that
      were there at the first page. */
  lemma PagesAreTheQueue(snapshots: seq<seq<Delivery>>, e: nat, limit: nat)
    requires IsHistory(snapshots) && limit > 0 && EndsAtLast(snapshots, 0, e, None, limit)
    ensures var first, end := Queue(snapshots[0], e), Queue(snapshots[|snapshots| - 1], e);
            && Collected(snapshots, 0, e, None, limit) == end
            && |first| <= |end| && end[..|first|] == first
  {
    CollectedFrom(snapshots, 0, e, 0, limit);
    hide IsHistory;
    var n := |Queue(snapshots[0], e)|;
    SameCursor(snapshots, 0, |snapshots| - 1, e, n);
    assert Queue(snapshots[0], e)[..n] == Queue(snapshots[0], e);
  }

  lemma {:induction false} GoesOnFrom(snapshots: seq<seq<Delivery>>, i: nat, e: nat, n: nat, limit: nat)
    requires IsHistory(snapshots) && i < |snapshots| && limit > 0 && n <= |Queue(snapshots[i], e)|
    requires GoesOn(snapshots, i, e, CursorAt(snapshots[i], e, n), limit)
    ensures n + (|snapshots| - i) * limit < |Queue(snapshots[|snapshots| - 1], e)|
    decreases |snapshots| - i
  {
    hide ReadPage, Queue, IsHistory, CursorAt;
    NextPage(snapshots, i, e, n, limit);
    if i + 1 < |snapshots| {
      GoesOnFrom(snapshots, i + 1, e, n + limit, limit);
      assert (|snapshots| - i) * limit == (|snapshots| - (i + 1)) * limit + limit;
    }
  }

  /** A listing goes on only while the queue is longer than what it has listed, so on a queue that
      stops growing it ends. */
  lemma ListingEnds(snapshots: seq<seq<Delivery>>, e: nat, limit: nat)
    requires IsHistory(snapshots) && snapshots != [] && limit > 0
    requires |Queue(snapshots[|snapshots| - 1], e)| <= |snapshots| * limit
    ensures !GoesOn(snapshots, 0, e, None, limit)
  {
    if GoesOn(snapshots, 0, e, None, limit) {
      GoesOnFrom(snapshots, 0, e, 0, limit);
    }
  }

  /** A limit of zero ends at once with nothing listed, so it misses every delivery there is. */
  lemma ZeroLimitListsNothing(snapshots: seq<seq<Delivery>>, e: nat)
    requires EndsAtLast(snapshots, 0, e, None, 0)
    ensures Collected(snapshots, 0, e, None, 0) == [] && |snapshots| == 1
  {
    assert ReadPage(snapshots[0], e, None, 0) == Page([], None);
  }

  // --------------------------------------------------------------- over a run

  ghost predicate Follows(cfg: Config, s: World, s': World) {
    exists steps :: IsRun(cfg, s, steps) && After(cfg, s, steps) == s'
  }

  function Deliveries(states: seq<World>): (ds: seq<seq<Delivery>>)
    ensures |ds| == |states| && forall i :: 0 <= i < |ds| ==> ds[i] == states[i].db.deliveries
  {
    seq(|states|, i requires 0 <= i < |states| => states[i].db.deliveries)
  }

  /** The states of a run of the service, in order, are such a history. */
  lemma RunIsHistory(cfg: Config, states: seq<World>)
    requires forall i :: 0 <= i < |states| ==> Reachable(cfg, states[i])
    requires forall i, j :: 0 <= i <= j < |states| ==> Follows(cfg, states[i], states[j])
    ensures IsHistory(Deliveries(states))
  {
    forall i | 0 <= i < |states|
      ensures QueueOrder(states[i].db.deliveries)
    {
      ReachableInv(cfg, states[i]);
      QueuesOk(cfg, states[i]) by { hide LeaseInv, AttemptInv, GateInv, ExpansionInv, EffectInv; }
    }
    forall i, j | 0 <= i <= j < |states|
      ensures DeliveriesGrow(states[i].db.deliveries, states[j].db.deliveries)
    {
      Later(cfg, states[i], states[j]);
    }
    hide QueueOrder, DeliveriesGrow, Reachable, Follows;
  }

  lemma Later(cfg: Config, s: World, s': World)
    requires Reachable(cfg, s) && Follows(cfg, s, s')
    ensures DeliveriesGrow(s.db.deliveries, s'.db.deliveries)
  {
    ReachableInv(cfg, s);
    hide Inv, DeliveriesGrow, IsRun, After;
    var steps :| IsRun(cfg, s, steps) && After(cfg, s, steps) == s';
    RunGrows(cfg, s, steps);
  }

  /** The listing of a running service: what it collects is the queue at its last page. */
  lemma ListingOfARun(cfg: Config, states: seq<World>, e: nat, limit: nat)
    requires forall i :: 0 <= i < |states| ==> Reachable(cfg, states[i])
    requires forall i, j :: 0 <= i <= j < |states| ==> Follows(cfg, states[i], states[j])
    requires limit > 0 && EndsAtLast(Deliveries(states), 0, e, None, limit)
    ensures states != []
    ensures var first, end := Queue(states[0].db.deliveries, e), Queue(states[|states| - 1].db.deliveries, e);
            && Collected(Deliveries(states), 0, e, None, limit) == end
            && |first| <= |end| && end[..|first|] == first
  {
    RunIsHistory(cfg, states);
    hide Reachable, Follows, IsHistory, Queue;
    PagesAreTheQueue(Deliveries(states), e, limit);
  }
}
