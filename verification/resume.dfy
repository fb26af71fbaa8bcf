/** What resuming an endpoint discloses: how much is still to come, and which failed deliveries it
    leaves behind. It goes by creation times, which are those of the BEGIN of the transactions that
    appended the deliveries, and need not follow the order of the queue. */
module Resuming {
  import opened Tables
  import opened Protocol
  import opened Ranking
  import opened LeaseInvariant
  import opened AttemptInvariant
  import opened GateInvariant
  import opened ExpansionInvariant
  import opened EffectInvariant
  import opened SystemInvariant

  /** SELECT MIN(created_at) ... WHERE state IN ('pending', 'in_flight'). */
  function OldestUnresolved(ds: seq<Delivery>, e: nat): (m: Option<Time>)
    ensures m.Some? ==> exists i :: 0 <= i < |ds| && Waits(ds[i], e, true) && ds[i].createdAt == m.value
    ensures forall i :: 0 <= i < |ds| && Waits(ds[i], e, true) ==> m.Some? && m.value <= ds[i].createdAt
  {
    if |ds| == 0 then None
    else
      var d := ds[|ds| - 1];
      var m := OldestUnresolved(ds[..|ds| - 1], e);
      if Waits(d, e, true) && (m.None? || d.createdAt < m.value) then Some(d.createdAt) else m
  }

  predicate IsFailed(d: Delivery, e: nat) {
    d.endpoint == e && d.state == Failed
  }

  /** created_at < COALESCE(MIN(created_at), 'infinity'). */
  predicate IsSkipped(ds: seq<Delivery>, e: nat, i: nat) {
    i < |ds| && IsFailed(ds[i], e) && (OldestUnresolved(ds, e).Some? ==> ds[i].createdAt < OldestUnresolved(ds, e).value)
  }

  function CreatedAt(ds: seq<Delivery>, i: nat): Time {
    if i < |ds| then ds[i].createdAt else 0
  }

  /** skipped_failed_delivery_ids: those rows, ORDER BY created_at. */
  function SkippedFailed(ds: seq<Delivery>, e: nat): seq<nat> {
    Rank(ByKey((i: nat) => CreatedAt(ds, i)), (i: nat) => IsSkipped(ds, e, i), |ds|)
  }

  lemma SkippedIsTheQuery(ds: seq<Delivery>, e: nat)
    ensures forall i: nat :: i in SkippedFailed(ds, e) <==> IsSkipped(ds, e, i)
    ensures forall j, k :: 0 <= j < k < |SkippedFailed(ds, e)| ==>
              SkippedFailed(ds, e)[j] != SkippedFailed(ds, e)[k] && CreatedAt(ds, SkippedFailed(ds, e)[j]) <= CreatedAt(ds, SkippedFailed(ds, e)[k])
  {
    var key, p := (i: nat) => CreatedAt(ds, i), (i: nat) => IsSkipped(ds, e, i);
    KeyOrders(key, p);
    RankOrders(ByKey(key), p, |ds|);
    assert SkippedFailed(ds, e) == Rank(ByKey(key), p, |ds|);
    forall i: nat ensures i in SkippedFailed(ds, e) <==> IsSkipped(ds, e, i) {
      RankMembers(ByKey(key), p, |ds|, i);
    }
  }

  // --------------------------------------------------------------- the disclosure

  /** Creation times strictly increase along the queue of `e`. */
  ghost predicate CreatedInOrder(ds: seq<Delivery>, e: nat) {
    forall i, j :: 0 <= i < |ds| && 0 <= j < |ds| && ds[i].endpoint == e && ds[j].endpoint == e && ds[i].seqNo < ds[j].seqNo ==>
      ds[i].createdAt < ds[j].createdAt
  }

  /** A delivery behind `i` in its queue still waits, and was created no later than `i`. */
  ghost predicate Overtaken(ds: seq<Delivery>, e: nat, i: nat)
    requires i < |ds|
  {
    exists u :: 0 <= u < |ds| && ds[u].endpoint == e && Unresolved(ds[u].state) && ds[i].seqNo < ds[u].seqNo && ds[u].createdAt <= ds[i].createdAt
  }

  lemma SkippedUnlessOvertaken(ds: seq<Delivery>, e: nat, i: nat)
    requires QueueShape(ds) && QueueOrder(ds) && i < |ds| && IsFailed(ds[i], e)
    ensures IsSkipped(ds, e, i) <==> !Overtaken(ds, e, i)
  {
    forall u | 0 <= u < |ds| && Waits(ds[u], e, true)
      ensures ds[i].seqNo < ds[u].seqNo
    {
      assert u != i;
    }
  }

  /** Every failed delivery of `e` is disclosed. */
  ghost predicate AllDisclosed(ds: seq<Delivery>, e: nat) {
    forall i: nat :: i < |ds| && IsFailed(ds[i], e) ==> IsSkipped(ds, e, i)
  }

  lemma InOrderDisclosesAll(ds: seq<Delivery>, e: nat)
    requires QueueShape(ds) && QueueOrder(ds) && CreatedInOrder(ds, e)
    ensures AllDisclosed(ds, e)
  {
    forall i: nat | i < |ds| && IsFailed(ds[i], e) ensures IsSkipped(ds, e, i) {
      SkippedUnlessOvertaken(ds, e, i);
    }
  }

  /** Everything before `u` on endpoint `e` succeeded, except `i`, which failed; all else is pending. */
  function FailedAhead(ds: seq<Delivery>, e: nat, i: nat, u: nat): (r: seq<Delivery>)
    ensures |r| == |ds|
  {
    seq(|ds|, k requires 0 <= k < |ds| =>
      ds[k].(state := if ds[k].endpoint == e && k < u then (if k == i then Failed else Succeeded) else Pending))
  }

  lemma OvertakenIsHidden(ds: seq<Delivery>, e: nat, i: nat, u: nat)
    requires QueueOrder(ds) && i < |ds| && u < |ds| && ds[i].endpoint == e && ds[u].endpoint == e
    requires ds[i].seqNo < ds[u].seqNo && ds[u].createdAt <= ds[i].createdAt
    ensures var ds' := FailedAhead(ds, e, i, u); SameQueues(ds, ds') && QueueShape(ds') && !AllDisclosed(ds', e)
  {
    var ds' := FailedAhead(ds, e, i, u);
    assert i < u;
    assert Waits(ds'[u], e, true) && IsFailed(ds'[i], e);
    assert !IsSkipped(ds', e, i);
  }

  /** What resume discloses in a reachable state, in the order of creation: a failed delivery is named if
      and only if no delivery that waits behind it was created no later than it was. When creation times
      increase along the queue, that is every failed delivery of the endpoint. */
  lemma SkippedIff(cfg: Config, s: World, e: nat)
    requires Reachable(cfg, s)
    ensures forall j, k :: 0 <= j < k < |SkippedFailed(s.db.deliveries, e)| ==>
              var x, y := SkippedFailed(s.db.deliveries, e)[j], SkippedFailed(s.db.deliveries, e)[k];
              x != y && x < |s.db.deliveries| && y < |s.db.deliveries| && s.db.deliveries[x].createdAt <= s.db.deliveries[y].createdAt
    ensures forall i: nat :: i in SkippedFailed(s.db.deliveries, e) <==> i < |s.db.deliveries| && s.db.deliveries[i].endpoint == e && s.db.deliveries[i].state == Failed && !Overtaken(s.db.deliveries, e, i)
    ensures CreatedInOrder(s.db.deliveries, e) ==>
              forall i: nat :: i in SkippedFailed(s.db.deliveries, e) <==> i < |s.db.deliveries| && s.db.deliveries[i].endpoint == e && s.db.deliveries[i].state == Failed
  {
    hide Reachable, LeaseInv, AttemptInv, GateInv, ExpansionInv, EffectInv, QueueShape, QueueOrder, CreatedInOrder, Overtaken, SkippedFailed;
    ReachableInv(cfg, s);
    QueuesOk(cfg, s);
    SkippedInOrder(s.db.deliveries, e);
    SkippedMembers(s.db.deliveries, e);
  }

  lemma SkippedInOrder(ds: seq<Delivery>, e: nat)
    ensures forall j, k :: 0 <= j < k < |SkippedFailed(ds, e)| ==>
              var x, y := SkippedFailed(ds, e)[j], SkippedFailed(ds, e)[k];
              x != y && x < |ds| && y < |ds| && ds[x].createdAt <= ds[y].createdAt
  {
    SkippedIsTheQuery(ds, e);
    var ids := SkippedFailed(ds, e);
    hide SkippedFailed;
    assert forall k :: 0 <= k < |ids| ==> IsSkipped(ds, e, ids[k]);
    hide IsSkipped;
  }

  lemma SkippedMembers(ds: seq<Delivery>, e: nat)
    requires QueueShape(ds) && QueueOrder(ds)
    ensures forall i: nat :: i in SkippedFailed(ds, e) <==> i < |ds| && ds[i].endpoint == e && ds[i].state == Failed && !Overtaken(ds, e, i)
    ensures CreatedInOrder(ds, e) ==>
              forall i: nat :: i in SkippedFailed(ds, e) <==> i < |ds| && ds[i].endpoint == e && ds[i].state == Failed
  {
    SkippedIsTheQuery(ds, e);
    hide QueueShape, QueueOrder, CreatedInOrder, Overtaken, SkippedFailed;
    forall i: nat
      ensures i in SkippedFailed(ds, e) <==> i < |ds| && ds[i].endpoint == e && ds[i].state == Failed && !Overtaken(ds, e, i)
    {
      if i < |ds| && IsFailed(ds[i], e) { SkippedUnlessOvertaken(ds, e, i); }
    }
    if CreatedInOrder(ds, e) { InOrderDisclosesAll(ds, e); }
  }

  /** And that is the exact condition on a queue: however its deliveries turn out, resume names all that
      failed, if and only if creation times strictly increase along it. A replay batch, whose rows share
      theirs, never meets it; nor do two transactions that appended in the other order than they began. */
  lemma DisclosesAllIff(ds: seq<Delivery>, e: nat)
    requires QueueOrder(ds)
    ensures CreatedInOrder(ds, e) <==> forall ds' :: SameQueues(ds, ds') && QueueShape(ds') ==> AllDisclosed(ds', e)
  {
    if CreatedInOrder(ds, e) {
      forall ds' | SameQueues(ds, ds') && QueueShape(ds') ensures AllDisclosed(ds', e) {
        OrderIsStatic(ds, ds', e);
        InOrderDisclosesAll(ds', e);
      }
    } else {
      var i, u :| 0 <= i < |ds| && 0 <= u < |ds| && ds[i].endpoint == e && ds[u].endpoint == e && ds[i].seqNo < ds[u].seqNo && ds[u].createdAt <= ds[i].createdAt;
      OvertakenIsHidden(ds, e, i, u);
    }
  }

  lemma OrderIsStatic(ds: seq<Delivery>, ds': seq<Delivery>, e: nat)
    requires SameQueues(ds, ds') && QueueOrder(ds) && CreatedInOrder(ds, e)
    ensures QueueOrder(ds') && CreatedInOrder(ds', e)
  {
    assert forall i :: 0 <= i < |ds| ==> SameStatic(ds[i], ds'[i]);
  }

}
