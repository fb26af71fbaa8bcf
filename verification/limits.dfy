/** Appends out of order: the service relies on the numbers of a queue to follow commit order. This is the
    exact condition under which an append that comes late does no harm. */
module Limits {
  import opened Tables
  import opened Protocol
  import opened LeaseInvariant
  import opened Paging

  /** The in_flight mark re-opens nothing and leaves the queue its shape if and only if the delivery is in
      flight already, or is pending with everything before it resolved. */
  lemma MarkKeepsShapeIff(db: DB, d: nat, number: nat, a: nat)
    requires QueueShape(db.deliveries) && d < |db.deliveries| && a < |db.attempts|
    ensures QueueShape(MarkInFlight(db, d, number, a).deliveries) && !Terminal(db.deliveries[d].state)
            <==> db.deliveries[d].state == InFlight || AtHead(db.deliveries, d)
  {
    var ds, ds' := db.deliveries, MarkInFlight(db, d, number, a).deliveries;
    assert forall i :: 0 <= i < |ds| && i != d ==> ds'[i] == ds[i];
    assert ds'[d] == ds[d].(state := InFlight, attemptCount := number);
    if QueueShape(ds') && ds[d].state == Pending {
      forall i | 0 <= i < |ds| && ds[i].endpoint == ds[d].endpoint && ds[i].seqNo < ds[d].seqNo
        ensures Terminal(ds[i].state)
      {
        assert ds'[i].seqNo < ds'[d].seqNo && ds'[d].state != Pending;
      }
    }
  }

  // --------------------------------------------------------- appends out of order

  /** A worker that has picked the head of its endpoint under a current lease, and will mark it. */
  predicate Holding(s: World, w: nat) {
    (InPhase(s, w, Picked) || InPhase(s, w, Inserted)) && Owns(s.db, s.workers[w])
  }

  /** The statements such a worker has still to execute before it sends. */
  function ClaimFinished(db: DB, k: Worker): DB
    requires k.Claiming? && k.claim.delivery < |db.deliveries| && (k.phase != Picked ==> k.claim.attempt < |db.attempts|)
  {
    var c := k.claim;
    if k.phase == Picked then MarkInFlight(InsertAttempt(db, c.delivery, c.number), c.delivery, c.number, |db.attempts|)
    else MarkInFlight(db, c.delivery, c.number, c.attempt)
  }

  lemma HoldingAtHead(cfg: Config, s: World, w: nat)
    requires LeaseInv(cfg, s) && Holding(s, w)
    ensures AtHead(s.db.deliveries, s.workers[w].claim.delivery) && s.db.deliveries[s.workers[w].claim.delivery].endpoint == s.workers[w].claim.endpoint
    ensures s.workers[w].phase != Picked ==> s.workers[w].claim.attempt < |s.db.attempts|
  {
    assert WorkerOk(cfg, s, s.workers[w]);
    hide RowsOk, CandidatesOk, NoneInFlight;
  }

  /** The row comes before nothing that left pending, nothing that is about to, and no cursor of a
      listing in progress; a cursor is an endpoint and the number it was listed up to. */
  ghost predicate ComesLate(s: World, row: Delivery, cursors: set<(nat, int)>) {
    && (forall j :: 0 <= j < |s.db.deliveries| && s.db.deliveries[j].endpoint == row.endpoint && s.db.deliveries[j].state != Pending ==>
          s.db.deliveries[j].seqNo <= row.seqNo)
    && (forall w :: Holding(s, w) && s.workers[w].claim.endpoint == row.endpoint && s.workers[w].claim.delivery < |s.db.deliveries| ==>
          s.db.deliveries[s.workers[w].claim.delivery].seqNo <= row.seqNo)
    && (forall c :: c in cursors && c.0 == row.endpoint ==> PastCursor(row, c.0, Some(c.1)))
  }

  /** The picked head is still the head behind the new rows. */
  ghost predicate StillAtHead(s: World, rows: seq<Delivery>, w: nat)
    requires Holding(s, w)
  {
    AtHead(s.db.deliveries + rows, s.workers[w].claim.delivery)
  }

  lemma ShapeIff(ds: seq<Delivery>, rows: seq<Delivery>)
    requires QueueShape(ds) && forall k :: 0 <= k < |rows| ==> rows[k].state == Pending
    ensures QueueShape(ds + rows)
            <==> forall j, k :: 0 <= j < |ds| && 0 <= k < |rows| && ds[j].endpoint == rows[k].endpoint && ds[j].state != Pending ==> ds[j].seqNo <= rows[k].seqNo
  {
    var all := ds + rows;
    if QueueShape(all) {
      forall j, k | 0 <= j < |ds| && 0 <= k < |rows| && ds[j].endpoint == rows[k].endpoint && ds[j].state != Pending
        ensures ds[j].seqNo <= rows[k].seqNo
      {
        assert all[j] == ds[j] && all[|ds| + k] == rows[k];
      }
    }
  }

  lemma AtHeadIff(ds: seq<Delivery>, rows: seq<Delivery>, d: nat)
    requires AtHead(ds, d) && forall k :: 0 <= k < |rows| ==> rows[k].state == Pending
    ensures AtHead(ds + rows, d) <==> forall k :: 0 <= k < |rows| && rows[k].endpoint == ds[d].endpoint ==> ds[d].seqNo <= rows[k].seqNo
  {
    var all := ds + rows;
    if AtHead(all, d) {
      forall k | 0 <= k < |rows| && rows[k].endpoint == ds[d].endpoint ensures ds[d].seqNo <= rows[k].seqNo {
        assert all[|ds| + k] == rows[k];
      }
    }
  }

  lemma FinishedIsMarked(s: World, rows: seq<Delivery>, w: nat)
    requires Holding(s, w) && AtHead(s.db.deliveries, s.workers[w].claim.delivery) && QueueShape(s.db.deliveries + rows)
    requires s.workers[w].phase != Picked ==> s.workers[w].claim.attempt < |s.db.attempts|
    ensures QueueShape(ClaimFinished(s.db.(deliveries := s.db.deliveries + rows), s.workers[w]).deliveries) <==> StillAtHead(s, rows, w)
  {
    var db', k := s.db.(deliveries := s.db.deliveries + rows), s.workers[w];
    assert db'.deliveries[k.claim.delivery] == s.db.deliveries[k.claim.delivery];
    hide QueueShape, AtHead;
    assert db'.deliveries[k.claim.delivery].state == Pending by { assert AtHead(s.db.deliveries, k.claim.delivery); HeadIsPending(s.db.deliveries, k.claim.delivery); }
    if k.phase == Picked {
      MarkKeepsShapeIff(InsertAttempt(db', k.claim.delivery, k.claim.number), k.claim.delivery, k.claim.number, |db'.attempts|);
    } else {
      MarkKeepsShapeIff(db', k.claim.delivery, k.claim.number, k.claim.attempt);
    }
  }

  lemma HeadIsPending(ds: seq<Delivery>, d: nat)
    requires AtHead(ds, d)
    ensures ds[d].state == Pending
  {
  }

  /** Appending pending rows out of order does no harm if and only if each of them comes late enough.
      No harm: the queues keep their shape, also after the workers that hold a head have marked it, and a
      listing that goes on from its cursor still meets every new row. */
  lemma AppendIsSafeIff(cfg: Config, s: World, rows: seq<Delivery>, cursors: set<(nat, int)>)
    requires LeaseInv(cfg, s) && forall k :: 0 <= k < |rows| ==> rows[k].state == Pending
    ensures forall w :: Holding(s, w) ==> s.workers[w].claim.delivery < |s.db.deliveries| && (s.workers[w].phase != Picked ==> s.workers[w].claim.attempt < |s.db.attempts|)
    ensures var db' := s.db.(deliveries := s.db.deliveries + rows);
            (&& QueueShape(db'.deliveries)
             && (forall w :: Holding(s, w) ==> QueueShape(ClaimFinished(db', s.workers[w]).deliveries))
             && (forall k, c :: 0 <= k < |rows| && c in cursors && c.0 == rows[k].endpoint ==> PastCursor(rows[k], c.0, Some(c.1))))
            <==> forall k :: 0 <= k < |rows| ==> ComesLate(s, rows[k], cursors)
  {
    var ds := s.db.deliveries;
    assert QueueShape(ds) by { hide QueueShape, WorkerOk; }
    ShapeIff(ds, rows);
    forall w | Holding(s, w)
      ensures s.workers[w].claim.delivery < |ds| && (s.workers[w].phase != Picked ==> s.workers[w].claim.attempt < |s.db.attempts|)
      ensures StillAtHead(s, rows, w) <==> forall k :: 0 <= k < |rows| && rows[k].endpoint == s.workers[w].claim.endpoint ==> ds[s.workers[w].claim.delivery].seqNo <= rows[k].seqNo
      ensures QueueShape(ds + rows) ==> (QueueShape(ClaimFinished(s.db.(deliveries := ds + rows), s.workers[w]).deliveries) <==> StillAtHead(s, rows, w))
    {
      HoldingAtHead(cfg, s, w);
      AtHeadIff(ds, rows, s.workers[w].claim.delivery);
      if QueueShape(ds + rows) { FinishedIsMarked(s, rows, w); }
    }
    hide LeaseInv, QueueShape, ClaimFinished, StillAtHead, Holding;
  }
}
