/** A claim phase that outlives its lease. Four statements of it write rows and carry no fence: the two of
    the reclaim, the insert of the attempt and the in_flight mark. Executed at any time, by a worker that
    may have lost its lease long ago, each keeps the service's invariant under exactly one condition. */
module LateClaims {
  import opened Tables
  import opened Protocol
  import opened LeaseInvariant
  import opened AttemptInvariant
  import opened GateInvariant
  import opened ExpansionInvariant
  import opened EffectInvariant
  import opened SystemInvariant
  import opened WriteOnce
  import opened ClaimMemory
  import opened Claiming

  /** Worker `w` stands before the statement, in time or not. */
  predicate Before(s: World, w: nat, st: WorkerStep) {
    match st
    case CloseOrphanRows => InPhase(s, w, Served)
    case RequeueRow => InPhase(s, w, Closing)
    case InsertRow => InPhase(s, w, Picked)
    case MarkRow => BeforeMark(s, w)
    case _ => false
  }

  /** The statement executed, in time or not. */
  function Executed(s: World, w: nat, st: WorkerStep): World
    requires Before(s, w, st)
  {
    match st
    case CloseOrphanRows => DoCloseOrphans(s, w)
    case RequeueRow => DoRequeue(s, w)
    case InsertRow => DoInsertAttempt(s, w)
    case MarkRow => DoMarkInFlight(s, w)
  }

  // ------------------------------------------------------------ the conditions

  /** Worker `v` holds the lease of endpoint `e`. */
  predicate Holds(s: World, v: nat, e: nat) {
    v in s.workers && Owns(s.db, s.workers[v]) && s.workers[v].claim.endpoint == e
  }

  /** The delivery was not marked since the worker picked it. */
  predicate Unmarked(db: DB, c: Claim) {
    c.delivery < |db.deliveries| && c.number == db.deliveries[c.delivery].attemptCount + 1
  }

  /** The worker took over from a stale holder, and has the reclaim still before it. */
  predicate WillReclaim(k: Worker) {
    k.Claiming? && (k.phase == Leased || k.phase == Served) && k.claim.tookOver
  }

  ghost predicate AllBeforeResolved(ds: seq<Delivery>, d: nat)
    requires d < |ds|
  {
    forall i :: 0 <= i < |ds| && ds[i].endpoint == ds[d].endpoint && ds[i].seqNo < ds[d].seqNo ==> Terminal(ds[i].state)
  }

  /** Nobody under the lease of the endpoint is past its mark. */
  ghost predicate CloseFits(s: World, w: nat)
    requires InPhase(s, w, Served)
  {
    forall v :: Holds(s, v, s.workers[w].claim.endpoint) ==> !s.workers[v].Sending? && !s.workers[v].Replied?
  }

  /** The attempts of what is in flight are closed. */
  ghost predicate RequeueFits(s: World, w: nat)
    requires InPhase(s, w, Closing)
  {
    OrphansClosed(s.db, s.workers[w].claim.endpoint)
  }

  /** Nothing has become of the delivery, everything before it is resolved, and the endpoint is not halted. */
  ghost predicate InsertFits(s: World, w: nat)
    requires InPhase(s, w, Picked)
  {
    var c := s.workers[w].claim;
    Unmarked(s.db, c) && AllBeforeResolved(s.db.deliveries, c.delivery) && c.endpoint < |s.db.endpoints| && !s.db.endpoints[c.endpoint].gated
  }

  /** Nothing has become of the delivery, the endpoint is busy, and whoever else works under its lease, if
      anybody does, will reclaim. */
  ghost predicate MarkFits(s: World, w: nat)
    requires BeforeMark(s, w)
  {
    var c := s.workers[w].claim;
    && Unmarked(s.db, c) && c.endpoint < |s.db.endpoints| && s.db.endpoints[c.endpoint].busy
    && forall v :: v != w && Holds(s, v, c.endpoint) ==> WillReclaim(s.workers[v])
  }

  ghost predicate Fits(s: World, w: nat, st: WorkerStep)
    requires Before(s, w, st)
  {
    match st
    case CloseOrphanRows => CloseFits(s, w)
    case RequeueRow => RequeueFits(s, w)
    case InsertRow => InsertFits(s, w)
    case MarkRow => MarkFits(s, w)
  }

  // ------------------------------------------------------------- what must be kept

  /** Every attempt recorded in between is the next one of a ready head whose endpoint is not halted. */
  ghost predicate RecordsHeads(s: World, s': World) {
    forall a :: |s.db.attempts| <= a < |s'.db.attempts| ==>
      var d, ds := s'.db.attempts[a].delivery, s.db.deliveries;
      && AtHead(ds, d) && s'.db.attempts[a].number == ds[d].attemptCount + 1 && ds[d].nextAttemptAt <= s.clock
      && ds[d].endpoint < |s.db.endpoints| && !s.db.endpoints[ds[d].endpoint].gated
  }

  /** What every step of the service guarantees: the invariant, nothing settled is undone, and only
      heads are attempted. */
  ghost predicate Kept(cfg: Config, s: World, s': World) {
    Inv(cfg, s') && Grows(s.db, s'.db) && RecordsHeads(s, s')
  }

  // ------------------------------------------------------------ the lease invariant

  /** A worker without the lease moved on, and changed rows of its endpoint. */
  lemma LateMoved(cfg: Config, s: World, s': World, w: nat)
    requires LeaseInv(cfg, s) && w in s.workers && s.workers[w].Claiming? && !Owns(s.db, s.workers[w])
    requires s'.clock == s.clock && s'.nextLease == s.nextLease && s'.db.endpoints == s.db.endpoints
    requires RowsOk(s'.db, s.nextLease, s.clock) && Local(s.db, s'.db, s.workers[w].claim.endpoint)
    requires w in s'.workers && s'.workers == s.workers[w := s'.workers[w]]
    requires var k, k' := s.workers[w], s'.workers[w];
             && !k'.Trying? && k'.claim.endpoint == k.claim.endpoint && k'.claim.lease == k.claim.lease
             && k'.claim.since == k.claim.since && k'.claim.tookOver == k.claim.tookOver
             && (if k'.Claiming? then k'.rest == k.rest && k'.cutoff == k.cutoff && k'.wasBusy == k.wasBusy else ClaimRefs(s'.db, k'.claim))
    requires forall v :: v != w && Holds(s, v, s.workers[w].claim.endpoint) ==> PhaseOk(s'.db, s.clock, s.workers[v])
    ensures LeaseInv(cfg, s')
  {
    var e := s.workers[w].claim.endpoint;
    hide RowsOk, PhaseOk, Local;
    forall v | v in s'.workers ensures WorkerOk(cfg, s', s'.workers[v]) {
      assert WorkerOk(cfg, s, s.workers[v]);
      if v != w {
        BystanderOk(cfg, s, s', e, s.workers[v]) by { if Owns(s.db, s.workers[v]) && s.workers[v].claim.endpoint == e { assert Holds(s, v, e); } }
      }
    }
  }

  lemma BystanderOk(cfg: Config, s: World, s': World, e: nat, k: Worker)
    requires WorkerOk(cfg, s, k) && RowsOk(s.db, s.nextLease, s.clock)
    requires s'.clock == s.clock && s'.nextLease == s.nextLease && s'.db.endpoints == s.db.endpoints && Local(s.db, s'.db, e)
    requires !k.Trying? && Owns(s.db, k) && k.claim.endpoint == e ==> PhaseOk(s'.db, s.clock, k)
    ensures WorkerOk(cfg, s', k)
  {
    if !k.Trying? && k.claim.endpoint != e && Owns(s.db, k) {
      PhaseFrame(s.db, s'.db, e, s.clock, k);
    }
    hide PhaseOk;
  }

  /** Nobody else holds the lease of a worker that holds it. */
  lemma OwnerIsAlone(cfg: Config, s: World, w: nat, v: nat, e: nat)
    requires LeaseInv(cfg, s) && Holds(s, w, e) && Holds(s, v, e)
    ensures v == w
  {
    hide RowsOk, WorkerOk;
  }

  lemma HolderKnows(cfg: Config, s: World, v: nat, e: nat)
    requires LeaseInv(cfg, s) && Holds(s, v, e)
    ensures WorkerOk(cfg, s, s.workers[v]) && PhaseOk(s.db, s.clock, s.workers[v]) && e < |s.db.endpoints|
  {
    assert WorkerOk(cfg, s, s.workers[v]);
    hide RowsOk, PhaseOk, CandidatesOk;
  }

  // ---- CloseOrphanRows

  lemma LateCloseKeepsLease(cfg: Config, s: World, w: nat)
    requires LeaseInv(cfg, s) && InPhase(s, w, Served) && CloseFits(s, w)
    ensures LeaseInv(cfg, DoCloseOrphans(s, w))
  {
    if Owns(s.db, s.workers[w]) {
      CloseOrphansKeeps(cfg, s, w);
    } else {
      var e := s.workers[w].claim.endpoint;
      RowsOf(cfg, s);
      CloseOrphansRows(s.db, e, s.nextLease, s.clock);
      forall v | v != w && Holds(s, v, e) ensures PhaseOk(CloseOrphans(s.db, e), s.clock, s.workers[v]) {
        HolderKnows(cfg, s, v, e);
        CloseKeepsPhase(s.db, s.clock, s.workers[v]);
      }
      hide LeaseInv, RowsOk, PhaseOk, Local, CloseOrphans, OrphansClosed;
      LateMoved(cfg, s, DoCloseOrphans(s, w), w);
    }
  }

  lemma CloseKeepsPhase(db: DB, clock: Time, k: Worker)
    requires k.Claiming? && PhaseOk(db, clock, k)
    ensures PhaseOk(CloseOrphans(db, k.claim.endpoint), clock, k)
  {
  }

  // ---- RequeueRow

  lemma LateRequeueKeepsLease(cfg: Config, s: World, w: nat)
    requires LeaseInv(cfg, s) && InPhase(s, w, Closing) && RequeueFits(s, w)
    ensures LeaseInv(cfg, DoRequeue(s, w))
  {
    if Owns(s.db, s.workers[w]) {
      RequeueKeeps(cfg, s, w);
    } else {
      var e := s.workers[w].claim.endpoint;
      RowsOf(cfg, s);
      RequeueRows(s.db, e, s.nextLease, s.clock);
      forall v | v != w && Holds(s, v, e) ensures PhaseOk(RequeueInFlight(s.db, e), s.clock, s.workers[v]) {
        HolderKnows(cfg, s, v, e);
        RequeueKeepsPhase(s.db, s.clock, s.workers[v]);
      }
      hide LeaseInv, RowsOk, PhaseOk, Local, RequeueInFlight, OrphansClosed, NoneInFlight;
      LateMoved(cfg, s, DoRequeue(s, w), w);
    }
  }

  lemma RequeueKeepsPhase(db: DB, clock: Time, k: Worker)
    requires !k.Trying? && PhaseOk(db, clock, k) && OrphansClosed(db, k.claim.endpoint)
    ensures PhaseOk(RequeueInFlight(db, k.claim.endpoint), clock, k)
  {
    var e := k.claim.endpoint;
    if !k.Claiming? {
      assert OrphanOf(db, db.attempts[k.claim.attempt], e);
    } else {
      assert forall i :: 0 <= i < |db.deliveries| ==> RequeueInFlight(db, e).deliveries[i] == Requeued(db.deliveries[i], e);
    }
  }

  // ---- InsertRow

  lemma LateInsertKeepsLease(cfg: Config, s: World, w: nat)
    requires LeaseInv(cfg, s) && InPhase(s, w, Picked) && DeliveryRemembered(s.db, s.clock, s.workers[w].claim)
    ensures LeaseInv(cfg, DoInsertAttempt(s, w))
  {
    if Owns(s.db, s.workers[w]) {
      InsertAttemptKeeps(cfg, s, w);
    } else {
      var c := s.workers[w].claim;
      RowsOf(cfg, s);
      InsertAttemptRows(s.db, c.delivery, c.number, s.nextLease, s.clock);
      forall v | v != w && Holds(s, v, c.endpoint) ensures PhaseOk(InsertAttempt(s.db, c.delivery, c.number), s.clock, s.workers[v]) {
        HolderKnows(cfg, s, v, c.endpoint);
        InsertKeepsPhase(s.db, s.clock, s.workers[v], c.delivery, c.number);
      }
      hide LeaseInv, RowsOk, PhaseOk, Local;
      LateMoved(cfg, s, DoInsertAttempt(s, w), w);
    }
  }

  lemma InsertKeepsPhase(db: DB, clock: Time, k: Worker, d: nat, number: nat)
    requires !k.Trying? && PhaseOk(db, clock, k)
    ensures PhaseOk(InsertAttempt(db, d, number), clock, k)
  {
    var db' := InsertAttempt(db, d, number);
    if k.Claiming? && k.phase == Closing {
      forall a | 0 <= a < |db'.attempts| && db'.attempts[a].sent ensures !OrphanOf(db', db'.attempts[a], k.claim.endpoint) {
        assert !OrphanOf(db, db.attempts[a], k.claim.endpoint);
      }
    }
  }

  // ---- MarkRow

  /** What the row knows that a worker without the lease is about to mark. */
  lemma MarkedIsHead(cfg: Config, s: World, w: nat)
    requires Inv(cfg, s) && Remembers(s) && BeforeMark(s, w) && Unmarked(s.db, s.workers[w].claim)
    ensures PickedOk(s.db, s.clock, s.workers[w].claim) && InsertedOk(s.db, s.workers[w].claim)
  {
    RowOfClaim(s, w);
    hide Remembers, LeaseInv, GateInv, ExpansionInv, EffectInv, UnsentOk, OpenOk, WinsOk, AllAccounted, SentNumbers;
    RowsOf(cfg, s);
    RowIsHead(s.db, s.nextLease, s.clock, s.workers[w].claim);
  }

  lemma RowIsHead(db: DB, nextLease: nat, clock: Time, c: Claim)
    requires RowsOk(db, nextLease, clock) && InPublicationOrder(db.deliveries, db.attempts) && NumberingOk(db.deliveries, db.attempts)
    requires DeliveryRemembered(db, clock, c) && AttemptRemembered(db, c) && Unmarked(db, c)
    ensures PickedOk(db, clock, c) && InsertedOk(db, c)
  {
    var ds, d := db.deliveries, c.delivery;
    assert AtHead(ds, d);
    forall i | 0 <= i < |ds| && ds[i].endpoint == c.endpoint ensures ds[i].state != InFlight {
      assert i == d || ds[i].seqNo != ds[d].seqNo;
    }
    assert forall b :: 0 <= b < |db.attempts| && db.attempts[b].sent ==> db.attempts[b].number <= ds[db.attempts[b].delivery].attemptCount;
  }

  lemma LateMarkKeepsLease(cfg: Config, s: World, w: nat)
    requires Inv(cfg, s) && Remembers(s) && BeforeMark(s, w) && MarkFits(s, w)
    ensures LeaseInv(cfg, DoMarkInFlight(s, w))
  {
    hide LeaseInv, Remembers, AttemptInv, GateInv, ExpansionInv, EffectInv, PickedOk, InsertedOk;
    MarkedIsHead(cfg, s, w);
    if Owns(s.db, s.workers[w]) {
      MarkInFlightKeeps(cfg, s, w);
    } else {
      var c := s.workers[w].claim;
      RowsOf(cfg, s);
      MarkInFlightRows(s.db, c, s.nextLease, s.clock);
      hide RowsOk, Local;
      LateMoved(cfg, s, DoMarkInFlight(s, w), w);
    }
  }

  // ---------------------------------------------------------- the other invariants

  /** Nothing a claim statement writes matters to gates, expansion or effects. */
  ghost predicate OnlyAttemptsMove(s: World, s': World) {
    && SameQueues(s.db.deliveries, s'.db.deliveries)
    && (forall i :: 0 <= i < |s.db.deliveries| ==>
          s'.db.deliveries[i].state == s.db.deliveries[i].state
          || (s'.db.deliveries[i].state != Failed && s'.db.deliveries[i].state != Succeeded && s.db.deliveries[i].state != Failed))
    && |s'.db.attempts| >= |s.db.attempts| && (forall a :: 0 <= a < |s.db.attempts| ==> s'.db.attempts[a].delivery == s.db.attempts[a].delivery)
    && s'.db == s.db.(deliveries := s'.db.deliveries, attempts := s'.db.attempts)
    && s'.expanders == s.expanders && s'.replayers == s.replayers && s'.receivers == s.receivers && s'.replies == s.replies
    && (forall v :: v in s'.workers && RepliedSuccess(s'.workers[v]) ==> v in s.workers && s.workers[v] == s'.workers[v])
  }

  lemma RestKept(s: World, s': World)
    requires GateInv(s.db) && ExpansionInv(s) && EffectInv(s) && OnlyAttemptsMove(s, s')
    ensures GateInv(s'.db) && ExpansionInv(s') && EffectInv(s')
  {
    assert forall i :: 0 <= i < |s.db.deliveries| ==> SameStatic(s.db.deliveries[i], s'.db.deliveries[i]);
    EffectFrame(s, s');
    GateFrame(s.db, s'.db);
    hide GateInv, EffectInv, ExpansionInv;
    ExpansionFrame(s, s');
  }

  lemma OnlyAttemptsMoved(s: World, w: nat, st: WorkerStep)
    requires Before(s, w, st)
    requires st.MarkRow? ==> s.db.deliveries[s.workers[w].claim.delivery].state == Pending
    ensures OnlyAttemptsMove(s, Executed(s, w, st))
  {
    if st.RequeueRow? {
      assert forall i :: 0 <= i < |s.db.deliveries| ==> DoRequeue(s, w).db.deliveries[i] == Requeued(s.db.deliveries[i], s.workers[w].claim.endpoint);
    }
  }

  lemma ExecutedGrows(s: World, w: nat, st: WorkerStep)
    requires Before(s, w, st)
    requires st.MarkRow? ==> s.db.deliveries[s.workers[w].claim.delivery].state == Pending && Unmarked(s.db, s.workers[w].claim)
    ensures Grows(s.db, Executed(s, w, st).db)
  {
  }

  // ----------------------------------------------------------- the conditions suffice

  /** What a statement that fits knows of its rows. */
  lemma FittingRows(cfg: Config, s: World, w: nat, st: WorkerStep)
    requires Inv(cfg, s) && Remembers(s) && Before(s, w, st) && Fits(s, w, st)
    ensures st.InsertRow? ==> AtHead(s.db.deliveries, s.workers[w].claim.delivery) && DeliveryRemembered(s.db, s.clock, s.workers[w].claim)
    ensures st.MarkRow? ==> PickedOk(s.db, s.clock, s.workers[w].claim) && InsertedOk(s.db, s.workers[w].claim)
  {
    hide LeaseInv, AttemptInv, GateInv, ExpansionInv, EffectInv;
    if st.InsertRow? { PickedOf(s, w); }
    if st.MarkRow? { hide Remembers; MarkedIsHead(cfg, s, w); }
  }

  lemma FitsKeepsLease(cfg: Config, s: World, w: nat, st: WorkerStep)
    requires Inv(cfg, s) && Remembers(s) && Before(s, w, st) && Fits(s, w, st)
    ensures LeaseInv(cfg, Executed(s, w, st))
  {
    hide LeaseInv, AttemptInv, GateInv, ExpansionInv, EffectInv, Remembers, CloseFits, RequeueFits, InsertFits, MarkFits, PickedOk, InsertedOk;
    FittingRows(cfg, s, w, st);
    match st
    case CloseOrphanRows => LateCloseKeepsLease(cfg, s, w);
    case RequeueRow => LateRequeueKeepsLease(cfg, s, w);
    case InsertRow => LateInsertKeepsLease(cfg, s, w);
    case MarkRow => LateMarkKeepsLease(cfg, s, w);
  }

  lemma FitsKeepsAttempts(cfg: Config, s: World, w: nat, st: WorkerStep)
    requires Inv(cfg, s) && Remembers(s) && Before(s, w, st) && Fits(s, w, st)
    ensures AttemptInv(cfg, Executed(s, w, st).db)
  {
    FittingRows(cfg, s, w, st);
    hide LeaseInv, AttemptInv, GateInv, ExpansionInv, EffectInv, Remembers, CloseFits, AtHead, InsertedOk, NoneInFlight;
    match st
    case CloseOrphanRows => CloseOrphansKeepsAttempts(cfg, s.db, s.workers[w].claim.endpoint);
    case RequeueRow => RequeueKeepsAttempts(cfg, s.db, s.workers[w].claim.endpoint);
    case InsertRow => InsertKeepsAttempts(cfg, s.db, s.workers[w].claim.delivery, s.workers[w].claim.number);
    case MarkRow => MarkKeepsAttempts(cfg, s.db, s.workers[w].claim);
  }

  lemma FitsKeepsRest(cfg: Config, s: World, w: nat, st: WorkerStep)
    requires Inv(cfg, s) && Remembers(s) && Before(s, w, st) && Fits(s, w, st)
    ensures var s' := Executed(s, w, st); GateInv(s'.db) && ExpansionInv(s') && EffectInv(s') && Grows(s.db, s'.db)
  {
    hide LeaseInv, AttemptInv, GateInv, ExpansionInv, EffectInv, Remembers, OnlyAttemptsMove, Grows, Executed;
    FittingMark(cfg, s, w, st);
    hide Fits;
    OnlyAttemptsMoved(s, w, st);
    RestKept(s, Executed(s, w, st));
    ExecutedGrows(s, w, st);
  }

  lemma FittingMark(cfg: Config, s: World, w: nat, st: WorkerStep)
    requires Inv(cfg, s) && Remembers(s) && Before(s, w, st) && Fits(s, w, st)
    ensures st.MarkRow? ==> s.db.deliveries[s.workers[w].claim.delivery].state == Pending && Unmarked(s.db, s.workers[w].claim)
  {
    hide LeaseInv, AttemptInv, GateInv, ExpansionInv, EffectInv, Remembers, AttemptRemembered;
    if st.MarkRow? { RowOfClaim(s, w); }
  }

  lemma FitsRecordsHeads(cfg: Config, s: World, w: nat, st: WorkerStep)
    requires Inv(cfg, s) && Remembers(s) && Before(s, w, st) && Fits(s, w, st)
    ensures RecordsHeads(s, Executed(s, w, st))
  {
    hide Inv, Remembers, CloseFits, RequeueFits, MarkFits, PickedOk, InsertedOk, AtHead, RecordsHeads;
    FittingRows(cfg, s, w, st);
    if st.InsertRow? { RecordsOne(s, w); } else { RecordsNone(s, w, st); }
  }

  lemma RecordsNone(s: World, w: nat, st: WorkerStep)
    requires Before(s, w, st) && !st.InsertRow?
    ensures RecordsHeads(s, Executed(s, w, st))
  {
  }

  lemma RecordsOne(s: World, w: nat)
    requires InPhase(s, w, Picked) && InsertFits(s, w) && AtHead(s.db.deliveries, s.workers[w].claim.delivery)
    requires DeliveryRemembered(s.db, s.clock, s.workers[w].claim)
    ensures RecordsHeads(s, DoInsertAttempt(s, w))
  {
    hide AtHead;
  }

  lemma FitsKeeps(cfg: Config, s: World, w: nat, st: WorkerStep)
    requires Inv(cfg, s) && Remembers(s) && Before(s, w, st) && Fits(s, w, st)
    ensures Kept(cfg, s, Executed(s, w, st))
  {
    hide LeaseInv, AttemptInv, GateInv, ExpansionInv, EffectInv, Remembers, Fits, Grows, RecordsHeads, Executed, Before;
    FitsKeepsLease(cfg, s, w, st);
    FitsKeepsAttempts(cfg, s, w, st);
    FitsKeepsRest(cfg, s, w, st);
    FitsRecordsHeads(cfg, s, w, st);
  }

  lemma FitsRemembers(cfg: Config, s: World, w: nat, st: WorkerStep)
    requires Remembers(s) && Before(s, w, st) && Fits(s, w, st)
    ensures Remembers(Executed(s, w, st))
  {
    hide Remembers, Quiet, CloseFits, RequeueFits;
    match st
    case CloseOrphanRows => ReclaimIsQuiet(s, w); QuietRemembers(s, DoCloseOrphans(s, w));
    case RequeueRow => ReclaimIsQuiet(s, w); QuietRemembers(s, DoRequeue(s, w));
    case InsertRow => InsertRemembers(s, w);
    case MarkRow => MarkRemembers(s, w);
  }

  // --------------------------------------------------------- the conditions are needed

  /** A holder past its mark has an open attempt, which a reclaim would close. */
  lemma CloseMustFit(cfg: Config, s: World, w: nat)
    requires LeaseInv(cfg, s) && InPhase(s, w, Served) && LeaseInv(cfg, DoCloseOrphans(s, w))
    ensures CloseFits(s, w)
  {
    var e, s' := s.workers[w].claim.endpoint, DoCloseOrphans(s, w);
    forall v | Holds(s, v, e) ensures s.workers[v].Claiming? {
      HolderKnows(cfg, s, v, e);
      if v != w {
        assert s'.workers[v] == s.workers[v] && Holds(s', v, e);
        HolderKnows(cfg, s', v, e);
        hide LeaseInv, WorkerOk;
        if !s.workers[v].Claiming? {
          ClosesOrphan(s.db, s.workers[v].claim);
          assert false;
        }
      }
    }
  }

  lemma ClosesOrphan(db: DB, c: Claim)
    requires SendingOk(db, c)
    ensures !SendingOk(CloseOrphans(db, c.endpoint), c)
  {
    assert OrphanOf(db, db.attempts[c.attempt], c.endpoint);
  }

  lemma RequeueMustFit(cfg: Config, s: World, w: nat)
    requires OpenOk(s.db.deliveries, s.db.attempts) && InPhase(s, w, Closing) && OpenOk(DoRequeue(s, w).db.deliveries, s.db.attempts)
    ensures RequeueFits(s, w)
  {
    var e, s' := s.workers[w].claim.endpoint, DoRequeue(s, w);
    forall a | 0 <= a < |s.db.attempts| && s.db.attempts[a].sent ensures !OrphanOf(s.db, s.db.attempts[a], e) {
      var d := s.db.attempts[a].delivery;
      assert s'.db.deliveries[d] == Requeued(s.db.deliveries[d], e);
    }
  }

  lemma InsertMustFit(s: World, w: nat)
    requires InPhase(s, w, Picked) && DeliveryRemembered(s.db, s.clock, s.workers[w].claim) && RecordsHeads(s, DoInsertAttempt(s, w))
    ensures InsertFits(s, w)
  {
    var s', c := DoInsertAttempt(s, w), s.workers[w].claim;
    assert s'.db.attempts[|s.db.attempts|] == Attempt(c.delivery, c.number, Open, false);
  }

  lemma {:induction false} SentCountMark(at: seq<Attempt>, a: nat)
    requires a < |at| && !at[a].sent
    ensures |SentNumbers(at[a := at[a].(sent := true)], at[a].delivery)| == |SentNumbers(at, at[a].delivery)| + 1
  {
    var n := |at| - 1;
    var at' := at[a := at[a].(sent := true)];
    if a == n {
      assert at'[..n] == at[..n];
    } else {
      SentCountMark(at[..n], a);
      assert at'[..n] == at[..n][a := at[a].(sent := true)];
    }
  }

  /** A stale number breaks the numbering. */
  lemma MarkNeedsNumber(db: DB, c: Claim)
    requires c.delivery < |db.deliveries| && c.attempt < |db.attempts| && !db.attempts[c.attempt].sent && db.attempts[c.attempt].delivery == c.delivery
    requires NumberingOk(db.deliveries, db.attempts)
    requires var db' := MarkInFlight(db, c.delivery, c.number, c.attempt); NumberingOk(db'.deliveries, db'.attempts)
    ensures Unmarked(db, c)
  {
    var db' := MarkInFlight(db, c.delivery, c.number, c.attempt);
    SentCountMark(db.attempts, c.attempt);
    assert SentNumbers(db.attempts, c.delivery) == UpTo(db.deliveries[c.delivery].attemptCount);
    assert SentNumbers(db'.attempts, c.delivery) == UpTo(db'.deliveries[c.delivery].attemptCount);
    hide SentNumbers;
  }

  /** A holder that has reclaimed already, or has nothing to reclaim, does not expect a delivery in flight. */
  lemma MarkNeedsReclaim(cfg: Config, s: World, w: nat, v: nat)
    requires LeaseInv(cfg, s) && BeforeMark(s, w) && LeaseInv(cfg, DoMarkInFlight(s, w))
    requires DeliveryRemembered(s.db, s.clock, s.workers[w].claim) && AttemptRemembered(s.db, s.workers[w].claim) && Unmarked(s.db, s.workers[w].claim)
    requires v != w && Holds(s, v, s.workers[w].claim.endpoint)
    ensures WillReclaim(s.workers[v])
  {
    var c, k, s' := s.workers[w].claim, s.workers[v], DoMarkInFlight(s, w);
    HolderKnows(cfg, s, v, c.endpoint);
    assert s'.workers[v] == k && Holds(s', v, c.endpoint);
    HolderKnows(cfg, s', v, c.endpoint);
    RowsOf(cfg, s');
    hide LeaseInv, WorkerOk, RowsOk;
    MarkedInFlight(s, w);
    if !k.Claiming? {
      OneInFlight(s'.db, s'.nextLease, s'.clock, k.claim.delivery, c.delivery);
    } else if k.phase == Closing {
      assert OrphanOf(s'.db, s'.db.attempts[c.attempt], c.endpoint);
    }
  }

  lemma MarkedInFlight(s: World, w: nat)
    requires BeforeMark(s, w) && DeliveryRemembered(s.db, s.clock, s.workers[w].claim) && AttemptRemembered(s.db, s.workers[w].claim)
    ensures var c, s' := s.workers[w].claim, DoMarkInFlight(s, w);
            && s'.db.deliveries[c.delivery].state == InFlight && s'.db.deliveries[c.delivery].endpoint == c.endpoint
            && !NoneInFlight(s'.db.deliveries, c.endpoint)
            && s'.db.attempts[c.attempt].sent && s'.db.attempts[c.attempt].outcome == s.db.attempts[c.attempt].outcome && s'.db.attempts[c.attempt].delivery == c.delivery
  {
    assert DoMarkInFlight(s, w).db.deliveries[s.workers[w].claim.delivery].state == InFlight;
  }

  lemma MarkNeedsBusy(cfg: Config, s: World, w: nat)
    requires LeaseInv(cfg, s) && BeforeMark(s, w) && LeaseInv(cfg, DoMarkInFlight(s, w)) && DeliveryRemembered(s.db, s.clock, s.workers[w].claim)
    ensures var e := s.workers[w].claim.endpoint; e < |s.db.endpoints| && s.db.endpoints[e].busy
  {
    var s' := DoMarkInFlight(s, w);
    RowsOf(cfg, s');
    assert s'.db.deliveries[s.workers[w].claim.delivery].state == InFlight;
    hide LeaseInv, QueueOrder, QueueShape;
  }

  lemma MarkMustFit(cfg: Config, s: World, w: nat)
    requires Inv(cfg, s) && Remembers(s) && BeforeMark(s, w) && Inv(cfg, DoMarkInFlight(s, w))
    ensures MarkFits(s, w)
  {
    hide Remembers, LeaseInv, GateInv, ExpansionInv, EffectInv, UnsentOk, OpenOk, WinsOk, AllAccounted, InPublicationOrder, NumberingOk, DeliveryRemembered, WillReclaim;
    var c := s.workers[w].claim;
    RowOfClaim(s, w);
    MarkNeedsNumber(s.db, c);
    MarkNeedsBusy(cfg, s, w);
    forall v | v != w && Holds(s, v, c.endpoint) ensures WillReclaim(s.workers[v]) {
      MarkNeedsReclaim(cfg, s, w, v);
    }
  }

  lemma MustFit(cfg: Config, s: World, w: nat, st: WorkerStep)
    requires Inv(cfg, s) && Remembers(s) && Before(s, w, st) && Kept(cfg, s, Executed(s, w, st))
    ensures Fits(s, w, st)
  {
    hide Remembers, LeaseInv, GateInv, ExpansionInv, EffectInv, NumberingOk, UnsentOk, OpenOk, WinsOk, AllAccounted, InPublicationOrder, Grows, RecordsHeads,
      CloseFits, RequeueFits, InsertFits, MarkFits;
    match st
    case CloseOrphanRows => CloseMustFit(cfg, s, w);
    case RequeueRow => RequeueMustFit(cfg, s, w);
    case InsertRow => PickedOf(s, w); InsertMustFit(s, w);
    case MarkRow => MarkMustFit(cfg, s, w);
  }

  // ------------------------------------------------------------------- whole runs

  /** A step of the service as it is, or one of the four statements whenever it fits. */
  datatype LateStep = OnTime(step: Step) | Whenever(w: nat, work: WorkerStep)

  ghost predicate LateEnabled(cfg: Config, s: World, st: LateStep) {
    match st
    case OnTime(step) => Enabled(cfg, s, step)
    case Whenever(w, work) => Before(s, w, work) && Fits(s, w, work)
  }

  ghost function LateApply(cfg: Config, s: World, st: LateStep): World
    requires LateEnabled(cfg, s, st)
  {
    match st
    case OnTime(step) => Apply(cfg, s, step)
    case Whenever(w, work) => Executed(s, w, work)
  }

  ghost predicate IsLateRun(cfg: Config, s: World, steps: seq<LateStep>)
    decreases |steps|
  {
    steps == [] || (LateEnabled(cfg, s, steps[0]) && IsLateRun(cfg, LateApply(cfg, s, steps[0]), steps[1..]))
  }

  ghost function AfterLate(cfg: Config, s: World, steps: seq<LateStep>): World
    requires IsLateRun(cfg, s, steps)
    decreases |steps|
  {
    if steps == [] then s else AfterLate(cfg, LateApply(cfg, s, steps[0]), steps[1..])
  }

  lemma LateStepKeeps(cfg: Config, s: World, st: LateStep)
    requires Inv(cfg, s) && Remembers(s) && LateEnabled(cfg, s, st)
    ensures var s' := LateApply(cfg, s, st); Inv(cfg, s') && Remembers(s') && Grows(s.db, s'.db)
  {
    hide LeaseInv, AttemptInv, GateInv, ExpansionInv, EffectInv, Remembers, Enabled, Apply, Before, Fits, Executed, Grows, RecordsHeads;
    match st
    case OnTime(step) =>
      StepKeepsInv(cfg, s, step);
      StepRemembers(cfg, s, step);
      StepGrows(cfg, s, step);
    case Whenever(w, work) =>
      FitsKeeps(cfg, s, w, work);
      FitsRemembers(cfg, s, w, work);
  }

  /** However many claim phases outlive their leases: as long as each of their statements fits when it is
      executed, every state keeps the invariant, and nothing settled is undone. */
  lemma {:induction false} LateRunKeeps(cfg: Config, s: World, steps: seq<LateStep>)
    requires Inv(cfg, s) && Remembers(s) && IsLateRun(cfg, s, steps)
    ensures var s' := AfterLate(cfg, s, steps); Inv(cfg, s') && Remembers(s') && Grows(s.db, s'.db)
    decreases |steps|
  {
    hide Inv, Remembers, LateEnabled, LateApply, Grows;
    if steps == [] {
      GrowsReflexive(s.db);
    } else {
      LateStepKeeps(cfg, s, steps[0]);
      LateRunKeeps(cfg, LateApply(cfg, s, steps[0]), steps[1..]);
      GrowsTransitive(s.db, LateApply(cfg, s, steps[0]).db, AfterLate(cfg, s, steps).db);
    }
  }

  /** Reachable, with claim statements executed whenever they fit. */
  ghost predicate LateReachable(cfg: Config, s: World) {
    exists s0: World, steps: seq<LateStep> :: Init(s0) && IsLateRun(cfg, s0, steps) && AfterLate(cfg, s0, steps) == s
  }

  lemma LateReachableInv(cfg: Config, s: World)
    requires LateReachable(cfg, s)
    ensures Inv(cfg, s) && Remembers(s)
  {
    hide Inv, Init, IsLateRun, AfterLate, Remembers, Grows;
    var s0: World, steps: seq<LateStep> :| Init(s0) && IsLateRun(cfg, s0, steps) && AfterLate(cfg, s0, steps) == s;
    InitInv(cfg, s0);
    NobodyPicked(s0);
    LateRunKeeps(cfg, s0, steps);
  }

  function AllOnTime(steps: seq<Step>): (r: seq<LateStep>)
    ensures |r| == |steps|
  {
    seq(|steps|, i requires 0 <= i < |steps| => OnTime(steps[i]))
  }

  lemma {:induction false} OnTimeIsLate(cfg: Config, s: World, steps: seq<Step>)
    requires IsRun(cfg, s, steps)
    ensures IsLateRun(cfg, s, AllOnTime(steps)) && AfterLate(cfg, s, AllOnTime(steps)) == After(cfg, s, steps)
    decreases |steps|
  {
    hide Enabled, Apply;
    if steps != [] {
      OnTimeIsLate(cfg, Apply(cfg, s, steps[0]), steps[1..]);
      assert AllOnTime(steps)[1..] == AllOnTime(steps[1..]);
    }
  }

  lemma ReachableIsLate(cfg: Config, s: World)
    requires Reachable(cfg, s)
    ensures LateReachable(cfg, s)
  {
    hide Init, IsRun, After, IsLateRun, AfterLate;
    var s0: World, steps: seq<Step> :| Init(s0) && IsRun(cfg, s0, steps) && After(cfg, s0, steps) == s;
    OnTimeIsLate(cfg, s0, steps);
  }

  // --------------------------------------------------------------- the main results

  /** In every such state, and for each of the four statements, whoever executes it and however late:
      it keeps what every step of the service guarantees if and only if it fits. */
  lemma KeptIff(cfg: Config, s: World, w: nat, st: WorkerStep)
    requires LateReachable(cfg, s) && Before(s, w, st)
    ensures Kept(cfg, s, Executed(s, w, st)) <==> Fits(s, w, st)
  {
    hide Inv, Remembers, Kept, Fits, Before, Executed, LateReachable;
    LateReachableInv(cfg, s);
    if Fits(s, w, st) { FitsKeeps(cfg, s, w, st); }
    if Kept(cfg, s, Executed(s, w, st)) { MustFit(cfg, s, w, st); }
  }

  /** A worker that still holds its lease fits, however late: so does every claim phase within its time. */
  lemma HolderFits(cfg: Config, s: World, w: nat, st: WorkerStep)
    requires LateReachable(cfg, s) && Before(s, w, st) && (InTime(cfg, s, w) || Owns(s.db, s.workers[w]))
    ensures Fits(s, w, st)
  {
    hide LateReachable, Inv, Remembers, CloseFits, RequeueFits, InsertFits, MarkFits;
    LateReachableInv(cfg, s);
    hide AttemptInv, GateInv, ExpansionInv, EffectInv, LeaseInv;
    StillHolds(cfg, s, w);
    match st
    case CloseOrphanRows => HolderMayClose(cfg, s, w);
    case RequeueRow => HolderMayRequeue(cfg, s, w);
    case InsertRow => HolderMayInsert(cfg, s, w);
    case MarkRow => HolderMayMark(cfg, s, w);
  }

  lemma StillHolds(cfg: Config, s: World, w: nat)
    requires Inv(cfg, s) && w in s.workers && s.workers[w].Claiming? && (InTime(cfg, s, w) || Owns(s.db, s.workers[w]))
    ensures LeaseInv(cfg, s) && GateInv(s.db) && Owns(s.db, s.workers[w])
  {
    hide LeaseInv, AttemptInv, GateInv, ExpansionInv, EffectInv;
    if InTime(cfg, s, w) { InTimeOwns(cfg, s, w); }
  }

  lemma HolderMayClose(cfg: Config, s: World, w: nat)
    requires LeaseInv(cfg, s) && InPhase(s, w, Served) && Owns(s.db, s.workers[w])
    ensures CloseFits(s, w)
  {
    hide LeaseInv;
    forall v | Holds(s, v, s.workers[w].claim.endpoint) ensures v == w { OwnerIsAlone(cfg, s, w, v, s.workers[w].claim.endpoint); }
  }

  lemma HolderMayRequeue(cfg: Config, s: World, w: nat)
    requires LeaseInv(cfg, s) && InPhase(s, w, Closing) && Owns(s.db, s.workers[w])
    ensures RequeueFits(s, w)
  {
    OwnerKnows(cfg, s, w);
    hide LeaseInv, WorkerOk, RowsOk, OrphansClosed;
  }

  lemma HolderMayInsert(cfg: Config, s: World, w: nat)
    requires LeaseInv(cfg, s) && GateInv(s.db) && InPhase(s, w, Picked) && Owns(s.db, s.workers[w])
    ensures InsertFits(s, w)
  {
    OwnerKnows(cfg, s, w);
    OpenWhileHeld(cfg, s, w);
    hide LeaseInv, GateInv, WorkerOk, RowsOk, NoneInFlight;
  }

  lemma HolderMayMark(cfg: Config, s: World, w: nat)
    requires LeaseInv(cfg, s) && GateInv(s.db) && BeforeMark(s, w) && Owns(s.db, s.workers[w])
    ensures MarkFits(s, w)
  {
    OwnerKnows(cfg, s, w);
    OpenWhileHeld(cfg, s, w);
    hide LeaseInv, GateInv, WorkerOk, RowsOk, NoneInFlight, AtHead, InsertedOk;
    forall v | Holds(s, v, s.workers[w].claim.endpoint) ensures v == w { OwnerIsAlone(cfg, s, w, v, s.workers[w].claim.endpoint); }
  }

  lemma OpenWhileHeld(cfg: Config, s: World, w: nat)
    requires LeaseInv(cfg, s) && GateInv(s.db) && w in s.workers && s.workers[w].Claiming? && Owns(s.db, s.workers[w])
    ensures var e := s.workers[w].claim.endpoint; e < |s.db.endpoints| && s.db.endpoints[e].busy && !s.db.endpoints[e].gated
  {
    OwnerKnows(cfg, s, w);
    hide LeaseInv, WorkerOk, PhaseOk;
    assert LeaseColumns(s.db.endpoints[s.workers[w].claim.endpoint], s.nextLease, s.clock);
  }

  // -------------------------------------------------------- the insert by itself

  /** Of the endpoint's deliveries behind `d`, none was attempted yet. */
  ghost predicate NoneBehindAttempted(db: DB, d: nat)
    requires d < |db.deliveries|
  {
    forall a :: 0 <= a < |db.attempts| && db.attempts[a].delivery < |db.deliveries| && db.deliveries[db.attempts[a].delivery].endpoint == db.deliveries[d].endpoint ==>
      db.deliveries[db.attempts[a].delivery].seqNo <= db.deliveries[d].seqNo
  }

  lemma OrderIff(ds: seq<Delivery>, at: seq<Attempt>, a: Attempt)
    requires InPublicationOrder(ds, at) && a.delivery < |ds| && forall b :: 0 <= b < |at| ==> at[b].delivery < |ds|
    ensures InPublicationOrder(ds, at + [a])
            <==> AllBeforeResolved(ds, a.delivery)
                 && forall b :: 0 <= b < |at| && ds[at[b].delivery].endpoint == ds[a.delivery].endpoint ==> ds[at[b].delivery].seqNo <= ds[a.delivery].seqNo
  {
    var at' := at + [a];
    assert at'[|at|] == a;
    assert forall b :: 0 <= b < |at| ==> at'[b] == at[b];
  }

  lemma AttemptsRefer(db: DB)
    requires OpenOk(db.deliveries, db.attempts)
    ensures forall a :: 0 <= a < |db.attempts| ==> db.attempts[a].delivery < |db.deliveries|
  {
  }

  lemma InsertKeepsAllButOrder(cfg: Config, db: DB, clock: Time, c: Claim)
    requires AttemptInv(cfg, db) && DeliveryRemembered(db, clock, c)
    ensures var at' := InsertAttempt(db, c.delivery, c.number).attempts;
            && NumberingOk(db.deliveries, at') && UnsentOk(db.deliveries, at') && OpenOk(db.deliveries, at') && WinsOk(db.deliveries, at')
  {
    hide NumberingOk, WinsOk, InPublicationOrder, AllAccounted;
    var a := Attempt(c.delivery, c.number, Open, false);
    InsertNumbers(db.deliveries, db.attempts, a);
    InsertWins(db.deliveries, db.attempts, a);
  }

  /** A late insert that comes too late for its delivery still keeps the invariant, if and only if
      everything before the delivery is resolved and nothing behind it was attempted. Then the row it
      leaves is one more that no mark may follow. */
  lemma InsertKeepsInvIff(cfg: Config, s: World, w: nat)
    requires LateReachable(cfg, s) && InPhase(s, w, Picked)
    ensures s.workers[w].claim.delivery < |s.db.deliveries|
    ensures Inv(cfg, DoInsertAttempt(s, w))
            <==> AllBeforeResolved(s.db.deliveries, s.workers[w].claim.delivery) && NoneBehindAttempted(s.db, s.workers[w].claim.delivery)
  {
    hide LateReachable, Remembers, LeaseInv, GateInv, ExpansionInv, EffectInv, NumberingOk, UnsentOk, OpenOk, WinsOk, InPublicationOrder, AllAccounted, OnlyAttemptsMove;
    LateReachableInv(cfg, s);
    PickedOf(s, w);
    var c := s.workers[w].claim;
    LateInsertKeepsLease(cfg, s, w);
    InsertKeepsAllButOrder(cfg, s.db, s.clock, c);
    OnlyAttemptsMoved(s, w, InsertRow);
    RestKept(s, DoInsertAttempt(s, w));
    AttemptsRefer(s.db);
    OrderIff(s.db.deliveries, s.db.attempts, Attempt(c.delivery, c.number, Open, false));
  }

  // --------------------------------------------------------- what goes wrong otherwise

  /** A mark on a free endpoint costs the order: the next claim takes what comes behind, and two
      deliveries of the endpoint are in flight at once. */
  lemma MarkOnFreeLosesOrder(cfg: Config, s: World, w: nat, cutoff: Time, now: Time, lease: nat)
    requires LateReachable(cfg, s) && BeforeMark(s, w) && s.workers[w].claim.endpoint < |s.db.endpoints|
    requires !s.db.endpoints[s.workers[w].claim.endpoint].busy && s.db.endpoints[s.workers[w].claim.endpoint].status == Active
    requires var behind := PendingHead(DoMarkInFlight(s, w).db, s.workers[w].claim.endpoint);
             behind.Some? && s.db.deliveries[behind.value].nextAttemptAt <= now
    ensures var c := s.workers[w].claim; var (db', claim) := TryClaim(DoMarkInFlight(s, w).db, Candidate(c.endpoint, false), cutoff, now, lease);
            && claim.Some? && claim.value.delivery != c.delivery && claim.value.delivery < |db'.deliveries| && c.delivery < |db'.deliveries|
            && db'.deliveries[c.delivery].endpoint == db'.deliveries[claim.value.delivery].endpoint == c.endpoint
            && db'.deliveries[c.delivery].state == InFlight && db'.deliveries[claim.value.delivery].state == InFlight
            && !QueueShape(db'.deliveries)
  {
    hide Remembers, LateReachable, LeaseInv, AttemptInv, GateInv, ExpansionInv, EffectInv, AttemptRemembered;
    LateReachableInv(cfg, s);
    RowOfClaim(s, w);
    QueuesOk(cfg, s);
    var c := s.workers[w].claim;
    TwoInFlight(DoMarkInFlight(s, w).db, c.endpoint, c.delivery, cutoff, now, lease);
  }

  lemma TwoInFlight(db: DB, e: nat, d: nat, cutoff: Time, now: Time, lease: nat)
    requires QueueOrder(db.deliveries) && e < |db.endpoints| && !db.endpoints[e].busy && db.endpoints[e].status == Active
    requires d < |db.deliveries| && db.deliveries[d].endpoint == e && db.deliveries[d].state == InFlight
    requires PendingHead(db, e).Some? && db.deliveries[PendingHead(db, e).value].nextAttemptAt <= now
    ensures var (db', claim) := TryClaim(db, Candidate(e, false), cutoff, now, lease);
            && claim == Some(Claim(e, lease, now, false, PendingHead(db, e).value, db.deliveries[PendingHead(db, e).value].attemptCount + 1, |db.attempts|))
            && |db'.deliveries| == |db.deliveries| && claim.value.delivery != d
            && db'.deliveries[d] == db.deliveries[d] && db'.deliveries[claim.value.delivery].endpoint == e
            && db'.deliveries[claim.value.delivery].state == InFlight && !QueueShape(db'.deliveries)
  {
    var h := PendingHead(db, e).value;
    hide Lowest;
    var db' := TryClaim(db, Candidate(e, false), cutoff, now, lease).0;
    assert db'.deliveries == db.deliveries[h := db.deliveries[h].(state := InFlight, attemptCount := db.deliveries[h].attemptCount + 1)];
    assert db.deliveries[h].seqNo < db.deliveries[d].seqNo || db.deliveries[d].seqNo < db.deliveries[h].seqNo;
  }
}
