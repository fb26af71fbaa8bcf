/** The invariant of the lease protocol: what holds of queues, leases and workers in every
    reachable state, and the proof that every step keeps it. */
module LeaseInvariant {
  import opened Tables
  import opened Protocol

  // --------------------------------------------------------------- the rows

  /** In queue order: resolved deliveries, then at most one in flight, then only pending ones. */
  ghost predicate QueueShape(ds: seq<Delivery>) {
    forall i, j :: 0 <= i < |ds| && 0 <= j < |ds| && ds[i].endpoint == ds[j].endpoint && ds[i].seqNo < ds[j].seqNo && ds[j].state != Pending ==>
      Terminal(ds[i].state)
  }

  ghost predicate QueueOrder(ds: seq<Delivery>) {
    forall i, j :: 0 <= i < j < |ds| && ds[i].endpoint == ds[j].endpoint ==> ds[i].seqNo < ds[j].seqNo
  }

  predicate LeaseColumns(ep: Endpoint, nextLease: nat, clock: Time) {
    && ep.busy == ep.busySince.Some? == ep.leaseId.Some?
    && (ep.busy ==> ep.leaseId.value < nextLease && ep.busySince.value <= clock)
  }

  ghost predicate RowsOk(db: DB, nextLease: nat, clock: Time) {
    && (forall i :: 0 <= i < |db.deliveries| ==> db.deliveries[i].endpoint < |db.endpoints| && db.deliveries[i].event < |db.events|)
    && (forall a :: 0 <= a < |db.attempts| ==> db.attempts[a].delivery < |db.deliveries|)
    && (forall e :: 0 <= e < |db.endpoints| ==> LeaseColumns(db.endpoints[e], nextLease, clock))
    && QueueOrder(db.deliveries)
    && QueueShape(db.deliveries)
    && (forall i :: 0 <= i < |db.deliveries| && db.deliveries[i].state == InFlight ==>
          db.endpoints[db.deliveries[i].endpoint].busy && db.deliveries[i].nextAttemptAt <= clock)
  }

  // ------------------------------------------------------------ the workers

  predicate Owns(db: DB, k: Worker) {
    !k.Trying? && HoldsLease(db, k.claim.endpoint, k.claim.lease)
  }

  ghost predicate NoneInFlight(ds: seq<Delivery>, e: nat) {
    forall i :: 0 <= i < |ds| && ds[i].endpoint == e ==> ds[i].state != InFlight
  }

  /** `d` is pending, and everything before it in its queue is resolved. */
  ghost predicate AtHead(ds: seq<Delivery>, d: nat) {
    && d < |ds| && ds[d].state == Pending
    && forall i :: 0 <= i < |ds| && ds[i].endpoint == ds[d].endpoint && ds[i].seqNo < ds[d].seqNo ==> Terminal(ds[i].state)
  }

  ghost predicate PickedOk(db: DB, clock: Time, c: Claim) {
    && NoneInFlight(db.deliveries, c.endpoint) && AtHead(db.deliveries, c.delivery)
    && db.deliveries[c.delivery].endpoint == c.endpoint
    && c.number == db.deliveries[c.delivery].attemptCount + 1 && db.deliveries[c.delivery].nextAttemptAt <= clock
  }

  ghost predicate InsertedOk(db: DB, c: Claim) {
    && c.attempt < |db.attempts| && db.attempts[c.attempt] == Attempt(c.delivery, c.number, Open, false)
    && forall b :: c.attempt < b < |db.attempts| && db.attempts[b].delivery == c.delivery ==> !db.attempts[b].sent
  }

  ghost predicate OrphansClosed(db: DB, e: nat) {
    forall a :: 0 <= a < |db.attempts| && db.attempts[a].sent ==> !OrphanOf(db, db.attempts[a], e)
  }

  predicate SendingOk(db: DB, c: Claim) {
    && c.delivery < |db.deliveries| && db.deliveries[c.delivery].endpoint == c.endpoint
    && db.deliveries[c.delivery].state == InFlight && db.deliveries[c.delivery].attemptCount == c.number
    && c.attempt < |db.attempts| && db.attempts[c.attempt] == Attempt(c.delivery, c.number, Open, true)
  }

  /** What a worker that still holds its lease knows. */
  ghost predicate PhaseOk(db: DB, clock: Time, k: Worker)
    requires !k.Trying?
  {
    if !k.Claiming? then SendingOk(db, k.claim) && (k.Replied? ==> db.deliveries[k.claim.delivery].nextAttemptAt <= k.at)
    else match k.phase
      case Leased => !k.claim.tookOver ==> NoneInFlight(db.deliveries, k.claim.endpoint)
      case Served => !k.claim.tookOver ==> NoneInFlight(db.deliveries, k.claim.endpoint)
      case Closing => OrphansClosed(db, k.claim.endpoint) && (!k.claim.tookOver ==> NoneInFlight(db.deliveries, k.claim.endpoint))
      case Clean => NoneInFlight(db.deliveries, k.claim.endpoint)
      case NotReady => NoneInFlight(db.deliveries, k.claim.endpoint)
      case Picked => PickedOk(db, clock, k.claim)
      case Inserted => PickedOk(db, clock, k.claim) && InsertedOk(db, k.claim)
  }

  /** A candidate the query saw idle is idle still, or was leased after the query's cutoff. */
  ghost predicate CandidatesOk(db: DB, cands: seq<Candidate>, cutoff: Time) {
    forall k :: 0 <= k < |cands| ==>
      && cands[k].endpoint < |db.endpoints|
      && (!cands[k].busy ==> !Stale(db.endpoints[cands[k].endpoint], cutoff))
  }

  /** References of a claim whose attempt row exists; they stay valid whoever holds the lease. */
  predicate ClaimRefs(db: DB, c: Claim) {
    && c.delivery < |db.deliveries| && db.deliveries[c.delivery].endpoint == c.endpoint
    && c.attempt < |db.attempts| && db.attempts[c.attempt].delivery == c.delivery && c.number >= 1
  }

  ghost predicate WorkerOk(cfg: Config, s: World, k: Worker) {
    if k.Trying? then k.cutoff <= s.clock - LeaseDuration(cfg) && CandidatesOk(s.db, k.cands, k.cutoff)
    else
      && k.claim.endpoint < |s.db.endpoints| && k.claim.lease < s.nextLease && k.claim.since <= s.clock
      && (if k.Claiming? then k.cutoff <= s.clock - LeaseDuration(cfg) && CandidatesOk(s.db, k.rest, k.cutoff) && (k.claim.tookOver ==> k.wasBusy)
          else ClaimRefs(s.db, k.claim))
      && (if Owns(s.db, k) then s.db.endpoints[k.claim.endpoint].busySince == Some(k.claim.since) && PhaseOk(s.db, s.clock, k)
          else s.clock > k.claim.since + LeaseDuration(cfg))
  }

  ghost predicate LeaseInv(cfg: Config, s: World) {
    && RowsOk(s.db, s.nextLease, s.clock)
    && (forall w :: w in s.workers ==> WorkerOk(cfg, s, s.workers[w]))
    && (forall v, w :: v in s.workers && w in s.workers && v != w && !s.workers[v].Trying? && !s.workers[w].Trying? ==>
          s.workers[v].claim.lease != s.workers[w].claim.lease)
  }

  // ------------------------------------------------------------- frame lemmas

  /** Everything the step changed belongs to endpoint `e`. */
  ghost predicate Local(db: DB, db': DB, e: nat) {
    && |db'.endpoints| == |db.endpoints| && |db'.deliveries| == |db.deliveries| && |db'.attempts| >= |db.attempts|
    && |db'.events| == |db.events|
    && (forall i :: 0 <= i < |db.endpoints| && i != e ==> db'.endpoints[i] == db.endpoints[i])
    && (forall i :: 0 <= i < |db.deliveries| ==>
          && db'.deliveries[i].endpoint == db.deliveries[i].endpoint
          && (db.deliveries[i].endpoint != e ==> db'.deliveries[i] == db.deliveries[i]))
    && (forall a :: 0 <= a < |db.attempts| ==> db'.attempts[a].delivery == db.attempts[a].delivery)
    && (forall a :: 0 <= a < |db.attempts| && db.attempts[a].delivery < |db.deliveries| && db.deliveries[db.attempts[a].delivery].endpoint != e ==>
          db'.attempts[a] == db.attempts[a])
    && (forall a :: |db.attempts| <= a < |db'.attempts| ==>
          db'.attempts[a].delivery < |db.deliveries| && db.deliveries[db'.attempts[a].delivery].endpoint == e)
  }

  /** A lease is only ever taken now, or kept as it was. */
  ghost predicate LeaseMoves(ep: Endpoint, ep': Endpoint, now: Time) {
    ep'.busySince == None || ep'.busySince == ep.busySince || ep'.busySince == Some(now)
  }

  lemma PhaseFrame(db: DB, db': DB, e: nat, clock: Time, k: Worker)
    requires Local(db, db', e) && !k.Trying? && k.claim.endpoint != e
    requires forall a :: 0 <= a < |db.attempts| ==> db.attempts[a].delivery < |db.deliveries|
    requires PhaseOk(db, clock, k)
    ensures PhaseOk(db', clock, k)
  {
    if k.Claiming? && k.phase == Closing {
      forall a | 0 <= a < |db'.attempts| && db'.attempts[a].sent
        ensures !OrphanOf(db', db'.attempts[a], k.claim.endpoint)
      {
        if a < |db.attempts| && OrphanOf(db', db'.attempts[a], k.claim.endpoint) {
          assert OrphanOf(db, db.attempts[a], k.claim.endpoint);
        }
      }
    }
  }

  /** A worker other than the one that moved: either its endpoint was not touched, or it no
      longer holds the lease and had lost it by time. */
  lemma OtherWorker(cfg: Config, s: World, s': World, e: nat, k: Worker)
    requires WorkerOk(cfg, s, k) && RowsOk(s.db, s.nextLease, s.clock)
    requires s'.clock == s.clock && s'.nextLease >= s.nextLease && Local(s.db, s'.db, e)
    requires e < |s.db.endpoints| && LeaseMoves(s.db.endpoints[e], s'.db.endpoints[e], s.clock)
    requires !k.Trying? && k.claim.endpoint == e ==>
               !Owns(s'.db, k) && (Owns(s.db, k) ==> s.clock > k.claim.since + LeaseDuration(cfg))
    ensures WorkerOk(cfg, s', k)
  {
    if !k.Trying? && k.claim.endpoint != e && Owns(s.db, k) {
      PhaseFrame(s.db, s'.db, e, s.clock, k);
    }
  }

  /** All workers of `s'` other than the mover `w`, when the mover holds (or held) the lease of `e`
      and nobody else can. */
  lemma OtherWorkers(cfg: Config, s: World, s': World, e: nat, w: nat)
    requires LeaseInv(cfg, s) && w in s.workers && !s.workers[w].Trying?
    requires e == s.workers[w].claim.endpoint && Owns(s.db, s.workers[w])
    requires s'.clock == s.clock && s'.nextLease >= s.nextLease && Local(s.db, s'.db, e)
    requires LeaseMoves(s.db.endpoints[e], s'.db.endpoints[e], s.clock)
    requires s'.db.endpoints[e].leaseId == None || s'.db.endpoints[e].leaseId == s.db.endpoints[e].leaseId
    ensures forall v :: v in s.workers && v != w ==> WorkerOk(cfg, s', s.workers[v])
  {
    forall v | v in s.workers && v != w
      ensures WorkerOk(cfg, s', s.workers[v])
    {
      OtherWorker(cfg, s, s', e, s.workers[v]);
    }
  }

  // ------------------------------------------------------------- assembling

  /** The owner of endpoint `e` moved: it changed rows of `e` only, and ends as `k` or is gone. */
  lemma OwnerMoved(cfg: Config, s: World, s': World, w: nat, e: nat)
    requires LeaseInv(cfg, s) && w in s.workers && !s.workers[w].Trying? && Owns(s.db, s.workers[w]) && e == s.workers[w].claim.endpoint
    requires s'.clock == s.clock && s'.nextLease == s.nextLease
    requires RowsOk(s'.db, s.nextLease, s.clock) && Local(s.db, s'.db, e) && LeaseMoves(s.db.endpoints[e], s'.db.endpoints[e], s.clock)
    requires s'.db.endpoints[e].leaseId == None || s'.db.endpoints[e].leaseId == s.db.endpoints[e].leaseId
    requires s'.workers == s.workers - {w}
             || (w in s'.workers && s'.workers == s.workers[w := s'.workers[w]] && WorkerOk(cfg, s', s'.workers[w])
                 && (s'.workers[w].Trying? || s'.workers[w].claim.lease == s.workers[w].claim.lease))
    ensures LeaseInv(cfg, s')
  {
    OtherWorkers(cfg, s, s', e, w);
    hide RowsOk, WorkerOk, Local;
  }

  /** A claim phase within its time still holds its lease, and finds things as it left them. */
  lemma InTimeOwns(cfg: Config, s: World, w: nat)
    requires LeaseInv(cfg, s) && w in s.workers && s.workers[w].Claiming? && InTime(cfg, s, w)
    ensures WorkerOk(cfg, s, s.workers[w]) && Owns(s.db, s.workers[w]) && PhaseOk(s.db, s.clock, s.workers[w])
    ensures RowsOk(s.db, s.nextLease, s.clock)
  {
    assert WorkerOk(cfg, s, s.workers[w]);
    hide RowsOk, CandidatesOk;
  }

  lemma RowsOf(cfg: Config, s: World)
    requires LeaseInv(cfg, s)
    ensures RowsOk(s.db, s.nextLease, s.clock)
  {
    hide RowsOk, WorkerOk;
  }

  lemma QueuesOk(cfg: Config, s: World)
    requires LeaseInv(cfg, s)
    ensures QueueOrder(s.db.deliveries) && QueueShape(s.db.deliveries)
  {
    hide QueueOrder, QueueShape, WorkerOk;
  }

  /** Whoever holds its lease finds things as it left them, late or not. */
  lemma OwnerKnows(cfg: Config, s: World, w: nat)
    requires LeaseInv(cfg, s) && w in s.workers && s.workers[w].Claiming? && Owns(s.db, s.workers[w])
    ensures WorkerOk(cfg, s, s.workers[w]) && PhaseOk(s.db, s.clock, s.workers[w])
    ensures RowsOk(s.db, s.nextLease, s.clock)
  {
    assert WorkerOk(cfg, s, s.workers[w]);
    hide RowsOk, CandidatesOk;
  }

  /** Steps that change nothing the lease protocol reads: tenants, events, new endpoints, status
      and secrets are free to change. */
  ghost predicate SameProtocolState(s: World, s': World) {
    && s'.db.deliveries == s.db.deliveries && s'.db.attempts == s.db.attempts && |s'.db.events| >= |s.db.events|
    && s'.clock == s.clock && s'.nextLease == s.nextLease
    && |s'.db.endpoints| >= |s.db.endpoints|
    && (forall e :: 0 <= e < |s.db.endpoints| ==>
          && s'.db.endpoints[e].busy == s.db.endpoints[e].busy && s'.db.endpoints[e].busySince == s.db.endpoints[e].busySince
          && s'.db.endpoints[e].leaseId == s.db.endpoints[e].leaseId)
    && (forall e :: |s.db.endpoints| <= e < |s'.db.endpoints| ==> !s'.db.endpoints[e].busy && s'.db.endpoints[e].busySince.None? && s'.db.endpoints[e].leaseId.None?)
  }

  lemma SameWorker(cfg: Config, s: World, s': World, k: Worker)
    requires SameProtocolState(s, s') && WorkerOk(cfg, s, k)
    ensures WorkerOk(cfg, s', k)
  {
    if !k.Trying? && Owns(s.db, k) && k.Claiming? && k.phase == Closing {
      forall a | 0 <= a < |s.db.attempts| && s.db.attempts[a].sent
        ensures !OrphanOf(s'.db, s'.db.attempts[a], k.claim.endpoint)
      {
        assert !OrphanOf(s.db, s.db.attempts[a], k.claim.endpoint);
      }
    }
  }

  lemma SameRows(s: World, s': World)
    requires RowsOk(s.db, s.nextLease, s.clock) && SameProtocolState(s, s')
    ensures RowsOk(s'.db, s.nextLease, s.clock)
  {
  }

  lemma SameStateKeeps(cfg: Config, s: World, s': World)
    requires LeaseInv(cfg, s) && SameProtocolState(s, s')
    requires forall w :: w in s'.workers ==> w in s.workers && s'.workers[w] == s.workers[w]
    ensures LeaseInv(cfg, s')
  {
    SameRows(s, s');
    forall w | w in s'.workers ensures WorkerOk(cfg, s', s'.workers[w]) {
      SameWorker(cfg, s, s', s.workers[w]);
    }
    hide RowsOk, WorkerOk, SameProtocolState;
  }

  /** One worker moved on without touching the protocol's rows. */
  lemma OneWorkerKeeps(cfg: Config, s: World, s': World, w: nat, k: Worker)
    requires LeaseInv(cfg, s) && SameProtocolState(s, s') && s'.workers == s.workers[w := k]
    requires WorkerOk(cfg, s', k)
    requires !k.Trying? ==> w in s.workers && !s.workers[w].Trying? && k.claim.lease == s.workers[w].claim.lease
    ensures LeaseInv(cfg, s')
  {
    SameRows(s, s');
    forall v | v in s'.workers ensures WorkerOk(cfg, s', s'.workers[v]) {
      if v != w { SameWorker(cfg, s, s', s.workers[v]); }
    }
    hide RowsOk, WorkerOk, SameProtocolState;
  }

  // ---------------------------------------------------------------- the steps

  lemma TickKeeps(cfg: Config, s: World, to: Time)
    requires LeaseInv(cfg, s) && s.clock <= to
    ensures LeaseInv(cfg, s.(clock := to))
  {
    forall w | w in s.workers ensures WorkerOk(cfg, s.(clock := to), s.workers[w]) {
    }
  }

  lemma SelectKeeps(cfg: Config, s: World, w: nat, cutoff: Time, cands: seq<Candidate>)
    requires LeaseInv(cfg, s) && CanSelect(cfg, s, w, cutoff, cands)
    ensures LeaseInv(cfg, Put(s, w, Trying(cands, cutoff)))
  {
    OneWorkerKeeps(cfg, s, Put(s, w, Trying(cands, cutoff)), w, Trying(cands, cutoff));
  }

  /** If the lease UPDATE wins a row that is busy, the query saw it busy: a row leased before the
      cutoff was leased before the query. */
  lemma TakeoverSeen(cfg: Config, s: World, w: nat)
    requires LeaseInv(cfg, s) && CanTakeLease(s, w) && WinsLease(s.db, s.workers[w].cands[0], s.workers[w].cutoff)
    ensures s.db.endpoints[s.workers[w].cands[0].endpoint].busy ==> s.workers[w].cands[0].busy
  {
    assert WorkerOk(cfg, s, s.workers[w]);
  }

  lemma TakeLeaseRows(db: DB, e: nat, now: Time, lease: nat)
    requires RowsOk(db, lease, now) && e < |db.endpoints|
    ensures RowsOk(TakeLease(db, e, now, lease), lease + 1, now) && Local(db, TakeLease(db, e, now, lease), e)
    ensures !db.endpoints[e].busy ==> NoneInFlight(db.deliveries, e)
  {
  }

  lemma TakeLeaseKeeps(cfg: Config, s: World, w: nat)
    requires LeaseInv(cfg, s) && CanTakeLease(s, w)
    ensures LeaseInv(cfg, DoTakeLease(s, w))
  {
    var s' := DoTakeLease(s, w);
    var k := s.workers[w];
    if WinsLease(s.db, k.cands[0], k.cutoff) {
      hide LeaseInv, DoTakeLease;
      WonLeaseKeeps(cfg, s, w);
    } else {
      assert WorkerOk(cfg, s, k);
      OneWorkerKeeps(cfg, s, s', w, s'.workers[w]);
    }
  }

  lemma WonLeaseKeeps(cfg: Config, s: World, w: nat)
    requires LeaseInv(cfg, s) && CanTakeLease(s, w) && WinsLease(s.db, s.workers[w].cands[0], s.workers[w].cutoff)
    ensures LeaseInv(cfg, DoTakeLease(s, w))
  {
    var s' := DoTakeLease(s, w);
    var k := s.workers[w];
    assert WorkerOk(cfg, s, k);
    var e := k.cands[0].endpoint;
    TakeoverSeen(cfg, s, w);
    TakeLeaseRows(s.db, e, s.clock, s.nextLease);
    assert WorkerOk(cfg, s', s'.workers[w]);
    forall v | v in s.workers && v != w ensures WorkerOk(cfg, s', s.workers[v]) {
      assert WorkerOk(cfg, s, s.workers[v]);
      OtherWorker(cfg, s, s', e, s.workers[v]);
    }
    forall v | v in s.workers && v != w && !s.workers[v].Trying? ensures s.workers[v].claim.lease < s.nextLease {
      assert WorkerOk(cfg, s, s.workers[v]);
    }
    hide RowsOk, WorkerOk, Local;
  }

  lemma StampKeeps(cfg: Config, s: World, w: nat)
    requires LeaseInv(cfg, s) && CanStamp(s, w)
    ensures LeaseInv(cfg, DoStamp(s, w))
  {
    assert WorkerOk(cfg, s, s.workers[w]);
    OneWorkerKeeps(cfg, s, DoStamp(s, w), w, DoStamp(s, w).workers[w]);
  }

  lemma CloseOrphansRows(db: DB, e: nat, nextLease: nat, clock: Time)
    requires RowsOk(db, nextLease, clock)
    ensures RowsOk(CloseOrphans(db, e), nextLease, clock) && Local(db, CloseOrphans(db, e), e) && OrphansClosed(CloseOrphans(db, e), e)
  {
  }

  lemma CloseOrphansKeeps(cfg: Config, s: World, w: nat)
    requires LeaseInv(cfg, s) && InPhase(s, w, Served) && Owns(s.db, s.workers[w])
    ensures LeaseInv(cfg, DoCloseOrphans(s, w))
  {
    var s' := DoCloseOrphans(s, w);
    var e := s.workers[w].claim.endpoint;
    OwnerKnows(cfg, s, w);
    CloseOrphansRows(s.db, e, s.nextLease, s.clock);
    hide RowsOk, LeaseInv, OrphansClosed, Local;
    assert WorkerOk(cfg, s', s'.workers[w]);
    OwnerMoved(cfg, s, s', w, e);
  }

  lemma RequeueRows(db: DB, e: nat, nextLease: nat, clock: Time)
    requires RowsOk(db, nextLease, clock)
    ensures RowsOk(RequeueInFlight(db, e), nextLease, clock) && Local(db, RequeueInFlight(db, e), e) && NoneInFlight(RequeueInFlight(db, e).deliveries, e)
  {
    var ds, ds' := db.deliveries, RequeueInFlight(db, e).deliveries;
    assert forall i :: 0 <= i < |ds| ==> ds'[i] == Requeued(ds[i], e);
  }

  lemma RequeueKeeps(cfg: Config, s: World, w: nat)
    requires LeaseInv(cfg, s) && InPhase(s, w, Closing) && Owns(s.db, s.workers[w])
    ensures LeaseInv(cfg, DoRequeue(s, w))
  {
    var s' := DoRequeue(s, w);
    var e := s.workers[w].claim.endpoint;
    OwnerKnows(cfg, s, w);
    RequeueRows(s.db, e, s.nextLease, s.clock);
    hide RowsOk, LeaseInv, OrphansClosed, Local, NoneInFlight;
    assert WorkerOk(cfg, s', s'.workers[w]);
    OwnerMoved(cfg, s, s', w, e);
  }

  /** The lowest pending delivery is the head of its queue, once nothing is in flight. */
  lemma PendingHeadIsHead(ds: seq<Delivery>, e: nat)
    requires QueueShape(ds) && NoneInFlight(ds, e)
    ensures var h := Lowest(ds, e, false); h.Some? ==> AtHead(ds, h.value) && ds[h.value].endpoint == e
  {
    var h := Lowest(ds, e, false);
    if h.Some? {
      forall i | 0 <= i < |ds| && ds[i].endpoint == e && ds[i].seqNo < ds[h.value].seqNo ensures Terminal(ds[i].state) {
        assert !Waits(ds[i], e, false);
      }
    }
  }

  lemma HeadExists(ds: seq<Delivery>, d: nat)
    requires AtHead(ds, d)
    ensures d < |ds| && ds[d].state == Pending
  {
  }

  lemma FetchHeadWorker(cfg: Config, s: World, w: nat)
    requires LeaseInv(cfg, s) && CanFetchHead(s, w)
    ensures WorkerOk(cfg, DoFetchHead(s, w), DoFetchHead(s, w).workers[w])
  {
    assert WorkerOk(cfg, s, s.workers[w]);
    if Owns(s.db, s.workers[w]) {
      PendingHeadIsHead(s.db.deliveries, s.workers[w].claim.endpoint);
    }
    hide LeaseInv, RowsOk, AtHead, NoneInFlight, CandidatesOk;
  }

  lemma FetchHeadKeeps(cfg: Config, s: World, w: nat)
    requires LeaseInv(cfg, s) && CanFetchHead(s, w)
    ensures LeaseInv(cfg, DoFetchHead(s, w))
  {
    FetchHeadWorker(cfg, s, w);
    hide LeaseInv, WorkerOk;
    OneWorkerKeeps(cfg, s, DoFetchHead(s, w), w, DoFetchHead(s, w).workers[w]);
  }

  lemma FreeLeaseRows(db: DB, e: nat, nextLease: nat, clock: Time)
    requires RowsOk(db, nextLease, clock) && e < |db.endpoints| && NoneInFlight(db.deliveries, e)
    ensures RowsOk(FreeLease(db, e), nextLease, clock) && Local(db, FreeLease(db, e), e)
  {
  }

  lemma ReleaseKeeps(cfg: Config, s: World, w: nat)
    requires LeaseInv(cfg, s) && CanRelease(s, w)
    ensures LeaseInv(cfg, DoRelease(s, w))
  {
    var s' := DoRelease(s, w);
    var k := s.workers[w];
    assert WorkerOk(cfg, s, k);
    assert WorkerOk(cfg, s', s'.workers[w]);
    if Owns(s.db, k) {
      FreeLeaseRows(s.db, k.claim.endpoint, s.nextLease, s.clock);
      hide RowsOk, WorkerOk, LeaseInv, Local;
      OwnerMoved(cfg, s, s', w, k.claim.endpoint);
    } else {
      OneWorkerKeeps(cfg, s, s', w, s'.workers[w]);
    }
  }

  lemma InsertAttemptRows(db: DB, d: nat, number: nat, nextLease: nat, clock: Time)
    requires RowsOk(db, nextLease, clock) && d < |db.deliveries|
    ensures RowsOk(InsertAttempt(db, d, number), nextLease, clock) && Local(db, InsertAttempt(db, d, number), db.deliveries[d].endpoint)
  {
  }

  lemma InsertAttemptKeeps(cfg: Config, s: World, w: nat)
    requires LeaseInv(cfg, s) && InPhase(s, w, Picked) && Owns(s.db, s.workers[w])
    ensures LeaseInv(cfg, DoInsertAttempt(s, w))
  {
    var s' := DoInsertAttempt(s, w);
    var c := s.workers[w].claim;
    OwnerKnows(cfg, s, w);
    InsertAttemptRows(s.db, c.delivery, c.number, s.nextLease, s.clock);
    assert PickedOk(s'.db, s.clock, s'.workers[w].claim) && InsertedOk(s'.db, s'.workers[w].claim);
    hide RowsOk, LeaseInv, Local, PickedOk, InsertedOk;
    assert WorkerOk(cfg, s', s'.workers[w]);
    OwnerMoved(cfg, s, s', w, c.endpoint);
  }

  lemma MarkInFlightRows(db: DB, c: Claim, nextLease: nat, clock: Time)
    requires RowsOk(db, nextLease, clock) && PickedOk(db, clock, c) && InsertedOk(db, c) && c.endpoint < |db.endpoints| && db.endpoints[c.endpoint].busy
    ensures var db' := MarkInFlight(db, c.delivery, c.number, c.attempt);
            RowsOk(db', nextLease, clock) && Local(db, db', c.endpoint) && SendingOk(db', c)
  {
    var ds, ds' := db.deliveries, MarkInFlight(db, c.delivery, c.number, c.attempt).deliveries;
    assert forall i :: 0 <= i < |ds| && i != c.delivery ==> ds'[i] == ds[i];
    assert QueueShape(ds') by {
      assert forall j :: 0 <= j < |ds| && ds[j].endpoint == c.endpoint && ds[c.delivery].seqNo < ds[j].seqNo ==> ds[j].state == Pending;
    }
  }

  lemma MarkInFlightKeeps(cfg: Config, s: World, w: nat)
    requires LeaseInv(cfg, s) && BeforeMark(s, w) && Owns(s.db, s.workers[w])
    ensures LeaseInv(cfg, DoMarkInFlight(s, w))
  {
    var s' := DoMarkInFlight(s, w);
    var c := s.workers[w].claim;
    OwnerKnows(cfg, s, w);
    assert s.db.endpoints[c.endpoint].busy;
    MarkInFlightRows(s.db, c, s.nextLease, s.clock);
    hide RowsOk, LeaseInv, Local, PickedOk, InsertedOk;
    assert WorkerOk(cfg, s', s'.workers[w]);
    OwnerMoved(cfg, s, s', w, c.endpoint);
  }

  lemma AnswerKeeps(cfg: Config, s: World, w: nat, reply: Reply)
    requires LeaseInv(cfg, s) && CanAnswer(s, w, reply)
    ensures LeaseInv(cfg, DoAnswer(s, w, reply))
  {
    assert WorkerOk(cfg, s, s.workers[w]);
    OneWorkerKeeps(cfg, s, DoAnswer(s, w, reply), w, Replied(s.workers[w].claim, reply, s.clock));
  }

  /** What a write-back under its lease leaves: one delivery row, one attempt row and one
      endpoint row differ, and the delivery is no longer in flight. */
  lemma WriteBackRowsChanged(db: DB, cfg: Config, c: Claim, reply: Reply, now: Time, delay: nat)
    requires SendingOk(db, c) && HoldsLease(db, c.endpoint, c.lease)
    ensures var db' := WriteBack(db, cfg, c, reply, now, delay).0;
            && db'.deliveries == db.deliveries[c.delivery := db'.deliveries[c.delivery]]
            && db'.deliveries[c.delivery].endpoint == c.endpoint && db'.deliveries[c.delivery].seqNo == db.deliveries[c.delivery].seqNo
            && db'.deliveries[c.delivery].event == db.deliveries[c.delivery].event && db'.deliveries[c.delivery].state != InFlight
            && db'.attempts == db.attempts[c.attempt := db.attempts[c.attempt].(outcome := Closed(reply))]
            && db'.endpoints == db.endpoints[c.endpoint := db'.endpoints[c.endpoint]]
            && !db'.endpoints[c.endpoint].busy && db'.endpoints[c.endpoint].busySince.None? && db'.endpoints[c.endpoint].leaseId.None?
            && db'.events == db.events
  {
  }

  /** Taking the only in-flight delivery of an endpoint out of flight, and freeing the endpoint. */
  lemma ResolveKeepsRows(db: DB, db': DB, d: nat, nextLease: nat, clock: Time)
    requires RowsOk(db, nextLease, clock) && d < |db.deliveries| && db.deliveries[d].state == InFlight
    requires |db'.deliveries| == |db.deliveries| && db'.deliveries == db.deliveries[d := db'.deliveries[d]]
    requires db'.deliveries[d].endpoint == db.deliveries[d].endpoint && db'.deliveries[d].seqNo == db.deliveries[d].seqNo
    requires db'.deliveries[d].event == db.deliveries[d].event && db'.deliveries[d].state != InFlight
    requires |db'.attempts| == |db.attempts| && forall a :: 0 <= a < |db.attempts| ==> db'.attempts[a].delivery == db.attempts[a].delivery
    requires |db'.endpoints| == |db.endpoints| && |db'.events| == |db.events|
    requires forall e :: 0 <= e < |db.endpoints| && e != db.deliveries[d].endpoint ==> db'.endpoints[e] == db.endpoints[e]
    requires LeaseColumns(db'.endpoints[db.deliveries[d].endpoint], nextLease, clock)
    ensures RowsOk(db', nextLease, clock)
  {
    forall i | 0 <= i < |db.deliveries| && i != d && db.deliveries[i].endpoint == db.deliveries[d].endpoint
      ensures db.deliveries[i].state != InFlight
    {
      if db.deliveries[i].state == InFlight { OneInFlight(db, nextLease, clock, i, d); }
    }
    assert forall i :: 0 <= i < |db.deliveries| && Terminal(db.deliveries[i].state) ==> Terminal(db'.deliveries[i].state);
  }

  /** The scalar subquery of the reclaim never sees two rows. */
  lemma OneInFlight(db: DB, nextLease: nat, clock: Time, i: nat, j: nat)
    requires RowsOk(db, nextLease, clock) && i < |db.deliveries| && j < |db.deliveries| && db.deliveries[i].endpoint == db.deliveries[j].endpoint
    requires db.deliveries[i].state == InFlight && db.deliveries[j].state == InFlight
    ensures i == j
  {
    assert db.deliveries[i].seqNo <= db.deliveries[j].seqNo && db.deliveries[j].seqNo <= db.deliveries[i].seqNo;
  }

  lemma WriteBackWorker(cfg: Config, s: World, w: nat, began: Time, delay: nat)
    requires LeaseInv(cfg, s) && CanWriteBack(cfg, s, w, began, delay)
    ensures ClaimRefs(s.db, s.workers[w].claim) && RowsOk(s.db, s.nextLease, s.clock)
    ensures Owns(s.db, s.workers[w]) ==> SendingOk(s.db, s.workers[w].claim) && s.db.endpoints[s.workers[w].claim.endpoint].busy
    ensures Owns(s.db, s.workers[w]) ==> s.db.deliveries[s.workers[w].claim.delivery].nextAttemptAt <= began
    ensures !Owns(s.db, s.workers[w]) ==> DoWriteBack(cfg, s, w, began, delay).db == s.db
  {
    assert WorkerOk(cfg, s, s.workers[w]);
  }

  /** Under its lease, the write-back resolves or requeues exactly the in-flight head. */
  lemma WriteBackKeeps(cfg: Config, s: World, w: nat, began: Time, delay: nat)
    requires LeaseInv(cfg, s) && CanWriteBack(cfg, s, w, began, delay)
    ensures LeaseInv(cfg, DoWriteBack(cfg, s, w, began, delay))
  {
    var s' := DoWriteBack(cfg, s, w, began, delay);
    var k := s.workers[w];
    WriteBackWorker(cfg, s, w, began, delay);
    if Owns(s.db, k) {
      WriteBackRowsChanged(s.db, cfg, k.claim, k.reply, began, delay);
      ResolveKeepsRows(s.db, s'.db, k.claim.delivery, s.nextLease, s.clock);
      hide RowsOk, LeaseInv, WriteBack;
      OwnerMoved(cfg, s, s', w, k.claim.endpoint);
    } else {
      SameStateKeeps(cfg, s, s');
    }
  }

  lemma AppendWorker(cfg: Config, s: World, s': World, rows: seq<Delivery>, k: Worker)
    requires RowsOk(s.db, s.nextLease, s.clock) && WorkerOk(cfg, s, k)
    requires s'.db.deliveries == s.db.deliveries + rows && CommitInOrder(s.db.deliveries, rows)
    requires forall k :: 0 <= k < |rows| ==> rows[k].state == Pending
    requires s'.db.endpoints == s.db.endpoints && s'.db.attempts == s.db.attempts
    requires s'.clock == s.clock && s'.nextLease == s.nextLease
    ensures WorkerOk(cfg, s', k)
  {
    var ds, ds' := s.db.deliveries, s'.db.deliveries;
    assert forall i :: 0 <= i < |ds| ==> ds'[i] == ds[i];
    assert forall i :: |ds| <= i < |ds'| ==> ds'[i] == rows[i - |ds|];
    if Owns(s.db, k) && k.Claiming? && k.phase == Closing {
      forall a | 0 <= a < |s.db.attempts| && s.db.attempts[a].sent
        ensures !OrphanOf(s'.db, s.db.attempts[a], k.claim.endpoint)
      {
        assert !OrphanOf(s.db, s.db.attempts[a], k.claim.endpoint);
      }
    }
  }

  lemma AppendRows(db: DB, db': DB, rows: seq<Delivery>, nextLease: nat, clock: Time)
    requires RowsOk(db, nextLease, clock) && db'.deliveries == db.deliveries + rows && CommitInOrder(db.deliveries, rows)
    requires forall k :: 0 <= k < |rows| ==> rows[k].state == Pending && rows[k].endpoint < |db.endpoints| && rows[k].event < |db.events|
    requires db'.endpoints == db.endpoints && db'.attempts == db.attempts && |db'.events| == |db.events|
    ensures RowsOk(db', nextLease, clock)
  {
    var ds, ds' := db.deliveries, db'.deliveries;
    assert forall i :: 0 <= i < |ds| ==> ds'[i] == ds[i];
    assert forall i :: |ds| <= i < |ds'| ==> ds'[i] == rows[i - |ds|];
  }

  /** The appended rows are pending and come last in their queues. */
  lemma AppendKeeps(cfg: Config, s: World, s': World, rows: seq<Delivery>)
    requires LeaseInv(cfg, s)
    requires s'.db.deliveries == s.db.deliveries + rows && CommitInOrder(s.db.deliveries, rows)
    requires forall k :: 0 <= k < |rows| ==> rows[k].state == Pending && rows[k].endpoint < |s.db.endpoints| && rows[k].event < |s.db.events|
    requires s'.db.endpoints == s.db.endpoints && s'.db.attempts == s.db.attempts && |s'.db.events| == |s.db.events|
    requires s'.clock == s.clock && s'.nextLease == s.nextLease && s'.workers == s.workers
    ensures LeaseInv(cfg, s')
  {
    AppendRows(s.db, s'.db, rows, s.nextLease, s.clock);
    forall v | v in s.workers ensures WorkerOk(cfg, s', s.workers[v]) {
      AppendWorker(cfg, s, s', rows, s.workers[v]);
    }
    hide RowsOk, WorkerOk;
  }

  lemma WorkKeepsLease(cfg: Config, s: World, w: nat, st: WorkerStep)
    requires LeaseInv(cfg, s) && CanWork(cfg, s, w, st)
    ensures LeaseInv(cfg, DoWork(cfg, s, w, st))
  {
    hide LeaseInv;
    if st.CloseOrphanRows? || st.RequeueRow? || st.InsertRow? || st.MarkRow? {
      InTimeOwns(cfg, s, w);
    }
    hide WorkerOk, RowsOk, PhaseOk;
    match st
    case Select(cutoff, cands) => SelectKeeps(cfg, s, w, cutoff, cands);
    case LeaseRow => TakeLeaseKeeps(cfg, s, w);
    case Stamp => StampKeeps(cfg, s, w);
    case CloseOrphanRows => CloseOrphansKeeps(cfg, s, w);
    case RequeueRow => RequeueKeeps(cfg, s, w);
    case FetchHead => FetchHeadKeeps(cfg, s, w);
    case Release => ReleaseKeeps(cfg, s, w);
    case InsertRow => InsertAttemptKeeps(cfg, s, w);
    case MarkRow => MarkInFlightKeeps(cfg, s, w);
    case Send => SameStateKeeps(cfg, s, DoSend(s, w));
    case Answer(reply) => AnswerKeeps(cfg, s, w, reply);
    case Finish(began, delay) => WriteBackKeeps(cfg, s, w, began, delay);
    case Crash => SameStateKeeps(cfg, s, s.(workers := s.workers - {w}));
  }
}
