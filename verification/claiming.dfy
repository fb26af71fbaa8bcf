/** One uninterrupted claim of an endpoint, as a function of the tables; that it is a run of the
    transition system; that it strands nothing; and that it agrees with the read side. */
module Claiming {
  import opened Tables
  import opened Protocol
  import opened LeaseInvariant
  import opened AttemptInvariant
  import opened GateInvariant
  import opened ExpansionInvariant
  import opened EffectInvariant
  import opened SystemInvariant
  import opened WriteOnce
  import opened Runs

  /** From a leased endpoint with nothing in flight: claim its head if it is ready, else let go. */
  function ClaimHead(db: DB, c: Claim, now: Time): (DB, Option<Claim>)
    requires c.endpoint < |db.endpoints|
  {
    var h := PendingHead(db, c.endpoint);
    if h.None? || db.deliveries[h.value].nextAttemptAt > now then (Released(db, c), None)
    else
      var claim := c.(delivery := h.value, number := db.deliveries[h.value].attemptCount + 1, attempt := |db.attempts|);
      (MarkInFlight(InsertAttempt(db, claim.delivery, claim.number), claim.delivery, claim.number, claim.attempt), Some(claim))
  }

  /** tryClaimEndpoint, when nothing else happens in between. */
  function TryClaim(db: DB, c: Candidate, cutoff: Time, now: Time, lease: nat): (DB, Option<Claim>) {
    if !WinsLease(db, c, cutoff) then (db, None)
    else
      var leased := StampTenant(TakeLease(db, c.endpoint, now, lease), db.endpoints[c.endpoint].tenant, now);
      var clean := if c.busy then RequeueInFlight(CloseOrphans(leased, c.endpoint), c.endpoint) else leased;
      ClaimHead(clean, Claim(c.endpoint, lease, now, db.endpoints[c.endpoint].busy, 0, 0, 0), now)
  }

  // ------------------------------------------------------- it is what the system does

  /** The worker the claim ends with: sending, or on to its next candidate. */
  function ClaimedBy(claim: Option<Claim>, rest: seq<Candidate>, cutoff: Time): Worker {
    match claim
    case Some(c) => Sending(c)
    case None => Trying(rest, cutoff)
  }

  lemma NotReadyIsARun(cfg: Config, s: World, w: nat)
    requires CanFetchHead(s, w) && s.workers[w].claim.endpoint < |s.db.endpoints| && ClaimHead(s.db, s.workers[w].claim, s.clock).1.None?
    ensures IsRun(cfg, s, [Work(w, FetchHead), Work(w, Release)])
    ensures var k := s.workers[w];
            After(cfg, s, [Work(w, FetchHead), Work(w, Release)]) == Put(s, w, Trying(k.rest, k.cutoff)).(db := ClaimHead(s.db, k.claim, s.clock).0)
  {
    RunOfTwo(cfg, s, Work(w, FetchHead), Work(w, Release));
    hide IsRun, After;
    assert DoRelease(DoFetchHead(s, w), w).workers == s.workers[w := Trying(s.workers[w].rest, s.workers[w].cutoff)];
  }

  lemma ReadyIsARun(cfg: Config, s: World, w: nat)
    requires CanFetchHead(s, w) && InTime(cfg, s, w) && s.workers[w].claim.endpoint < |s.db.endpoints| && ClaimHead(s.db, s.workers[w].claim, s.clock).1.Some?
    ensures IsRun(cfg, s, [Work(w, FetchHead)] + [Work(w, InsertRow), Work(w, MarkRow)])
    ensures var k := s.workers[w];
            After(cfg, s, [Work(w, FetchHead)] + [Work(w, InsertRow), Work(w, MarkRow)])
            == Put(s, w, Sending(ClaimHead(s.db, k.claim, s.clock).1.value)).(db := ClaimHead(s.db, k.claim, s.clock).0)
  {
    hide IsRun, After, Lowest;
    var s1 := DoFetchHead(s, w);
    PickedIsARun(cfg, s1, w);
    Prepend(cfg, s, Work(w, FetchHead), [Work(w, InsertRow), Work(w, MarkRow)]);
  }

  lemma PickedIsARun(cfg: Config, s: World, w: nat)
    requires InPhase(s, w, Picked) && InTime(cfg, s, w) && s.workers[w].claim.delivery < |s.db.deliveries|
    ensures IsRun(cfg, s, [Work(w, InsertRow), Work(w, MarkRow)])
    ensures var c := s.workers[w].claim.(attempt := |s.db.attempts|);
            After(cfg, s, [Work(w, InsertRow), Work(w, MarkRow)])
            == Put(s, w, Sending(c)).(db := MarkInFlight(InsertAttempt(s.db, c.delivery, c.number), c.delivery, c.number, c.attempt))
  {
    hide IsRun, After;
    var s2 := DoInsertAttempt(s, w);
    var s3 := DoMarkInFlight(s2, w);
    RunOfTwo(cfg, s, Work(w, InsertRow), Work(w, MarkRow));
    assert s3.workers == s.workers[w := s3.workers[w]];
  }

  lemma CleanIsARun(cfg: Config, s: World, w: nat) returns (steps: seq<Step>)
    requires CanFetchHead(s, w) && InTime(cfg, s, w) && s.workers[w].claim.endpoint < |s.db.endpoints|
    ensures IsRun(cfg, s, steps)
    ensures var k := s.workers[w];
            After(cfg, s, steps) == Put(s, w, ClaimedBy(ClaimHead(s.db, k.claim, s.clock).1, k.rest, k.cutoff)).(db := ClaimHead(s.db, k.claim, s.clock).0)
  {
    hide IsRun, After, ClaimHead;
    if ClaimHead(s.db, s.workers[w].claim, s.clock).1.None? {
      NotReadyIsARun(cfg, s, w);
      steps := [Work(w, FetchHead), Work(w, Release)];
    } else {
      ReadyIsARun(cfg, s, w);
      steps := [Work(w, FetchHead)] + [Work(w, InsertRow), Work(w, MarkRow)];
    }
  }

  lemma ReclaimIsARun(cfg: Config, s: World, w: nat) returns (steps: seq<Step>)
    requires CanCloseOrphans(cfg, s, w) && s.workers[w].claim.endpoint < |s.db.endpoints|
    ensures IsRun(cfg, s, steps)
    ensures var k := s.workers[w]; var e := k.claim.endpoint; var clean := RequeueInFlight(CloseOrphans(s.db, e), e);
            After(cfg, s, steps) == Put(s, w, ClaimedBy(ClaimHead(clean, k.claim, s.clock).1, k.rest, k.cutoff)).(db := ClaimHead(clean, k.claim, s.clock).0)
  {
    hide ClaimHead;
    var s1 := DoCloseOrphans(s, w);
    var s2 := DoRequeue(s1, w);
    steps := CleanIsARun(cfg, s2, w);
    hide CloseOrphans, RequeueInFlight;
    Prepend(cfg, s1, Work(w, RequeueRow), steps);
    Prepend(cfg, s, Work(w, CloseOrphanRows), [Work(w, RequeueRow)] + steps);
    steps := [Work(w, CloseOrphanRows)] + ([Work(w, RequeueRow)] + steps);
  }

  lemma LeasedIsARun(cfg: Config, s: World, w: nat) returns (steps: seq<Step>)
    requires CanStamp(s, w) && InTime(cfg, s, w)
    ensures IsRun(cfg, s, steps)
    ensures var k := s.workers[w]; var e := k.claim.endpoint;
            var stamped := StampTenant(s.db, s.db.endpoints[e].tenant, s.clock);
            var clean := if k.wasBusy then RequeueInFlight(CloseOrphans(stamped, e), e) else stamped;
            After(cfg, s, steps) == Put(s, w, ClaimedBy(ClaimHead(clean, k.claim, s.clock).1, k.rest, k.cutoff)).(db := ClaimHead(clean, k.claim, s.clock).0)
  {
    var s1 := DoStamp(s, w);
    hide ClaimHead, CloseOrphans, RequeueInFlight;
    if s.workers[w].wasBusy { steps := ReclaimIsARun(cfg, s1, w); } else { steps := CleanIsARun(cfg, s1, w); }
    Prepend(cfg, s, Work(w, Stamp), steps);
    steps := [Work(w, Stamp)] + steps;
  }

  /** An uninterrupted claim is a run of the transition system, so it keeps every invariant. */
  lemma TryClaimIsARun(cfg: Config, s: World, w: nat) returns (steps: seq<Step>)
    requires CanTakeLease(s, w)
    ensures IsRun(cfg, s, steps)
    ensures var k := s.workers[w]; var (db', claim) := TryClaim(s.db, k.cands[0], k.cutoff, s.clock, s.nextLease);
            After(cfg, s, steps) == Put(s, w, ClaimedBy(claim, k.cands[1..], k.cutoff))
                                      .(db := db', nextLease := if WinsLease(s.db, k.cands[0], k.cutoff) then s.nextLease + 1 else s.nextLease)
  {
    hide ClaimHead, IsRun, After, CloseOrphans, RequeueInFlight;
    var k := s.workers[w];
    var s1 := DoTakeLease(s, w);
    if WinsLease(s.db, k.cands[0], k.cutoff) {
      steps := LeasedIsARun(cfg, s1, w);
      Prepend(cfg, s, Work(w, LeaseRow), steps);
      steps := [Work(w, LeaseRow)] + steps;
    } else {
      steps := [Work(w, LeaseRow)];
      RunOfOne(cfg, s, Work(w, LeaseRow));
    }
  }

  // --------------------------------------------------------------- no stranding

  lemma LowestIs(ds: seq<Delivery>, e: nat, alsoInFlight: bool, h: nat)
    requires QueueOrder(ds) && h < |ds| && Waits(ds[h], e, alsoInFlight)
    requires forall i :: 0 <= i < |ds| && Waits(ds[i], e, alsoInFlight) ==> ds[h].seqNo <= ds[i].seqNo
    ensures Lowest(ds, e, alsoInFlight) == Some(h)
  {
    var l := Lowest(ds, e, alsoInFlight);
    assert ds[l.value].seqNo <= ds[h].seqNo && ds[h].seqNo <= ds[l.value].seqNo;
  }

  /** After a reclaim, and also without one when nothing was in flight, the claim fetches the
      delivery that the read side reported as the head. */
  lemma ReclaimedHead(db: DB, e: nat, reclaim: bool)
    requires QueueOrder(db.deliveries) && (reclaim || NoneInFlight(db.deliveries, e))
    ensures Lowest(if reclaim then RequeueInFlight(db, e).deliveries else db.deliveries, e, false) == ReportedHead(db, e)
  {
    var ds' := if reclaim then RequeueInFlight(db, e).deliveries else db.deliveries;
    assert forall i :: 0 <= i < |db.deliveries| ==> ds'[i] == if reclaim then Requeued(db.deliveries[i], e) else db.deliveries[i];
    assert forall i :: 0 <= i < |db.deliveries| ==> (Waits(ds'[i], e, false) <==> Waits(db.deliveries[i], e, true));
    var h := ReportedHead(db, e);
    if h.Some? {
      LowestIs(ds', e, false, h.value);
    }
  }

  /** A try claims exactly when it wins the lease and the reported head is ready, whether or not there
      is something to reclaim first; a try that won the lease and does not claim lets go of it, and
      leaves nothing in flight. */
  lemma ClaimedIff(db: DB, c: Candidate, cutoff: Time, now: Time, lease: nat)
    requires QueueOrder(db.deliveries) && c.endpoint < |db.endpoints| && (c.busy || NoneInFlight(db.deliveries, c.endpoint))
    ensures var (db', claim) := TryClaim(db, c, cutoff, now, lease); var h := ReportedHead(db, c.endpoint);
            && (claim.Some? <==> WinsLease(db, c, cutoff) && h.Some? && db.deliveries[h.value].nextAttemptAt <= now)
            && (claim.Some? ==> claim.value.delivery == h.value && HoldsLease(db', c.endpoint, lease))
            && (claim.None? && WinsLease(db, c, cutoff) ==>
                  !db'.endpoints[c.endpoint].busy && db'.endpoints[c.endpoint].leaseId.None? && NoneInFlight(db'.deliveries, c.endpoint))
  {
    var e := c.endpoint;
    ReclaimedHead(db, e, c.busy);
    if WinsLease(db, c, cutoff) {
      var leased := StampTenant(TakeLease(db, e, now, lease), db.endpoints[e].tenant, now);
      var clean := if c.busy then RequeueInFlight(CloseOrphans(leased, e), e) else leased;
      assert clean.deliveries == if c.busy then RequeueInFlight(db, e).deliveries else db.deliveries;
      assert NoneInFlight(clean.deliveries, e);
      hide Lowest, QueueOrder, NoneInFlight;
    }
  }

  /** An endpoint is due: it is not under a current lease, and its head may be sent now. */
  predicate Due(cfg: Config, db: DB, e: nat, now: Time) {
    && e < |db.endpoints| && db.endpoints[e].status == Active
    && (db.endpoints[e].busy ==> db.endpoints[e].busySince.Some? && db.endpoints[e].busySince.value + LeaseDuration(cfg) < now)
    && ReportedHead(db, e).Some?
    && (db.deliveries[ReportedHead(db, e).value].state == Pending ==> db.deliveries[ReportedHead(db, e).value].nextAttemptAt <= now)
  }

  lemma DueIsCandidate(cfg: Config, s: World, e: nat)
    requires RowsOk(s.db, s.nextLease, s.clock) && Due(cfg, s.db, e, s.clock)
    ensures IsCandidate(s.db, e, s.clock - LeaseDuration(cfg), s.clock)
  {
    assert Ready(s.db.deliveries[ReportedHead(s.db, e).value], e, s.clock);
  }

  lemma DueIsClaimed(cfg: Config, s: World, e: nat)
    requires RowsOk(s.db, s.nextLease, s.clock) && Due(cfg, s.db, e, s.clock)
    ensures var (db', claim) := TryClaim(s.db, Candidate(e, s.db.endpoints[e].busy), s.clock - LeaseDuration(cfg), s.clock, s.nextLease);
            var h := ReportedHead(s.db, e).value;
            && claim.Some? && claim.value.endpoint == e && claim.value.delivery == h && claim.value.lease == s.nextLease
            && claim.value.number == s.db.deliveries[h].attemptCount + 1
            && h < |db'.deliveries| && db'.deliveries[h].state == InFlight && HoldsLease(db', e, s.nextLease)
  {
    var busy := s.db.endpoints[e].busy;
    ReclaimedHead(s.db, e, busy);
    var leased := StampTenant(TakeLease(s.db, e, s.clock, s.nextLease), s.db.endpoints[e].tenant, s.clock);
    var clean := if busy then RequeueInFlight(CloseOrphans(leased, e), e) else leased;
    assert clean.deliveries == if busy then RequeueInFlight(s.db, e).deliveries else s.db.deliveries;
    hide RowsOk, Lowest;
  }

  /** No work is stranded: in every reachable state, after whatever crashes, an active endpoint with
      unresolved work passes the candidate filter and its head is claimed, at any time later than
      its lease (if it is busy) and its head's next_attempt_at. */
  lemma NothingIsStranded(cfg: Config, s: World, e: nat)
    requires Reachable(cfg, s) && Due(cfg, s.db, e, s.clock)
    ensures IsCandidate(s.db, e, s.clock - LeaseDuration(cfg), s.clock)
    ensures var (db', claim) := TryClaim(s.db, Candidate(e, s.db.endpoints[e].busy), s.clock - LeaseDuration(cfg), s.clock, s.nextLease);
            claim.Some? && Some(claim.value.delivery) == ReportedHead(s.db, e) && claim.value.endpoint == e
  {
    ReachableInv(cfg, s);
    hide RowsOk, WorkerOk, AttemptInv, GateInv, ExpansionInv, EffectInv, TryClaim, Due, IsCandidate;
    DueIsCandidate(cfg, s, e);
    DueIsClaimed(cfg, s, e);
  }

  // ----------------------------------------------------------- a claim, on the rows

  /** The delivery as the in_flight mark leaves it, after a reclaim if it was in flight. */
  function Taken(d: Delivery): Delivery {
    d.(state := InFlight, attemptCount := d.attemptCount + 1, expiries := d.expiries + if d.state == InFlight then 1 else 0)
  }

  lemma CleanRows(db: DB, e: nat, busy: bool, h: nat)
    requires h < |db.deliveries| && db.deliveries[h].endpoint == e && Unresolved(db.deliveries[h].state) && ReportedHead(db, e) == Some(h)
    requires (busy || db.deliveries[h].state == Pending) && QueueOrder(db.deliveries)
    requires forall i :: 0 <= i < |db.deliveries| && db.deliveries[i].endpoint == e && db.deliveries[i].state == InFlight ==> i == h
    ensures var d := db.deliveries[h]; var ds' := if busy then RequeueInFlight(db, e).deliveries else db.deliveries;
            && Lowest(ds', e, false) == Some(h)
            && ds' == db.deliveries[h := d.(state := Pending, expiries := d.expiries + if d.state == InFlight then 1 else 0)]
  {
    ReclaimedHead(db, e, busy);
    hide Lowest, QueueOrder;
  }

  /** What a claim of a due endpoint does to the tables. */
  lemma ClaimRows(db: DB, c: Candidate, h: nat, cutoff: Time, now: Time, lease: nat)
    requires WinsLease(db, c, cutoff) && c.busy == db.endpoints[c.endpoint].busy && QueueOrder(db.deliveries)
    requires h < |db.deliveries| && db.deliveries[h].endpoint == c.endpoint && Unresolved(db.deliveries[h].state) && ReportedHead(db, c.endpoint) == Some(h)
    requires (c.busy || db.deliveries[h].state == Pending) && db.deliveries[h].nextAttemptAt <= now
    requires forall i :: 0 <= i < |db.deliveries| && db.deliveries[i].endpoint == c.endpoint && db.deliveries[i].state == InFlight ==> i == h
    ensures var (db', claim) := TryClaim(db, c, cutoff, now, lease); var e := c.endpoint;
            && claim == Some(Claim(e, lease, now, c.busy, h, db.deliveries[h].attemptCount + 1, |db.attempts|))
            && db'.deliveries == db.deliveries[h := Taken(db.deliveries[h])]
            && db'.attempts == (if c.busy then CloseOrphans(db, e).attempts else db.attempts) + [Attempt(h, db.deliveries[h].attemptCount + 1, Open, true)]
            && db'.endpoints == db.endpoints[e := db.endpoints[e].(busy := true, busySince := Some(now), leaseId := Some(lease))]
            && db'.tenants == StampTenant(db, db.endpoints[e].tenant, now).tenants && db'.events == db.events && db'.replays == db.replays
  {
    hide Lowest, QueueOrder, ClaimHead, CloseOrphans, RequeueInFlight, StampTenant;
    var e := c.endpoint;
    CleanRows(db, e, c.busy, h);
    var leased := StampTenant(TakeLease(db, e, now, lease), db.endpoints[e].tenant, now);
    var clean := if c.busy then RequeueInFlight(CloseOrphans(leased, e), e) else leased;
    LeasedRows(db, e, now, lease);
    ReclaimRows(db, leased, e);
    assert clean.deliveries == if c.busy then RequeueInFlight(db, e).deliveries else db.deliveries;
    assert clean.attempts == if c.busy then CloseOrphans(db, e).attempts else db.attempts;
    HeadRows(clean, Claim(e, lease, now, c.busy, 0, 0, 0), h, now);
  }

  lemma LeasedRows(db: DB, e: nat, now: Time, lease: nat)
    requires e < |db.endpoints|
    ensures var leased := StampTenant(TakeLease(db, e, now, lease), db.endpoints[e].tenant, now);
            leased == db.(tenants := leased.tenants, endpoints := db.endpoints[e := db.endpoints[e].(busy := true, busySince := Some(now), leaseId := Some(lease))])
            && leased.tenants == StampTenant(db, db.endpoints[e].tenant, now).tenants
  {
  }

  lemma ReclaimRows(db: DB, leased: DB, e: nat)
    requires leased == db.(tenants := leased.tenants, endpoints := leased.endpoints)
    ensures RequeueInFlight(CloseOrphans(leased, e), e)
            == leased.(deliveries := RequeueInFlight(db, e).deliveries, attempts := CloseOrphans(db, e).attempts)
    ensures |CloseOrphans(db, e).attempts| == |db.attempts|
  {
    assert CloseOrphans(leased, e).attempts == CloseOrphans(db, e).attempts;
  }

  lemma HeadRows(db: DB, c: Claim, h: nat, now: Time)
    requires c.endpoint < |db.endpoints| && h < |db.deliveries| && PendingHead(db, c.endpoint) == Some(h) && db.deliveries[h].nextAttemptAt <= now
    ensures var (db', claim) := ClaimHead(db, c, now); var number := db.deliveries[h].attemptCount + 1;
            && claim == Some(c.(delivery := h, number := number, attempt := |db.attempts|))
            && db'.deliveries == db.deliveries[h := db.deliveries[h].(state := InFlight, attemptCount := number)]
            && db'.attempts == db.attempts + [Attempt(h, number, Open, true)]
            && db'.endpoints == db.endpoints && db'.tenants == db.tenants && db'.events == db.events && db'.replays == db.replays
  {
    hide Lowest;
  }

  /** What an uninterrupted claim leaves, in every reachable state and for every endpoint that is due: the head
      is in flight with one attempt more and a new open attempt row under its number; the attempts that a
      lost worker left open for it are closed as expired; the endpoint is leased from now on; its tenant
      is stamped; and no other row has changed. */
  lemma ClaimOnRows(cfg: Config, s: World, e: nat)
    requires Reachable(cfg, s) && Due(cfg, s.db, e, s.clock)
    ensures var db := s.db; var ep := db.endpoints[e]; var h := ReportedHead(db, e).value; var d := db.deliveries[h];
            var (db', claim) := TryClaim(db, Candidate(e, ep.busy), s.clock - LeaseDuration(cfg), s.clock, s.nextLease);
            && claim.Some? && claim.value.endpoint == e && claim.value.lease == s.nextLease && claim.value.since == s.clock
            && claim.value.delivery == h && claim.value.number == d.attemptCount + 1 && claim.value.attempt == |db.attempts|
            && |db'.deliveries| == |db.deliveries| && |db'.attempts| == |db.attempts| + 1
            && db'.deliveries == db.deliveries[h := d.(state := InFlight, attemptCount := d.attemptCount + 1, expiries := db'.deliveries[h].expiries)]
            && db'.attempts[|db.attempts|] == Attempt(h, d.attemptCount + 1, Open, true)
            && (forall a :: 0 <= a < |db.attempts| ==>
                  db'.attempts[a] == if d.state == InFlight && db.attempts[a].delivery == h && db.attempts[a].outcome == Open
                                     then db.attempts[a].(outcome := LeaseExpired) else db.attempts[a])
            && db'.endpoints == db.endpoints[e := ep.(busy := true, busySince := Some(s.clock), leaseId := Some(s.nextLease))]
            && (if ep.tenant < |db.tenants| then db'.tenants == db.tenants[ep.tenant := db.tenants[ep.tenant].(lastServedAt := Some(s.clock))]
                else db'.tenants == db.tenants)
            && db'.events == db.events && db'.replays == db.replays
  {
    hide Reachable, AttemptInv, GateInv, ExpansionInv, EffectInv, LeaseInv, TryClaim, CloseOrphans, Lowest, RowsOk, QueueOrder;
    ReachableInv(cfg, s);
    RowsOf(cfg, s);
    var h := ReportedHead(s.db, e).value;
    OnlyHeadInFlight(s.db, s.nextLease, s.clock, e, h);
    ClaimRows(s.db, Candidate(e, s.db.endpoints[e].busy), h, s.clock - LeaseDuration(cfg), s.clock, s.nextLease);
    OrphanRows(s.db, e, h);
  }

  /** Only the head of a queue can be in flight, and then the endpoint is busy. */
  lemma OnlyHeadInFlight(db: DB, nextLease: nat, clock: Time, e: nat, h: nat)
    requires RowsOk(db, nextLease, clock) && ReportedHead(db, e) == Some(h)
    ensures QueueOrder(db.deliveries)
    ensures forall i :: 0 <= i < |db.deliveries| && db.deliveries[i].endpoint == e && db.deliveries[i].state == InFlight ==> i == h
    ensures db.deliveries[h].state == InFlight ==> e < |db.endpoints| && db.endpoints[e].busy && db.deliveries[h].nextAttemptAt <= clock
  {
    assert QueueOrder(db.deliveries) && QueueShape(db.deliveries) by { hide QueueOrder, QueueShape; }
    forall i | 0 <= i < |db.deliveries| && db.deliveries[i].endpoint == e && db.deliveries[i].state == InFlight ensures i == h {
      assert Waits(db.deliveries[i], e, true);
    }
  }

  lemma OrphanRows(db: DB, e: nat, h: nat)
    requires h < |db.deliveries| && db.deliveries[h].endpoint == e
    requires forall i :: 0 <= i < |db.deliveries| && db.deliveries[i].endpoint == e && db.deliveries[i].state == InFlight ==> i == h
    ensures |CloseOrphans(db, e).attempts| == |db.attempts|
    ensures forall a :: 0 <= a < |db.attempts| ==>
              CloseOrphans(db, e).attempts[a] == if db.deliveries[h].state == InFlight && db.attempts[a].delivery == h && db.attempts[a].outcome == Open
                                                 then db.attempts[a].(outcome := LeaseExpired) else db.attempts[a]
  {
  }

  // ------------------------------------------------------------------ read side

  /** blocked_on_delivery_id. */
  function BlockedOn(db: DB, d: nat): Option<nat>
    requires d < |db.deliveries|
  {
    if db.deliveries[d].state == Pending && ReportedHead(db, db.deliveries[d].endpoint) != Some(d) then ReportedHead(db, db.deliveries[d].endpoint) else None
  }

  ghost predicate UnresolvedBefore(ds: seq<Delivery>, d: nat)
    requires d < |ds|
  {
    exists i :: 0 <= i < |ds| && ds[i].endpoint == ds[d].endpoint && ds[i].seqNo < ds[d].seqNo && Unresolved(ds[i].state)
  }

  /** A delivery is reported blocked exactly when it is pending and an unresolved one comes before
      it in its queue; then it is blocked on the first such one. */
  lemma BlockedMeansBehind(cfg: Config, s: World, d: nat)
    requires Reachable(cfg, s) && d < |s.db.deliveries|
    ensures BlockedOn(s.db, d).Some? <==> s.db.deliveries[d].state == Pending && UnresolvedBefore(s.db.deliveries, d)
    ensures BlockedOn(s.db, d).Some? ==>
              var h := BlockedOn(s.db, d).value;
              h < |s.db.deliveries| && Unresolved(s.db.deliveries[h].state) && s.db.deliveries[h].seqNo < s.db.deliveries[d].seqNo && !UnresolvedBefore(s.db.deliveries, h)
  {
    ReachableInv(cfg, s);
    assert QueueOrder(s.db.deliveries);
    hide LeaseInv, AttemptInv, GateInv, ExpansionInv, EffectInv, QueueOrder;
    BlockedBehind(s.db, d);
  }

  lemma BlockedBehind(db: DB, d: nat)
    requires QueueOrder(db.deliveries) && d < |db.deliveries|
    ensures BlockedOn(db, d).Some? <==> db.deliveries[d].state == Pending && UnresolvedBefore(db.deliveries, d)
    ensures BlockedOn(db, d).Some? ==>
              var h := BlockedOn(db, d).value;
              h < |db.deliveries| && Unresolved(db.deliveries[h].state) && db.deliveries[h].seqNo < db.deliveries[d].seqNo && !UnresolvedBefore(db.deliveries, h)
  {
    var ds := db.deliveries;
    var e := ds[d].endpoint;
    assert forall i :: 0 <= i < |ds| && ds[i].endpoint == e ==> (Waits(ds[i], e, true) <==> Unresolved(ds[i].state));
    if ds[d].state == Pending {
      assert Waits(ds[d], e, true);
      var h := ReportedHead(db, e).value;
      if !UnresolvedBefore(ds, d) { LowestIs(ds, e, true, d); }
      else { var i :| 0 <= i < |ds| && ds[i].endpoint == e && ds[i].seqNo < ds[d].seqNo && Unresolved(ds[i].state); assert Waits(ds[i], e, true); }
      if h != d { assert h < d ==> ds[h].seqNo < ds[d].seqNo; }
    }
  }

  /** What a reader was told is the head is what the next attempt on the endpoint is for, unless it
      has been resolved since. */
  lemma ReportedHeadIsNext(cfg: Config, s: World, steps: seq<Step>, w: nat, e: nat)
    requires Reachable(cfg, s) && IsRun(cfg, s, steps) && ReportedHead(s.db, e).Some?
    requires CanInsertAttempt(cfg, After(cfg, s, steps), w) && After(cfg, s, steps).workers[w].claim.endpoint == e
    ensures var s' := After(cfg, s, steps); var h := ReportedHead(s.db, e).value;
            h < |s'.db.deliveries| && (s'.workers[w].claim.delivery == h <==> !Terminal(s'.db.deliveries[h].state))
  {
    ReachableInv(cfg, s);
    hide IsRun, After, Inv, Grows, CanInsertAttempt;
    RunGrows(cfg, s, steps);
    RunKeepsInv(cfg, s, steps);
    InsertsAtHead(cfg, After(cfg, s, steps), w);
    QueuesOk(cfg, s) by { hide LeaseInv, AttemptInv, GateInv, ExpansionInv, EffectInv; }
    DeliveriesOnlyGrow(s.db, After(cfg, s, steps).db);
    HeadStays(s.db, After(cfg, s, steps).db, e, After(cfg, s, steps).workers[w].claim.delivery);
  }

  lemma DeliveriesOnlyGrow(db: DB, db': DB)
    requires Grows(db, db')
    ensures DeliveriesGrow(db.deliveries, db'.deliveries)
  {
    hide DeliveriesGrow;
  }

  lemma InsertsAtHead(cfg: Config, s: World, w: nat)
    requires Inv(cfg, s) && CanInsertAttempt(cfg, s, w)
    ensures AtHead(s.db.deliveries, s.workers[w].claim.delivery) && s.db.deliveries[s.workers[w].claim.delivery].endpoint == s.workers[w].claim.endpoint
    ensures QueueOrder(s.db.deliveries)
  {
    hide AtHead, LeaseInv, AttemptInv, GateInv, ExpansionInv, EffectInv, WorkerOk, QueueOrder, NoneInFlight;
    InTimeOwns(cfg, s, w);
  }

  lemma HeadStays(db: DB, db': DB, e: nat, d: nat)
    requires QueueOrder(db.deliveries) && QueueOrder(db'.deliveries) && DeliveriesGrow(db.deliveries, db'.deliveries) && ReportedHead(db, e).Some?
    requires AtHead(db'.deliveries, d) && db'.deliveries[d].endpoint == e
    ensures d == ReportedHead(db, e).value <==> !Terminal(db'.deliveries[ReportedHead(db, e).value].state)
  {
    if !Terminal(db'.deliveries[ReportedHead(db, e).value].state) {
      UnresolvedHeadStays(db.deliveries, db'.deliveries, e, d);
    }
  }

  lemma UnresolvedHeadStays(ds: seq<Delivery>, ds': seq<Delivery>, e: nat, d: nat)
    requires QueueOrder(ds) && QueueOrder(ds') && DeliveriesGrow(ds, ds') && Lowest(ds, e, true).Some?
    requires AtHead(ds', d) && ds'[d].endpoint == e && !Terminal(ds'[Lowest(ds, e, true).value].state)
    ensures d == Lowest(ds, e, true).value
  {
    var h := Lowest(ds, e, true).value;
    assert ds'[d].seqNo <= ds'[h].seqNo;
    assert d < |ds|;
    assert Waits(ds[d], e, true);
    assert ds[h].seqNo <= ds[d].seqNo;
  }
}
