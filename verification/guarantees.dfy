/** The guarantees of the service: what holds in every reachable state and over every run, under
    any interleaving, crash and late wake-up. */
module Guarantees {
  import opened Tables
  import opened Protocol
  import opened LeaseInvariant
  import opened AttemptInvariant
  import opened GateInvariant
  import opened ExpansionInvariant
  import opened EffectInvariant
  import opened SystemInvariant
  import opened WriteOnce

  // ------------------------------------------------------- queues and leases

  function InFlightAt(ds: seq<Delivery>, e: nat): set<nat> {
    set i: nat | i < |ds| && ds[i].endpoint == e && ds[i].state == InFlight
  }

  /** Every queue, in seq order, is resolved deliveries, then at most one in flight, then pending
      ones; and a delivery in flight keeps its endpoint busy. */
  lemma QueuesKeepTheirShape(cfg: Config, s: World, e: nat)
    requires Reachable(cfg, s)
    ensures QueueShape(s.db.deliveries)
    ensures |InFlightAt(s.db.deliveries, e)| <= 1
    ensures InFlightAt(s.db.deliveries, e) != {} ==> e < |s.db.endpoints| && s.db.endpoints[e].busy
  {
    ReachableInv(cfg, s);
    hide RowsOk, AttemptInv, GateInv, ExpansionInv, EffectInv, WorkerOk;
    ShapeOfQueue(s.db, s.nextLease, s.clock, e);
  }

  lemma ShapeOfQueue(db: DB, nextLease: nat, clock: Time, e: nat)
    requires RowsOk(db, nextLease, clock)
    ensures QueueShape(db.deliveries) && |InFlightAt(db.deliveries, e)| <= 1
    ensures InFlightAt(db.deliveries, e) != {} ==> e < |db.endpoints| && db.endpoints[e].busy
  {
    var ids := InFlightAt(db.deliveries, e);
    if ids != {} {
      var i :| i in ids;
      forall j | j in ids ensures j == i {
        OneInFlight(db, nextLease, clock, i, j);
      }
      assert ids == {i};
    }
  }

  /** The attempt rows of endpoint `e` that have no outcome yet. */
  function OpenAt(db: DB, e: nat): set<nat> {
    set a: nat | a < |db.attempts| && db.attempts[a].outcome == Open
                 && db.attempts[a].delivery < |db.deliveries| && db.deliveries[db.attempts[a].delivery].endpoint == e
  }

  /** A row left behind by a claim that stopped before it marked the delivery: the number it bears was
      given out again, to an attempt that was sent. */
  ghost predicate LeftBehind(at: seq<Attempt>, a: nat) {
    && a < |at| && !at[a].sent
    && exists b :: 0 <= b < |at| && at[b].sent && at[b].delivery == at[a].delivery && at[b].number == at[a].number
  }

  /** While a sending worker's lease is current, its delivery is the only one in flight on the endpoint.
      Its attempt is the only open row there if and only if no claim on the endpoint stopped between
      recording its attempt and marking its delivery and left an open row; whatever other open rows
      there are come from such claims. */
  lemma LeaseHolderIsAlone(cfg: Config, s: World, w: nat)
    requires Reachable(cfg, s) && w in s.workers && (s.workers[w].Sending? || s.workers[w].Replied?)
    requires HoldsLease(s.db, s.workers[w].claim.endpoint, s.workers[w].claim.lease)
    ensures var c := s.workers[w].claim;
            && InFlightAt(s.db.deliveries, c.endpoint) == {c.delivery}
            && c.attempt < |s.db.attempts| && s.db.attempts[c.attempt] == Attempt(c.delivery, c.number, Open, true)
            && (OpenAt(s.db, c.endpoint) == {c.attempt} <==> forall a :: a in OpenAt(s.db, c.endpoint) ==> s.db.attempts[a].sent)
            && (forall a :: a in OpenAt(s.db, c.endpoint) && a != c.attempt ==> LeftBehind(s.db.attempts, a))
  {
    hide RowsOk, NumberingOk, UnsentOk, OpenOk, InPublicationOrder, LeftBehind, Inv;
    ReachableInv(cfg, s);
    HolderIsSending(cfg, s, w);
    Alone(s.db, s.nextLease, s.clock, s.workers[w].claim);
  }

  lemma HolderIsSending(cfg: Config, s: World, w: nat)
    requires Inv(cfg, s) && w in s.workers && (s.workers[w].Sending? || s.workers[w].Replied?)
    requires HoldsLease(s.db, s.workers[w].claim.endpoint, s.workers[w].claim.lease)
    ensures SendingOk(s.db, s.workers[w].claim) && RowsOk(s.db, s.nextLease, s.clock)
    ensures NumberingOk(s.db.deliveries, s.db.attempts) && UnsentOk(s.db.deliveries, s.db.attempts)
    ensures OpenOk(s.db.deliveries, s.db.attempts) && InPublicationOrder(s.db.deliveries, s.db.attempts)
  {
    hide RowsOk, NumberingOk, UnsentOk, OpenOk, InPublicationOrder, WinsOk, AllAccounted, GateInv, ExpansionInv, EffectInv;
    assert WorkerOk(cfg, s, s.workers[w]);
  }

  lemma Alone(db: DB, nextLease: nat, clock: Time, c: Claim)
    requires RowsOk(db, nextLease, clock) && SendingOk(db, c)
    requires NumberingOk(db.deliveries, db.attempts) && UnsentOk(db.deliveries, db.attempts)
    requires OpenOk(db.deliveries, db.attempts) && InPublicationOrder(db.deliveries, db.attempts)
    ensures InFlightAt(db.deliveries, c.endpoint) == {c.delivery}
    ensures OpenAt(db, c.endpoint) == {c.attempt} <==> forall a :: a in OpenAt(db, c.endpoint) ==> db.attempts[a].sent
    ensures forall a :: a in OpenAt(db, c.endpoint) && a != c.attempt ==> LeftBehind(db.attempts, a)
  {
    hide RowsOk, NumberingOk, UnsentOk, OpenOk, InPublicationOrder, LeftBehind;
    AloneInFlight(db, nextLease, clock, c);
    forall a | a in OpenAt(db, c.endpoint) && a != c.attempt ensures LeftBehind(db.attempts, a) && !db.attempts[a].sent {
      OtherOpenIsLeftBehind(db, nextLease, clock, c, a);
    }
    assert c.attempt in OpenAt(db, c.endpoint);
  }

  lemma AloneInFlight(db: DB, nextLease: nat, clock: Time, c: Claim)
    requires RowsOk(db, nextLease, clock) && SendingOk(db, c)
    ensures InFlightAt(db.deliveries, c.endpoint) == {c.delivery}
  {
    forall i | i in InFlightAt(db.deliveries, c.endpoint) ensures i == c.delivery {
      OneInFlight(db, nextLease, clock, i, c.delivery);
    }
  }

  lemma OtherOpenIsLeftBehind(db: DB, nextLease: nat, clock: Time, c: Claim, a: nat)
    requires RowsOk(db, nextLease, clock) && SendingOk(db, c) && a in OpenAt(db, c.endpoint) && a != c.attempt
    requires NumberingOk(db.deliveries, db.attempts) && UnsentOk(db.deliveries, db.attempts)
    requires OpenOk(db.deliveries, db.attempts) && InPublicationOrder(db.deliveries, db.attempts)
    ensures LeftBehind(db.attempts, a) && !db.attempts[a].sent
  {
    var d := db.attempts[a].delivery;
    if db.attempts[a].sent {
      OneInFlight(db, nextLease, clock, d, c.delivery);
      OneOpenAttempt(db, c);
      assert false;
    }
    AttemptedBefore(db, nextLease, clock, c, a);
    NumberWasSent(db, a);
  }

  /** What was attempted on an endpoint with a delivery in flight is that delivery, or resolved. */
  lemma AttemptedBefore(db: DB, nextLease: nat, clock: Time, c: Claim, a: nat)
    requires RowsOk(db, nextLease, clock) && SendingOk(db, c) && a in OpenAt(db, c.endpoint)
    requires InPublicationOrder(db.deliveries, db.attempts)
    ensures db.deliveries[db.attempts[a].delivery].state != Pending
  {
    var d := db.attempts[a].delivery;
    assert db.deliveries[d].seqNo <= db.deliveries[c.delivery].seqNo;
  }

  lemma NumberWasSent(db: DB, a: nat)
    requires NumberingOk(db.deliveries, db.attempts) && UnsentOk(db.deliveries, db.attempts)
    requires a < |db.attempts| && !db.attempts[a].sent && db.deliveries[db.attempts[a].delivery].state != Pending
    ensures LeftBehind(db.attempts, a)
  {
    var d, n := db.attempts[a].delivery, db.attempts[a].number;
    assert UpTo(db.deliveries[d].attemptCount)[n - 1] == n;
    assert n in SentNumbers(db.attempts, d);
    SentNumberHasRow(db.attempts, d, n);
  }

  lemma {:induction false} SentNumberHasRow(at: seq<Attempt>, d: nat, n: nat)
    requires n in SentNumbers(at, d)
    ensures exists b :: 0 <= b < |at| && at[b].sent && at[b].delivery == d && at[b].number == n
  {
    var last := |at| - 1;
    if n in SentNumbers(at[..last], d) {
      SentNumberHasRow(at[..last], d, n);
      var b :| 0 <= b < last && at[..last][b].sent && at[..last][b].delivery == d && at[..last][b].number == n;
      assert at[b].sent && at[b].delivery == d && at[b].number == n;
    } else {
      assert at[last].sent && at[last].delivery == d && at[last].number == n;
    }
  }

  /** Whoever writes back late writes nothing: a write-back that changes anything finds its
      delivery in flight and its attempt open. */
  lemma LateWriteBackIsInert(cfg: Config, s: World, w: nat, began: Time, delay: nat)
    requires Reachable(cfg, s) && CanWriteBack(cfg, s, w, began, delay)
    ensures var c := s.workers[w].claim;
            s.db.deliveries[c.delivery].state != InFlight || s.db.attempts[c.attempt].outcome != Open ==> DoWriteBack(cfg, s, w, began, delay).db == s.db
  {
    ReachableInv(cfg, s);
    WriteBackWorker(cfg, s, w, began, delay);
  }

  /** Resolved deliveries, closed attempts, expanded events and replays stay as they are, in any run. */
  lemma NothingIsUndone(cfg: Config, s: World, steps: seq<Step>)
    requires Reachable(cfg, s) && IsRun(cfg, s, steps)
    ensures Grows(s.db, After(cfg, s, steps).db)
  {
    ReachableInv(cfg, s);
    RunGrows(cfg, s, steps);
  }

  // ---------------------------------------------------------------- takeover

  /** A takeover is never missed: a lease won from a stale holder was seen busy by the query. */
  lemma TakeoverIsNeverMissed(cfg: Config, s: World, w: nat)
    requires Reachable(cfg, s) && CanTakeLease(s, w) && WinsLease(s.db, s.workers[w].cands[0], s.workers[w].cutoff)
    ensures DoTakeLease(s, w).workers[w].claim.tookOver ==> DoTakeLease(s, w).workers[w].wasBusy
  {
    ReachableInv(cfg, s);
    TakeoverSeen(cfg, s, w);
  }

  /** And one too many is harmless: if the row was free by the time of the lease, the reclaim
      statements change nothing. */
  lemma NeedlessReclaimIsInert(cfg: Config, s: World, w: nat)
    requires Reachable(cfg, s) && w in s.workers && s.workers[w].Claiming? && !s.workers[w].claim.tookOver
    ensures CanCloseOrphans(cfg, s, w) ==> DoCloseOrphans(s, w).db == s.db
    ensures CanRequeue(cfg, s, w) ==> DoRequeue(s, w).db == s.db
  {
    ReachableInv(cfg, s);
    if CanCloseOrphans(cfg, s, w) || CanRequeue(cfg, s, w) {
      InTimeOwns(cfg, s, w);
      ReclaimOfIdle(s.db, s.workers[w].claim.endpoint);
    }
  }

  lemma ReclaimOfIdle(db: DB, e: nat)
    requires NoneInFlight(db.deliveries, e)
    ensures CloseOrphans(db, e) == db && RequeueInFlight(db, e) == db
  {
    assert CloseOrphans(db, e).attempts == db.attempts;
    assert RequeueInFlight(db, e).deliveries == db.deliveries;
  }

  /** A lease is lost only after the whole lease duration. */
  lemma LeaseLastsItsDuration(cfg: Config, s: World, w: nat)
    requires Reachable(cfg, s) && w in s.workers && !s.workers[w].Trying?
    requires s.clock <= s.workers[w].claim.since + LeaseDuration(cfg)
    ensures HoldsLease(s.db, s.workers[w].claim.endpoint, s.workers[w].claim.lease)
  {
    ReachableInv(cfg, s);
    assert WorkerOk(cfg, s, s.workers[w]);
  }

  /** A worker that sends within the timeout, and spends at most the larger of timeout and floor on
      everything else, never gets lease_lost. */
  lemma LiveWorkerKeepsItsLease(cfg: Config, s: World, w: nat, began: Time, delay: nat, sending: Time, other: Time)
    requires Reachable(cfg, s) && CanWriteBack(cfg, s, w, began, delay)
    requires s.clock - s.workers[w].claim.since == sending + other && sending <= cfg.timeout && (other <= cfg.timeout || other <= cfg.floor)
    ensures WriteBack(s.db, cfg, s.workers[w].claim, s.workers[w].reply, began, delay).1 != LeaseLost
  {
    LeaseLastsItsDuration(cfg, s, w);
  }

  // ------------------------------------------------------------------- order

  /** An attempt is recorded only for the head: every delivery before it is resolved, and the read
      side reports it as the head. */
  lemma OnlyTheHeadIsAttempted(cfg: Config, s: World, w: nat)
    requires Reachable(cfg, s) && CanInsertAttempt(cfg, s, w)
    ensures var d := s.workers[w].claim.delivery;
            AtHead(s.db.deliveries, d) && ReportedHead(s.db, s.db.deliveries[d].endpoint) == Some(d) && s.db.deliveries[d].nextAttemptAt <= s.clock
  {
    hide LeaseInv, AttemptInv, GateInv, ExpansionInv, EffectInv, QueueShape, AtHead, QueueOrder;
    ReachableInv(cfg, s);
    InTimeOwns(cfg, s, w);
    QueuesOk(cfg, s);
    HeadIsReported(s.db, s.workers[w].claim.delivery);
  }

  lemma HeadIsReported(db: DB, d: nat)
    requires QueueOrder(db.deliveries) && AtHead(db.deliveries, d)
    ensures ReportedHead(db, db.deliveries[d].endpoint) == Some(d)
  {
    var e := db.deliveries[d].endpoint;
    assert Waits(db.deliveries[d], e, true);
    assert db.deliveries[ReportedHead(db, e).value].seqNo <= db.deliveries[d].seqNo;
  }

  /** Over a whole run, the attempts on an endpoint go through its queue in order, and live
      deliveries in the order their events were published. */
  lemma AttemptsFollowPublication(cfg: Config, s: World, a: nat, b: nat)
    requires Reachable(cfg, s) && a < b < |s.db.attempts|
    ensures s.db.attempts[a].delivery < |s.db.deliveries| && s.db.attempts[b].delivery < |s.db.deliveries|
    ensures var x, y := s.db.deliveries[s.db.attempts[a].delivery], s.db.deliveries[s.db.attempts[b].delivery];
            x.endpoint == y.endpoint ==>
              && x.seqNo <= y.seqNo
              && (x.seqNo == y.seqNo ==> s.db.attempts[a].delivery == s.db.attempts[b].delivery)
              && (x.origin == FromEvent && y.origin == FromEvent && s.db.attempts[a].delivery != s.db.attempts[b].delivery ==>
                    x.event < |s.db.events| && y.event < |s.db.events| && s.db.events[x.event].seqNo < s.db.events[y.event].seqNo)
  {
    ReachableInv(cfg, s);
    hide WorkerOk, NumberingOk, OpenOk, WinsOk, InPublicationOrder, GateInv, FanOutOk, PublishOk, LiveOrder, ReplayOk, EffectInv, QueueShape, QueueOrder;
    InOrder(s.db, a, b);
  }

  lemma InOrder(db: DB, a: nat, b: nat)
    requires InPublicationOrder(db.deliveries, db.attempts) && QueueOrder(db.deliveries) && LiveOrder(db) && a < b < |db.attempts|
    ensures db.attempts[a].delivery < |db.deliveries| && db.attempts[b].delivery < |db.deliveries|
    ensures var x, y := db.deliveries[db.attempts[a].delivery], db.deliveries[db.attempts[b].delivery];
            x.endpoint == y.endpoint ==>
              && x.seqNo <= y.seqNo
              && (x.seqNo == y.seqNo ==> db.attempts[a].delivery == db.attempts[b].delivery)
              && (x.origin == FromEvent && y.origin == FromEvent && db.attempts[a].delivery != db.attempts[b].delivery ==>
                    x.event < |db.events| && y.event < |db.events| && db.events[x.event].seqNo < db.events[y.event].seqNo)
  {
  }

  /** After a failed attempt, no attempt of the delivery is recorded before the backoff is over, counted
      from the start of the write-back's transaction, in any later state, whoever makes it. */
  lemma RetryWaitsItsBackoff(cfg: Config, s: World, w: nat, began: Time, delay: nat, steps: seq<Step>, v: nat)
    requires Reachable(cfg, s) && CanWriteBack(cfg, s, w, began, delay)
    requires WriteBack(s.db, cfg, s.workers[w].claim, s.workers[w].reply, began, delay).1 == Retrying
    requires IsRun(cfg, DoWriteBack(cfg, s, w, began, delay), steps)
    requires CanInsertAttempt(cfg, After(cfg, DoWriteBack(cfg, s, w, began, delay), steps), v)
    requires After(cfg, DoWriteBack(cfg, s, w, began, delay), steps).workers[v].claim.delivery == s.workers[w].claim.delivery
    ensures began + delay <= After(cfg, DoWriteBack(cfg, s, w, began, delay), steps).clock
  {
    hide Inv, IsRun, After, WriteBack, Grows, CanInsertAttempt;
    ReachableInv(cfg, s);
    var s1 := DoWriteBack(cfg, s, w, began, delay);
    RetryRow(s.db, cfg, s.workers[w].claim, s.workers[w].reply, began, delay);
    StepKeepsInv(cfg, s, Work(w, Finish(began, delay)));
    RunGrows(cfg, s1, steps);
    RunKeepsInv(cfg, s1, steps);
    PickedIsReady(cfg, After(cfg, s1, steps), v);
    NextAttemptsGrow(s1.db, After(cfg, s1, steps).db, s.workers[w].claim.delivery);
  }

  lemma RetryRow(db: DB, cfg: Config, c: Claim, reply: Reply, now: Time, delay: nat)
    requires c.delivery < |db.deliveries| && c.attempt < |db.attempts| && WriteBack(db, cfg, c, reply, now, delay).1 == Retrying
    ensures var db' := WriteBack(db, cfg, c, reply, now, delay).0; c.delivery < |db'.deliveries| && db'.deliveries[c.delivery].nextAttemptAt == now + delay
  {
  }

  lemma NextAttemptsGrow(db: DB, db': DB, d: nat)
    requires Grows(db, db') && d < |db.deliveries|
    ensures d < |db'.deliveries| && db.deliveries[d].nextAttemptAt <= db'.deliveries[d].nextAttemptAt
  {
  }

  lemma PickedIsReady(cfg: Config, s: World, w: nat)
    requires Inv(cfg, s) && CanInsertAttempt(cfg, s, w)
    ensures s.workers[w].claim.delivery < |s.db.deliveries| && s.db.deliveries[s.workers[w].claim.delivery].nextAttemptAt <= s.clock
  {
    hide AttemptInv, GateInv, ExpansionInv, EffectInv, LeaseInv;
    InTimeOwns(cfg, s, w);
  }

  // -------------------------------------------------------------- accounting

  /** The attempts of a delivery that were sent are numbered 1..attempt_count. The count is one for each
      retry, one for each lease expiry and one more unless it is pending; it is bounded by the ceiling
      plus the lease expiries, and the backoff scheduled for a delivery by the sum of the ceilings. */
  lemma AttemptsAreAccountedFor(cfg: Config, s: World, d: nat)
    requires Reachable(cfg, s) && d < |s.db.deliveries|
    ensures SentNumbers(s.db.attempts, d) == UpTo(s.db.deliveries[d].attemptCount)
    ensures s.db.deliveries[d].attemptCount == s.db.deliveries[d].retries + s.db.deliveries[d].expiries + (if s.db.deliveries[d].state == Pending then 0 else 1)
    ensures s.db.deliveries[d].attemptCount <= Max(1, cfg.maxAttempts) + s.db.deliveries[d].expiries
    ensures s.db.deliveries[d].scheduled <= CeilingSum(cfg, cfg.maxAttempts - 1)
  {
    ReachableInv(cfg, s);
    assert SentNumbers(s.db.attempts, d) == UpTo(s.db.deliveries[d].attemptCount) && Accounted(cfg, s.db.deliveries[d]);
    hide LeaseInv, AttemptInv, GateInv, ExpansionInv, EffectInv, Accounted, SentNumbers;
    Bounds(cfg, s.db.deliveries[d]);
  }

  lemma Bounds(cfg: Config, d: Delivery)
    requires Accounted(cfg, d)
    ensures d.attemptCount == d.retries + d.expiries + (if d.state == Pending then 0 else 1)
    ensures d.attemptCount <= Max(1, cfg.maxAttempts) + d.expiries
    ensures d.scheduled <= CeilingSum(cfg, cfg.maxAttempts - 1)
  {
    CeilingSumMonotone(cfg, Min(d.attemptCount - (if d.state == InFlight then 1 else 0), cfg.maxAttempts - 1), cfg.maxAttempts - 1);
  }

  function WinsOf(at: seq<Attempt>, d: nat): set<nat> {
    set a: nat | a < |at| && at[a].delivery == d && Won(at[a])
  }

  /** A delivery is succeeded exactly when one of its attempts got a 2xx; and then only one did. */
  lemma SucceededMeansOneWin(cfg: Config, s: World, d: nat)
    requires Reachable(cfg, s) && d < |s.db.deliveries|
    ensures |WinsOf(s.db.attempts, d)| == if s.db.deliveries[d].state == Succeeded then 1 else 0
  {
    ReachableInv(cfg, s);
    OneWin(s.db.deliveries, s.db.attempts, d);
  }

  lemma OneWin(ds: seq<Delivery>, at: seq<Attempt>, d: nat)
    requires WinsOk(ds, at) && d < |ds|
    ensures |WinsOf(at, d)| == if ds[d].state == Succeeded then 1 else 0
  {
    if ds[d].state == Succeeded {
      var a :| 0 <= a < |at| && at[a].delivery == d && Won(at[a]);
      assert WinsOf(at, d) == {a};
    } else {
      assert WinsOf(at, d) == {};
    }
  }

  // -------------------------------------------------------------------- gate

  /** An endpoint's failed deliveries number at most its resumes plus one. */
  lemma OneFailurePerResume(cfg: Config, s: World, e: nat)
    requires Reachable(cfg, s) && e < |s.db.endpoints|
    ensures |FailedAt(s.db.deliveries, e)| <= s.db.endpoints[e].resumes + 1
    ensures s.db.endpoints[e].status == Halted ==> !s.db.endpoints[e].busy
  {
    ReachableInv(cfg, s);
  }

  predicate Fresh(d: Delivery) {
    d.state == Pending && d.attemptCount == 0 && d.expiries == 0
  }

  /** Delivery `i` is as it was, or as it was appended. */
  predicate Untouched(ds: seq<Delivery>, ds': seq<Delivery>, i: nat) {
    i < |ds'| && if i < |ds| then ds'[i] == ds[i] else Fresh(ds'[i])
  }

  /** Of `e`, nothing changed. */
  ghost predicate AllUntouched(ds: seq<Delivery>, ds': seq<Delivery>, e: nat) {
    |ds| <= |ds'| && forall i: nat :: i < |ds'| && ds'[i].endpoint == e ==> Untouched(ds, ds', i)
  }

  ghost predicate SameEndpoints(ds: seq<Delivery>, ds': seq<Delivery>) {
    |ds| <= |ds'| && forall i :: 0 <= i < |ds| ==> ds'[i].endpoint == ds[i].endpoint
  }

  /** Nobody may claim `e`, and nobody has. */
  predicate Shut(db: DB, e: nat) {
    e < |db.endpoints| && db.endpoints[e].status != Active && !db.endpoints[e].busy
  }

  /** Nothing was recorded for `e`, none of its deliveries changed, and it is still shut. */
  ghost predicate StillShut(db: DB, db': DB, e: nat) {
    && e < |db.endpoints| && Shut(db', e) && db'.endpoints[e].gated == db.endpoints[e].gated
    && SameEndpoints(db.deliveries, db'.deliveries) && AllUntouched(db.deliveries, db'.deliveries, e)
    && |db'.attempts| >= |db.attempts|
    && forall a :: |db.attempts| <= a < |db'.attempts| && db'.attempts[a].delivery < |db'.deliveries| ==>
         db'.deliveries[db'.attempts[a].delivery].endpoint != e
  }

  lemma ShutIsUntouched(db: DB, db': DB, e: nat)
    requires StillShut(db, db', e)
    ensures e < |db.endpoints| && Shut(db', e) && db'.endpoints[e].gated == db.endpoints[e].gated
    ensures SameEndpoints(db.deliveries, db'.deliveries) && AllUntouched(db.deliveries, db'.deliveries, e)
  {
  }

  lemma ShutForOneStep(cfg: Config, s: World, st: Step, e: nat)
    requires Inv(cfg, s) && Enabled(cfg, s, st) && Shut(s.db, e) && st != Api(Resume(e))
    ensures StillShut(s.db, Apply(cfg, s, st).db, e)
  {
    assert LeaseColumns(s.db.endpoints[e], s.nextLease, s.clock);
    hide LeaseInv, AttemptInv, ExpansionInv, EffectInv, GateInv, StillShut;
    match st
    case Work(w, work) => ShutForWork(cfg, s, w, work, e);
    case Transact(x, tx) => ShutForTransact(s, x, tx, e);
    case Api(api) => ShutForApi(s, api, e);
    case Tick(_) => StaysShut(s.db, e);
    case Receive(_, _) => StaysShut(s.db, e);
  }

  lemma StaysShut(db: DB, e: nat)
    requires Shut(db, e)
    ensures StillShut(db, db, e)
  {
  }

  lemma ShutForTransact(s: World, x: nat, st: ExpansionStep, e: nat)
    requires CanTransact(s, x, st) && Shut(s.db, e)
    ensures StillShut(s.db, DoTransact(s, x, st).db, e)
  {
    hide CommitInOrder, WindowEvents, Subscribers;
  }

  lemma ShutForApi(s: World, st: ApiStep, e: nat)
    requires CanApi(s, st) && Shut(s.db, e) && st != Resume(e)
    ensures StillShut(s.db, DoApi(s, st).db, e)
  {
  }

  lemma ShutForWork(cfg: Config, s: World, w: nat, st: WorkerStep, e: nat)
    requires LeaseInv(cfg, s) && CanWork(cfg, s, w, st) && Shut(s.db, e) && s.db.endpoints[e].leaseId.None?
    ensures StillShut(s.db, DoWork(cfg, s, w, st).db, e)
  {
    hide LeaseInv, StillShut;
    if !WritesRows(st) {
      OtherWorkOnlyLeases(cfg, s, w, st);
      hide DoWork, CanWork;
      LeasesLeaveShut(s.db, DoWork(cfg, s, w, st).db, e);
    } else if st.Finish? {
      FinishLeavesShut(cfg, s, w, st.began, st.delay, e);
    } else {
      ClaimLeavesShut(cfg, s, w, st, e);
    }
  }

  lemma LeasesLeaveShut(db: DB, db': DB, e: nat)
    requires Shut(db, e) && Shut(db', e) && db'.endpoints[e].gated == db.endpoints[e].gated
    requires db'.deliveries == db.deliveries && db'.attempts == db.attempts
    ensures StillShut(db, db', e)
  {
  }

  /** What happens at another endpoint leaves this one shut. */
  lemma ElsewhereLeavesShut(db: DB, db': DB, at: nat, e: nat)
    requires Local(db, db', at) && at != e && Shut(db, e)
    ensures StillShut(db, db', e)
  {
  }

  lemma FinishLeavesShut(cfg: Config, s: World, w: nat, began: Time, delay: nat, e: nat)
    requires LeaseInv(cfg, s) && CanWriteBack(cfg, s, w, began, delay) && Shut(s.db, e) && s.db.endpoints[e].leaseId.None?
    ensures StillShut(s.db, DoWriteBack(cfg, s, w, began, delay).db, e)
  {
    hide LeaseInv, StillShut, RowsOk, WriteBack, Local;
    WriteBackWorker(cfg, s, w, began, delay);
    if Owns(s.db, s.workers[w]) {
      WriteBackRowsChanged(s.db, cfg, s.workers[w].claim, s.workers[w].reply, began, delay);
      var e1 := s.workers[w].claim.endpoint;
      assert Local(s.db, DoWriteBack(cfg, s, w, began, delay).db, e1) by { WriteBackIsLocal(s.db, cfg, s.workers[w].claim, s.workers[w].reply, began, delay); }
      ElsewhereLeavesShut(s.db, DoWriteBack(cfg, s, w, began, delay).db, e1, e);
    } else {
      LeasesLeaveShut(s.db, s.db, e);
    }
  }

  lemma WriteBackIsLocal(db: DB, cfg: Config, c: Claim, reply: Reply, now: Time, delay: nat)
    requires SendingOk(db, c) && HoldsLease(db, c.endpoint, c.lease)
    ensures Local(db, WriteBack(db, cfg, c, reply, now, delay).0, c.endpoint)
  {
    WriteBackRowsChanged(db, cfg, c, reply, now, delay);
    hide WriteBack;
  }

  lemma ClaimLeavesShut(cfg: Config, s: World, w: nat, st: WorkerStep, e: nat)
    requires LeaseInv(cfg, s) && CanWork(cfg, s, w, st) && WritesRows(st) && !st.Finish?
    requires Shut(s.db, e) && s.db.endpoints[e].leaseId.None?
    ensures StillShut(s.db, DoWork(cfg, s, w, st).db, e)
  {
    hide LeaseInv, StillShut, RowsOk, WorkerOk, Local, InsertedOk, OrphansClosed, NoneInFlight, AtHead;
    InTimeOwns(cfg, s, w);
    var at := s.workers[w].claim.endpoint;
    match st
    case CloseOrphanRows =>
      CloseOrphansRows(s.db, at, s.nextLease, s.clock);
      ElsewhereLeavesShut(s.db, CloseOrphans(s.db, at), at, e);
    case RequeueRow =>
      RequeueRows(s.db, at, s.nextLease, s.clock);
      ElsewhereLeavesShut(s.db, RequeueInFlight(s.db, at), at, e);
    case InsertRow =>
      var c := s.workers[w].claim;
      HeadExists(s.db.deliveries, c.delivery);
      InsertAttemptRows(s.db, c.delivery, c.number, s.nextLease, s.clock);
      ElsewhereLeavesShut(s.db, InsertAttempt(s.db, c.delivery, c.number), at, e);
    case MarkRow =>
      var c := s.workers[w].claim;
      assert s.db.endpoints[at].busy by { LeasedIsBusy(cfg, s, w); }
      MarkInFlightRows(s.db, c, s.nextLease, s.clock);
      ElsewhereLeavesShut(s.db, MarkInFlight(s.db, c.delivery, c.number, c.attempt), at, e);
  }

  lemma LeasedIsBusy(cfg: Config, s: World, w: nat)
    requires LeaseInv(cfg, s) && w in s.workers && Owns(s.db, s.workers[w])
    ensures s.db.endpoints[s.workers[w].claim.endpoint].busy
  {
    RowsOf(cfg, s);
    hide LeaseInv;
    assert LeaseColumns(s.db.endpoints[s.workers[w].claim.endpoint], s.nextLease, s.clock);
  }

  /** An endpoint that is not active and that no worker holds gets no attempt until the next resume, and none
      of its deliveries changes, in any run, whatever else happens. */
  lemma NothingIsAttemptedWhileShut(cfg: Config, s: World, steps: seq<Step>, e: nat)
    requires Reachable(cfg, s) && IsRun(cfg, s, steps) && e < |s.db.endpoints| && s.db.endpoints[e].status != Active && !s.db.endpoints[e].busy
    requires forall k :: 0 <= k < |steps| ==> steps[k] != Api(Resume(e))
    ensures var db' := After(cfg, s, steps).db;
            && |s.db.attempts| <= |db'.attempts| && e < |db'.endpoints| && db'.endpoints[e].status != Active && !db'.endpoints[e].busy
            && forall a :: |s.db.attempts| <= a < |db'.attempts| ==>
                 db'.attempts[a].delivery < |db'.deliveries| && db'.deliveries[db'.attempts[a].delivery].endpoint != e
    ensures forall i :: 0 <= i < |s.db.deliveries| && s.db.deliveries[i].endpoint == e ==>
              i < |After(cfg, s, steps).db.deliveries| && After(cfg, s, steps).db.deliveries[i] == s.db.deliveries[i]
  {
    hide Inv, IsRun, After;
    ReachableInv(cfg, s);
    ShutForARun(cfg, s, steps, e);
    RunKeepsInv(cfg, s, steps);
    AttemptsHaveDeliveries(cfg, After(cfg, s, steps));
    UntouchedRows(s.db.deliveries, After(cfg, s, steps).db.deliveries, e);
  }

  lemma UntouchedRows(ds: seq<Delivery>, ds': seq<Delivery>, e: nat)
    requires SameEndpoints(ds, ds') && AllUntouched(ds, ds', e)
    ensures |ds| <= |ds'| && forall i :: 0 <= i < |ds| && ds[i].endpoint == e ==> ds'[i] == ds[i]
  {
    forall i: nat | i < |ds| && ds[i].endpoint == e ensures ds'[i] == ds[i] {
      assert Untouched(ds, ds', i);
    }
  }

  /** A halted endpoint is one of those: it is idle from the moment it halts, and pausing it does not open
      it either. */
  lemma NothingIsAttemptedWhileHalted(cfg: Config, s: World, steps: seq<Step>, e: nat)
    requires Reachable(cfg, s) && IsRun(cfg, s, steps) && e < |s.db.endpoints| && s.db.endpoints[e].status == Halted
    requires forall k :: 0 <= k < |steps| ==> steps[k] != Api(Resume(e))
    ensures var db' := After(cfg, s, steps).db;
            && |s.db.attempts| <= |db'.attempts| && e < |db'.endpoints| && db'.endpoints[e].status != Active && !db'.endpoints[e].busy
            && forall a :: |s.db.attempts| <= a < |db'.attempts| ==>
                 db'.attempts[a].delivery < |db'.deliveries| && db'.deliveries[db'.attempts[a].delivery].endpoint != e
    ensures forall i :: 0 <= i < |s.db.deliveries| && s.db.deliveries[i].endpoint == e ==>
              i < |After(cfg, s, steps).db.deliveries| && After(cfg, s, steps).db.deliveries[i] == s.db.deliveries[i]
  {
    hide IsRun, After, Reachable;
    OneFailurePerResume(cfg, s, e);
    NothingIsAttemptedWhileShut(cfg, s, steps, e);
  }

  lemma HaltedIsGated(cfg: Config, s: World, e: nat)
    requires Inv(cfg, s) && e < |s.db.endpoints|
    ensures s.db.endpoints[e].status == Halted ==> s.db.endpoints[e].gated
    ensures s.db.endpoints[e].gated ==> Shut(s.db, e)
  {
    hide LeaseInv, AttemptInv, ExpansionInv, EffectInv;
  }

  lemma {:induction false} ShutForARun(cfg: Config, s: World, steps: seq<Step>, e: nat)
    requires Inv(cfg, s) && IsRun(cfg, s, steps) && Shut(s.db, e)
    requires forall k :: 0 <= k < |steps| ==> steps[k] != Api(Resume(e))
    ensures StillShut(s.db, After(cfg, s, steps).db, e)
    decreases |steps|
  {
    if steps == [] {
      hide Inv;
    } else {
      hide Inv, StillShut, Enabled, Apply, Grows;
      var s1 := Apply(cfg, s, steps[0]);
      StepKeepsInv(cfg, s, steps[0]);
      ShutForOneStep(cfg, s, steps[0], e);
      ShutIsUntouched(s.db, s1.db, e);
      AttemptsHaveDeliveries(cfg, s1);
      ShutForARun(cfg, s1, steps[1..], e);
      RunGrows(cfg, s1, steps[1..]);
      ShutStays(s.db, s1.db, After(cfg, s, steps).db, e);
    }
  }

  lemma UntouchedTwice(a: seq<Delivery>, b: seq<Delivery>, c: seq<Delivery>, e: nat)
    requires AllUntouched(a, b, e) && AllUntouched(b, c, e) && SameEndpoints(a, b) && SameEndpoints(b, c)
    ensures AllUntouched(a, c, e) && SameEndpoints(a, c)
  {
    forall i: nat | i < |c| && c[i].endpoint == e ensures Untouched(a, c, i) {
      assert Untouched(b, c, i);
      if i < |b| { assert Untouched(a, b, i); }
    }
  }

  lemma AttemptsHaveDeliveries(cfg: Config, s: World)
    requires Inv(cfg, s)
    ensures forall a :: 0 <= a < |s.db.attempts| ==> s.db.attempts[a].delivery < |s.db.deliveries|
  {
    hide AttemptInv, GateInv, ExpansionInv, EffectInv, WorkerOk;
  }

  lemma ShutStays(a: DB, b: DB, c: DB, e: nat)
    requires StillShut(a, b, e) && StillShut(b, c, e) && Grows(b, c)
    requires forall x :: 0 <= x < |b.attempts| ==> b.attempts[x].delivery < |b.deliveries|
    ensures StillShut(a, c, e)
  {
    UntouchedTwice(a.deliveries, b.deliveries, c.deliveries, e);
    hide AllUntouched;
  }

  // ----------------------------------------------------------------- effects

  function Times(effects: seq<nat>, ev: nat): nat {
    |set i | 0 <= i < |effects| && effects[i] == ev|
  }

  /** A conforming receiver runs each event's business logic successfully at most once, and has run
      it for every delivery marked succeeded. */
  lemma EffectHappensOnce(cfg: Config, s: World, e: nat, ev: nat)
    requires Reachable(cfg, s) && Conforms(s, e)
    ensures Times(s.receivers[e].value.effects, ev) <= 1
    ensures forall d :: 0 <= d < |s.db.deliveries| && s.db.deliveries[d].endpoint == e && s.db.deliveries[d].event == ev && s.db.deliveries[d].state == Succeeded ==>
              ev in s.receivers[e].value.processed && Times(s.receivers[e].value.effects, ev) == 1
  {
    ReachableInv(cfg, s);
    assert ReceiverOk(s.receivers[e].value);
    DistinctOnce(s.receivers[e].value.effects, ev);
    forall d | 0 <= d < |s.db.deliveries| && s.db.deliveries[d].endpoint == e && s.db.deliveries[d].event == ev && s.db.deliveries[d].state == Succeeded
      ensures ev in s.receivers[e].value.processed
    {
      assert Done(s, d);
    }
  }

  lemma DistinctOnce(effects: seq<nat>, ev: nat)
    requires forall i, j :: 0 <= i < j < |effects| ==> effects[i] != effects[j]
    ensures Times(effects, ev) == if ev in effects then 1 else 0
  {
    var ids := set i | 0 <= i < |effects| && effects[i] == ev;
    if ev in effects {
      var i :| 0 <= i < |effects| && effects[i] == ev;
      assert ids == {i};
    } else {
      assert ids == {};
    }
  }

  // --------------------------------------------------- publishing and replay

  function LiveRows(ds: seq<Delivery>, ev: nat, e: nat): set<nat> {
    set i: nat | i < |ds| && LiveRow(ds, i, ev, e)
  }

  /** An event has exactly one live delivery for each endpoint that was registered and subscribed
      when it was expanded, whatever that endpoint's status, and none before. */
  lemma FanOutHappensOnce(cfg: Config, s: World, ev: nat, e: nat)
    requires Reachable(cfg, s) && ev < |s.db.events|
    ensures var event := s.db.events[ev];
            |LiveRows(s.db.deliveries, ev, e)|
            == if event.status == Expanded && e < event.registered && e < |s.db.endpoints|
                  && s.db.endpoints[e].tenant == event.tenant && event.eventType in s.db.endpoints[e].eventTypes then 1 else 0
  {
    ReachableInv(cfg, s);
    OneLiveRow(s.db, ev, e);
  }

  /** No endpoint gets an event of another tenant, or of a type it did not ask for, by fan-out or by replay. */
  lemma DeliveredToSubscribers(cfg: Config, s: World, d: nat)
    requires Reachable(cfg, s) && d < |s.db.deliveries|
    ensures var row := s.db.deliveries[d];
            && row.event < |s.db.events| && row.endpoint < |s.db.endpoints|
            && s.db.endpoints[row.endpoint].tenant == s.db.events[row.event].tenant
            && s.db.events[row.event].eventType in s.db.endpoints[row.endpoint].eventTypes
  {
    ReachableInv(cfg, s);
    hide LeaseInv, AttemptInv, GateInv, EffectInv, LiveOrder, PublishOk, ReplayOk, ExpandersOk, ReplayersOk;
    var row := s.db.deliveries[d];
    assert Rooted(s.db.deliveries, row.event, row.endpoint);
    var j: nat :| LiveRow(s.db.deliveries, j, row.event, row.endpoint);
  }

  lemma OneLiveRow(db: DB, ev: nat, e: nat)
    requires FanOutOk(db) && ev < |db.events|
    ensures |LiveRows(db.deliveries, ev, e)| == if db.events[ev].status == Expanded && Subscribed(db, ev, e) then 1 else 0
  {
    if db.events[ev].status == Expanded && Subscribed(db, ev, e) {
      var i: nat :| LiveRow(db.deliveries, i, ev, e);
      assert LiveRows(db.deliveries, ev, e) == {i};
    } else {
      assert LiveRows(db.deliveries, ev, e) == {};
    }
  }

  /** `e` has a row from row `n` of the table on. */
  ghost predicate HasRowFrom(ds: seq<Delivery>, n: nat, e: nat) {
    exists j :: n <= j < |ds| && ds[j].endpoint == e
  }

  /** One fresh row of event `ev` behind `ds` for exactly the endpoints in `targets`. */
  ghost predicate FannedOut(ds: seq<Delivery>, ds': seq<Delivery>, ev: nat, now: Time, targets: seq<nat>) {
    && |ds| <= |ds'| && ds'[..|ds|] == ds
    && (forall j :: |ds| <= j < |ds'| ==> FreshCopy(ds'[j], ev, now))
    && (forall e: nat :: HasRowFrom(ds', |ds|, e) <==> e in targets)
    && (forall i, j :: |ds| <= i < j < |ds'| ==> ds'[i].endpoint != ds'[j].endpoint)
  }

  lemma OneRowPerTarget(ds: seq<Delivery>, rows: seq<Delivery>, ev: nat, now: Time, targets: seq<nat>)
    requires |rows| == |targets| && forall j, k :: 0 <= j < k < |targets| ==> targets[j] < targets[k]
    requires forall k :: 0 <= k < |rows| ==> rows[k].endpoint == targets[k] && FreshCopy(rows[k], ev, now)
    ensures FannedOut(ds, ds + rows, ev, now, targets)
  {
    hide FreshCopy, HasRowFrom;
    var ds', n := ds + rows, |ds|;
    assert ds'[..n] == ds;
    assert forall j :: n <= j < |ds'| ==> ds'[j] == rows[j - n];
    forall e: nat ensures HasRowFrom(ds', n, e) <==> e in targets { RowIffTarget(ds', n, targets, e); }
    TargetsOnce(ds', n, targets);
  }

  lemma RowIffTarget(ds: seq<Delivery>, n: nat, targets: seq<nat>, e: nat)
    requires |ds| == n + |targets| && forall j :: n <= j < |ds| ==> ds[j].endpoint == targets[j - n]
    ensures HasRowFrom(ds, n, e) <==> e in targets
  {
    if HasRowFrom(ds, n, e) {
      var j :| n <= j < |ds| && ds[j].endpoint == e;
      assert targets[j - n] == e;
    }
    if e in targets {
      var k :| 0 <= k < |targets| && targets[k] == e;
      assert ds[n + k].endpoint == targets[n + k - n];
    }
  }

  lemma TargetsOnce(ds: seq<Delivery>, n: nat, targets: seq<nat>)
    requires |ds| == n + |targets| && forall j :: n <= j < |ds| ==> ds[j].endpoint == targets[j - n]
    requires forall j, k :: 0 <= j < k < |targets| ==> targets[j] < targets[k]
    ensures forall i, j :: n <= i < j < |ds| ==> ds[i].endpoint != ds[j].endpoint
  {
    forall i, j | n <= i < j < |ds| ensures ds[i].endpoint != ds[j].endpoint {
      assert targets[i - n] < targets[j - n];
    }
  }

  /** What an expansion appends: one pending delivery, ready at once, for each subscriber; nothing else
      of the queues moves. */
  lemma ExpansionAppends(s: World, x: nat, seqs: seq<int>)
    requires CanExpand(s, x, seqs)
    ensures var ev := s.expanders[x].event.value; var db' := DoExpand(s, x, seqs).db; var n := |s.db.deliveries|;
            && n <= |db'.deliveries| && db'.deliveries[..n] == s.db.deliveries && db'.events[ev].status == Expanded
            && (forall j :: n <= j < |db'.deliveries| ==> FreshCopy(db'.deliveries[j], ev, s.expanders[x].began))
            && (forall e: nat :: HasRowFrom(db'.deliveries, n, e)
                                 <==> e < |s.db.endpoints| && s.db.endpoints[e].tenant == s.db.events[ev].tenant
                                      && s.db.events[ev].eventType in s.db.endpoints[e].eventTypes)
            && (forall i, j :: n <= i < j < |db'.deliveries| ==> db'.deliveries[i].endpoint != db'.deliveries[j].endpoint)
  {
    hide CommitInOrder, Ids, HasRowFrom, Subscribers;
    var ev, began := s.expanders[x].event.value, s.expanders[x].began;
    var rows := FanOut(s.db, ev, seqs, began);
    var targets := Subscribers(s.db, s.db.events[ev].tenant, s.db.events[ev].eventType);
    assert DoExpand(s, x, seqs).db.deliveries == s.db.deliveries + rows;
    OneRowPerTarget(s.db.deliveries, rows, ev, began, targets);
    hide FreshCopy, FanOut;
    forall e: nat
      ensures e in targets <==> e < |s.db.endpoints| && s.db.endpoints[e].tenant == s.db.events[ev].tenant
                                && s.db.events[ev].eventType in s.db.endpoints[e].eventTypes
    {
    }
  }

  predicate FreshCopy(d: Delivery, ev: nat, now: Time) {
    d.event == ev && d.state == Pending && d.attemptCount == 0 && d.nextAttemptAt == now && d.createdAt == now && d.origin == FromEvent
  }

  /** All publishes under one (tenant, key) return one id, and only the first adds a row. */
  lemma PublishIsIdempotent(cfg: Config, s: World, steps: seq<Step>, t: nat, key: string, type1: string, type2: string, sq1: int, sq2: int)
    requires Reachable(cfg, s) && CanApi(s, Publish(t, key, type1, sq1)) && IsRun(cfg, DoApi(s, Publish(t, key, type1, sq1)), steps)
    ensures var s' := After(cfg, DoApi(s, Publish(t, key, type1, sq1)), steps);
            PublishEvent(s'.db, t, key, type2, sq2) == (s'.db, PublishEvent(s.db, t, key, type1, sq1).1)
  {
    hide Inv, IsRun, After, PublishEvent;
    ReachableInv(cfg, s);
    PublishStores(s.db, t, key, type1, sq1);
    ApiKeepsInv(cfg, s, Publish(t, key, type1, sq1));
    LaterPublish(cfg, DoApi(s, Publish(t, key, type1, sq1)), steps, PublishEvent(s.db, t, key, type1, sq1).1, t, key, type2, sq2);
  }

  lemma PublishStores(db: DB, t: nat, key: string, eventType: string, sq: int)
    ensures var (db', id) := PublishEvent(db, t, key, eventType, sq); id < |db'.events| && db'.events[id].tenant == t && db'.events[id].key == key
  {
  }

  lemma LaterPublish(cfg: Config, s: World, steps: seq<Step>, id: nat, t: nat, key: string, eventType: string, sq: int)
    requires Inv(cfg, s) && IsRun(cfg, s, steps) && id < |s.db.events| && s.db.events[id].tenant == t && s.db.events[id].key == key
    ensures PublishEvent(After(cfg, s, steps).db, t, key, eventType, sq) == (After(cfg, s, steps).db, id)
  {
    hide IsRun, After, LeaseInv, AttemptInv, GateInv, EffectInv, FanOutOk, LiveOrder, PublishOk, ReplayOk, ExpandersOk, ReplayersOk;
    RunGrows(cfg, s, steps);
    RunKeepsInv(cfg, s, steps);
    var db' := After(cfg, s, steps).db;
    SameKeySameEvent(db', id, EventByKey(db'.events, t, key), t, key);
  }

  lemma SameKeySameEvent(db: DB, id: nat, found: Option<nat>, t: nat, key: string)
    requires PublishOk(db) && found == EventByKey(db.events, t, key)
    requires id < |db.events| && db.events[id].tenant == t && db.events[id].key == key
    ensures found == Some(id)
  {
  }

  /** The same for replay requests under one (endpoint, key). */
  lemma ReplayRequestIsIdempotent(cfg: Config, s: World, steps: seq<Step>, e: nat, key: string, from1: Time, until1: Time, began1: Time, from2: Time, until2: Time, began2: Time)
    requires Reachable(cfg, s) && CanApi(s, AskReplay(e, key, from1, until1, began1)) && IsRun(cfg, DoApi(s, AskReplay(e, key, from1, until1, began1)), steps)
    ensures var s' := After(cfg, DoApi(s, AskReplay(e, key, from1, until1, began1)), steps);
            RequestReplay(s'.db, e, key, from2, until2, began2) == (s'.db, RequestReplay(s.db, e, key, from1, until1, began1).1)
  {
    hide Inv, IsRun, After, RequestReplay;
    ReachableInv(cfg, s);
    RequestStores(s.db, e, key, from1, until1, began1);
    ApiKeepsInv(cfg, s, AskReplay(e, key, from1, until1, began1));
    LaterRequest(cfg, DoApi(s, AskReplay(e, key, from1, until1, began1)), steps, RequestReplay(s.db, e, key, from1, until1, began1).1, e, key, from2, until2, began2);
  }

  lemma RequestStores(db: DB, e: nat, key: string, from: Time, until: Time, began: Time)
    ensures var (db', id) := RequestReplay(db, e, key, from, until, began); id < |db'.replays| && db'.replays[id].endpoint == e && db'.replays[id].key == key
  {
  }

  lemma LaterRequest(cfg: Config, s: World, steps: seq<Step>, id: nat, e: nat, key: string, from: Time, until: Time, began: Time)
    requires Inv(cfg, s) && IsRun(cfg, s, steps) && id < |s.db.replays| && s.db.replays[id].endpoint == e && s.db.replays[id].key == key
    ensures RequestReplay(After(cfg, s, steps).db, e, key, from, until, began) == (After(cfg, s, steps).db, id)
  {
    hide IsRun, After, LeaseInv, AttemptInv, GateInv, EffectInv, FanOutOk, LiveOrder, PublishOk, ReplayOk, ExpandersOk, ReplayersOk;
    RunGrows(cfg, s, steps);
    RunKeepsInv(cfg, s, steps);
    var db' := After(cfg, s, steps).db;
    SameKeySameReplay(db', id, ReplayByKey(db'.replays, e, key), e, key);
  }

  lemma SameKeySameReplay(db: DB, id: nat, found: Option<nat>, e: nat, key: string)
    requires ReplayOk(db) && found == ReplayByKey(db.replays, e, key)
    requires id < |db.replays| && db.replays[id].endpoint == e && db.replays[id].key == key
    ensures found == Some(id)
  {
  }

  /** What a replay appends: one fresh pending delivery for each delivery of its endpoint, created in its
      range, that succeeded or failed, in queue order and behind everything the endpoint already has;
      nothing else moves. */
  lemma ReplayAppendsItsWindow(cfg: Config, s: World, x: nat, seqs: seq<int>)
    requires Reachable(cfg, s) && CanExpandReplay(s, x, seqs)
    ensures CopiesRows(s.db, DoExpandReplay(s, x, seqs).db, s.db.replays[s.replayers[x].replay], s.replayers[x].began)
    ensures CopiesInOrder(s.db, DoExpandReplay(s, x, seqs).db, s.db.replays[s.replayers[x].replay])
  {
    ReachableInv(cfg, s);
    assert QueueOrder(s.db.deliveries);
    hide LeaseInv, AttemptInv, GateInv, ExpansionInv, EffectInv, QueueOrder, CopiesRows, CopiesInOrder, ReplayRows;
    ReplayCopies(s.db, s.replayers[x].replay, seqs, s.replayers[x].began);
  }

  ghost predicate CopiesRows(db: DB, db': DB, r: Replay, now: Time) {
    var ids, n := Window(db, r), |db.deliveries|;
    && |db'.deliveries| == n + |ids| && db'.deliveries[..n] == db.deliveries
    && (forall i: nat :: i in ids
                         <==> i < n && db.deliveries[i].endpoint == r.endpoint && r.rangeStart <= db.deliveries[i].createdAt <= r.rangeEnd
                              && (db.deliveries[i].state == Succeeded || db.deliveries[i].state == Failed))
    && (forall k :: 0 <= k < |ids| ==>
          var original, copy := db.deliveries[ids[k]], db'.deliveries[n + k];
          && copy.endpoint == r.endpoint && copy.event == original.event
          && copy.state == Pending && copy.attemptCount == 0 && copy.nextAttemptAt == now && copy.createdAt == now)
  }

  ghost predicate CopiesInOrder(db: DB, db': DB, r: Replay) {
    var ids, n := Window(db, r), |db.deliveries|;
    && (forall j, k :: 0 <= j < k < |ids| ==> db.deliveries[ids[j]].seqNo < db.deliveries[ids[k]].seqNo)
    && (forall i, j :: 0 <= i < j < |db'.deliveries| && n <= j && db'.deliveries[i].endpoint == r.endpoint ==> db'.deliveries[i].seqNo < db'.deliveries[j].seqNo)
  }

  lemma ReplayCopies(db: DB, r: nat, seqs: seq<int>, now: Time)
    requires QueueOrder(db.deliveries) && r < |db.replays| && |seqs| == |Window(db, db.replays[r])| && CommitInOrder(db.deliveries, ReplayRows(db, r, seqs, now))
    ensures CopiesRows(db, ExpandReplay(db, r, seqs, now), db.replays[r], now)
    ensures CopiesInOrder(db, ExpandReplay(db, r, seqs, now), db.replays[r])
  {
    hide CopiesRows, CopiesInOrder, QueueOrder, CommitInOrder, ReplayRows;
    ReplayCopiesRows(db, r, seqs, now);
    ReplayCopiesInOrder(db, r, seqs, now);
  }

  lemma ReplayCopiesRows(db: DB, r: nat, seqs: seq<int>, now: Time)
    requires r < |db.replays| && |seqs| == |Window(db, db.replays[r])|
    ensures CopiesRows(db, ExpandReplay(db, r, seqs, now), db.replays[r], now)
  {
    hide Ids;
    var rows := ReplayRows(db, r, seqs, now);
    assert ExpandReplay(db, r, seqs, now).deliveries == db.deliveries + rows;
  }

  lemma ReplayCopiesInOrder(db: DB, r: nat, seqs: seq<int>, now: Time)
    requires QueueOrder(db.deliveries) && r < |db.replays| && |seqs| == |Window(db, db.replays[r])| && CommitInOrder(db.deliveries, ReplayRows(db, r, seqs, now))
    ensures CopiesInOrder(db, ExpandReplay(db, r, seqs, now), db.replays[r])
  {
    hide Ids, CommitInOrder;
    var rows := ReplayRows(db, r, seqs, now);
    assert forall k :: 0 <= k < |rows| ==> rows[k].endpoint == db.replays[r].endpoint;
    QueueEndsInOrder(db.deliveries, rows, db.replays[r].endpoint);
    assert ExpandReplay(db, r, seqs, now).deliveries == db.deliveries + rows;
  }

  lemma QueueEndsInOrder(ds: seq<Delivery>, rows: seq<Delivery>, e: nat)
    requires CommitInOrder(ds, rows) && forall k :: 0 <= k < |rows| ==> rows[k].endpoint == e
    ensures forall i, j :: 0 <= i < j < |ds + rows| && |ds| <= j && (ds + rows)[i].endpoint == e ==> (ds + rows)[i].seqNo < (ds + rows)[j].seqNo
  {
  }

  /** And it appends it once: in every later state, the deliveries of that replay are that batch. */
  lemma ReplayHappensOnce(cfg: Config, s: World, steps: seq<Step>, x: nat, seqs: seq<int>)
    requires Reachable(cfg, s) && CanExpandReplay(s, x, seqs) && IsRun(cfg, DoExpandReplay(s, x, seqs), steps)
    ensures Batch(s.db.deliveries, s.replayers[x].replay) == []
    ensures Batch(After(cfg, DoExpandReplay(s, x, seqs), steps).db.deliveries, s.replayers[x].replay) == WindowEvents(s.db, s.db.replays[s.replayers[x].replay])
  {
    ReachableInv(cfg, s);
    hide IsRun, After, Batch, WindowEvents, DoExpandReplay, Inv;
    ReplayExpanded(cfg, s, x, seqs);
    BatchStays(cfg, DoExpandReplay(s, x, seqs), steps, s.replayers[x].replay);
  }

  lemma ReplayExpanded(cfg: Config, s: World, x: nat, seqs: seq<int>)
    requires Inv(cfg, s) && CanExpandReplay(s, x, seqs)
    ensures Batch(s.db.deliveries, s.replayers[x].replay) == [] && Inv(cfg, DoExpandReplay(s, x, seqs))
    ensures s.replayers[x].replay < |DoExpandReplay(s, x, seqs).db.replays| && DoExpandReplay(s, x, seqs).db.replays[s.replayers[x].replay].status == Expanded
    ensures DoExpandReplay(s, x, seqs).db.replays[s.replayers[x].replay].batch == WindowEvents(s.db, s.db.replays[s.replayers[x].replay])
  {
    hide LeaseInv, AttemptInv, GateInv, EffectInv, FanOutOk, LiveOrder, PublishOk, ExpandersOk, ReplayRows, WindowEvents, CommitInOrder;
    TransactKeepsInv(cfg, s, x, AppendReplay(seqs));
    assert s.db.replays[s.replayers[x].replay].status == PendingExpansion;
  }

  lemma BatchStays(cfg: Config, s: World, steps: seq<Step>, r: nat)
    requires Inv(cfg, s) && IsRun(cfg, s, steps) && r < |s.db.replays| && s.db.replays[r].status == Expanded
    ensures Batch(After(cfg, s, steps).db.deliveries, r) == s.db.replays[r].batch
  {
    hide IsRun, After, LeaseInv, AttemptInv, GateInv, EffectInv, FanOutOk, LiveOrder, PublishOk, ExpandersOk, ReplayersOk;
    RunGrows(cfg, s, steps);
    RunKeepsInv(cfg, s, steps);
  }
}
