/** Working off one endpoint, over any run of the system: how many claims that can take, and how it ends.
    Crashes, expired leases, other endpoints and new events may all happen in between. */
module Draining {
  import opened Tables
  import opened Protocol
  import opened LeaseInvariant
  import opened AttemptInvariant
  import opened GateInvariant
  import opened ExpansionInvariant
  import opened EffectInvariant
  import opened SystemInvariant
  import opened WriteOnce
  import opened Claiming
  import opened Guarantees

  // --------------------------------------------------- what one step does to a queue

  /** The step marks a delivery of endpoint `e` in flight: one claim of `e`. */
  predicate Claims(s: World, st: Step, e: nat) {
    st.Work? && st.work.MarkRow? && InPhase(s, st.w, Inserted) && s.workers[st.w].claim.endpoint == e
  }

  /** The step requeues the delivery of `e` whose lease ran out. */
  ghost predicate Expires(s: World, st: Step, e: nat) {
    st.Work? && st.work.RequeueRow? && InPhase(s, st.w, Closing) && s.workers[st.w].claim.endpoint == e && !NoneInFlight(s.db.deliveries, e)
  }

  /** Everything before `h` in its queue is resolved. */
  ghost predicate ResolvedBefore(ds: seq<Delivery>, h: nat)
    requires h < |ds|
  {
    forall i :: 0 <= i < h && ds[i].endpoint == ds[h].endpoint ==> Terminal(ds[i].state)
  }

  /** Of the old deliveries only `h` may differ, if it is one at all, and new ones are fresh. */
  ghost predicate OnlyOne(ds: seq<Delivery>, ds': seq<Delivery>, h: nat) {
    && |ds| <= |ds'|
    && (forall i :: 0 <= i < |ds| && i != h ==> ds'[i] == ds[i])
    && (forall i :: |ds| <= i < |ds'| ==> Fresh(ds'[i]))
  }

  /** Gates stay as they are, except at endpoint `at` and where an operator resumes. */
  ghost predicate SameGates(db: DB, db': DB, st: Step, at: int) {
    && |db.endpoints| <= |db'.endpoints|
    && forall e :: 0 <= e < |db.endpoints| && e != at && st != Api(Resume(e)) ==> db'.endpoints[e].gated == db.endpoints[e].gated
  }

  /** The step moved delivery `h`: the unresolved head of an endpoint that was open. It closes the
      endpoint exactly when it fails the delivery. */
  ghost predicate Moved(s: World, st: Step, s': World, h: nat) {
    && h < |s.db.deliveries| && OnlyOne(s.db.deliveries, s'.db.deliveries, h)
    && (var d, d' := s.db.deliveries[h], s'.db.deliveries[h];
        && d.endpoint < |s.db.endpoints| && d'.endpoint == d.endpoint && SameGates(s.db, s'.db, st, d.endpoint)
        && !s.db.endpoints[d.endpoint].gated && Unresolved(d.state) && ResolvedBefore(s.db.deliveries, h)
        && d'.attemptCount == d.attemptCount + (if Claims(s, st, d.endpoint) then 1 else 0)
        && d'.expiries == d.expiries + (if Expires(s, st, d.endpoint) then 1 else 0)
        && (d'.state == Failed <==> s'.db.endpoints[d.endpoint].gated)
        && forall e :: e != d.endpoint ==> !Claims(s, st, e) && !Expires(s, st, e))
  }

  /** The step moved no delivery. */
  ghost predicate Still(s: World, st: Step, s': World) {
    && OnlyOne(s.db.deliveries, s'.db.deliveries, |s.db.deliveries|) && SameGates(s.db, s'.db, st, -1)
    && forall e :: !Claims(s, st, e) && !Expires(s, st, e)
  }

  lemma TransactIsStill(s: World, x: nat, tx: ExpansionStep)
    requires CanTransact(s, x, tx)
    ensures Still(s, Transact(x, tx), DoTransact(s, x, tx))
  {
    hide CommitInOrder, WindowEvents, Subscribers;
  }

  lemma ApiIsStill(s: World, api: ApiStep)
    requires CanApi(s, api)
    ensures Still(s, Api(api), DoApi(s, api))
  {
    hide EventByKey, ReplayByKey;
  }

  lemma OtherIsStill(s: World, s': World, st: Step)
    requires st.Tick? || st.Receive? || (st.Work? && !WritesRows(st.work))
    requires OnlyLeases(s, s')
    ensures Still(s, st, s')
  {
  }

  lemma ClosingIsStill(cfg: Config, s: World, w: nat, st: WorkerStep)
    requires CanWork(cfg, s, w, st) && (st.CloseOrphanRows? || st.InsertRow?)
    ensures Still(s, Work(w, st), DoWork(cfg, s, w, st))
  {
  }

  lemma OwnedIsOpen(cfg: Config, s: World, w: nat)
    requires Inv(cfg, s) && w in s.workers && Owns(s.db, s.workers[w])
    ensures s.workers[w].claim.endpoint < |s.db.endpoints| && !s.db.endpoints[s.workers[w].claim.endpoint].gated
  {
    var e := s.workers[w].claim.endpoint;
    assert LeaseColumns(s.db.endpoints[e], s.nextLease, s.clock);
    hide LeaseInv, AttemptInv, ExpansionInv, EffectInv;
  }

  lemma RequeueMoves(cfg: Config, s: World, w: nat) returns (h: nat)
    requires Inv(cfg, s) && CanRequeue(cfg, s, w) && !NoneInFlight(s.db.deliveries, s.workers[w].claim.endpoint)
    ensures Moved(s, Work(w, RequeueRow), DoRequeue(s, w), h)
  {
    hide LeaseInv, AttemptInv, GateInv, ExpansionInv, EffectInv, WorkerOk, RowsOk, ResolvedBefore;
    var e := s.workers[w].claim.endpoint;
    InTimeOwns(cfg, s, w);
    OwnedIsOpen(cfg, s, w);
    h := RequeuesOne(s.db, s.nextLease, s.clock, e);
    assert Expires(s, Work(w, RequeueRow), e);
    hide NoneInFlight;
  }

  lemma RequeuesOne(db: DB, nextLease: nat, clock: Time, e: nat) returns (h: nat)
    requires RowsOk(db, nextLease, clock) && !NoneInFlight(db.deliveries, e)
    ensures h < |db.deliveries| && db.deliveries[h].endpoint == e && db.deliveries[h].state == InFlight && ResolvedBefore(db.deliveries, h)
    ensures RequeueInFlight(db, e).deliveries == db.deliveries[h := Requeued(db.deliveries[h], e)]
  {
    var ds := db.deliveries;
    h :| h < |ds| && ds[h].endpoint == e && ds[h].state == InFlight;
    BeforeInFlight(db, nextLease, clock, h);
    hide RowsOk, ResolvedBefore;
    forall i | 0 <= i < |ds| && i != h ensures Requeued(ds[i], e) == ds[i] {
      if ds[i].endpoint == e && ds[i].state == InFlight { OneInFlight(db, nextLease, clock, i, h); }
    }
  }

  lemma BeforeInFlight(db: DB, nextLease: nat, clock: Time, h: nat)
    requires RowsOk(db, nextLease, clock) && h < |db.deliveries| && db.deliveries[h].state == InFlight
    ensures ResolvedBefore(db.deliveries, h)
  {
    assert QueueOrder(db.deliveries) && QueueShape(db.deliveries) by { hide QueueOrder, QueueShape; }
    hide RowsOk;
  }

  lemma RequeueIsStill(cfg: Config, s: World, w: nat)
    requires CanRequeue(cfg, s, w) && NoneInFlight(s.db.deliveries, s.workers[w].claim.endpoint)
    ensures Still(s, Work(w, RequeueRow), DoRequeue(s, w))
  {
    assert forall i :: 0 <= i < |s.db.deliveries| ==> Requeued(s.db.deliveries[i], s.workers[w].claim.endpoint) == s.db.deliveries[i];
  }

  lemma MarkMoves(cfg: Config, s: World, w: nat)
    requires Inv(cfg, s) && CanMarkInFlight(cfg, s, w)
    ensures Moved(s, Work(w, MarkRow), DoMarkInFlight(s, w), s.workers[w].claim.delivery)
  {
    hide LeaseInv, AttemptInv, GateInv, ExpansionInv, EffectInv, WorkerOk, RowsOk, InsertedOk, AtHead, NoneInFlight, ResolvedBefore;
    InTimeOwns(cfg, s, w);
    OwnedIsOpen(cfg, s, w);
    BeforeHead(s.db, s.nextLease, s.clock, s.workers[w].claim.delivery);
  }

  lemma BeforeHead(db: DB, nextLease: nat, clock: Time, h: nat)
    requires RowsOk(db, nextLease, clock) && AtHead(db.deliveries, h)
    ensures h < |db.deliveries| && db.deliveries[h].state == Pending && ResolvedBefore(db.deliveries, h)
  {
    assert QueueOrder(db.deliveries) by { hide QueueOrder; }
    hide RowsOk;
  }

  lemma FinishMoves(cfg: Config, s: World, w: nat, began: Time, delay: nat)
    requires Inv(cfg, s) && CanWriteBack(cfg, s, w, began, delay) && Owns(s.db, s.workers[w])
    ensures Moved(s, Work(w, Finish(began, delay)), DoWriteBack(cfg, s, w, began, delay), s.workers[w].claim.delivery)
  {
    hide LeaseInv, AttemptInv, GateInv, ExpansionInv, EffectInv, RowsOk, ResolvedBefore, WriteBack;
    WriteBackWorker(cfg, s, w, began, delay);
    OwnedIsOpen(cfg, s, w);
    BeforeInFlight(s.db, s.nextLease, s.clock, s.workers[w].claim.delivery);
    WriteBackMoves(s.db, cfg, s.workers[w].claim, s.workers[w].reply, began, delay);
  }

  lemma WriteBackMoves(db: DB, cfg: Config, c: Claim, reply: Reply, now: Time, delay: nat)
    requires SendingOk(db, c) && HoldsLease(db, c.endpoint, c.lease) && !db.endpoints[c.endpoint].gated
    ensures var db' := WriteBack(db, cfg, c, reply, now, delay).0;
            && db'.deliveries == db.deliveries[c.delivery := db'.deliveries[c.delivery]]
            && db'.endpoints == db.endpoints[c.endpoint := db'.endpoints[c.endpoint]]
            && (var d, d' := db.deliveries[c.delivery], db'.deliveries[c.delivery];
                && d'.endpoint == d.endpoint && d'.attemptCount == d.attemptCount && d'.expiries == d.expiries
                && (d'.state == Failed <==> db'.endpoints[c.endpoint].gated))
  {
  }

  lemma FinishIsStill(cfg: Config, s: World, w: nat, began: Time, delay: nat)
    requires Inv(cfg, s) && CanWriteBack(cfg, s, w, began, delay) && !Owns(s.db, s.workers[w])
    ensures Still(s, Work(w, Finish(began, delay)), DoWriteBack(cfg, s, w, began, delay))
  {
    hide LeaseInv, AttemptInv, GateInv, ExpansionInv, EffectInv, RowsOk, WriteBack, PossibleDelay;
    WriteBackWorker(cfg, s, w, began, delay);
  }

  /** A step moves one delivery, which is the unresolved head of an endpoint that is not halted, or none. */
  lemma StepMovesHead(cfg: Config, s: World, st: Step) returns (h: nat)
    requires Inv(cfg, s) && Enabled(cfg, s, st)
    ensures Moved(s, st, Apply(cfg, s, st), h) || Still(s, st, Apply(cfg, s, st))
  {
    hide Inv, Moved, Still;
    h := 0;
    match st
    case Tick(to) => OtherIsStill(s, s.(clock := to), st);
    case Receive(a, ok) => OtherIsStill(s, DoReceive(s, a, ok), st);
    case Transact(x, tx) => TransactIsStill(s, x, tx);
    case Api(api) => ApiIsStill(s, api);
    case Work(w, work) => h := WorkMovesHead(cfg, s, w, work);
  }

  lemma WorkMovesHead(cfg: Config, s: World, w: nat, st: WorkerStep) returns (h: nat)
    requires Inv(cfg, s) && CanWork(cfg, s, w, st)
    ensures Moved(s, Work(w, st), DoWork(cfg, s, w, st), h) || Still(s, Work(w, st), DoWork(cfg, s, w, st))
  {
    hide Inv, Moved, Still, NoneInFlight;
    h := 0;
    match st
    case RequeueRow =>
      if NoneInFlight(s.db.deliveries, s.workers[w].claim.endpoint) { RequeueIsStill(cfg, s, w); } else { h := RequeueMoves(cfg, s, w); }
    case MarkRow =>
      MarkMoves(cfg, s, w);
      h := s.workers[w].claim.delivery;
    case Finish(began, delay) =>
      if Owns(s.db, s.workers[w]) { FinishMoves(cfg, s, w, began, delay); h := s.workers[w].claim.delivery; } else { FinishIsStill(cfg, s, w, began, delay); }
    case CloseOrphanRows => ClosingIsStill(cfg, s, w, st);
    case InsertRow => ClosingIsStill(cfg, s, w, st);
    case _ =>
      OtherWorkOnlyLeases(cfg, s, w, st);
      hide DoWork, CanWork;
      OtherIsStill(s, DoWork(cfg, s, w, st), Work(w, st));
  }

  // ------------------------------------------------------------------ the bound

  type Column = Delivery -> nat

  function CountColumn(d: Delivery): nat { d.attemptCount }
  function ExpiryColumn(d: Delivery): nat { d.expiries }

  /** SELECT SUM(column) ... WHERE endpoint_id = $1. */
  function Total(ds: seq<Delivery>, e: nat, column: Column): nat {
    if |ds| == 0 then 0
    else
      var last := ds[|ds| - 1];
      Total(ds[..|ds| - 1], e, column) + if last.endpoint == e then column(last) else 0
  }

  /** Changing one row changes the sum by as much; new rows add nothing when their column is zero. */
  lemma {:induction false} TotalMoves(ds: seq<Delivery>, ds': seq<Delivery>, e: nat, column: Column, h: nat)
    requires |ds| <= |ds'| && forall i :: 0 <= i < |ds| && i != h ==> ds'[i] == ds[i]
    requires forall i :: |ds| <= i < |ds'| ==> column(ds'[i]) == 0
    requires h < |ds| ==> ds'[h].endpoint == ds[h].endpoint && column(ds'[h]) >= column(ds[h])
    ensures Total(ds', e, column) == Total(ds, e, column) + if h < |ds| && ds[h].endpoint == e then column(ds'[h]) - column(ds[h]) else 0
    decreases |ds'|
  {
    if |ds'| > 0 {
      var n := |ds'| - 1;
      if |ds| <= n { TotalMoves(ds, ds'[..n], e, column, h); } else { TotalMoves(ds[..n], ds'[..n], e, column, h); }
    }
  }

  /** How many claims of `e` a run makes. */
  ghost function ClaimsIn(cfg: Config, s: World, steps: seq<Step>, e: nat): nat
    requires IsRun(cfg, s, steps)
    decreases |steps|
  {
    if steps == [] then 0 else (if Claims(s, steps[0], e) then 1 else 0) + ClaimsIn(cfg, Apply(cfg, s, steps[0]), steps[1..], e)
  }

  /** How often in a run a lease on `e` ran out with a delivery in flight. */
  ghost function ExpiriesIn(cfg: Config, s: World, steps: seq<Step>, e: nat): nat
    requires IsRun(cfg, s, steps)
    decreases |steps|
  {
    if steps == [] then 0 else (if Expires(s, steps[0], e) then 1 else 0) + ExpiriesIn(cfg, Apply(cfg, s, steps[0]), steps[1..], e)
  }

  lemma StepTotals(cfg: Config, s: World, st: Step, e: nat)
    requires Inv(cfg, s) && Enabled(cfg, s, st)
    ensures var ds, ds' := s.db.deliveries, Apply(cfg, s, st).db.deliveries;
            && Total(ds', e, CountColumn) == Total(ds, e, CountColumn) + (if Claims(s, st, e) then 1 else 0)
            && Total(ds', e, ExpiryColumn) == Total(ds, e, ExpiryColumn) + (if Expires(s, st, e) then 1 else 0)
  {
    hide Inv, Enabled, Apply, Claims, Expires, ResolvedBefore, SameGates, Total;
    var h := StepMovesHead(cfg, s, st);
    var ds, ds' := s.db.deliveries, Apply(cfg, s, st).db.deliveries;
    if Moved(s, st, Apply(cfg, s, st), h) {
      TotalMoves(ds, ds', e, CountColumn, h);
      TotalMoves(ds, ds', e, ExpiryColumn, h);
    } else {
      TotalMoves(ds, ds', e, CountColumn, |ds|);
      TotalMoves(ds, ds', e, ExpiryColumn, |ds|);
    }
  }

  lemma {:induction false} RunTotals(cfg: Config, s: World, steps: seq<Step>, e: nat)
    requires Inv(cfg, s) && IsRun(cfg, s, steps)
    ensures var ds, ds' := s.db.deliveries, After(cfg, s, steps).db.deliveries;
            && Total(ds', e, CountColumn) == Total(ds, e, CountColumn) + ClaimsIn(cfg, s, steps, e)
            && Total(ds', e, ExpiryColumn) == Total(ds, e, ExpiryColumn) + ExpiriesIn(cfg, s, steps, e)
    decreases |steps|
  {
    if steps != [] {
      hide Inv, Enabled, Apply, Total, Claims, Expires;
      StepKeepsInv(cfg, s, steps[0]);
      StepTotals(cfg, s, steps[0], e);
      RunTotals(cfg, Apply(cfg, s, steps[0]), steps[1..], e);
    }
  }

  /** pending_delivery_count: what resume reports. */
  function Backlog(ds: seq<Delivery>, e: nat): nat {
    if |ds| == 0 then 0 else Backlog(ds[..|ds| - 1], e) + if Waits(ds[|ds| - 1], e, true) then 1 else 0
  }

  /** The deliveries of `e` that are pending or in flight. */
  function Waiting(ds: seq<Delivery>, e: nat): set<nat> {
    set i: nat | i < |ds| && ds[i].endpoint == e && (ds[i].state == Pending || ds[i].state == InFlight)
  }

  lemma WaitingLast(ds: seq<Delivery>, e: nat)
    requires |ds| > 0
    ensures |Waiting(ds, e)| == |Waiting(ds[..|ds| - 1], e)| + if Waits(ds[|ds| - 1], e, true) then 1 else 0
  {
    var n := |ds| - 1;
    var before := Waiting(ds[..n], e);
    assert n !in before;
    assert Waiting(ds, e) == before + if Waits(ds[n], e, true) then {n} else {};
  }

  lemma {:induction false} BacklogCounts(ds: seq<Delivery>, e: nat)
    ensures Backlog(ds, e) == |Waiting(ds, e)|
  {
    if |ds| == 0 {
      assert Waiting(ds, e) == {};
    } else {
      hide Waiting;
      BacklogCounts(ds[..|ds| - 1], e);
      WaitingLast(ds, e);
    }
  }

  /** The deliveries of `e` from index `n` on. */
  function Arrived(ds: seq<Delivery>, n: nat, e: nat): nat {
    if |ds| <= n then 0 else Arrived(ds[..|ds| - 1], n, e) + if ds[|ds| - 1].endpoint == e then 1 else 0
  }

  /** What was claimed in between, less what expired, is allowed. */
  ghost predicate WithinAllowance(cfg: Config, ds: seq<Delivery>, ds': seq<Delivery>, e: nat) {
    Total(ds', e, CountColumn) + Total(ds, e, ExpiryColumn)
    <= Total(ds, e, CountColumn) + Total(ds', e, ExpiryColumn) + Allowance(cfg, Backlog(ds, e) + Arrived(ds', |ds|, e))
  }

  lemma {:induction false} TotalsBound(cfg: Config, ds: seq<Delivery>, ds': seq<Delivery>, e: nat)
    requires DeliveriesGrow(ds, ds') && AllAccounted(cfg, ds) && AllAccounted(cfg, ds')
    ensures WithinAllowance(cfg, ds, ds', e)
    decreases |ds'|
  {
    if |ds'| > 0 {
      hide DeliveriesGrow, AllAccounted, Accounted, WithinAllowance;
      var n := |ds'| - 1;
      Fronts(cfg, ds, ds');
      if |ds| <= n {
        TotalsBound(cfg, ds, ds'[..n], e);
        BoundNew(cfg, ds, ds', e);
      } else {
        TotalsBound(cfg, ds[..n], ds'[..n], e);
        BoundOld(cfg, ds, ds', e);
      }
    }
  }

  lemma BoundNew(cfg: Config, ds: seq<Delivery>, ds': seq<Delivery>, e: nat)
    requires |ds| < |ds'| && Accounted(cfg, ds'[|ds'| - 1]) && WithinAllowance(cfg, ds, ds'[..|ds'| - 1], e)
    ensures WithinAllowance(cfg, ds, ds', e)
  {
    hide Accounted, Max, Total, Backlog, Arrived, Allowance;
    var n := |ds'| - 1;
    LastCounts(ds', e);
    ArrivedLast(ds', |ds|, e);
    NewDelivery(cfg, ds'[n]);
    OneMore(cfg, Backlog(ds, e) + Arrived(ds'[..n], |ds|, e));
  }

  lemma BoundOld(cfg: Config, ds: seq<Delivery>, ds': seq<Delivery>, e: nat)
    requires |ds| == |ds'| && |ds| > 0
    requires var n := |ds| - 1;
             && Accounted(cfg, ds[n]) && Accounted(cfg, ds'[n]) && SameStatic(ds[n], ds'[n]) && (Terminal(ds[n].state) ==> ds'[n] == ds[n])
             && WithinAllowance(cfg, ds[..n], ds'[..n], e)
    ensures WithinAllowance(cfg, ds, ds', e)
  {
    hide Accounted, Max, Total, Backlog, Arrived, Allowance;
    var n := |ds| - 1;
    LastCounts(ds, e);
    LastCounts(ds', e);
    OldDelivery(cfg, ds[n], ds'[n], e);
    ArrivedNone(ds, ds', e);
    OneMore(cfg, Backlog(ds[..n], e));
  }

  lemma Fronts(cfg: Config, ds: seq<Delivery>, ds': seq<Delivery>)
    requires DeliveriesGrow(ds, ds') && AllAccounted(cfg, ds) && AllAccounted(cfg, ds') && |ds'| > 0
    ensures var n := |ds'| - 1;
            && AllAccounted(cfg, ds'[..n]) && Accounted(cfg, ds'[n])
            && if |ds| <= n then DeliveriesGrow(ds, ds'[..n])
               else DeliveriesGrow(ds[..n], ds'[..n]) && AllAccounted(cfg, ds[..n]) && Accounted(cfg, ds[n])
                    && SameStatic(ds[n], ds'[n]) && (Terminal(ds[n].state) ==> ds'[n] == ds[n])
  {
    hide Accounted;
  }

  lemma LastCounts(ds: seq<Delivery>, e: nat)
    requires |ds| > 0
    ensures var front, last := ds[..|ds| - 1], ds[|ds| - 1];
            && Total(ds, e, CountColumn) == Total(front, e, CountColumn) + (if last.endpoint == e then CountColumn(last) else 0)
            && Total(ds, e, ExpiryColumn) == Total(front, e, ExpiryColumn) + (if last.endpoint == e then ExpiryColumn(last) else 0)
            && Backlog(ds, e) == Backlog(front, e) + (if Waits(last, e, true) then 1 else 0)
  {
  }

  lemma ArrivedLast(ds: seq<Delivery>, n: nat, e: nat)
    requires n < |ds|
    ensures Arrived(ds, n, e) == Arrived(ds[..|ds| - 1], n, e) + if ds[|ds| - 1].endpoint == e then 1 else 0
  {
  }

  lemma ArrivedNone(ds: seq<Delivery>, ds': seq<Delivery>, e: nat)
    requires |ds| == |ds'| && |ds| > 0
    ensures Arrived(ds', |ds|, e) == 0 && Arrived(ds'[..|ds| - 1], |ds[..|ds| - 1]|, e) == 0
  {
  }

  /** What a delivery can add. */
  lemma NewDelivery(cfg: Config, d: Delivery)
    requires Accounted(cfg, d)
    ensures CountColumn(d) <= ExpiryColumn(d) + Max(1, cfg.maxAttempts)
  {
    hide CeilingSum;
  }

  lemma OldDelivery(cfg: Config, d: Delivery, d': Delivery, e: nat)
    requires Accounted(cfg, d) && Accounted(cfg, d') && SameStatic(d, d') && (Terminal(d.state) ==> d' == d)
    ensures d'.endpoint == d.endpoint
    ensures CountColumn(d') + ExpiryColumn(d) <= CountColumn(d) + ExpiryColumn(d') + if d.endpoint != e || Waits(d, e, true) then Max(1, cfg.maxAttempts) else 0
  {
    hide CeilingSum;
  }

  /** What the attempt ceiling allows for `n` deliveries; it allows each at least one. */
  function Allowance(cfg: Config, n: nat): nat {
    Max(1, cfg.maxAttempts) * n
  }

  lemma OneMore(cfg: Config, n: nat)
    ensures Allowance(cfg, n + 1) == Allowance(cfg, n) + Max(1, cfg.maxAttempts)
  {
  }

  /** Draining terminates: over any run, the claims of an endpoint number at most maxAttempts (at least
      one) for each delivery that was unresolved at its start or came in meanwhile, and one more for each
      lease that ran out on the way. */
  lemma DrainIsBounded(cfg: Config, s: World, steps: seq<Step>, e: nat)
    requires Reachable(cfg, s) && IsRun(cfg, s, steps)
    ensures var ds, ds' := s.db.deliveries, After(cfg, s, steps).db.deliveries;
            ClaimsIn(cfg, s, steps, e) <= Allowance(cfg, Backlog(ds, e) + Arrived(ds', |ds|, e)) + ExpiriesIn(cfg, s, steps, e)
  {
    hide Inv, IsRun, After, Total, Backlog, Arrived, Allowance, Grows;
    ReachableInv(cfg, s);
    RunTotals(cfg, s, steps, e);
    RunKeepsInv(cfg, s, steps);
    RunGrows(cfg, s, steps);
    DeliveriesOnlyGrow(s.db, After(cfg, s, steps).db);
    EachAccounted(cfg, s);
    EachAccounted(cfg, After(cfg, s, steps));
    TotalsBound(cfg, s.db.deliveries, After(cfg, s, steps).db.deliveries, e);
  }

  lemma EachAccounted(cfg: Config, s: World)
    requires Inv(cfg, s)
    ensures AllAccounted(cfg, s.db.deliveries)
  {
    hide LeaseInv, GateInv, ExpansionInv, EffectInv, AllAccounted, NumberingOk, UnsentOk, OpenOk, WinsOk, InPublicationOrder;
  }

  // ---------------------------------------------------------------- the outcome

  /** Delivery `i` of endpoint `e` failed between the two tables. */
  predicate FailedSince(ds: seq<Delivery>, ds': seq<Delivery>, e: nat, i: nat) {
    i < |ds'| && ds'[i].endpoint == e && ds'[i].state == Failed && !(i < |ds| && ds[i].state == Failed)
  }

  /** One delivery failed since and closed the endpoint; nothing behind it was touched. */
  ghost predicate StoppedAt(ds: seq<Delivery>, ds': seq<Delivery>, e: nat, d: nat) {
    && FailedSince(ds, ds', e, d)
    && (forall i: nat :: FailedSince(ds, ds', e, i) ==> i == d)
    && (forall i: nat :: d < i < |ds'| && ds'[i].endpoint == e ==> Untouched(ds, ds', i))
  }

  ghost predicate NoneFailedSince(ds: seq<Delivery>, ds': seq<Delivery>, e: nat) {
    forall i: nat :: !FailedSince(ds, ds', e, i)
  }

  ghost predicate Outcome(db: DB, db': DB, e: nat) {
    && e < |db'.endpoints|
    && if db'.endpoints[e].gated then exists d: nat :: StoppedAt(db.deliveries, db'.deliveries, e, d)
       else NoneFailedSince(db.deliveries, db'.deliveries, e)
  }

  /** What changed at `e` was the head of its queue, and what came in is fresh. */
  ghost predicate HeadsOnly(ds: seq<Delivery>, ds': seq<Delivery>, e: nat) {
    && |ds| <= |ds'|
    && (forall i: nat :: i < |ds| && ds[i].endpoint == e && ds'[i] != ds[i] ==> ResolvedBefore(ds, i))
    && (forall i: nat :: |ds| <= i < |ds'| ==> Fresh(ds'[i]))
  }

  /** The step that closes the endpoint fails one delivery; no other step fails any. */
  lemma OpenStep(cfg: Config, s: World, st: Step, e: nat)
    requires Inv(cfg, s) && Enabled(cfg, s, st) && e < |s.db.endpoints| && !s.db.endpoints[e].gated
    ensures var s' := Apply(cfg, s, st);
            && Outcome(s.db, s'.db, e) && SameEndpoints(s.db.deliveries, s'.db.deliveries) && HeadsOnly(s.db.deliveries, s'.db.deliveries, e)
  {
    hide Inv, Enabled, Apply, Claims, Expires, ResolvedBefore;
    var h := StepMovesHead(cfg, s, st);
    var s' := Apply(cfg, s, st);
    if s'.db.endpoints[e].gated {
      if st == Api(Resume(e)) { ResumeOpens(cfg, s, st, e); }
      assert StoppedAt(s.db.deliveries, s'.db.deliveries, e, h);
    }
  }

  lemma ResumeOpens(cfg: Config, s: World, st: Step, e: nat)
    requires Enabled(cfg, s, st) && e < |s.db.endpoints| && st == Api(Resume(e))
    ensures !Apply(cfg, s, st).db.endpoints[e].gated
  {
  }

  lemma StaysStopped(a: seq<Delivery>, b: seq<Delivery>, c: seq<Delivery>, e: nat, d: nat)
    requires StoppedAt(a, b, e, d) && AllUntouched(b, c, e) && SameEndpoints(a, b) && SameEndpoints(b, c)
    ensures StoppedAt(a, c, e, d)
  {
    assert Untouched(b, c, d);
    forall i: nat | FailedSince(a, c, e, i) ensures i == d {
      assert Untouched(b, c, i);
      assert FailedSince(a, b, e, i);
    }
    forall i: nat | d < i < |c| && c[i].endpoint == e ensures Untouched(a, c, i) {
      assert Untouched(b, c, i);
      if i < |b| { assert Untouched(a, b, i); }
    }
  }

  lemma FailedLater(a: seq<Delivery>, b: seq<Delivery>, c: seq<Delivery>, e: nat, i: nat)
    requires NoneFailedSince(a, b, e) && SameEndpoints(a, b) && SameEndpoints(b, c) && FailedSince(a, c, e, i)
    ensures FailedSince(b, c, e, i)
  {
    assert !FailedSince(a, b, e, i);
  }

  lemma StopsLater(a: seq<Delivery>, b: seq<Delivery>, c: seq<Delivery>, e: nat, d: nat)
    requires NoneFailedSince(a, b, e) && HeadsOnly(a, b, e) && SameEndpoints(a, b) && SameEndpoints(b, c) && StoppedAt(b, c, e, d)
    requires DeliveriesGrow(a, b) && DeliveriesGrow(b, c)
    ensures StoppedAt(a, c, e, d)
  {
    forall i: nat | FailedSince(a, c, e, i) ensures i == d {
      FailedLater(a, b, c, e, i);
    }
    assert FailedSince(b, c, e, d);
    assert d < |a| ==> a[d].endpoint == e && !Terminal(a[d].state);
    forall i: nat | d < i < |c| && c[i].endpoint == e ensures Untouched(a, c, i) {
      assert Untouched(b, c, i);
      assert i < |a| ==> !ResolvedBefore(a, i);
    }
  }

  /** Over any run that starts with an open endpoint and in which nobody resumes it: as long as it is
      open, no delivery of it failed; once it is closed, exactly one did, and nothing behind that one has
      been touched. */
  lemma {:induction false} RunOutcome(cfg: Config, s: World, steps: seq<Step>, e: nat)
    requires Inv(cfg, s) && IsRun(cfg, s, steps) && e < |s.db.endpoints| && !s.db.endpoints[e].gated
    requires forall k :: 0 <= k < |steps| ==> steps[k] != Api(Resume(e))
    ensures Outcome(s.db, After(cfg, s, steps).db, e) && SameEndpoints(s.db.deliveries, After(cfg, s, steps).db.deliveries)
    decreases |steps|
  {
    if steps == [] {
      hide Inv;
    } else {
      hide Inv, Enabled, Apply, SameEndpoints, StoppedAt, NoneFailedSince, HeadsOnly, AllUntouched, Grows, StillShut;
      var s1, s' := Apply(cfg, s, steps[0]), After(cfg, s, steps);
      var ds, ds1, ds' := s.db.deliveries, s1.db.deliveries, s'.db.deliveries;
      StepKeepsInv(cfg, s, steps[0]);
      OpenStep(cfg, s, steps[0], e);
      if s1.db.endpoints[e].gated {
        HaltedIsGated(cfg, s1, e);
        ShutForARun(cfg, s1, steps[1..], e);
        ShutIsUntouched(s1.db, s'.db, e);
        var d: nat :| StoppedAt(ds, ds1, e, d);
        StaysStopped(ds, ds1, ds', e, d);
        SameEndpointsTwice(ds, ds1, ds');
      } else {
        RunOutcome(cfg, s1, steps[1..], e);
        OpenOutcome(cfg, s, steps, e);
      }
    }
  }

  lemma OpenOutcome(cfg: Config, s: World, steps: seq<Step>, e: nat)
    requires Inv(cfg, s) && IsRun(cfg, s, steps) && steps != []
    requires var s1, s' := Apply(cfg, s, steps[0]), After(cfg, s, steps); var ds, ds1, ds' := s.db.deliveries, s1.db.deliveries, s'.db.deliveries;
             && e < |s1.db.endpoints| && !s1.db.endpoints[e].gated && NoneFailedSince(ds, ds1, e) && HeadsOnly(ds, ds1, e)
             && SameEndpoints(ds, ds1) && SameEndpoints(ds1, ds') && Outcome(s1.db, s'.db, e)
    ensures Outcome(s.db, After(cfg, s, steps).db, e) && SameEndpoints(s.db.deliveries, After(cfg, s, steps).db.deliveries)
  {
    hide Inv, Enabled, Apply, SameEndpoints, StoppedAt, HeadsOnly, Grows;
    var s1, s' := Apply(cfg, s, steps[0]), After(cfg, s, steps);
    var ds, ds1, ds' := s.db.deliveries, s1.db.deliveries, s'.db.deliveries;
    StepKeepsInv(cfg, s, steps[0]);
    StepGrows(cfg, s, steps[0]);
    RunGrows(cfg, s1, steps[1..]);
    DeliveriesOnlyGrow(s.db, s1.db);
    DeliveriesOnlyGrow(s1.db, s'.db);
    SameEndpointsTwice(ds, ds1, ds');
    if s'.db.endpoints[e].gated {
      var d: nat :| StoppedAt(ds1, ds', e, d);
      StopsLater(ds, ds1, ds', e, d);
    } else {
      forall i: nat ensures !FailedSince(ds, ds', e, i) {
        if FailedSince(ds, ds', e, i) { FailedLater(ds, ds1, ds', e, i); }
      }
    }
  }

  lemma SameEndpointsTwice(a: seq<Delivery>, b: seq<Delivery>, c: seq<Delivery>)
    requires SameEndpoints(a, b) && SameEndpoints(b, c)
    ensures SameEndpoints(a, c)
  {
  }

  /** However long one waits, there is nothing to claim on `e`. */
  ghost predicate NothingLeft(cfg: Config, db: DB, e: nat) {
    forall now: Time :: !Due(cfg, db, e, now)
  }

  /** Every delivery of `e` is resolved, and those that were not before have succeeded. */
  ghost predicate Delivered(ds: seq<Delivery>, ds': seq<Delivery>, e: nat) {
    forall i: nat :: i < |ds'| && ds'[i].endpoint == e ==> Terminal(ds'[i].state) && (!(i < |ds| && Terminal(ds[i].state)) ==> ds'[i].state == Succeeded)
  }

  /** Delivery `d` failed; what was unresolved before it has succeeded, and what comes after it waits as it did. */
  ghost predicate DeliveredUpTo(ds: seq<Delivery>, ds': seq<Delivery>, e: nat, d: nat) {
    && FailedSince(ds, ds', e, d)
    && (forall i: nat :: i < d && ds'[i].endpoint == e ==> Terminal(ds'[i].state) && (!(i < |ds| && Terminal(ds[i].state)) ==> ds'[i].state == Succeeded))
    && (forall i: nat :: d < i < |ds'| && ds'[i].endpoint == e ==> ds'[i].state == Pending && Untouched(ds, ds', i))
  }

  /** A run that leaves nothing to claim on an endpoint, which was open at its start and was not resumed
      meanwhile, ends in one of three ways. Still active, it has been delivered everything. Halted, it
      has failed exactly one delivery, with everything before it delivered and everything behind it
      untouched. Or an operator paused it. */
  lemma DrainEnds(cfg: Config, s: World, steps: seq<Step>, e: nat)
    requires Reachable(cfg, s) && IsRun(cfg, s, steps) && e < |s.db.endpoints| && !s.db.endpoints[e].gated
    requires forall k :: 0 <= k < |steps| ==> steps[k] != Api(Resume(e))
    requires NothingLeft(cfg, After(cfg, s, steps).db, e)
    ensures var db, db' := s.db, After(cfg, s, steps).db;
            && e < |db'.endpoints|
            && (db'.endpoints[e].status == Active ==> Delivered(db.deliveries, db'.deliveries, e))
            && (db'.endpoints[e].status == Halted ==> exists d: nat :: DeliveredUpTo(db.deliveries, db'.deliveries, e, d))
  {
    hide Inv, IsRun, After, Reachable, NothingLeft, Delivered, DeliveredUpTo, Outcome, SameEndpoints;
    ReachableInv(cfg, s);
    RunOutcome(cfg, s, steps, e);
    RunKeepsInv(cfg, s, steps);
    RunGrows(cfg, s, steps);
    EndOfDrain(cfg, s, After(cfg, s, steps), e);
  }

  lemma EndOfDrain(cfg: Config, s: World, s': World, e: nat)
    requires Inv(cfg, s) && Inv(cfg, s') && Outcome(s.db, s'.db, e) && Grows(s.db, s'.db) && NothingLeft(cfg, s'.db, e)
    ensures var db, db' := s.db, s'.db;
            && e < |db'.endpoints|
            && (db'.endpoints[e].status == Active ==> Delivered(db.deliveries, db'.deliveries, e))
            && (db'.endpoints[e].status == Halted ==> exists d: nat :: DeliveredUpTo(db.deliveries, db'.deliveries, e, d))
  {
    hide NothingLeft, Delivered, DeliveredUpTo, StoppedAt, NoneFailedSince, LeaseInv, AttemptInv, GateInv, ExpansionInv, EffectInv, Grows;
    HaltedIsGated(cfg, s', e);
    RowsOf(cfg, s);
    RowsOf(cfg, s');
    if s'.db.endpoints[e].status == Active {
      AllResolved(cfg, s', e);
      NoneFailedMeansDelivered(s.db.deliveries, s'.db.deliveries, e);
    } else if s'.db.endpoints[e].status == Halted {
      var d: nat :| StoppedAt(s.db.deliveries, s'.db.deliveries, e, d);
      StoppedMeansDelivered(s.db, s'.db, e, d);
      assert DeliveredUpTo(s.db.deliveries, s'.db.deliveries, e, d);
    }
  }

  /** An unresolved delivery of an active endpoint gets it due at some time. */
  lemma DueSomeTime(cfg: Config, s: World, e: nat) returns (now: Time)
    requires RowsOk(s.db, s.nextLease, s.clock) && e < |s.db.endpoints| && s.db.endpoints[e].status == Active && ReportedHead(s.db, e).Some?
    ensures Due(cfg, s.db, e, now)
  {
    var ep, h := s.db.endpoints[e], ReportedHead(s.db, e).value;
    assert LeaseColumns(ep, s.nextLease, s.clock);
    hide RowsOk;
    var ready := s.db.deliveries[h].nextAttemptAt;
    now := Max(ready, if ep.busy then ep.busySince.value + LeaseDuration(cfg) + 1 else ready);
  }

  /** On an active endpoint with nothing to claim at any time, nothing is unresolved. */
  lemma AllResolved(cfg: Config, s: World, e: nat)
    requires RowsOk(s.db, s.nextLease, s.clock) && NothingLeft(cfg, s.db, e) && e < |s.db.endpoints| && s.db.endpoints[e].status == Active
    ensures forall i: nat :: i < |s.db.deliveries| && s.db.deliveries[i].endpoint == e ==> Terminal(s.db.deliveries[i].state)
  {
    hide RowsOk, Due;
    if ReportedHead(s.db, e).Some? {
      var now := DueSomeTime(cfg, s, e);
      assert false;
    }
    assert forall i: nat :: i < |s.db.deliveries| && s.db.deliveries[i].endpoint == e ==> !Waits(s.db.deliveries[i], e, true);
  }

  lemma NoneFailedMeansDelivered(ds: seq<Delivery>, ds': seq<Delivery>, e: nat)
    requires NoneFailedSince(ds, ds', e) && forall i: nat :: i < |ds'| && ds'[i].endpoint == e ==> Terminal(ds'[i].state)
    ensures Delivered(ds, ds', e)
  {
    forall i: nat | i < |ds'| && ds'[i].endpoint == e && !(i < |ds| && Terminal(ds[i].state)) ensures ds'[i].state == Succeeded {
      assert !FailedSince(ds, ds', e, i);
    }
  }

  lemma StoppedMeansDelivered(db: DB, db': DB, e: nat, d: nat)
    requires StoppedAt(db.deliveries, db'.deliveries, e, d) && Grows(db, db') && e < |db'.endpoints| && db'.endpoints[e].gated
    requires QueueOrder(db.deliveries) && QueueShape(db.deliveries) && QueueOrder(db'.deliveries) && QueueShape(db'.deliveries)
    ensures DeliveredUpTo(db.deliveries, db'.deliveries, e, d)
  {
    var ds, ds' := db.deliveries, db'.deliveries;
    DeliveriesOnlyGrow(db, db');
    hide Grows;
    forall i: nat | i < d && ds'[i].endpoint == e
      ensures Terminal(ds'[i].state) && (!(i < |ds| && Terminal(ds[i].state)) ==> ds'[i].state == Succeeded)
    {
      assert ds'[i].seqNo < ds'[d].seqNo;
      assert !FailedSince(ds, ds', e, i);
    }
    forall i: nat | d < i < |ds'| && ds'[i].endpoint == e ensures ds'[i].state == Pending {
      assert Untouched(ds, ds', i);
      if i < |ds| { assert ds[d].seqNo < ds[i].seqNo; assert SameStatic(ds[d], ds'[d]); }
    }
  }
}
