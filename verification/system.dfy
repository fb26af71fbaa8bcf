/** The invariant of the whole system, its proof over every step, and over every run. */
module SystemInvariant {
  import opened Tables
  import opened Protocol
  import opened LeaseInvariant
  import opened AttemptInvariant
  import opened GateInvariant
  import opened ExpansionInvariant
  import opened EffectInvariant

  ghost predicate Inv(cfg: Config, s: World) {
    && LeaseInv(cfg, s)
    && AttemptInv(cfg, s.db)
    && GateInv(s.db)
    && ExpansionInv(s)
    && EffectInv(s)
  }

  lemma InitInv(cfg: Config, s: World)
    requires Init(s)
    ensures Inv(cfg, s)
  {
    hide LeaseInv, AttemptInv, GateInv, EffectInv, ExpansionInv, Init;
    InitLease(cfg, s);
    InitAttempts(cfg, s);
    InitGateAndEffects(s);
    InitExpansion(s);
  }

  lemma InitLease(cfg: Config, s: World)
    requires Init(s)
    ensures LeaseInv(cfg, s)
  {
  }

  lemma InitAttempts(cfg: Config, s: World)
    requires Init(s)
    ensures AttemptInv(cfg, s.db)
  {
    EmptyAttempts(cfg, s.db.deliveries, s.db.attempts);
    hide NumberingOk, UnsentOk, AllAccounted, OpenOk, WinsOk, InPublicationOrder;
  }

  lemma EmptyAttempts(cfg: Config, ds: seq<Delivery>, at: seq<Attempt>)
    requires |ds| == 0 && |at| == 0
    ensures NumberingOk(ds, at) && UnsentOk(ds, at) && AllAccounted(cfg, ds) && OpenOk(ds, at) && WinsOk(ds, at) && InPublicationOrder(ds, at)
  {
  }

  lemma InitGateAndEffects(s: World)
    requires Init(s)
    ensures GateInv(s.db) && EffectInv(s)
  {
  }

  lemma InitExpansion(s: World)
    requires Init(s)
    ensures ExpansionInv(s)
  {
    assert FanOutOk(s.db);
    assert ReplayOk(s.db);
    hide FanOutOk, ReplayOk;
  }

  // ------------------------------------------------------------------- lease

  lemma TransactKeepsLease(cfg: Config, s: World, x: nat, st: ExpansionStep)
    requires LeaseInv(cfg, s) && ReplayOk(s.db) && CanTransact(s, x, st)
    ensures LeaseInv(cfg, DoTransact(s, x, st))
  {
    var s' := DoTransact(s, x, st);
    if st.Expand? {
      AppendKeeps(cfg, s, s', FanOut(s.db, s.expanders[x].event.value, st.seqs, s.expanders[x].began));
    } else if st.AppendReplay? {
      var rows := ReplayRows(s.db, s.replayers[x].replay, st.seqs, s.replayers[x].began);
      assert s.db.replays[s.replayers[x].replay].endpoint < |s.db.endpoints|;
      assert forall k :: 0 <= k < |rows| ==> rows[k].event < |s.db.events| by { assert RowsOk(s.db, s.nextLease, s.clock); }
      hide ReplayOk, LeaseInv;
      AppendKeeps(cfg, s, s', rows);
    } else {
      hide LeaseInv, ReplayOk;
      SameStateKeeps(cfg, s, s');
    }
  }

  lemma ApiKeepsLease(cfg: Config, s: World, st: ApiStep)
    requires LeaseInv(cfg, s) && CanApi(s, st)
    ensures LeaseInv(cfg, DoApi(s, st))
  {
    hide LeaseInv;
    SameStateKeeps(cfg, s, DoApi(s, st));
  }

  /** The worker's statements that write deliveries or attempts. */
  predicate WritesRows(st: WorkerStep) {
    st.CloseOrphanRows? || st.RequeueRow? || st.InsertRow? || st.MarkRow? || st.Finish?
  }

  /** The others only move leases, tenant stamps and the worker itself. */
  ghost predicate OnlyLeases(s: World, s': World) {
    && s'.db.deliveries == s.db.deliveries && s'.db.attempts == s.db.attempts && s'.db.events == s.db.events && s'.db.replays == s.db.replays
    && s'.expanders == s.expanders && s'.replayers == s.replayers
    && |s'.db.tenants| == |s.db.tenants| && (forall t :: 0 <= t < |s.db.tenants| ==> s'.db.tenants[t].lockKey == s.db.tenants[t].lockKey)
    && |s'.db.endpoints| == |s.db.endpoints|
    && (forall e :: 0 <= e < |s.db.endpoints| ==>
          var ep, ep' := s.db.endpoints[e], s'.db.endpoints[e];
          && ep' == ep.(busy := ep'.busy, busySince := ep'.busySince, leaseId := ep'.leaseId)
          && (ep'.busy && !ep.busy ==> ep.status == Active))
  }

  lemma OtherWorkOnlyLeases(cfg: Config, s: World, w: nat, st: WorkerStep)
    requires CanWork(cfg, s, w, st) && !WritesRows(st)
    ensures OnlyLeases(s, DoWork(cfg, s, w, st))
  {
  }

  // ---------------------------------------------------------------- attempts

  lemma WorkKeepsAttempts(cfg: Config, s: World, w: nat, st: WorkerStep)
    requires LeaseInv(cfg, s) && AttemptInv(cfg, s.db) && CanWork(cfg, s, w, st)
    ensures AttemptInv(cfg, DoWork(cfg, s, w, st).db)
  {
    hide LeaseInv, AttemptInv;
    if !WritesRows(st) {
      OtherWorkOnlyLeases(cfg, s, w, st);
      hide CanWork, DoWork;
      SameHistory(cfg, s.db, DoWork(cfg, s, w, st).db);
    } else if st.Finish? {
      FinishKeepsAttempts(cfg, s, w, st.began, st.delay);
    } else {
      ClaimKeepsAttempts(cfg, s, w, st);
    }
  }

  lemma ClaimKeepsAttempts(cfg: Config, s: World, w: nat, st: WorkerStep)
    requires LeaseInv(cfg, s) && AttemptInv(cfg, s.db) && CanWork(cfg, s, w, st) && WritesRows(st) && !st.Finish?
    ensures AttemptInv(cfg, DoWork(cfg, s, w, st).db)
  {
    hide LeaseInv, AttemptInv, WorkerOk, RowsOk, NoneInFlight;
    InTimeOwns(cfg, s, w);
    match st
    case CloseOrphanRows => CloseOrphansKeepsAttempts(cfg, s.db, s.workers[w].claim.endpoint);
    case RequeueRow => RequeueKeepsAttempts(cfg, s.db, s.workers[w].claim.endpoint);
    case InsertRow => InsertKeepsAttempts(cfg, s.db, s.workers[w].claim.delivery, s.workers[w].claim.number);
    case MarkRow => MarkKeepsAttempts(cfg, s.db, s.workers[w].claim);
  }

  lemma FinishKeepsAttempts(cfg: Config, s: World, w: nat, began: Time, delay: nat)
    requires LeaseInv(cfg, s) && AttemptInv(cfg, s.db) && CanWriteBack(cfg, s, w, began, delay)
    ensures AttemptInv(cfg, DoWriteBack(cfg, s, w, began, delay).db)
  {
    hide LeaseInv, AttemptInv, WorkerOk, RowsOk, WriteBack;
    WriteBackWorker(cfg, s, w, began, delay);
    if Owns(s.db, s.workers[w]) { WriteBackKeepsAttempts(cfg, s.db, s.workers[w].claim, s.workers[w].reply, began, delay); }
  }

  lemma SameHistory(cfg: Config, db: DB, db': DB)
    requires AttemptInv(cfg, db) && db'.deliveries == db.deliveries && db'.attempts == db.attempts
    ensures AttemptInv(cfg, db')
  {
    hide NumberingOk, UnsentOk, AllAccounted, OpenOk, WinsOk, InPublicationOrder;
  }

  lemma RowsAppended(cfg: Config, db: DB, db': DB, rows: seq<Delivery>)
    requires AttemptInv(cfg, db) && CommitInOrder(db.deliveries, rows)
    requires forall k :: 0 <= k < |rows| ==>
               rows[k].state == Pending && rows[k].attemptCount == 0 && rows[k].retries == 0 && rows[k].expiries == 0 && rows[k].scheduled == 0
    requires db'.deliveries == db.deliveries + rows && db'.attempts == db.attempts
    ensures AttemptInv(cfg, db')
  {
    AppendKeepsAttempts(cfg, db, rows);
    SameHistory(cfg, db.(deliveries := db.deliveries + rows), db');
  }

  lemma TransactKeepsAttempts(cfg: Config, s: World, x: nat, st: ExpansionStep)
    requires AttemptInv(cfg, s.db) && CanTransact(s, x, st)
    ensures AttemptInv(cfg, DoTransact(s, x, st).db)
  {
    hide AttemptInv;
    if st.Expand? {
      RowsAppended(cfg, s.db, DoTransact(s, x, st).db, FanOut(s.db, s.expanders[x].event.value, st.seqs, s.expanders[x].began));
    } else if st.AppendReplay? {
      RowsAppended(cfg, s.db, DoTransact(s, x, st).db, ReplayRows(s.db, s.replayers[x].replay, st.seqs, s.replayers[x].began));
    } else {
      SameHistory(cfg, s.db, DoTransact(s, x, st).db);
    }
  }

  // -------------------------------------------------------------------- gate

  lemma WorkKeepsGate(cfg: Config, s: World, w: nat, st: WorkerStep)
    requires LeaseInv(cfg, s) && GateInv(s.db) && CanWork(cfg, s, w, st)
    ensures GateInv(DoWork(cfg, s, w, st).db)
  {
    hide LeaseInv;
    if !WritesRows(st) {
      OtherWorkOnlyLeases(cfg, s, w, st);
      hide CanWork, DoWork;
      GateFrame(s.db, DoWork(cfg, s, w, st).db);
    } else if st.Finish? {
      hide GateInv, WriteBack;
      WriteBackWorker(cfg, s, w, st.began, st.delay);
      if Owns(s.db, s.workers[w]) { WriteBackKeepsGate(s.db, cfg, s.workers[w].claim, s.workers[w].reply, st.began, st.delay); }
    } else {
      hide GateInv;
      ClaimKeepsGate(cfg, s, w, st);
    }
  }

  lemma ClaimKeepsGate(cfg: Config, s: World, w: nat, st: WorkerStep)
    requires LeaseInv(cfg, s) && GateInv(s.db) && CanWork(cfg, s, w, st) && WritesRows(st) && !st.Finish?
    ensures GateInv(DoWork(cfg, s, w, st).db)
  {
    if st.RequeueRow? {
      assert forall i :: 0 <= i < |s.db.deliveries| ==> DoRequeue(s, w).db.deliveries[i] == Requeued(s.db.deliveries[i], s.workers[w].claim.endpoint);
    }
    InTimeOwns(cfg, s, w);
    hide LeaseInv, WorkerOk, RowsOk;
    GateFrame(s.db, DoWork(cfg, s, w, st).db);
  }

  lemma TransactKeepsGate(s: World, x: nat, st: ExpansionStep)
    requires GateInv(s.db) && CanTransact(s, x, st)
    ensures GateInv(DoTransact(s, x, st).db)
  {
    var db' := DoTransact(s, x, st).db;
    assert st.Expand? ==> db'.deliveries == s.db.deliveries + FanOut(s.db, s.expanders[x].event.value, st.seqs, s.expanders[x].began);
    assert st.AppendReplay? ==> db'.deliveries == s.db.deliveries + ReplayRows(s.db, s.replayers[x].replay, st.seqs, s.replayers[x].began);
    GateFrame(s.db, db');
  }

  lemma ApiKeepsGate(cfg: Config, s: World, st: ApiStep)
    requires LeaseInv(cfg, s) && GateInv(s.db) && CanApi(s, st)
    ensures GateInv(DoApi(s, st).db)
  {
    match st
    case Register(t, types, secret, _) =>
      RegisterKeepsGate(s.db, NewEndpoint(t, types, secret));
    case Resume(e) => ResumeKeepsGate(s.db, e);
    case _ => GateFrame(s.db, DoApi(s, st).db);
  }

  // --------------------------------------------------------------- expansion

  lemma WorkSparesExpansion(cfg: Config, s: World, w: nat, st: WorkerStep)
    requires LeaseInv(cfg, s) && CanWork(cfg, s, w, st)
    ensures var s' := DoWork(cfg, s, w, st);
            && SameCatalog(s.db, s'.db) && SameQueues(s.db.deliveries, s'.db.deliveries) && s'.db.replays == s.db.replays
            && s'.expanders == s.expanders && s'.replayers == s.replayers
  {
    hide LeaseInv, SameCatalog, SameQueues;
    if !WritesRows(st) {
      IdleWorkSparesExpansion(cfg, s, w, st);
    } else {
      RowWorkSparesExpansion(cfg, s, w, st);
    }
  }

  lemma IdleWorkSparesExpansion(cfg: Config, s: World, w: nat, st: WorkerStep)
    requires CanWork(cfg, s, w, st) && !WritesRows(st)
    ensures var s' := DoWork(cfg, s, w, st);
            && SameCatalog(s.db, s'.db) && SameQueues(s.db.deliveries, s'.db.deliveries) && s'.db.replays == s.db.replays
            && s'.expanders == s.expanders && s'.replayers == s.replayers
  {
    hide CanWork, DoWork;
    OtherWorkOnlyLeases(cfg, s, w, st);
  }

  lemma RowWorkSparesExpansion(cfg: Config, s: World, w: nat, st: WorkerStep)
    requires LeaseInv(cfg, s) && CanWork(cfg, s, w, st) && WritesRows(st)
    ensures var s' := DoWork(cfg, s, w, st);
            && SameCatalog(s.db, s'.db) && SameQueues(s.db.deliveries, s'.db.deliveries) && s'.db.replays == s.db.replays
            && s'.expanders == s.expanders && s'.replayers == s.replayers
  {
    hide LeaseInv, RowsOk, NoneInFlight, QueueOrder, Lowest, InTime;
    if st.Finish? { WriteBackWorker(cfg, s, w, st.began, st.delay); } else { InTimeOwns(cfg, s, w); }
  }

  lemma WorkKeepsExpansion(cfg: Config, s: World, w: nat, st: WorkerStep)
    requires LeaseInv(cfg, s) && ExpansionInv(s) && CanWork(cfg, s, w, st)
    ensures ExpansionInv(DoWork(cfg, s, w, st))
  {
    hide LeaseInv, ExpansionInv, SameCatalog, SameQueues, DoWork, CanWork;
    WorkSparesExpansion(cfg, s, w, st);
    ExpansionFrame(s, DoWork(cfg, s, w, st));
  }

  // ----------------------------------------------------------- steps and runs

  lemma WorkKeepsInv(cfg: Config, s: World, w: nat, st: WorkerStep)
    requires Inv(cfg, s) && CanWork(cfg, s, w, st)
    ensures Inv(cfg, DoWork(cfg, s, w, st))
  {
    hide LeaseInv, AttemptInv, GateInv, ExpansionInv, EffectInv, DoWork, CanWork;
    WorkKeepsLease(cfg, s, w, st);
    WorkKeepsAttempts(cfg, s, w, st);
    WorkKeepsGate(cfg, s, w, st);
    WorkKeepsExpansion(cfg, s, w, st);
    WorkKeepsEffects(cfg, s, w, st);
  }

  lemma TransactKeepsEffects(s: World, x: nat, st: ExpansionStep)
    requires EffectInv(s) && CanTransact(s, x, st)
    ensures EffectInv(DoTransact(s, x, st))
  {
    var s' := DoTransact(s, x, st);
    assert st.Expand? ==> s'.db.deliveries == s.db.deliveries + FanOut(s.db, s.expanders[x].event.value, st.seqs, s.expanders[x].began);
    assert st.AppendReplay? ==> s'.db.deliveries == s.db.deliveries + ReplayRows(s.db, s.replayers[x].replay, st.seqs, s.replayers[x].began);
    EffectFrame(s, s');
  }

  lemma TransactKeepsInv(cfg: Config, s: World, x: nat, st: ExpansionStep)
    requires Inv(cfg, s) && CanTransact(s, x, st)
    ensures Inv(cfg, DoTransact(s, x, st))
  {
    assert ReplayOk(s.db);
    hide LeaseInv, AttemptInv, GateInv, ExpansionInv, EffectInv, ReplayOk, DoTransact, CanTransact;
    TransactKeepsLease(cfg, s, x, st);
    TransactKeepsAttempts(cfg, s, x, st);
    TransactKeepsGate(s, x, st);
    TransactKeepsExpansion(s, x, st);
    TransactKeepsEffects(s, x, st);
  }

  lemma ApiKeepsEffects(s: World, st: ApiStep)
    requires EffectInv(s) && CanApi(s, st)
    ensures EffectInv(DoApi(s, st))
  {
    EffectFrame(s, DoApi(s, st));
  }

  lemma ApiKeepsAttempts(cfg: Config, s: World, st: ApiStep)
    requires AttemptInv(cfg, s.db) && CanApi(s, st)
    ensures AttemptInv(cfg, DoApi(s, st).db)
  {
    hide AttemptInv;
    SameHistory(cfg, s.db, DoApi(s, st).db);
  }

  lemma ApiKeepsInv(cfg: Config, s: World, st: ApiStep)
    requires Inv(cfg, s) && CanApi(s, st)
    ensures Inv(cfg, DoApi(s, st))
  {
    hide LeaseInv, AttemptInv, GateInv, ExpansionInv, EffectInv, DoApi, CanApi;
    ApiKeepsLease(cfg, s, st);
    ApiKeepsAttempts(cfg, s, st);
    ApiKeepsGate(cfg, s, st);
    ApiKeepsExpansion(s, st);
    ApiKeepsEffects(s, st);
  }

  lemma ReceiveKeepsInv(cfg: Config, s: World, a: nat, ok: bool)
    requires Inv(cfg, s) && CanReceive(s, a)
    ensures Inv(cfg, DoReceive(s, a, ok))
  {
    hide LeaseInv, AttemptInv, GateInv, ExpansionInv, EffectInv, DoReceive, CanReceive, SameProtocolState, SameCatalog, SameQueues;
    var s' := DoReceive(s, a, ok);
    ReceiveSpares(s, a, ok);
    SameStateKeeps(cfg, s, s');
    ExpansionFrame(s, s');
    ReceiveKeeps(s, a, ok);
  }

  lemma ReceiveSpares(s: World, a: nat, ok: bool)
    requires CanReceive(s, a)
    ensures var s' := DoReceive(s, a, ok);
            && SameProtocolState(s, s') && s'.db == s.db && s'.workers == s.workers && s'.expanders == s.expanders && s'.replayers == s.replayers
            && SameCatalog(s.db, s'.db) && SameQueues(s.db.deliveries, s'.db.deliveries)
  {
    hide Handle;
  }

  lemma TickKeepsInv(cfg: Config, s: World, to: Time)
    requires Inv(cfg, s) && s.clock <= to
    ensures Inv(cfg, s.(clock := to))
  {
    var s' := s.(clock := to);
    assert SameCatalog(s.db, s'.db) && SameQueues(s.db.deliveries, s'.db.deliveries) && Learns(s, s');
    EffectFrame(s, s');
    hide LeaseInv, AttemptInv, GateInv, ExpansionInv, EffectInv, SameCatalog, SameQueues, Learns;
    TickKeeps(cfg, s, to);
    ExpansionFrame(s, s');
  }

  lemma StepKeepsInv(cfg: Config, s: World, st: Step)
    requires Inv(cfg, s) && Enabled(cfg, s, st)
    ensures Inv(cfg, Apply(cfg, s, st))
  {
    hide Inv;
    match st
    case Tick(to) => TickKeepsInv(cfg, s, to);
    case Work(w, work) => WorkKeepsInv(cfg, s, w, work);
    case Receive(a, ok) => ReceiveKeepsInv(cfg, s, a, ok);
    case Transact(x, tx) => TransactKeepsInv(cfg, s, x, tx);
    case Api(api) => ApiKeepsInv(cfg, s, api);
  }

  /** The invariant holds in whatever state a run ends, however its steps interleave. */
  lemma {:induction false} RunKeepsInv(cfg: Config, s: World, steps: seq<Step>)
    requires Inv(cfg, s) && IsRun(cfg, s, steps)
    ensures Inv(cfg, After(cfg, s, steps))
    decreases |steps|
  {
    hide Inv, Enabled, Apply;
    if steps != [] {
      StepKeepsInv(cfg, s, steps[0]);
      RunKeepsInv(cfg, Apply(cfg, s, steps[0]), steps[1..]);
    }
  }

  lemma ReachableInv(cfg: Config, s: World)
    requires Reachable(cfg, s)
    ensures Inv(cfg, s)
  {
    hide Inv, Init, IsRun, After;
    var s0: World, steps: seq<Step> :| Init(s0) && IsRun(cfg, s0, steps) && After(cfg, s0, steps) == s;
    InitInv(cfg, s0);
    RunKeepsInv(cfg, s0, steps);
  }
}
