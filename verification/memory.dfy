/** What a claim phase remembers of its delivery and its attempt row, whoever holds the lease by now:
    every step keeps it true, however long the worker stalls. */
module ClaimMemory {
  import opened Tables
  import opened Protocol
  import opened LeaseInvariant
  import opened AttemptInvariant
  import opened GateInvariant
  import opened ExpansionInvariant
  import opened EffectInvariant
  import opened SystemInvariant

  /** The picked delivery: as long as it was not marked since, it is pending, and may be sent. */
  predicate DeliveryRemembered(db: DB, clock: Time, c: Claim) {
    && c.delivery < |db.deliveries| && db.deliveries[c.delivery].endpoint == c.endpoint
    && 1 <= c.number <= db.deliveries[c.delivery].attemptCount + 1
    && (c.number == db.deliveries[c.delivery].attemptCount + 1 ==>
          db.deliveries[c.delivery].state == Pending && db.deliveries[c.delivery].nextAttemptAt <= clock)
  }

  /** The recorded attempt: nobody else marks it, and it is open as long as its delivery was not marked
      since; attempts recorded after it have no smaller number. */
  ghost predicate AttemptRemembered(db: DB, c: Claim) {
    && c.delivery < |db.deliveries| && c.attempt < |db.attempts|
    && db.attempts[c.attempt].delivery == c.delivery && db.attempts[c.attempt].number == c.number && !db.attempts[c.attempt].sent
    && (c.number == db.deliveries[c.delivery].attemptCount + 1 ==> db.attempts[c.attempt].outcome == Open)
    && forall b :: c.attempt < b < |db.attempts| && db.attempts[b].delivery == c.delivery ==> c.number <= db.attempts[b].number
  }

  predicate HasPicked(s: World, w: nat) {
    InPhase(s, w, Picked) || InPhase(s, w, Inserted)
  }

  ghost predicate Remembers(s: World) {
    && (forall w :: HasPicked(s, w) ==> DeliveryRemembered(s.db, s.clock, s.workers[w].claim))
    && (forall w :: InPhase(s, w, Inserted) ==> AttemptRemembered(s.db, s.workers[w].claim))
    && (forall v, w :: InPhase(s, v, Inserted) && InPhase(s, w, Inserted) && v != w ==> s.workers[v].claim.attempt != s.workers[w].claim.attempt)
  }

  // ------------------------------------------------------------------ frames

  /** A pending delivery stays as it is until it is marked. */
  predicate Onward(d: Delivery, d': Delivery) {
    && d'.endpoint == d.endpoint && d.attemptCount <= d'.attemptCount
    && (d.state == Pending && d'.attemptCount == d.attemptCount ==> d'.state == Pending && d'.nextAttemptAt == d.nextAttemptAt)
  }

  ghost predicate DeliveriesOnward(ds: seq<Delivery>, ds': seq<Delivery>) {
    |ds| <= |ds'| && forall i :: 0 <= i < |ds| ==> Onward(ds[i], ds'[i])
  }

  /** Attempts keep their delivery and number, and stay open while their delivery is pending. */
  ghost predicate AttemptsOnward(db: DB, at': seq<Attempt>) {
    && |db.attempts| <= |at'|
    && forall a :: 0 <= a < |db.attempts| ==>
         && at'[a].delivery == db.attempts[a].delivery && at'[a].number == db.attempts[a].number
         && (db.attempts[a].delivery < |db.deliveries| && db.deliveries[db.attempts[a].delivery].state == Pending && db.attempts[a].outcome == Open ==>
               at'[a].outcome == Open)
  }

  /** No attempt is recorded or marked, and no worker comes to pick or record one. */
  ghost predicate Quiet(s: World, s': World) {
    && s.clock <= s'.clock && DeliveriesOnward(s.db.deliveries, s'.db.deliveries) && AttemptsOnward(s.db, s'.db.attempts)
    && |s'.db.attempts| == |s.db.attempts| && (forall a :: 0 <= a < |s.db.attempts| ==> s'.db.attempts[a].sent == s.db.attempts[a].sent)
    && (forall w :: HasPicked(s', w) ==> w in s.workers && s'.workers[w] == s.workers[w])
  }

  lemma DeliveryFrame(db: DB, db': DB, clock: Time, clock': Time, c: Claim)
    requires DeliveryRemembered(db, clock, c) && DeliveriesOnward(db.deliveries, db'.deliveries) && clock <= clock'
    ensures DeliveryRemembered(db', clock', c)
  {
    assert Onward(db.deliveries[c.delivery], db'.deliveries[c.delivery]);
  }

  lemma AttemptFrame(db: DB, db': DB, clock: Time, c: Claim)
    requires DeliveryRemembered(db, clock, c) && AttemptRemembered(db, c)
    requires DeliveriesOnward(db.deliveries, db'.deliveries) && AttemptsOnward(db, db'.attempts)
    requires !db'.attempts[c.attempt].sent
    requires forall b :: |db.attempts| <= b < |db'.attempts| && db'.attempts[b].delivery == c.delivery ==> c.number <= db'.attempts[b].number
    ensures AttemptRemembered(db', c)
  {
    assert Onward(db.deliveries[c.delivery], db'.deliveries[c.delivery]);
    forall b | c.attempt < b < |db'.attempts| && db'.attempts[b].delivery == c.delivery ensures c.number <= db'.attempts[b].number {
      if b < |db.attempts| { assert db.attempts[b].delivery == c.delivery; }
    }
  }

  lemma QuietRemembers(s: World, s': World)
    requires Quiet(s, s') && Remembers(s)
    ensures Remembers(s')
  {
    hide DeliveryRemembered, AttemptRemembered, DeliveriesOnward, AttemptsOnward;
    forall w | HasPicked(s', w) ensures DeliveryRemembered(s'.db, s'.clock, s'.workers[w].claim) {
      assert HasPicked(s, w);
      DeliveryFrame(s.db, s'.db, s.clock, s'.clock, s.workers[w].claim);
    }
    forall w | InPhase(s', w, Inserted) ensures AttemptRemembered(s'.db, s'.workers[w].claim) {
      assert HasPicked(s', w) && HasPicked(s, w);
      RowOfClaim(s, w);
      AttemptFrame(s.db, s'.db, s.clock, s.workers[w].claim);
    }
    assert forall w :: InPhase(s', w, Inserted) ==> HasPicked(s', w);
  }

  lemma RowOfClaim(s: World, w: nat)
    requires Remembers(s) && InPhase(s, w, Inserted)
    ensures AttemptRemembered(s.db, s.workers[w].claim) && DeliveryRemembered(s.db, s.clock, s.workers[w].claim)
    ensures s.workers[w].claim.attempt < |s.db.attempts| && !s.db.attempts[s.workers[w].claim.attempt].sent
  {
    assert HasPicked(s, w);
  }

  // ------------------------------------------------------- the four claim statements

  /** The reclaim statements are quiet, at any time. */
  lemma ReclaimIsQuiet(s: World, w: nat)
    ensures InPhase(s, w, Served) ==> Quiet(s, DoCloseOrphans(s, w))
    ensures InPhase(s, w, Closing) ==> Quiet(s, DoRequeue(s, w))
  {
    if InPhase(s, w, Closing) {
      assert forall i :: 0 <= i < |s.db.deliveries| ==> DoRequeue(s, w).db.deliveries[i] == Requeued(s.db.deliveries[i], s.workers[w].claim.endpoint);
    }
  }

  /** Recording an attempt with the next number of its delivery. */
  lemma InsertRemembers(s: World, w: nat)
    requires Remembers(s) && InPhase(s, w, Picked) && s.workers[w].claim.delivery < |s.db.deliveries|
    requires s.workers[w].claim.number == s.db.deliveries[s.workers[w].claim.delivery].attemptCount + 1
    ensures Remembers(DoInsertAttempt(s, w))
  {
    hide AttemptRemembered, DeliveriesOnward, AttemptsOnward, Remembers;
    var s' := DoInsertAttempt(s, w);
    InsertOnward(s, w);
    assert forall v :: v != w ==> (HasPicked(s', v) <==> HasPicked(s, v)) && (InPhase(s', v, Inserted) <==> InPhase(s, v, Inserted));
    forall v | HasPicked(s', v) ensures DeliveryRemembered(s'.db, s'.clock, s'.workers[v].claim) {
      assert HasPicked(s, v);
      PickedOf(s, v);
    }
    forall v | InPhase(s', v, Inserted) ensures AttemptRemembered(s'.db, s'.workers[v].claim) {
      if v == w { NewRow(s, w); } else { RowOfClaim(s, v); AttemptFrame(s.db, s'.db, s.clock, s.workers[v].claim); }
    }
    forall u, v | InPhase(s', u, Inserted) && InPhase(s', v, Inserted) && u != v ensures s'.workers[u].claim.attempt != s'.workers[v].claim.attempt {
      if u != w { RowOfClaim(s, u); }
      if v != w { RowOfClaim(s, v); }
      if u != w && v != w { RowsApart(s, u, v); }
    }
    assert Remembers(s') by { AllRemembered(s'); }
  }

  lemma AllRemembered(s: World)
    requires forall w :: HasPicked(s, w) ==> DeliveryRemembered(s.db, s.clock, s.workers[w].claim)
    requires forall w :: InPhase(s, w, Inserted) ==> AttemptRemembered(s.db, s.workers[w].claim)
    requires forall v, w :: InPhase(s, v, Inserted) && InPhase(s, w, Inserted) && v != w ==> s.workers[v].claim.attempt != s.workers[w].claim.attempt
    ensures Remembers(s)
  {
  }

  lemma PickedOf(s: World, w: nat)
    requires Remembers(s) && HasPicked(s, w)
    ensures DeliveryRemembered(s.db, s.clock, s.workers[w].claim)
  {
  }

  lemma RowsApart(s: World, u: nat, v: nat)
    requires Remembers(s) && InPhase(s, u, Inserted) && InPhase(s, v, Inserted) && u != v
    ensures s.workers[u].claim.attempt != s.workers[v].claim.attempt
  {
  }

  lemma NewRow(s: World, w: nat)
    requires InPhase(s, w, Picked) && s.workers[w].claim.delivery < |s.db.deliveries|
    ensures AttemptRemembered(DoInsertAttempt(s, w).db, DoInsertAttempt(s, w).workers[w].claim)
  {
  }

  lemma InsertOnward(s: World, w: nat)
    requires InPhase(s, w, Picked)
    ensures var s' := DoInsertAttempt(s, w); DeliveriesOnward(s.db.deliveries, s'.db.deliveries) && AttemptsOnward(s.db, s'.db.attempts)
  {
  }

  /** Marking a delivery with its next number. */
  lemma MarkRemembers(s: World, w: nat)
    requires Remembers(s) && BeforeMark(s, w)
    requires s.workers[w].claim.number == s.db.deliveries[s.workers[w].claim.delivery].attemptCount + 1
    ensures Remembers(DoMarkInFlight(s, w))
  {
    hide DeliveryRemembered, AttemptRemembered, DeliveriesOnward, AttemptsOnward, Remembers;
    var s' := DoMarkInFlight(s, w);
    MarkOnward(s, w);
    assert forall v :: HasPicked(s', v) ==> v != w && HasPicked(s, v) && s'.workers[v] == s.workers[v];
    forall v | HasPicked(s', v) ensures DeliveryRemembered(s'.db, s'.clock, s'.workers[v].claim) {
      PickedOf(s, v);
      DeliveryFrame(s.db, s'.db, s.clock, s.clock, s.workers[v].claim);
    }
    forall v | InPhase(s', v, Inserted) ensures AttemptRemembered(s'.db, s'.workers[v].claim) {
      assert HasPicked(s', v);
      RowOfClaim(s, v);
      RowsApart(s, v, w);
      AttemptFrame(s.db, s'.db, s.clock, s.workers[v].claim);
    }
    forall u, v | InPhase(s', u, Inserted) && InPhase(s', v, Inserted) && u != v ensures s'.workers[u].claim.attempt != s'.workers[v].claim.attempt {
      assert HasPicked(s', u) && HasPicked(s', v);
      RowsApart(s, u, v);
    }
    assert Remembers(s') by { AllRemembered(s'); }
  }

  lemma MarkOnward(s: World, w: nat)
    requires BeforeMark(s, w) && s.workers[w].claim.number == s.db.deliveries[s.workers[w].claim.delivery].attemptCount + 1
    ensures var s' := DoMarkInFlight(s, w); DeliveriesOnward(s.db.deliveries, s'.db.deliveries) && AttemptsOnward(s.db, s'.db.attempts)
  {
  }

  lemma FetchRemembers(s: World, w: nat)
    requires Remembers(s) && CanFetchHead(s, w)
    ensures Remembers(DoFetchHead(s, w))
  {
    var s' := DoFetchHead(s, w);
    assert forall v :: v != w ==> (HasPicked(s', v) <==> HasPicked(s, v)) && (InPhase(s', v, Inserted) <==> InPhase(s, v, Inserted));
    hide AttemptRemembered;
  }

  // ----------------------------------------------------------------- every step

  lemma TransactIsQuiet(s: World, x: nat, st: ExpansionStep)
    requires CanTransact(s, x, st)
    ensures Quiet(s, DoTransact(s, x, st))
  {
    hide CommitInOrder, WindowEvents, Subscribers;
  }

  lemma ApiIsQuiet(s: World, st: ApiStep)
    requires CanApi(s, st)
    ensures Quiet(s, DoApi(s, st))
  {
    hide EventByKey, ReplayByKey;
  }

  lemma SameTablesAreQuiet(s: World, s': World)
    requires s'.db == s.db && s'.workers == s.workers && s.clock <= s'.clock
    ensures Quiet(s, s')
  {
  }

  lemma IdleWorkIsQuiet(cfg: Config, s: World, w: nat, st: WorkerStep)
    requires CanWork(cfg, s, w, st) && !WritesRows(st) && !st.FetchHead?
    ensures Quiet(s, DoWork(cfg, s, w, st))
  {
    hide IsSelection;
    OtherWorkOnlyLeases(cfg, s, w, st);
    assert forall v :: HasPicked(DoWork(cfg, s, w, st), v) ==> v != w && v in s.workers && DoWork(cfg, s, w, st).workers[v] == s.workers[v];
    hide DoWork, CanWork;
  }

  lemma FinishIsQuiet(cfg: Config, s: World, w: nat, began: Time, delay: nat)
    requires LeaseInv(cfg, s) && CanWriteBack(cfg, s, w, began, delay)
    ensures Quiet(s, DoWriteBack(cfg, s, w, began, delay))
  {
    WriteBackWorker(cfg, s, w, began, delay);
    hide LeaseInv, RowsOk;
  }

  /** All steps but those that pick, record or mark. */
  lemma OtherStepIsQuiet(cfg: Config, s: World, st: Step)
    requires LeaseInv(cfg, s) && Enabled(cfg, s, st) && !(st.Work? && (st.work.FetchHead? || st.work.InsertRow? || st.work.MarkRow?))
    ensures Quiet(s, Apply(cfg, s, st))
  {
    hide LeaseInv, Quiet;
    match st
    case Work(w, work) => {
      if work.Finish? { FinishIsQuiet(cfg, s, w, work.began, work.delay); }
      else if WritesRows(work) { ReclaimIsQuiet(s, w); }
      else { IdleWorkIsQuiet(cfg, s, w, work); }
    }
    case Transact(x, tx) => TransactIsQuiet(s, x, tx);
    case Api(api) => ApiIsQuiet(s, api);
    case Tick(to) => SameTablesAreQuiet(s, s.(clock := to));
    case Receive(b, ok) => SameTablesAreQuiet(s, DoReceive(s, b, ok));
  }

  lemma NextNumber(cfg: Config, s: World, w: nat)
    requires LeaseInv(cfg, s) && HasPicked(s, w) && Owns(s.db, s.workers[w])
    ensures var c := s.workers[w].claim; c.delivery < |s.db.deliveries| && c.number == s.db.deliveries[c.delivery].attemptCount + 1
  {
    OwnerKnows(cfg, s, w);
    hide LeaseInv, WorkerOk, RowsOk, NoneInFlight, AtHead, InsertedOk;
    assert PickedOk(s.db, s.clock, s.workers[w].claim);
    assert s.workers[w].claim.delivery < |s.db.deliveries| by { HeadExists(s.db.deliveries, s.workers[w].claim.delivery); }
  }

  lemma StepRemembers(cfg: Config, s: World, st: Step)
    requires LeaseInv(cfg, s) && Enabled(cfg, s, st) && Remembers(s)
    ensures Remembers(Apply(cfg, s, st))
  {
    hide LeaseInv, Remembers, Quiet;
    if st.Work? && st.work.FetchHead? {
      FetchRemembers(s, st.w);
    } else if st.Work? && (st.work.InsertRow? || st.work.MarkRow?) {
      InTimeOwns(cfg, s, st.w);
      hide WorkerOk, RowsOk, PhaseOk;
      NextNumber(cfg, s, st.w);
      if st.work.InsertRow? { InsertRemembers(s, st.w); } else { MarkRemembers(s, st.w); }
    } else {
      hide Enabled, Apply;
      OtherStepIsQuiet(cfg, s, st);
      QuietRemembers(s, Apply(cfg, s, st));
    }
  }

  lemma {:induction false} RunRemembers(cfg: Config, s: World, steps: seq<Step>)
    requires Inv(cfg, s) && IsRun(cfg, s, steps) && Remembers(s)
    ensures Remembers(After(cfg, s, steps))
    decreases |steps|
  {
    if steps != [] {
      hide Enabled, Apply, Remembers, LeaseInv, AttemptInv, GateInv, ExpansionInv, EffectInv;
      StepKeepsInv(cfg, s, steps[0]);
      StepRemembers(cfg, s, steps[0]);
      RunRemembers(cfg, Apply(cfg, s, steps[0]), steps[1..]);
    }
  }

  lemma NobodyPicked(s: World)
    requires Init(s)
    ensures Remembers(s)
  {
  }

  /** In every reachable state, every claim phase remembers rightly, late or not. */
  lemma ReachableRemembers(cfg: Config, s: World)
    requires Reachable(cfg, s)
    ensures Remembers(s)
  {
    hide Inv, IsRun, After, Remembers, Init;
    var s0, steps :| Init(s0) && IsRun(cfg, s0, steps) && After(cfg, s0, steps) == s;
    InitInv(cfg, s0);
    NobodyPicked(s0);
    RunRemembers(cfg, s0, steps);
  }
}
