/** What no run ever undoes: rows are never lost, resolved deliveries, closed attempts, expanded
    events and expanded replays never change again. */
module WriteOnce {
  import opened Tables
  import opened Protocol
  import opened LeaseInvariant
  import opened ExpansionInvariant
  import opened SystemInvariant

  ghost predicate DeliveriesGrow(ds: seq<Delivery>, ds': seq<Delivery>) {
    && |ds| <= |ds'|
    && forall i :: 0 <= i < |ds| ==>
         SameStatic(ds[i], ds'[i]) && ds[i].attemptCount <= ds'[i].attemptCount && ds[i].nextAttemptAt <= ds'[i].nextAttemptAt && (Terminal(ds[i].state) ==> ds'[i] == ds[i])
  }

  ghost predicate AttemptsGrow(at: seq<Attempt>, at': seq<Attempt>) {
    && |at| <= |at'|
    && forall a :: 0 <= a < |at| ==>
         && at'[a].delivery == at[a].delivery && at'[a].number == at[a].number && (at[a].sent ==> at'[a].sent)
         && (at[a].outcome != Open ==> at'[a].outcome == at[a].outcome)
  }

  ghost predicate EventsGrow(evs: seq<Event>, evs': seq<Event>) {
    && |evs| <= |evs'|
    && forall i :: 0 <= i < |evs| ==>
         && evs'[i].tenant == evs[i].tenant && evs'[i].key == evs[i].key && evs'[i].eventType == evs[i].eventType && evs'[i].seqNo == evs[i].seqNo
         && (evs[i].status == Expanded ==> evs'[i] == evs[i])
  }

  ghost predicate ReplaysGrow(rs: seq<Replay>, rs': seq<Replay>) {
    && |rs| <= |rs'|
    && forall r :: 0 <= r < |rs| ==>
         && rs'[r].endpoint == rs[r].endpoint && rs'[r].key == rs[r].key && rs'[r].rangeStart == rs[r].rangeStart && rs'[r].rangeEnd == rs[r].rangeEnd
         && rs'[r].createdAt == rs[r].createdAt
         && (rs[r].status == Expanded ==> rs'[r] == rs[r])
  }

  ghost predicate EndpointsGrow(eps: seq<Endpoint>, eps': seq<Endpoint>) {
    && |eps| <= |eps'|
    && forall e :: 0 <= e < |eps| ==> eps'[e].tenant == eps[e].tenant && eps'[e].eventTypes == eps[e].eventTypes
  }

  ghost predicate Grows(db: DB, db': DB) {
    && DeliveriesGrow(db.deliveries, db'.deliveries) && AttemptsGrow(db.attempts, db'.attempts) && EventsGrow(db.events, db'.events)
    && ReplaysGrow(db.replays, db'.replays) && EndpointsGrow(db.endpoints, db'.endpoints)
  }

  lemma GrowsTransitive(a: DB, b: DB, c: DB)
    requires Grows(a, b) && Grows(b, c)
    ensures Grows(a, c)
  {
    assert DeliveriesGrow(a.deliveries, c.deliveries);
    assert AttemptsGrow(a.attempts, c.attempts);
    assert EventsGrow(a.events, c.events);
    assert ReplaysGrow(a.replays, c.replays);
  }

  lemma ClaimGrows(cfg: Config, s: World, w: nat, st: WorkerStep)
    requires LeaseInv(cfg, s) && CanWork(cfg, s, w, st) && WritesRows(st) && !st.Finish?
    ensures Grows(s.db, DoWork(cfg, s, w, st).db)
  {
    hide LeaseInv, WorkerOk, RowsOk, NoneInFlight, AtHead, OrphansClosed, InsertedOk;
    InTimeOwns(cfg, s, w);
    assert st.InsertRow? || st.MarkRow? ==> PickedOk(s.db, s.clock, s.workers[w].claim);
    HeadOf(s, w, st);
    hide PhaseOk, PickedOk;
  }

  lemma HeadOf(s: World, w: nat, st: WorkerStep)
    requires st.InsertRow? || st.MarkRow? ==> w in s.workers && s.workers[w].Claiming? && PickedOk(s.db, s.clock, s.workers[w].claim)
    ensures st.InsertRow? || st.MarkRow? ==>
              var c := s.workers[w].claim;
              c.delivery < |s.db.deliveries| && s.db.deliveries[c.delivery].state == Pending && c.number == s.db.deliveries[c.delivery].attemptCount + 1
  {
  }

  lemma FinishGrows(cfg: Config, s: World, w: nat, began: Time, delay: nat)
    requires LeaseInv(cfg, s) && CanWriteBack(cfg, s, w, began, delay)
    ensures Grows(s.db, DoWriteBack(cfg, s, w, began, delay).db)
  {
    hide LeaseInv, RowsOk;
    WriteBackWorker(cfg, s, w, began, delay);
  }

  lemma WorkGrows(cfg: Config, s: World, w: nat, st: WorkerStep)
    requires LeaseInv(cfg, s) && CanWork(cfg, s, w, st)
    ensures Grows(s.db, DoWork(cfg, s, w, st).db)
  {
    hide LeaseInv;
    if !WritesRows(st) {
      OtherWorkOnlyLeases(cfg, s, w, st);
      hide DoWork, CanWork;
    } else {
      hide Grows;
      if st.Finish? { FinishGrows(cfg, s, w, st.began, st.delay); } else { ClaimGrows(cfg, s, w, st); }
    }
  }

  lemma GrowsReflexive(db: DB)
    ensures Grows(db, db)
  {
  }

  lemma ExpandGrows(s: World, x: nat, seqs: seq<int>)
    requires ExpandersOk(s) && CanExpand(s, x, seqs)
    ensures Grows(s.db, DoExpand(s, x, seqs).db)
  {
    assert ExpanderOk(s.db, s.expanders[x]);
    hide ExpandersOk, ExpanderOk, CommitInOrder, FanOut;
  }

  lemma AppendReplayGrows(s: World, x: nat, seqs: seq<int>)
    requires ReplayersOk(s) && CanExpandReplay(s, x, seqs)
    ensures Grows(s.db, DoExpandReplay(s, x, seqs).db)
  {
    assert s.db.replays[s.replayers[x].replay].status == PendingExpansion;
    hide ReplayersOk, CommitInOrder, ReplayRows, WindowEvents;
  }

  lemma TransactGrows(s: World, x: nat, st: ExpansionStep)
    requires ExpandersOk(s) && ReplayersOk(s) && CanTransact(s, x, st)
    ensures Grows(s.db, DoTransact(s, x, st).db)
  {
    hide Grows, ExpandersOk, ReplayersOk;
    if st.Expand? { ExpandGrows(s, x, st.seqs); }
    else if st.AppendReplay? { AppendReplayGrows(s, x, st.seqs); }
    else { GrowsReflexive(s.db); }
  }

  lemma ApiGrows(s: World, st: ApiStep)
    requires CanApi(s, st)
    ensures Grows(s.db, DoApi(s, st).db)
  {
  }

  lemma StepGrows(cfg: Config, s: World, st: Step)
    requires Inv(cfg, s) && Enabled(cfg, s, st)
    ensures Grows(s.db, Apply(cfg, s, st).db)
  {
    hide LeaseInv, ExpandersOk, ReplayersOk, Grows;
    GrowsReflexive(s.db);
    match st
    case Work(w, work) => WorkGrows(cfg, s, w, work);
    case Transact(x, tx) => TransactGrows(s, x, tx);
    case Api(api) => ApiGrows(s, api);
    case Tick(_) =>
    case Receive(_, _) =>
  }

  /** Whatever happens after a reachable state, none of this is ever undone. */
  lemma {:induction false} RunGrows(cfg: Config, s: World, steps: seq<Step>)
    requires Inv(cfg, s) && IsRun(cfg, s, steps)
    ensures Grows(s.db, After(cfg, s, steps).db)
    decreases |steps|
  {
    if steps == [] {
      hide Inv;
    } else {
      hide Inv, Grows, Enabled, Apply;
      StepKeepsInv(cfg, s, steps[0]);
      StepGrows(cfg, s, steps[0]);
      RunGrows(cfg, Apply(cfg, s, steps[0]), steps[1..]);
      GrowsTransitive(s.db, Apply(cfg, s, steps[0]).db, After(cfg, s, steps).db);
    }
  }
}
