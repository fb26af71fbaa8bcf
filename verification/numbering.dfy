/** The attempt rows of a delivery over whole runs: what a claim leaves behind that stops between
    recording its attempt and marking its delivery, and that nothing else leaves anything behind. */
module Numbering {
  import opened Tables
  import opened Protocol
  import opened LeaseInvariant
  import opened AttemptInvariant
  import opened GateInvariant
  import opened ExpansionInvariant
  import opened EffectInvariant
  import opened SystemInvariant
  import opened WriteOnce
  import opened ClaimMemory

  /** The numbers of all attempt rows of a delivery, sent or not. */
  function AllNumbers(at: seq<Attempt>, d: nat): seq<nat> {
    if |at| == 0 then []
    else
      var last := at[|at| - 1];
      AllNumbers(at[..|at| - 1], d) + if last.delivery == d then [last.number] else []
  }

  ghost predicate SomeUnsent(at: seq<Attempt>, d: nat) {
    exists a :: 0 <= a < |at| && at[a].delivery == d && !at[a].sent
  }

  lemma {:induction false} SentAmongAll(at: seq<Attempt>, d: nat)
    ensures |SentNumbers(at, d)| <= |AllNumbers(at, d)|
    ensures !SomeUnsent(at, d) ==> AllNumbers(at, d) == SentNumbers(at, d)
    ensures SomeUnsent(at, d) ==> |SentNumbers(at, d)| < |AllNumbers(at, d)|
  {
    if |at| > 0 {
      var n := |at| - 1;
      SentAmongAll(at[..n], d);
      assert SomeUnsent(at[..n], d) ==> SomeUnsent(at, d);
      assert SomeUnsent(at, d) ==> SomeUnsent(at[..n], d) || (at[n].delivery == d && !at[n].sent);
    }
  }

  // ------------------------------------------------------ counting the steps of a run

  /** The step records an attempt of delivery `d`. */
  predicate Records(s: World, st: Step, d: nat) {
    st.Work? && st.work.InsertRow? && InPhase(s, st.w, Picked) && s.workers[st.w].claim.delivery == d
  }

  /** The step marks delivery `d` in flight. */
  predicate Marks(s: World, st: Step, d: nat) {
    st.Work? && st.work.MarkRow? && InPhase(s, st.w, Inserted) && s.workers[st.w].claim.delivery == d
  }

  /** How many attempts of `d` a run records. */
  ghost function Recorded(cfg: Config, s: World, steps: seq<Step>, d: nat): nat
    requires IsRun(cfg, s, steps)
    decreases |steps|
  {
    if steps == [] then 0 else (if Records(s, steps[0], d) then 1 else 0) + Recorded(cfg, Apply(cfg, s, steps[0]), steps[1..], d)
  }

  /** How many times a run marks `d` in flight. */
  ghost function Marked(cfg: Config, s: World, steps: seq<Step>, d: nat): nat
    requires IsRun(cfg, s, steps)
    decreases |steps|
  {
    if steps == [] then 0 else (if Marks(s, steps[0], d) then 1 else 0) + Marked(cfg, Apply(cfg, s, steps[0]), steps[1..], d)
  }

  function CountOf(ds: seq<Delivery>, d: nat): nat {
    if d < |ds| then ds[d].attemptCount else 0
  }

  /** Same attempts up to their outcome and `sent`. */
  ghost predicate SameRows(at: seq<Attempt>, at': seq<Attempt>) {
    |at'| == |at| && forall a :: 0 <= a < |at| ==> at'[a].delivery == at[a].delivery && at'[a].number == at[a].number
  }

  lemma {:induction false} AllNumbersSame(at: seq<Attempt>, at': seq<Attempt>, d: nat)
    requires SameRows(at, at')
    ensures AllNumbers(at', d) == AllNumbers(at, d)
  {
    if |at| > 0 { AllNumbersSame(at[..|at| - 1], at'[..|at| - 1], d); }
  }

  lemma AllNumbersAdd(at: seq<Attempt>, a: Attempt, d: nat)
    ensures AllNumbers(at + [a], d) == AllNumbers(at, d) + if a.delivery == d then [a.number] else []
  {
    assert (at + [a])[..|at|] == at;
  }

  /** What a step other than InsertRow and MarkRow leaves alone. */
  lemma OtherStepCounts(cfg: Config, s: World, st: Step)
    requires Inv(cfg, s) && Enabled(cfg, s, st) && !(st.Work? && (st.work.InsertRow? || st.work.MarkRow?))
    ensures var s' := Apply(cfg, s, st);
            && SameRows(s.db.attempts, s'.db.attempts)
            && forall d: nat :: CountOf(s'.db.deliveries, d) == CountOf(s.db.deliveries, d)
  {
    hide Inv, CountOf, SameRows;
    match st
    case Work(w, work) => OtherWorkCounts(cfg, s, w, work);
    case Transact(x, tx) => TransactCounts(s, x, tx);
    case Api(api) => ApiCounts(s, api);
    case Tick(_) => Uncounted(s.db, s.db);
    case Receive(_, _) => Uncounted(s.db, s.db);
  }

  lemma Uncounted(db: DB, db': DB)
    requires db'.attempts == db.attempts && db'.deliveries == db.deliveries
    ensures SameRows(db.attempts, db'.attempts) && forall d: nat :: CountOf(db'.deliveries, d) == CountOf(db.deliveries, d)
  {
  }

  lemma TransactCounts(s: World, x: nat, st: ExpansionStep)
    requires CanTransact(s, x, st)
    ensures var s' := DoTransact(s, x, st);
            SameRows(s.db.attempts, s'.db.attempts) && forall d: nat :: CountOf(s'.db.deliveries, d) == CountOf(s.db.deliveries, d)
  {
    hide CommitInOrder, WindowEvents, Subscribers;
  }

  lemma ApiCounts(s: World, st: ApiStep)
    requires CanApi(s, st)
    ensures var s' := DoApi(s, st);
            SameRows(s.db.attempts, s'.db.attempts) && forall d: nat :: CountOf(s'.db.deliveries, d) == CountOf(s.db.deliveries, d)
  {
    hide EventByKey, ReplayByKey;
  }

  lemma OtherWorkCounts(cfg: Config, s: World, w: nat, st: WorkerStep)
    requires Inv(cfg, s) && CanWork(cfg, s, w, st) && !st.InsertRow? && !st.MarkRow?
    ensures var s' := DoWork(cfg, s, w, st);
            SameRows(s.db.attempts, s'.db.attempts) && forall d: nat :: CountOf(s'.db.deliveries, d) == CountOf(s.db.deliveries, d)
  {
    hide LeaseInv, AttemptInv, GateInv, ExpansionInv, EffectInv;
    if !WritesRows(st) {
      OtherWorkOnlyLeases(cfg, s, w, st);
      hide DoWork, CanWork;
    } else if st.Finish? {
      WriteBackWorker(cfg, s, w, st.began, st.delay);
      hide RowsOk;
    } else {
      var s' := DoWork(cfg, s, w, st);
      assert st.RequeueRow? ==> forall i :: 0 <= i < |s.db.deliveries| ==> s'.db.deliveries[i] == Requeued(s.db.deliveries[i], s.workers[w].claim.endpoint);
    }
  }

  lemma InsertCounts(cfg: Config, s: World, w: nat, d: nat)
    requires CanInsertAttempt(cfg, s, w)
    ensures var s' := DoInsertAttempt(s, w);
            && |AllNumbers(s'.db.attempts, d)| == |AllNumbers(s.db.attempts, d)| + (if Records(s, Work(w, InsertRow), d) then 1 else 0)
            && s'.db.deliveries == s.db.deliveries
  {
    var c := s.workers[w].claim;
    AllNumbersAdd(s.db.attempts, Attempt(c.delivery, c.number, Open, false), d);
  }

  lemma MarkCounts(cfg: Config, s: World, w: nat, d: nat)
    requires Inv(cfg, s) && CanMarkInFlight(cfg, s, w)
    ensures var s' := DoMarkInFlight(s, w);
            && SameRows(s.db.attempts, s'.db.attempts)
            && CountOf(s'.db.deliveries, d) == CountOf(s.db.deliveries, d) + (if Marks(s, Work(w, MarkRow), d) then 1 else 0)
  {
    hide LeaseInv, AttemptInv, GateInv, ExpansionInv, EffectInv;
    InTimeOwns(cfg, s, w);
    hide RowsOk, WorkerOk, InsertedOk, NoneInFlight, AtHead;
  }

  lemma StepCounts(cfg: Config, s: World, st: Step, d: nat)
    requires Inv(cfg, s) && Enabled(cfg, s, st)
    ensures var s' := Apply(cfg, s, st);
            && |AllNumbers(s'.db.attempts, d)| == |AllNumbers(s.db.attempts, d)| + (if Records(s, st, d) then 1 else 0)
            && CountOf(s'.db.deliveries, d) == CountOf(s.db.deliveries, d) + (if Marks(s, st, d) then 1 else 0)
  {
    hide Inv, AllNumbers, CountOf;
    if st.Work? && st.work.InsertRow? {
      InsertCounts(cfg, s, st.w, d);
    } else if st.Work? && st.work.MarkRow? {
      MarkCounts(cfg, s, st.w, d);
      AllNumbersSame(s.db.attempts, DoMarkInFlight(s, st.w).db.attempts, d);
    } else {
      hide Enabled, Apply, Records, Marks;
      OtherStepCounts(cfg, s, st);
      AllNumbersSame(s.db.attempts, Apply(cfg, s, st).db.attempts, d);
      NeitherRecordsNorMarks(s, st, d);
    }
  }

  lemma NeitherRecordsNorMarks(s: World, st: Step, d: nat)
    requires !(st.Work? && (st.work.InsertRow? || st.work.MarkRow?))
    ensures !Records(s, st, d) && !Marks(s, st, d)
  {
  }

  /** attempt_count counts the marks of a run, the attempt rows count its inserts. */
  lemma {:induction false} RunCounts(cfg: Config, s: World, steps: seq<Step>, d: nat)
    requires Inv(cfg, s) && IsRun(cfg, s, steps)
    ensures var s' := After(cfg, s, steps);
            && |AllNumbers(s'.db.attempts, d)| == |AllNumbers(s.db.attempts, d)| + Recorded(cfg, s, steps, d)
            && CountOf(s'.db.deliveries, d) == CountOf(s.db.deliveries, d) + Marked(cfg, s, steps, d)
    decreases |steps|
  {
    if steps != [] {
      hide Inv, Enabled, Apply, AllNumbers, CountOf, Records, Marks;
      StepKeepsInv(cfg, s, steps[0]);
      StepCounts(cfg, s, steps[0], d);
      RunCounts(cfg, Apply(cfg, s, steps[0]), steps[1..], d);
    }
  }

  /** Over any run of the service, the attempt rows of a delivery are numbered 1..attempt_count, without
      a gap and without a number twice, if and only if every attempt the run recorded for it was
      followed by its mark: no claim stopped, or stands, between the two statements. */
  lemma NumberedIff(cfg: Config, s: World, steps: seq<Step>, d: nat)
    requires Init(s) && IsRun(cfg, s, steps) && d < |After(cfg, s, steps).db.deliveries|
    ensures Marked(cfg, s, steps, d) <= Recorded(cfg, s, steps, d)
    ensures var s' := After(cfg, s, steps);
            && s'.db.deliveries[d].attemptCount == Marked(cfg, s, steps, d)
            && (AllNumbers(s'.db.attempts, d) == UpTo(s'.db.deliveries[d].attemptCount) <==> Recorded(cfg, s, steps, d) == Marked(cfg, s, steps, d))
  {
    hide Inv, IsRun, After, Recorded, Marked, SentNumbers, SomeUnsent;
    InitInv(cfg, s);
    RunCounts(cfg, s, steps, d);
    RunKeepsInv(cfg, s, steps);
    SentAreNumbered(cfg, After(cfg, s, steps), d);
    SentAmongAll(After(cfg, s, steps).db.attempts, d);
  }

  lemma SentAreNumbered(cfg: Config, s: World, d: nat)
    requires Inv(cfg, s) && d < |s.db.deliveries|
    ensures SentNumbers(s.db.attempts, d) == UpTo(s.db.deliveries[d].attemptCount)
  {
    hide LeaseInv, GateInv, ExpansionInv, EffectInv, UnsentOk, OpenOk, WinsOk, InPublicationOrder, AllAccounted, SentNumbers;
  }

  // ------------------------------------------------ a claim that stopped in between

  /** Nobody is about to mark attempt `a` as sent. */
  ghost predicate Unclaimed(s: World, a: nat) {
    && a < |s.db.attempts| && !s.db.attempts[a].sent
    && forall w :: InPhase(s, w, Inserted) ==> s.workers[w].claim.attempt != a
  }

  lemma QuietKeeps(s: World, s': World, a: nat)
    requires Quiet(s, s') && Unclaimed(s, a)
    ensures Unclaimed(s', a)
  {
    assert forall w :: InPhase(s', w, Inserted) ==> HasPicked(s', w);
    hide DeliveriesOnward;
  }

  lemma ClaimKeeps(cfg: Config, s: World, w: nat, st: WorkerStep, a: nat)
    requires CanWork(cfg, s, w, st) && (st.FetchHead? || st.InsertRow? || st.MarkRow?) && Unclaimed(s, a)
    ensures Unclaimed(DoWork(cfg, s, w, st), a)
  {
    hide Lowest;
  }

  lemma StepKeepsUnclaimed(cfg: Config, s: World, st: Step, a: nat)
    requires LeaseInv(cfg, s) && Enabled(cfg, s, st) && Unclaimed(s, a)
    ensures Unclaimed(Apply(cfg, s, st), a)
  {
    hide LeaseInv, Unclaimed, Quiet;
    if st.Work? && (st.work.FetchHead? || st.work.InsertRow? || st.work.MarkRow?) {
      hide CanWork, DoWork;
      ClaimKeeps(cfg, s, st.w, st.work, a);
    } else {
      hide Enabled, Apply;
      OtherStepIsQuiet(cfg, s, st);
      QuietKeeps(s, Apply(cfg, s, st), a);
    }
  }

  lemma {:induction false} RunKeepsUnclaimed(cfg: Config, s: World, steps: seq<Step>, a: nat)
    requires Inv(cfg, s) && IsRun(cfg, s, steps) && Unclaimed(s, a)
    ensures Unclaimed(After(cfg, s, steps), a)
    decreases |steps|
  {
    if steps != [] {
      hide Enabled, Apply, Unclaimed, LeaseInv, AttemptInv, GateInv, ExpansionInv, EffectInv;
      StepKeepsInv(cfg, s, steps[0]);
      StepKeepsUnclaimed(cfg, s, steps[0], a);
      RunKeepsUnclaimed(cfg, Apply(cfg, s, steps[0]), steps[1..], a);
    }
  }

  lemma CrashUnclaims(s: World, w: nat)
    requires Remembers(s) && InPhase(s, w, Inserted)
    ensures Unclaimed(s.(workers := s.workers - {w}), s.workers[w].claim.attempt)
  {
    RowOfClaim(s, w);
  }

  /** A worker that stops between the two statements leaves its row for good: in every later state, no
      matter what happens, the rows of that delivery are not numbered 1..attempt_count. */
  lemma StoppedClaimStays(cfg: Config, s: World, w: nat, steps: seq<Step>)
    requires Reachable(cfg, s) && InPhase(s, w, Inserted) && IsRun(cfg, s.(workers := s.workers - {w}), steps)
    ensures var s' := After(cfg, s.(workers := s.workers - {w}), steps); var c := s.workers[w].claim;
            && c.attempt < |s'.db.attempts| && s'.db.attempts[c.attempt].delivery == c.delivery && !s'.db.attempts[c.attempt].sent
            && c.delivery < |s'.db.deliveries| && AllNumbers(s'.db.attempts, c.delivery) != UpTo(s'.db.deliveries[c.delivery].attemptCount)
  {
    hide Inv, IsRun, After, Remembers, SentNumbers, AllNumbers, Grows, Unclaimed;
    var s1 := s.(workers := s.workers - {w});
    var c := s.workers[w].claim;
    ReachableInv(cfg, s);
    ReachableRemembers(cfg, s);
    CrashUnclaims(s, w);
    assert Enabled(cfg, s, Work(w, Crash)) && Apply(cfg, s, Work(w, Crash)) == s1;
    StepKeepsInv(cfg, s, Work(w, Crash));
    RunKeepsUnclaimed(cfg, s1, steps, c.attempt);
    RunGrows(cfg, s1, steps);
    RunKeepsInv(cfg, s1, steps);
    var s' := After(cfg, s1, steps);
    RememberedRow(s, w);
    AttemptStays(s1.db, s'.db, c.attempt);
    assert !s'.db.attempts[c.attempt].sent by { UnclaimedRow(s', c.attempt); }
    assert SomeUnsent(s'.db.attempts, c.delivery);
    SentAmongAll(s'.db.attempts, c.delivery);
    SentAreNumbered(cfg, s', c.delivery);
  }

  lemma UnclaimedRow(s: World, a: nat)
    requires Unclaimed(s, a)
    ensures a < |s.db.attempts| && !s.db.attempts[a].sent
  {
  }

  lemma AttemptStays(db: DB, db': DB, a: nat)
    requires Grows(db, db') && a < |db.attempts|
    ensures a < |db'.attempts| && db'.attempts[a].delivery == db.attempts[a].delivery && |db.deliveries| <= |db'.deliveries|
  {
  }

  lemma RememberedRow(s: World, w: nat)
    requires Remembers(s) && InPhase(s, w, Inserted)
    ensures var c := s.workers[w].claim; c.attempt < |s.db.attempts| && s.db.attempts[c.attempt].delivery == c.delivery && c.delivery < |s.db.deliveries|
  {
    RowOfClaim(s, w);
  }

  // -------------------------------------------------------- who closes such a row

  lemma ClosingWork(cfg: Config, s: World, w: nat, st: WorkerStep, a: nat)
    requires LeaseInv(cfg, s) && CanWork(cfg, s, w, st) && a < |s.db.attempts| && s.db.attempts[a].outcome == Open && !s.db.attempts[a].sent
    ensures var s' := DoWork(cfg, s, w, st);
            && a < |s'.db.attempts|
            && (s'.db.attempts[a].outcome != Open ==> st.CloseOrphanRows? && OrphanOf(s.db, s.db.attempts[a], s.workers[w].claim.endpoint))
  {
    hide LeaseInv;
    if !WritesRows(st) {
      OtherWorkOnlyLeases(cfg, s, w, st);
      hide DoWork, CanWork;
    } else if st.Finish? {
      WriteBackWorker(cfg, s, w, st.began, st.delay);
      hide RowsOk;
    }
  }

  /** An attempt row that was not sent is closed by one statement only: a reclaim of its endpoint, while
      its delivery is in flight for a later attempt. */
  lemma OnlyReclaimCloses(cfg: Config, s: World, st: Step, a: nat)
    requires Inv(cfg, s) && Enabled(cfg, s, st) && a < |s.db.attempts| && s.db.attempts[a].outcome == Open && !s.db.attempts[a].sent
    ensures var s' := Apply(cfg, s, st);
            && a < |s'.db.attempts|
            && (s'.db.attempts[a].outcome != Open ==>
                  st.Work? && st.work.CloseOrphanRows? && InPhase(s, st.w, Served) && OrphanOf(s.db, s.db.attempts[a], s.workers[st.w].claim.endpoint))
  {
    hide LeaseInv, AttemptInv, GateInv, ExpansionInv, EffectInv;
    if st.Work? {
      hide DoWork;
      ClosingWork(cfg, s, st.w, st.work, a);
    } else if st.Transact? {
      hide CommitInOrder, WindowEvents, Subscribers;
    } else {
      hide CanWork, DoWork, CanTransact, DoTransact, EventByKey, ReplayByKey;
    }
  }

  /** So an attempt that is open when its delivery is resolved stays open for ever. */
  lemma {:induction false} OpenForEver(cfg: Config, s: World, steps: seq<Step>, a: nat)
    requires Inv(cfg, s) && IsRun(cfg, s, steps) && a < |s.db.attempts| && s.db.attempts[a].outcome == Open
    requires s.db.attempts[a].delivery < |s.db.deliveries| && Terminal(s.db.deliveries[s.db.attempts[a].delivery].state)
    ensures a < |After(cfg, s, steps).db.attempts| && After(cfg, s, steps).db.attempts[a].outcome == Open
    decreases |steps|
  {
    if steps != [] {
      hide Inv, Enabled, Apply, Grows;
      OpenAndResolved(cfg, s, a);
      StepKeepsInv(cfg, s, steps[0]);
      OnlyReclaimCloses(cfg, s, steps[0], a);
      StepGrows(cfg, s, steps[0]);
      ResolvedStays(s.db, Apply(cfg, s, steps[0]).db, a);
      OpenForEver(cfg, Apply(cfg, s, steps[0]), steps[1..], a);
    }
  }

  lemma OpenAndResolved(cfg: Config, s: World, a: nat)
    requires Inv(cfg, s) && a < |s.db.attempts| && s.db.attempts[a].outcome == Open
    requires s.db.attempts[a].delivery < |s.db.deliveries| && Terminal(s.db.deliveries[s.db.attempts[a].delivery].state)
    ensures !s.db.attempts[a].sent
  {
    hide LeaseInv, GateInv, ExpansionInv, EffectInv, UnsentOk, WinsOk, InPublicationOrder, AllAccounted, NumberingOk;
  }

  lemma ResolvedStays(db: DB, db': DB, a: nat)
    requires Grows(db, db') && a < |db.attempts| && db.attempts[a].delivery < |db.deliveries| && Terminal(db.deliveries[db.attempts[a].delivery].state)
    ensures db'.attempts[a].delivery == db.attempts[a].delivery && db'.attempts[a].delivery < |db'.deliveries|
    ensures Terminal(db'.deliveries[db.attempts[a].delivery].state)
  {
  }
}
