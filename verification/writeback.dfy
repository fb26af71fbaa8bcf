/** The verdict of an attempt: what a write-back writes for each reply, that a delivery fails at the attempt
    ceiling and nowhere else, and that below it the service tries again. */
module WriteBacks {
  import opened Tables
  import opened Protocol
  import opened LeaseInvariant
  import opened AttemptInvariant
  import opened GateInvariant
  import opened ExpansionInvariant
  import opened EffectInvariant
  import opened SystemInvariant
  import opened Runs
  import opened Claiming

  /** The rows before and after. Without the lease nothing is written. Under it the attempt keeps its reply
      and the endpoint is free again. A status from 200 to 299 succeeds; anything else, no reply
      included, fails the delivery and halts the endpoint from attempt maxAttempts on, and below
      that leaves it pending for a retry after the delay. */
  lemma WriteBackOnRows(db: DB, cfg: Config, c: Claim, reply: Reply, now: Time, delay: nat)
    requires c.endpoint < |db.endpoints| && c.delivery < |db.deliveries| && c.attempt < |db.attempts|
    ensures db.endpoints[c.endpoint].leaseId != Some(c.lease) ==> WriteBack(db, cfg, c, reply, now, delay) == (db, LeaseLost)
    ensures db.endpoints[c.endpoint].leaseId == Some(c.lease) ==>
              var (db', verdict) := WriteBack(db, cfg, c, reply, now, delay);
              var d, ep := db.deliveries[c.delivery], db.endpoints[c.endpoint];
              && |db'.deliveries| == |db.deliveries| && |db'.endpoints| == |db.endpoints|
              && (var d', ep' := db'.deliveries[c.delivery], db'.endpoints[c.endpoint];
                  && db' == db.(deliveries := db.deliveries[c.delivery := d'], endpoints := db.endpoints[c.endpoint := ep'],
                                attempts := db.attempts[c.attempt := db.attempts[c.attempt].(outcome := Closed(reply))])
                  && ep' == ep.(status := ep'.status, gated := ep'.gated, busy := false, busySince := None, leaseId := None)
                  && (if reply.Response? && 200 <= reply.status <= 299 then
                        verdict == Success && d' == d.(state := Succeeded) && ep'.status == ep.status
                      else if c.number >= cfg.maxAttempts then
                        verdict == HaltedNow && d' == d.(state := Failed) && ep'.status == Halted
                      else
                        && verdict == Retrying && ep'.status == ep.status
                        && d' == d.(state := Pending, nextAttemptAt := now + delay, retries := d'.retries, scheduled := d'.scheduled)))
  {
  }

  // --------------------------------------------------------- failing at the ceiling

  /** The attempt was answered, or not, without a 2xx, and was the last one the ceiling allows. */
  predicate LastMiss(cfg: Config, a: Attempt) {
    && a.outcome.Closed? && a.number >= cfg.maxAttempts
    && !(a.outcome.reply.Response? && 200 <= a.outcome.reply.status <= 299)
  }

  ghost predicate HasLastMiss(cfg: Config, at: seq<Attempt>, d: nat) {
    exists a :: 0 <= a < |at| && at[a].delivery == d && LastMiss(cfg, at[a])
  }

  ghost predicate FailuresOk(cfg: Config, db: DB) {
    && (forall d :: 0 <= d < |db.deliveries| ==> (db.deliveries[d].state == Failed <==> HasLastMiss(cfg, db.attempts, d)))
    && (forall a :: 0 <= a < |db.attempts| ==> db.attempts[a].delivery < |db.deliveries|)
  }

  /** No delivery failed or ceased to, and no attempt got a reply. */
  ghost predicate NoVerdict(db: DB, db': DB) {
    && |db.deliveries| <= |db'.deliveries| && |db.attempts| <= |db'.attempts|
    && (forall d :: 0 <= d < |db.deliveries| ==> (db'.deliveries[d].state == Failed <==> db.deliveries[d].state == Failed))
    && (forall d :: |db.deliveries| <= d < |db'.deliveries| ==> db'.deliveries[d].state != Failed)
    && (forall a :: 0 <= a < |db.attempts| ==>
          && db'.attempts[a].delivery == db.attempts[a].delivery && db'.attempts[a].number == db.attempts[a].number
          && (db'.attempts[a].outcome == db.attempts[a].outcome || (!db'.attempts[a].outcome.Closed? && !db.attempts[a].outcome.Closed?)))
    && (forall a :: |db.attempts| <= a < |db'.attempts| ==> !db'.attempts[a].outcome.Closed? && db'.attempts[a].delivery < |db'.deliveries|)
  }

  lemma NoVerdictKeeps(cfg: Config, db: DB, db': DB)
    requires FailuresOk(cfg, db) && NoVerdict(db, db')
    ensures FailuresOk(cfg, db')
  {
    forall d: nat | d < |db'.deliveries| ensures HasLastMiss(cfg, db'.attempts, d) <==> HasLastMiss(cfg, db.attempts, d) {
      if HasLastMiss(cfg, db.attempts, d) {
        var a :| 0 <= a < |db.attempts| && db.attempts[a].delivery == d && LastMiss(cfg, db.attempts[a]);
        assert LastMiss(cfg, db'.attempts[a]);
      }
      if HasLastMiss(cfg, db'.attempts, d) {
        var a :| 0 <= a < |db'.attempts| && db'.attempts[a].delivery == d && LastMiss(cfg, db'.attempts[a]);
        assert LastMiss(cfg, db.attempts[a]);
      }
    }
    forall d: nat | |db.deliveries| <= d < |db'.deliveries| ensures !HasLastMiss(cfg, db.attempts, d) {
    }
  }

  /** One reply was written: the delivery failed exactly when that was the last miss. */
  lemma VerdictKeeps(cfg: Config, db: DB, c: Claim, reply: Reply, now: Time, delay: nat)
    requires FailuresOk(cfg, db) && SendingOk(db, c) && HoldsLease(db, c.endpoint, c.lease)
    ensures FailuresOk(cfg, WriteBack(db, cfg, c, reply, now, delay).0)
  {
    WriteBackOnRows(db, cfg, c, reply, now, delay);
    var db' := WriteBack(db, cfg, c, reply, now, delay).0;
    hide WriteBack;
    var at, at' := db.attempts, db'.attempts;
    assert !HasLastMiss(cfg, at, c.delivery);
    assert forall a :: 0 <= a < |at| && a != c.attempt ==> at'[a] == at[a];
    forall d: nat | d < |db'.deliveries| ensures db'.deliveries[d].state == Failed <==> HasLastMiss(cfg, at', d) {
      if d == c.delivery {
        assert LastMiss(cfg, at'[c.attempt]) <==> db'.deliveries[d].state == Failed;
        assert forall a :: 0 <= a < |at| && a != c.attempt && at[a].delivery == d ==> !LastMiss(cfg, at[a]);
      } else {
        MissElsewhere(cfg, at, at', c.attempt, d);
      }
    }
  }

  lemma MissElsewhere(cfg: Config, at: seq<Attempt>, at': seq<Attempt>, x: nat, d: nat)
    requires |at'| == |at| && x < |at| && at[x].delivery != d && at'[x].delivery != d
    requires forall a :: 0 <= a < |at| && a != x ==> at'[a] == at[a]
    ensures HasLastMiss(cfg, at', d) <==> HasLastMiss(cfg, at, d)
  {
    hide LastMiss;
    if HasLastMiss(cfg, at, d) {
      var a :| 0 <= a < |at| && at[a].delivery == d && LastMiss(cfg, at[a]);
      assert at'[a] == at[a];
    }
  }

  lemma ClaimGivesNoVerdict(cfg: Config, s: World, w: nat, st: WorkerStep)
    requires LeaseInv(cfg, s) && CanWork(cfg, s, w, st) && WritesRows(st) && !st.Finish?
    ensures NoVerdict(s.db, DoWork(cfg, s, w, st).db)
  {
    hide LeaseInv, WorkerOk, RowsOk, NoneInFlight, AtHead, InsertedOk, OrphansClosed;
    InTimeOwns(cfg, s, w);
    if st.InsertRow? || st.MarkRow? {
      HeadExists(s.db.deliveries, s.workers[w].claim.delivery);
    }
  }

  lemma WorkKeepsFailures(cfg: Config, s: World, w: nat, st: WorkerStep)
    requires LeaseInv(cfg, s) && FailuresOk(cfg, s.db) && CanWork(cfg, s, w, st)
    ensures FailuresOk(cfg, DoWork(cfg, s, w, st).db)
  {
    hide LeaseInv, FailuresOk, NoVerdict, RowsOk;
    if st.Finish? {
      hide WriteBack;
      WriteBackWorker(cfg, s, w, st.began, st.delay);
      if Owns(s.db, s.workers[w]) { VerdictKeeps(cfg, s.db, s.workers[w].claim, s.workers[w].reply, st.began, st.delay); }
    } else {
      hide CanWork, DoWork;
      if WritesRows(st) { ClaimGivesNoVerdict(cfg, s, w, st); } else { IdleGivesNoVerdict(cfg, s, w, st); }
      NoVerdictKeeps(cfg, s.db, DoWork(cfg, s, w, st).db);
    }
  }

  lemma IdleGivesNoVerdict(cfg: Config, s: World, w: nat, st: WorkerStep)
    requires CanWork(cfg, s, w, st) && !WritesRows(st)
    ensures NoVerdict(s.db, DoWork(cfg, s, w, st).db)
  {
    OtherWorkOnlyLeases(cfg, s, w, st);
    hide CanWork, DoWork;
  }

  lemma TransactGivesNoVerdict(s: World, x: nat, st: ExpansionStep)
    requires CanTransact(s, x, st)
    ensures NoVerdict(s.db, DoTransact(s, x, st).db)
  {
    hide CommitInOrder, WindowEvents, Subscribers;
  }

  lemma ApiGivesNoVerdict(s: World, st: ApiStep)
    requires CanApi(s, st)
    ensures NoVerdict(s.db, DoApi(s, st).db)
  {
    hide EventByKey, ReplayByKey;
  }

  lemma StepKeepsFailures(cfg: Config, s: World, st: Step)
    requires LeaseInv(cfg, s) && FailuresOk(cfg, s.db) && Enabled(cfg, s, st)
    ensures FailuresOk(cfg, Apply(cfg, s, st).db)
  {
    hide LeaseInv, FailuresOk, NoVerdict, CanWork, DoWork, CanTransact, DoTransact, CanApi, DoApi;
    match st
    case Work(w, work) => WorkKeepsFailures(cfg, s, w, work);
    case Transact(x, tx) =>
      TransactGivesNoVerdict(s, x, tx);
      NoVerdictKeeps(cfg, s.db, DoTransact(s, x, tx).db);
    case Api(api) =>
      ApiGivesNoVerdict(s, api);
      NoVerdictKeeps(cfg, s.db, DoApi(s, api).db);
    case Tick(_) =>
    case Receive(_, _) =>
  }

  lemma {:induction false} RunKeepsFailures(cfg: Config, s: World, steps: seq<Step>)
    requires Inv(cfg, s) && IsRun(cfg, s, steps) && FailuresOk(cfg, s.db)
    ensures FailuresOk(cfg, After(cfg, s, steps).db)
    decreases |steps|
  {
    if steps != [] {
      hide Enabled, Apply, FailuresOk, LeaseInv, AttemptInv, GateInv, ExpansionInv, EffectInv;
      StepKeepsInv(cfg, s, steps[0]);
      StepKeepsFailures(cfg, s, steps[0]);
      RunKeepsFailures(cfg, Apply(cfg, s, steps[0]), steps[1..]);
    }
  }

  lemma NothingFailed(cfg: Config, s: World)
    requires Init(s)
    ensures FailuresOk(cfg, s.db)
  {
  }

  lemma ReachableFailures(cfg: Config, s: World)
    requires Reachable(cfg, s)
    ensures FailuresOk(cfg, s.db)
  {
    hide Inv, IsRun, After, FailuresOk, Init;
    var s0, steps :| Init(s0) && IsRun(cfg, s0, steps) && After(cfg, s0, steps) == s;
    InitInv(cfg, s0);
    NothingFailed(cfg, s0);
    RunKeepsFailures(cfg, s0, steps);
  }

  /** In every reachable state, a delivery has failed if and only if one of its attempts numbered maxAttempts or
      higher came back without a 2xx: a reply, or none, below the ceiling fails nothing, and one at it
      always does. So a failed delivery was attempted at least maxAttempts times. */
  lemma FailedIff(cfg: Config, s: World, d: nat)
    requires Reachable(cfg, s) && d < |s.db.deliveries|
    ensures s.db.deliveries[d].state == Failed
            <==> exists a :: 0 <= a < |s.db.attempts| && s.db.attempts[a].delivery == d && s.db.attempts[a].number >= cfg.maxAttempts
                             && s.db.attempts[a].outcome.Closed?
                             && !(s.db.attempts[a].outcome.reply.Response? && 200 <= s.db.attempts[a].outcome.reply.status <= 299)
    ensures s.db.deliveries[d].state == Failed ==> s.db.deliveries[d].attemptCount >= cfg.maxAttempts
  {
    ReachableFailures(cfg, s);
    hide Reachable, Inv;
    assert s.db.deliveries[d].state == Failed <==> HasLastMiss(cfg, s.db.attempts, d);
    if s.db.deliveries[d].state == Failed {
      var a :| 0 <= a < |s.db.attempts| && s.db.attempts[a].delivery == d && LastMiss(cfg, s.db.attempts[a]);
      ReachableInv(cfg, s);
      RepliedIsCounted(cfg, s, a);
    } else {
      assert forall a :: 0 <= a < |s.db.attempts| && s.db.attempts[a].delivery == d ==> !LastMiss(cfg, s.db.attempts[a]);
    }
  }

  lemma RepliedIsCounted(cfg: Config, s: World, a: nat)
    requires Inv(cfg, s) && a < |s.db.attempts| && s.db.attempts[a].outcome.Closed?
    ensures s.db.attempts[a].delivery < |s.db.deliveries| && s.db.attempts[a].number <= s.db.deliveries[s.db.attempts[a].delivery].attemptCount
  {
    hide LeaseInv, GateInv, ExpansionInv, EffectInv, UnsentOk, WinsOk, InPublicationOrder, AllAccounted, SentNumbers;
  }

  // ------------------------------------------------------------ and trying again below

  /** An attempt below the ceiling that came back without a 2xx, or not at all, is followed by another: on an
      active endpoint, once the delay has passed, the delivery is due and a claim takes it. */
  lemma MissIsRetried(cfg: Config, s: World, w: nat, began: Time, delay: nat, to: Time)
    requires Reachable(cfg, s) && CanWriteBack(cfg, s, w, began, delay)
    requires HoldsLease(s.db, s.workers[w].claim.endpoint, s.workers[w].claim.lease) && s.db.endpoints[s.workers[w].claim.endpoint].status == Active
    requires !(s.workers[w].reply.Response? && 200 <= s.workers[w].reply.status <= 299) && s.workers[w].claim.number < cfg.maxAttempts
    requires s.clock <= to && began + delay <= to
    ensures IsRun(cfg, s, [Work(w, Finish(began, delay)), Tick(to)])
    ensures var c := s.workers[w].claim; var s' := After(cfg, s, [Work(w, Finish(began, delay)), Tick(to)]);
            && c.endpoint < |s'.db.endpoints| && c.delivery < |s'.db.deliveries| && s'.db.deliveries[c.delivery].state == Pending
            && IsCandidate(s'.db, c.endpoint, to - LeaseDuration(cfg), to)
            && (var claim := TryClaim(s'.db, Candidate(c.endpoint, false), to - LeaseDuration(cfg), to, s'.nextLease).1;
                claim.Some? && claim.value.delivery == c.delivery && claim.value.number == c.number + 1)
  {
    hide Reachable, IsRun, After, TryClaim, Inv;
    var finish := Work(w, Finish(began, delay));
    var s1 := DoWriteBack(cfg, s, w, began, delay);
    var s2 := s1.(clock := to);
    RunOfTwo(cfg, s, finish, Tick(to));
    ReachableRun(cfg, s, [finish, Tick(to)]);
    ReachableInv(cfg, s);
    ReachableInv(cfg, s2);
    MissLeavesDue(cfg, s, w, began, delay, to);
    hide WriteBack, Due, IsCandidate;
    NothingIsStranded(cfg, s2, s.workers[w].claim.endpoint);
    DueIsClaimed(cfg, s2, s.workers[w].claim.endpoint) by { LeaseHalf(cfg, s2); }
  }

  lemma LeaseHalf(cfg: Config, s: World)
    requires Inv(cfg, s)
    ensures LeaseInv(cfg, s) && RowsOk(s.db, s.nextLease, s.clock)
  {
    hide LeaseInv, RowsOk, AttemptInv, GateInv, ExpansionInv, EffectInv;
    RowsOf(cfg, s);
  }

  lemma MissLeavesDue(cfg: Config, s: World, w: nat, began: Time, delay: nat, to: Time)
    requires Inv(cfg, s) && CanWriteBack(cfg, s, w, began, delay) && Inv(cfg, DoWriteBack(cfg, s, w, began, delay).(clock := to))
    requires HoldsLease(s.db, s.workers[w].claim.endpoint, s.workers[w].claim.lease) && s.db.endpoints[s.workers[w].claim.endpoint].status == Active
    requires !(s.workers[w].reply.Response? && 200 <= s.workers[w].reply.status <= 299) && s.workers[w].claim.number < cfg.maxAttempts
    requires began + delay <= to
    ensures var c := s.workers[w].claim; var db' := DoWriteBack(cfg, s, w, began, delay).db;
            && Due(cfg, db', c.endpoint, to) && ReportedHead(db', c.endpoint) == Some(c.delivery) && !db'.endpoints[c.endpoint].busy
            && db'.deliveries[c.delivery].state == Pending && db'.deliveries[c.delivery].attemptCount == c.number
  {
    hide Inv, RowsOk, WriteBack, Lowest;
    LeaseHalf(cfg, s);
    hide LeaseInv;
    WriteBackWorker(cfg, s, w, began, delay);
    var c := s.workers[w].claim;
    WriteBackOnRows(s.db, cfg, c, s.workers[w].reply, began, delay);
    var db' := DoWriteBack(cfg, s, w, began, delay).db;
    HeadAgain(s.db, db', s.nextLease, s.clock, c.delivery);
  }

  /** The head that was in flight is the head again when it is pending. */
  lemma HeadAgain(db: DB, db': DB, nextLease: nat, clock: Time, d: nat)
    requires RowsOk(db, nextLease, clock) && d < |db.deliveries| && db.deliveries[d].state == InFlight
    requires |db'.deliveries| == |db.deliveries| && db'.deliveries == db.deliveries[d := db'.deliveries[d]]
    requires db'.deliveries[d].endpoint == db.deliveries[d].endpoint && db'.deliveries[d].seqNo == db.deliveries[d].seqNo && db'.deliveries[d].state == Pending
    ensures ReportedHead(db', db.deliveries[d].endpoint) == Some(d)
  {
    assert QueueOrder(db.deliveries) && QueueShape(db.deliveries) by { hide QueueOrder, QueueShape; }
    hide RowsOk;
    var ds' := db'.deliveries;
    assert QueueOrder(ds');
    forall i | 0 <= i < |ds'| && Waits(ds'[i], ds'[d].endpoint, true) ensures ds'[d].seqNo <= ds'[i].seqNo {
      assert i == d || ds'[i].seqNo != ds'[d].seqNo;
    }
    LowestIs(ds', ds'[d].endpoint, true, d);
  }
}
