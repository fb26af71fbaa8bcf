/** What operators do to an endpoint over runs: a resume starts it again, a pause lets the worker that holds
    it finish and lets nobody in after that. */
module Operators {
  import opened Tables
  import opened Protocol
  import opened LeaseInvariant
  import opened AttemptInvariant
  import opened GateInvariant
  import opened ExpansionInvariant
  import opened EffectInvariant
  import opened SystemInvariant
  import opened Runs
  import opened Claiming
  import opened Guarantees

  // ---------------------------------------------------------------- registering

  /** A registration adds one endpoint: active, idle, subscribed to the types it asked for, signing with its
      one secret. */
  lemma RegisterAdds(s: World, t: nat, eventTypes: set<string>, secret: string, conforming: bool)
    requires t < |s.db.tenants|
    ensures var s' := DoApi(s, Register(t, eventTypes, secret, conforming)); var n := |s.db.endpoints|;
            && |s'.db.endpoints| == n + 1 && s'.db.endpoints[..n] == s.db.endpoints && s'.db == s.db.(endpoints := s'.db.endpoints)
            && s'.db.endpoints[n].tenant == t && s'.db.endpoints[n].eventTypes == eventTypes && s'.db.endpoints[n].status == Active
            && !s'.db.endpoints[n].busy && s'.db.endpoints[n].busySince.None? && s'.db.endpoints[n].leaseId.None?
            && (forall now :: ActiveSecrets(s'.db.endpoints[n].secrets, now) == [secret])
            && (|s.receivers| == n ==> (Conforms(s', n) <==> conforming))
  {
  }

  // ------------------------------------------------------------------- resuming

  /** From every reachable state, halted or paused, a resume makes the endpoint active and changes nothing
      else; and once its head's backoff is over, and the time a worker may take if one holds it, the
      endpoint is a candidate and its reported head is claimed. */
  lemma ResumeRestarts(cfg: Config, s: World, e: nat, to: Time)
    requires Reachable(cfg, s) && e < |s.db.endpoints| && ReportedHead(s.db, e).Some? && s.clock <= to
    requires s.db.deliveries[ReportedHead(s.db, e).value].state == Pending ==> s.db.deliveries[ReportedHead(s.db, e).value].nextAttemptAt <= to
    requires s.db.endpoints[e].busy && s.db.endpoints[e].busySince.Some? ==>
               s.db.endpoints[e].busySince.value + cfg.timeout + cfg.timeout < to && s.db.endpoints[e].busySince.value + cfg.timeout + cfg.floor < to
    ensures IsRun(cfg, s, [Api(Resume(e)), Tick(to)])
    ensures var s' := After(cfg, s, [Api(Resume(e)), Tick(to)]);
            && |s'.db.endpoints| == |s.db.endpoints| && s'.db == s.db.(endpoints := s.db.endpoints[e := s'.db.endpoints[e]])
            && s'.db.endpoints[e].status == Active && OnlyStatus(s.db.endpoints[e], s'.db.endpoints[e])
            && IsCandidate(s'.db, e, to - LeaseDuration(cfg), to)
            && (var claim := TryClaim(s'.db, Candidate(e, s'.db.endpoints[e].busy), to - LeaseDuration(cfg), to, s'.nextLease).1;
                claim.Some? && Some(claim.value.delivery) == ReportedHead(s.db, e))
  {
    hide Reachable, IsRun, After, TryClaim, IsCandidate, Lowest;
    var s1 := DoApi(s, Resume(e));
    var s2 := s1.(clock := to);
    RunOfTwo(cfg, s, Api(Resume(e)), Tick(to));
    ReachableRun(cfg, s, [Api(Resume(e)), Tick(to)]);
    ReportedHeadSame(s.db, s2.db, e);
    BusySince(cfg, s, e);
    hide Inv;
    NothingIsStranded(cfg, s2, e);
  }

  /** No column of the table differs but the status. */
  predicate OnlyStatus(ep: Endpoint, ep': Endpoint) {
    ep' == ep.(status := ep'.status, resumes := ep'.resumes, gated := ep'.gated)
  }

  lemma ReportedHeadSame(db: DB, db': DB, e: nat)
    requires db'.deliveries == db.deliveries
    ensures ReportedHead(db', e) == ReportedHead(db, e)
  {
  }

  lemma BusySince(cfg: Config, s: World, e: nat)
    requires Reachable(cfg, s) && e < |s.db.endpoints|
    ensures s.db.endpoints[e].busy ==> s.db.endpoints[e].busySince.Some?
  {
    ReachableInv(cfg, s);
    hide Reachable, AttemptInv, GateInv, ExpansionInv, EffectInv, LeaseInv;
    RowsOf(cfg, s);
    assert LeaseColumns(s.db.endpoints[e], s.nextLease, s.clock);
  }

  // -------------------------------------------------------------------- pausing

  /** The endpoint is not active, and its lease is the given one or free. */
  predicate WindingDown(db: DB, e: nat, lease: Option<nat>) {
    && e < |db.endpoints| && db.endpoints[e].status != Active
    && (db.endpoints[e].leaseId == None || db.endpoints[e].leaseId == lease)
  }

  lemma WorkWindsDown(cfg: Config, s: World, w: nat, st: WorkerStep, e: nat, lease: Option<nat>)
    requires CanWork(cfg, s, w, st) && WindingDown(s.db, e, lease)
    ensures WindingDown(DoWork(cfg, s, w, st).db, e, lease)
  {
    hide Lowest, IsSelection, PossibleDelay;
  }

  lemma ApiWindsDown(s: World, st: ApiStep, e: nat, lease: Option<nat>)
    requires CanApi(s, st) && WindingDown(s.db, e, lease) && st != Resume(e)
    ensures WindingDown(DoApi(s, st).db, e, lease)
  {
    hide EventByKey, ReplayByKey;
  }

  lemma StepWindsDown(cfg: Config, s: World, st: Step, e: nat, lease: Option<nat>)
    requires Enabled(cfg, s, st) && WindingDown(s.db, e, lease) && st != Api(Resume(e))
    ensures WindingDown(Apply(cfg, s, st).db, e, lease)
  {
    match st
    case Tick(_) =>
    case Receive(_, _) =>
    case Work(w, work) => {
      hide CanWork, DoWork, WindingDown;
      WorkWindsDown(cfg, s, w, work, e, lease);
    }
    case Transact(x, tx) => {
      hide CommitInOrder, WindowEvents, Subscribers;
    }
    case Api(api) => {
      hide CanApi, DoApi, WindingDown;
      ApiWindsDown(s, api, e, lease);
    }
  }

  lemma {:induction false} RunWindsDown(cfg: Config, s: World, steps: seq<Step>, e: nat, lease: Option<nat>)
    requires IsRun(cfg, s, steps) && WindingDown(s.db, e, lease)
    requires forall k :: 0 <= k < |steps| ==> steps[k] != Api(Resume(e))
    ensures WindingDown(After(cfg, s, steps).db, e, lease)
    decreases |steps|
  {
    if steps != [] {
      hide Enabled, Apply, WindingDown;
      StepWindsDown(cfg, s, steps[0], e, lease);
      RunWindsDown(cfg, Apply(cfg, s, steps[0]), steps[1..], e, lease);
    }
  }

  /** A pause changes the endpoint's status and nothing else. Over any run until the next resume, the endpoint
      is not active and is leased to nobody but the worker that held it at the pause; if nobody did, no
      attempt of it is recorded and none of its deliveries changes. */
  lemma PauseQuiets(cfg: Config, s: World, e: nat, steps: seq<Step>)
    requires Reachable(cfg, s) && e < |s.db.endpoints| && IsRun(cfg, DoApi(s, Pause(e)), steps)
    requires forall k :: 0 <= k < |steps| ==> steps[k] != Api(Resume(e))
    ensures var s1 := DoApi(s, Pause(e)); s1.db == s.db.(endpoints := s.db.endpoints[e := s.db.endpoints[e].(status := Paused)])
    ensures var db' := After(cfg, DoApi(s, Pause(e)), steps).db;
            && e < |db'.endpoints| && db'.endpoints[e].status != Active
            && (db'.endpoints[e].leaseId == None || db'.endpoints[e].leaseId == s.db.endpoints[e].leaseId)
            && (!s.db.endpoints[e].busy ==>
                  && |s.db.attempts| <= |db'.attempts| && !db'.endpoints[e].busy
                  && (forall a :: |s.db.attempts| <= a < |db'.attempts| ==>
                        db'.attempts[a].delivery < |db'.deliveries| && db'.deliveries[db'.attempts[a].delivery].endpoint != e)
                  && (forall i :: 0 <= i < |s.db.deliveries| && s.db.deliveries[i].endpoint == e ==> i < |db'.deliveries| && db'.deliveries[i] == s.db.deliveries[i]))
  {
    var s1 := DoApi(s, Pause(e));
    hide Reachable, IsRun, After;
    ReachableStep(cfg, s, Api(Pause(e)));
    RunWindsDown(cfg, s1, steps, e, s.db.endpoints[e].leaseId);
    if !s.db.endpoints[e].busy { NothingIsAttemptedWhileShut(cfg, s1, steps, e); }
  }
}
