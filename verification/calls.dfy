/** Whole claim calls in runs of the service: a call is a run of its statements, nothing but a claim
    stamps a tenant, and so the fairness bound holds of the calls of any run. */
module ClaimCalls {
  import opened Tables
  import opened Protocol
  import opened LeaseInvariant
  import opened SystemInvariant
  import opened Runs
  import opened Claiming
  import opened Fairness

  // ------------------------------------------------------------- a call is a run

  predicate Ascends(from: Time, times: seq<Time>) {
    && (forall k :: 0 <= k < |times| ==> from <= times[k])
    && (forall j, k :: 0 <= j < k < |times| ==> times[j] <= times[k])
  }

  /** The state after the tries of worker `w`, the k-th at `times[k]`. */
  function TriesEnd(s: World, w: nat, cands: seq<Candidate>, cutoff: Time, times: seq<Time>): World
    requires |times| == |cands|
    decreases |cands|
  {
    if cands == [] then Put(s, w, Trying([], cutoff))
    else
      var (db1, claim) := TryClaim(s.db, cands[0], cutoff, times[0], s.nextLease);
      var s1 := Put(s, w, ClaimedBy(claim, cands[1..], cutoff)).(db := db1, clock := times[0], nextLease := s.nextLease + 1);
      if claim.Some? then s1 else TriesEnd(s1, w, cands[1..], cutoff, times[1..])
  }

  lemma {:induction false} TriesEndTables(s: World, w: nat, cands: seq<Candidate>, cutoff: Time, times: seq<Time>)
    requires |times| == |cands|
    ensures TriesEnd(s, w, cands, cutoff, times).db == ClaimFirst(s.db, cands, cutoff, times, s.nextLease).0
    decreases |cands|
  {
    hide TryClaim;
    if cands != [] {
      var (db1, claim) := TryClaim(s.db, cands[0], cutoff, times[0], s.nextLease);
      var s1 := Put(s, w, ClaimedBy(claim, cands[1..], cutoff)).(db := db1, clock := times[0], nextLease := s.nextLease + 1);
      if claim.None? { TriesEndTables(s1, w, cands[1..], cutoff, times[1..]); }
    }
  }

  lemma OneTryIsARun(cfg: Config, s: World, w: nat, cands: seq<Candidate>, cutoff: Time, at: Time) returns (steps: seq<Step>)
    requires w in s.workers && s.workers[w] == Trying(cands, cutoff) && cands != [] && s.clock <= at && WinsLease(s.db, cands[0], cutoff)
    ensures IsRun(cfg, s, steps)
    ensures var (db1, claim) := TryClaim(s.db, cands[0], cutoff, at, s.nextLease);
            After(cfg, s, steps) == Put(s, w, ClaimedBy(claim, cands[1..], cutoff)).(db := db1, clock := at, nextLease := s.nextLease + 1)
  {
    hide IsRun, After, TryClaim;
    var s1 := s.(clock := at);
    var try := TryClaimIsARun(cfg, s1, w);
    Prepend(cfg, s, Tick(at), try);
    steps := [Tick(at)] + try;
  }

  lemma {:induction false} TriesAreARun(cfg: Config, s: World, w: nat, cands: seq<Candidate>, cutoff: Time, times: seq<Time>) returns (steps: seq<Step>)
    requires w in s.workers && s.workers[w] == Trying(cands, cutoff) && |times| == |cands| && Ascends(s.clock, times) && AllWin(s.db, cands, cutoff)
    ensures IsRun(cfg, s, steps) && After(cfg, s, steps) == TriesEnd(s, w, cands, cutoff, times)
    decreases |cands|
  {
    hide IsRun, After, TryClaim;
    if cands == [] {
      EmptyRun(cfg, s);
      steps := [];
      assert s.workers[w := Trying([], cutoff)] == s.workers;
    } else {
      steps := OneTryIsARun(cfg, s, w, cands, cutoff, times[0]);
      RestWins(s.db, cands, cutoff, times[0], s.nextLease);
      hide AllWin;
      var s1 := After(cfg, s, steps);
      if s1.workers[w].Trying? {
        var rest := TriesAreARun(cfg, s1, w, cands[1..], cutoff, times[1..]);
        Concat(cfg, s, steps, rest);
        steps := steps + rest;
      }
    }
  }

  /** One claim call: worker `w` asks in state `start`, and tries what it got. */
  datatype Turn = Turn(start: World, w: nat, cands: seq<Candidate>, times: seq<Time>)

  function CutoffOf(cfg: Config, t: Turn): Time {
    t.start.clock - LeaseDuration(cfg)
  }

  ghost predicate IsCall(cfg: Config, t: Turn) {
    && t.w !in t.start.workers && IsSelection(t.start.db, t.start.clock, CutoffOf(cfg, t), t.cands)
    && |t.times| == |t.cands| && Ascends(t.start.clock, t.times)
  }

  function CallEnd(cfg: Config, t: Turn): World
    requires |t.times| == |t.cands|
  {
    TriesEnd(Put(t.start, t.w, Trying(t.cands, CutoffOf(cfg, t))), t.w, t.cands, CutoffOf(cfg, t), t.times)
  }

  /** A whole call, with the time it takes, is a run of the service; its tables are those of the claim-call
      specification. */
  lemma CallIsARun(cfg: Config, t: Turn) returns (steps: seq<Step>)
    requires IsCall(cfg, t)
    ensures IsRun(cfg, t.start, steps) && After(cfg, t.start, steps) == CallEnd(cfg, t)
    ensures CallEnd(cfg, t).db == ClaimFirst(t.start.db, t.cands, CutoffOf(cfg, t), t.times, t.start.nextLease).0
  {
    hide IsRun, After, IsSelection, TriesEnd, ClaimFirst, AllWin;
    var cutoff := CutoffOf(cfg, t);
    SelectedWin(t.start.db, t.start.clock, cutoff, t.cands);
    var s1 := Put(t.start, t.w, Trying(t.cands, cutoff));
    var tries := TriesAreARun(cfg, s1, t.w, t.cands, cutoff, t.times);
    Prepend(cfg, t.start, Work(t.w, Select(cutoff, t.cands)), tries);
    steps := [Work(t.w, Select(cutoff, t.cands))] + tries;
    TriesEndTables(s1, t.w, t.cands, cutoff, t.times);
  }

  // ------------------------------------------------------------ who stamps a tenant

  /** The tenants of endpoints exist, and no stamp lies ahead of the clock. */
  ghost predicate StampsOk(s: World) {
    && (forall e :: 0 <= e < |s.db.endpoints| ==> s.db.endpoints[e].tenant < |s.db.tenants|)
    && (forall t :: 0 <= t < |s.db.tenants| && s.db.tenants[t].lastServedAt.Some? ==> s.db.tenants[t].lastServedAt.value <= s.clock)
  }

  lemma WorkStamps(cfg: Config, s: World, w: nat, st: WorkerStep)
    requires LeaseInv(cfg, s) && CanWork(cfg, s, w, st)
    ensures StampsOk(s) ==> StampsOk(DoWork(cfg, s, w, st))
    ensures !st.Stamp? ==> SameStamps(s.db, DoWork(cfg, s, w, st).db)
  {
    hide LeaseInv;
    if st.Finish? { FinishStamps(cfg, s, w, st.began, st.delay); } else { hide StampsOk; ClaimStamps(cfg, s, w, st); }
  }

  lemma FinishStamps(cfg: Config, s: World, w: nat, began: Time, delay: nat)
    requires LeaseInv(cfg, s) && CanWriteBack(cfg, s, w, began, delay)
    ensures StampsOk(s) ==> StampsOk(DoWriteBack(cfg, s, w, began, delay))
    ensures SameStamps(s.db, DoWriteBack(cfg, s, w, began, delay).db)
  {
    hide LeaseInv, RowsOk;
    WriteBackWorker(cfg, s, w, began, delay);
  }

  lemma ClaimStamps(cfg: Config, s: World, w: nat, st: WorkerStep)
    requires CanWork(cfg, s, w, st) && !st.Finish?
    ensures StampsOk(s) ==> StampsOk(DoWork(cfg, s, w, st))
    ensures !st.Stamp? ==> SameStamps(s.db, DoWork(cfg, s, w, st).db)
  {
    hide Lowest, IsSelection;
  }

  lemma TransactStamps(s: World, x: nat, st: ExpansionStep)
    requires CanTransact(s, x, st)
    ensures StampsOk(s) ==> StampsOk(DoTransact(s, x, st))
    ensures SameStamps(s.db, DoTransact(s, x, st).db)
  {
    hide CommitInOrder, FanOut, ReplayRows, WindowEvents;
  }

  lemma ApiStamps(s: World, st: ApiStep)
    requires CanApi(s, st)
    ensures StampsOk(s) ==> StampsOk(DoApi(s, st))
    ensures SameStamps(s.db, DoApi(s, st).db)
  {
    hide EventByKey, ReplayByKey;
  }

  predicate IsStamp(st: Step) {
    st.Work? && st.work.Stamp?
  }

  lemma StepStamps(cfg: Config, s: World, st: Step)
    requires LeaseInv(cfg, s) && Enabled(cfg, s, st)
    ensures StampsOk(s) ==> StampsOk(Apply(cfg, s, st))
    ensures !IsStamp(st) ==> SameStamps(s.db, Apply(cfg, s, st).db)
  {
    hide LeaseInv, CanWork, DoWork, CanTransact, DoTransact, CanApi, DoApi;
    match st
    case Work(w, work) => WorkStamps(cfg, s, w, work);
    case Transact(x, tx) => TransactStamps(s, x, tx);
    case Api(api) => ApiStamps(s, api);
    case Tick(_) =>
    case Receive(_, _) =>
  }

  lemma SameStampsTwice(a: DB, b: DB, c: DB)
    requires SameStamps(a, b) && SameStamps(b, c)
    ensures SameStamps(a, c)
  {
  }

  predicate Unstamped(steps: seq<Step>) {
    forall k :: 0 <= k < |steps| ==> !IsStamp(steps[k])
  }

  lemma UnstampedRest(steps: seq<Step>)
    requires Unstamped(steps) && steps != []
    ensures !IsStamp(steps[0]) && Unstamped(steps[1..])
  {
  }

  /** A run without that statement leaves every stamp as it was. */
  lemma {:induction false} StampsStay(cfg: Config, s: World, steps: seq<Step>)
    requires Inv(cfg, s) && IsRun(cfg, s, steps) && Unstamped(steps)
    ensures SameStamps(s.db, After(cfg, s, steps).db)
    decreases |steps|
  {
    hide Inv, Enabled, Apply, Unstamped, IsStamp;
    if steps != [] {
      hide StampsOk, SameStamps;
      UnstampedRest(steps);
      StepKeepsInv(cfg, s, steps[0]);
      LeasePart(cfg, s);
      StepStamps(cfg, s, steps[0]);
      var s1 := Apply(cfg, s, steps[0]);
      StampsStay(cfg, s1, steps[1..]);
      SameStampsTwice(s.db, s1.db, After(cfg, s, steps).db);
    }
  }

  lemma {:induction false} RunKeepsStamps(cfg: Config, s: World, steps: seq<Step>)
    requires Inv(cfg, s) && IsRun(cfg, s, steps) && StampsOk(s)
    ensures StampsOk(After(cfg, s, steps))
    decreases |steps|
  {
    if steps != [] {
      hide Enabled, Apply, StampsOk, SameStamps, Inv;
      StepKeepsInv(cfg, s, steps[0]);
      LeasePart(cfg, s);
      StepStamps(cfg, s, steps[0]);
      RunKeepsStamps(cfg, Apply(cfg, s, steps[0]), steps[1..]);
    }
  }

  lemma LeasePart(cfg: Config, s: World)
    requires Inv(cfg, s)
    ensures LeaseInv(cfg, s)
  {
    hide LeaseInv;
  }

  lemma ReachableStamps(cfg: Config, s: World)
    requires Reachable(cfg, s)
    ensures StampsOk(s)
  {
    hide Inv, IsRun, After, StampsOk;
    var s0, steps :| Init(s0) && IsRun(cfg, s0, steps) && After(cfg, s0, steps) == s;
    InitInv(cfg, s0);
    assert StampsOk(s0) by { NoStamps(s0); }
    hide Init;
    RunKeepsStamps(cfg, s0, steps);
  }

  lemma NoStamps(s: World)
    requires Init(s)
    ensures StampsOk(s)
  {
  }

  // --------------------------------------------------------------- calls in a run

  /** From the end of one call the service runs, without another stamp, to the start of the next. */
  ghost predicate RunsTo(cfg: Config, s: World, s': World) {
    exists steps :: IsRun(cfg, s, steps) && Unstamped(steps) && After(cfg, s, steps) == s'
  }

  /** The claim calls of a run, none of which overlap; each begins later than every stamp. */
  ghost predicate AreTurns(cfg: Config, turns: seq<Turn>) {
    && (turns != [] ==> Reachable(cfg, turns[0].start))
    && (forall i :: 0 <= i < |turns| ==> IsCall(cfg, turns[i]) && StampsBefore(turns[i].start))
    && (forall i :: 0 <= i < |turns| - 1 ==> RunsTo(cfg, CallEnd(cfg, turns[i]), turns[i + 1].start))
  }

  predicate StampsBefore(s: World) {
    forall t :: 0 <= t < |s.db.tenants| && s.db.tenants[t].lastServedAt.Some? ==> s.db.tenants[t].lastServedAt.value < s.clock
  }

  function CallOf(cfg: Config, t: Turn): Call {
    Call(t.start.db, CutoffOf(cfg, t), t.start.clock, t.cands, t.times, t.start.nextLease)
  }

  function CallsOf(cfg: Config, turns: seq<Turn>): (calls: seq<Call>)
    ensures |calls| == |turns| && forall i :: 0 <= i < |turns| ==> calls[i] == CallOf(cfg, turns[i])
  {
    seq(|turns|, i requires 0 <= i < |turns| => CallOf(cfg, turns[i]))
  }

  lemma {:induction false} TurnIsReachable(cfg: Config, turns: seq<Turn>, i: nat)
    requires AreTurns(cfg, turns) && i < |turns|
    ensures Reachable(cfg, turns[i].start)
  {
    if i > 0 {
      hide Reachable, IsCall, RunsTo, CallEnd, StampsBefore;
      TurnIsReachable(cfg, turns, i - 1);
      assert RunsTo(cfg, CallEnd(cfg, turns[i - 1]), turns[i - 1 + 1].start);
      NextIsReachable(cfg, turns[i - 1], turns[i].start);
    }
  }

  lemma NextIsReachable(cfg: Config, t: Turn, next: World)
    requires Reachable(cfg, t.start) && IsCall(cfg, t) && RunsTo(cfg, CallEnd(cfg, t), next)
    ensures Reachable(cfg, CallEnd(cfg, t)) && Reachable(cfg, next)
  {
    hide Reachable, IsRun, After, CallEnd;
    var steps := CallIsARun(cfg, t);
    ReachableRun(cfg, t.start, steps);
    var between :| IsRun(cfg, CallEnd(cfg, t), between) && Unstamped(between) && After(cfg, CallEnd(cfg, t), between) == next;
    ReachableRun(cfg, CallEnd(cfg, t), between);
  }

  lemma TurnIsGood(cfg: Config, t: Turn)
    requires IsCall(cfg, t) && StampsBefore(t.start) && StampsOk(t.start)
    ensures GoodCall(CallOf(cfg, t))
  {
    hide IsSelection;
  }

  lemma StampsBetween(cfg: Config, t: Turn, next: World)
    requires Reachable(cfg, t.start) && IsCall(cfg, t) && RunsTo(cfg, CallEnd(cfg, t), next)
    ensures |CallOf(cfg, t).times| == |CallOf(cfg, t).cands| && SameStamps(Outcome(CallOf(cfg, t)).0, next.db)
  {
    hide Reachable, IsRun, After, CallEnd, Inv, SameStamps, ClaimFirst;
    var steps := CallIsARun(cfg, t);
    NextIsReachable(cfg, t, next);
    ReachableInv(cfg, CallEnd(cfg, t));
    var between :| IsRun(cfg, CallEnd(cfg, t), between) && Unstamped(between) && After(cfg, CallEnd(cfg, t), between) == next;
    StampsStay(cfg, CallEnd(cfg, t), between);
    hide IsSelection;
  }

  /** The calls of a run are a history. */
  lemma TurnsAreHistory(cfg: Config, turns: seq<Turn>)
    requires AreTurns(cfg, turns)
    ensures IsHistory(CallsOf(cfg, turns))
  {
    var calls := CallsOf(cfg, turns);
    hide IsCall, RunsTo, StampsBefore, Reachable, CallEnd, GoodCall, SameStamps, Outcome;
    forall i | 0 <= i < |turns| ensures GoodCall(calls[i]) {
      TurnIsReachable(cfg, turns, i);
      ReachableStamps(cfg, turns[i].start);
      TurnIsGood(cfg, turns[i]);
    }
    forall i | 0 <= i < |turns| - 1 ensures |calls[i].times| == |calls[i].cands| && SameStamps(Outcome(calls[i]).0, calls[i + 1].db) {
      TurnIsReachable(cfg, turns, i);
      StampsBetween(cfg, turns[i], turns[i + 1].start);
    }
  }

  /** Bounded bypass in a running service: whatever else it does between the calls, a tenant with a candidate
      is passed over in at most as many of them as there are other tenants served no later than it at the
      first, and tenants added meanwhile; and every other tenant gets at most one claim. */
  lemma PassedOverInRuns(cfg: Config, turns: seq<Turn>, t: nat)
    requires turns != [] && AreTurns(cfg, turns) && PassedOver(CallsOf(cfg, turns), t)
    ensures |turns| <= |Ahead(turns[0].start.db, t)| + |turns[|turns| - 1].start.db.tenants| - |turns[0].start.db.tenants|
    ensures forall i, j, u: nat :: 0 <= i < |turns| && 0 <= j < |turns| && ServedBy(CallsOf(cfg, turns)[i], u) && ServedBy(CallsOf(cfg, turns)[j], u) ==> i == j
  {
    hide AreTurns, GoodCall, HasCandidate, Tried, SameStamps, Ahead, ServedBy, Outcome;
    TurnsAreHistory(cfg, turns);
    var calls := CallsOf(cfg, turns);
    PassedOverAtMost(calls, t);
    forall i: nat, j: nat, u: nat | i < |turns| && j < |turns| && ServedBy(calls[i], u) && ServedBy(calls[j], u) ensures i == j {
      OneClaimEach(calls, t, u, i, j);
    }
  }
}
