/** Reachable states, each the end of a run of one worker on one endpoint: inputs for what does not
    hold, and states in which a bound is met exactly. */
module Scenarios {
  import opened Tables
  import opened Protocol
  import opened LeaseInvariant
  import opened AttemptInvariant
  import opened GateInvariant
  import opened ExpansionInvariant
  import opened EffectInvariant
  import opened SystemInvariant
  import opened Runs
  import opened Guarantees
  import opened Claiming
  import opened Cycles
  import opened LateClaims
  import Selection
  import Numbering
  import Copies
  import Resuming

  // ----------------------------------- one endpoint and one worker, others standing still

  predicate Idle(s: World) {
    0 !in s.workers && s.expanders == map[] && s.replayers == map[]
  }

  /** One tenant with one endpoint. */
  predicate Single(s: World) {
    && |s.db.tenants| == 1 && |s.db.endpoints| == 1 && s.db.endpoints[0].tenant == 0 && s.db.endpoints[0].eventTypes == {"order"}
    && |s.receivers| == 1
  }

  ghost predicate Lone(cfg: Config, s: World) {
    Reachable(cfg, s) && Idle(s) && Single(s)
  }

  /** Delivery `h` is the next to attempt, and may be attempted now. */
  ghost predicate Next(cfg: Config, s: World, h: nat)
    requires Single(s)
  {
    && h < |s.db.deliveries| && s.db.deliveries[h].endpoint == 0 && Unresolved(s.db.deliveries[h].state)
    && (s.db.deliveries[h].state == Pending ==> s.db.deliveries[h].nextAttemptAt <= s.clock)
    && (forall i :: 0 <= i < h ==> Terminal(s.db.deliveries[i].state))
    && s.db.endpoints[0].status == Active
    && (s.db.endpoints[0].busy ==> s.db.endpoints[0].busySince.Some? && s.db.endpoints[0].busySince.value + LeaseDuration(cfg) < s.clock)
  }

  /** Worker 0 is sending delivery `h` under its lease. */
  ghost predicate Underway(cfg: Config, s: World, h: nat) {
    && Reachable(cfg, s) && Single(s) && s.expanders == map[] && s.replayers == map[]
    && 0 in s.workers && s.workers[0].Sending?
    && (var c := s.workers[0].claim;
        && c.endpoint == 0 && c.delivery == h && HoldsLease(s.db, 0, c.lease) && SendingOk(s.db, c) && c.number >= 1
        && s.db.endpoints[0].status == Active && s.db.endpoints[0].busy && s.db.endpoints[0].busySince.Some? && s.db.endpoints[0].busySince.value <= s.clock)
    && h < |s.db.deliveries| && forall i :: 0 <= i < h ==> Terminal(s.db.deliveries[i].state)
  }

  predicate SameRest(s: World, s': World) {
    s'.db.events == s.db.events && s'.db.replays == s.db.replays && s'.workers - {0} == s.workers - {0} && s'.receivers == s.receivers
  }

  lemma NextIsDue(cfg: Config, s: World, h: nat)
    requires Reachable(cfg, s) && Single(s) && Next(cfg, s, h)
    ensures Due(cfg, s.db, 0, s.clock) && ReportedHead(s.db, 0) == Some(h) && RowsOk(s.db, s.nextLease, s.clock)
    ensures forall i :: 0 <= i < |s.db.deliveries| && s.db.deliveries[i].state == InFlight ==> i == h
    ensures s.db.endpoints[0].busy || s.db.deliveries[h].state == Pending
  {
    ReachableInv(cfg, s);
    hide AttemptInv, GateInv, ExpansionInv, EffectInv, WorkerOk, RowsOk;
    NextIsHead(s.db, s.nextLease, s.clock, h);
  }

  lemma NextIsHead(db: DB, nextLease: nat, clock: Time, h: nat)
    requires RowsOk(db, nextLease, clock) && |db.endpoints| == 1
    requires h < |db.deliveries| && Unresolved(db.deliveries[h].state) && forall i :: 0 <= i < h ==> Terminal(db.deliveries[i].state)
    ensures ReportedHead(db, 0) == Some(h)
    ensures forall i :: 0 <= i < |db.deliveries| && db.deliveries[i].state == InFlight ==> i == h
    ensures db.endpoints[0].busy || db.deliveries[h].state == Pending
  {
    var ds := db.deliveries;
    forall i | h < i < |ds| ensures ds[h].seqNo < ds[i].seqNo && ds[i].state != InFlight {
      assert ds[h].endpoint == ds[i].endpoint;
    }
    hide QueueShape;
    LowestIs(ds, 0, true, h);
  }

  lemma SelectsIt(cfg: Config, s: World)
    requires Single(s) && IsCandidate(s.db, 0, s.clock - LeaseDuration(cfg), s.clock)
    ensures IsSelection(s.db, s.clock, s.clock - LeaseDuration(cfg), [Candidate(0, s.db.endpoints[0].busy)])
  {
    var cands := [Candidate(0, s.db.endpoints[0].busy)];
    hide IsCandidate;
    var cutoff := s.clock - LeaseDuration(cfg);
    forall e: nat | IsCandidate(s.db, e, cutoff, s.clock) ensures e == 0 { Selection.CandidatesExist(s.db, e, cutoff, s.clock); }
    assert cands[0].endpoint == 0;
  }

  /** A worker asks for candidates. */
  lemma Asks(cfg: Config, s: World, w: nat, h: nat) returns (s': World)
    requires Lone(cfg, s) && Next(cfg, s, h) && w !in s.workers
    ensures s' == Put(s, w, Trying([Candidate(0, s.db.endpoints[0].busy)], s.clock - LeaseDuration(cfg))) && Reachable(cfg, s')
  {
    NextIsDue(cfg, s, h);
    DueIsCandidate(cfg, s, 0);
    SelectsIt(cfg, s);
    hide RowsOk, Reachable, IsSelection, Due, IsCandidate, Next;
    var cands, cutoff := [Candidate(0, s.db.endpoints[0].busy)], s.clock - LeaseDuration(cfg);
    ReachableStep(cfg, s, Work(w, Select(cutoff, cands)));
    s' := Put(s, w, Trying(cands, cutoff));
  }

  /** One claim, as a run. */
  lemma Claims(cfg: Config, s: World, h: nat) returns (s': World)
    requires Lone(cfg, s) && Next(cfg, s, h)
    ensures Reachable(cfg, s') && WinsLease(s.db, Candidate(0, s.db.endpoints[0].busy), s.clock - LeaseDuration(cfg))
    ensures var cutoff := s.clock - LeaseDuration(cfg); var (db', claim) := TryClaim(s.db, Candidate(0, s.db.endpoints[0].busy), cutoff, s.clock, s.nextLease);
            s' == s.(workers := s.workers[0 := ClaimedBy(claim, [], cutoff)], db := db', nextLease := s.nextLease + 1)
  {
    var s1 := Asks(cfg, s, 0, h);
    hide Reachable, IsRun, After, TryClaim;
    var steps := TryClaimIsARun(cfg, s1, 0);
    ReachableRun(cfg, s1, steps);
    s' := After(cfg, s1, steps);
    assert WinsLease(s.db, Candidate(0, s.db.endpoints[0].busy), s.clock - LeaseDuration(cfg));
    assert s1.workers[0].cands[1..] == [] && s'.workers == s.workers[0 := s'.workers[0]];
  }

  /** One claim. */
  lemma Attempts(cfg: Config, s: World, h: nat) returns (s': World)
    requires Lone(cfg, s) && Next(cfg, s, h)
    ensures Underway(cfg, s', h) && s'.clock == s.clock && SameRest(s, s')
    ensures s'.db.deliveries == s.db.deliveries[h := Taken(s.db.deliveries[h])]
    ensures s'.workers[0].claim.number == s.db.deliveries[h].attemptCount + 1 && s'.workers[0].claim.attempt == |s.db.attempts|
    ensures s'.db.attempts == (if s.db.endpoints[0].busy then CloseOrphans(s.db, 0).attempts else s.db.attempts)
                              + [Attempt(h, s.db.deliveries[h].attemptCount + 1, Open, true)]
  {
    s' := Claims(cfg, s, h);
    NextIsDue(cfg, s, h);
    InFlightIsReady(s, h);
    hide Reachable, RowsOk, QueueOrder, TryClaim, CloseOrphans, Lowest;
    ClaimRows(s.db, Candidate(0, s.db.endpoints[0].busy), h, s.clock - LeaseDuration(cfg), s.clock, s.nextLease);
  }

  lemma InFlightIsReady(s: World, h: nat)
    requires RowsOk(s.db, s.nextLease, s.clock) && h < |s.db.deliveries|
    ensures s.db.deliveries[h].state == InFlight ==> s.db.deliveries[h].nextAttemptAt <= s.clock
    ensures QueueOrder(s.db.deliveries)
  {
    hide QueueOrder, QueueShape;
  }

  /** The service answers 200, which a conforming receiver must have done. */
  lemma Succeeds(cfg: Config, s: World, h: nat) returns (s': World)
    requires Underway(cfg, s, h) && (Conforms(s, 0) ==> (s.workers[0].claim.attempt, 200) in s.replies)
    ensures Lone(cfg, s') && s'.clock == s.clock && SameRest(s, s') && s'.db.endpoints[0].status == Active && !s'.db.endpoints[0].busy
    ensures s'.db.deliveries == s.db.deliveries[h := s.db.deliveries[h].(state := Succeeded)]
    ensures s'.db.attempts == s.db.attempts[s.workers[0].claim.attempt := s.db.attempts[s.workers[0].claim.attempt].(outcome := Closed(Response(200)))]
  {
    s' := Replies(cfg, s, h, Response(200));
  }

  /** The service answers 500: a retry at once, or the last straw. */
  lemma Fails(cfg: Config, s: World, h: nat) returns (s': World)
    requires Underway(cfg, s, h)
    ensures Lone(cfg, s') && s'.clock == s.clock && SameRest(s, s') && !s'.db.endpoints[0].busy && |s'.db.deliveries| == |s.db.deliveries|
    ensures var d, d', n := s.db.deliveries[h], s'.db.deliveries[h], s.workers[0].claim.number;
            && s'.db.deliveries == s.db.deliveries[h := d']
            && d'.attemptCount == d.attemptCount && d'.expiries == d.expiries && SameStatic(d, d')
            && if n < cfg.maxAttempts then d'.state == Pending && d'.nextAttemptAt == s.clock && s'.db.endpoints[0].status == Active
               else d'.state == Failed
  {
    s' := Replies(cfg, s, h, Response(500));
  }

  lemma Replies(cfg: Config, s: World, h: nat, reply: Reply) returns (s': World)
    requires Underway(cfg, s, h) && (Conforms(s, 0) && IsSuccess(reply) ==> reply.Response? && (s.workers[0].claim.attempt, reply.status) in s.replies)
    ensures Reachable(cfg, s') && Idle(s') && s'.clock == s.clock && s'.receivers == s.receivers && s'.workers == s.workers - {0}
    ensures s'.db == WriteBack(s.db, cfg, s.workers[0].claim, reply, s.clock, 0).0
  {
    var s1 := DoAnswer(s, 0, reply);
    assert CanAnswer(s, 0, reply);
    assert CanWriteBack(cfg, s1, 0, s.clock, 0);
    s' := DoWriteBack(cfg, s1, 0, s.clock, 0);
    assert s'.workers == s.workers - {0};
    hide Reachable, WriteBack;
    ReachableStep(cfg, s, Work(0, Answer(reply)));
    ReachableStep(cfg, s1, Work(0, Finish(s.clock, 0)));
  }

  /** The worker stops for good, and its lease runs out. */
  lemma Abandons(cfg: Config, s: World, h: nat) returns (s': World)
    requires Underway(cfg, s, h)
    ensures Lone(cfg, s') && s'.db == s.db && Next(cfg, s', h) && s'.clock == s.clock + LeaseDuration(cfg) + 1 && s'.workers == s.workers - {0}
  {
    var s1 := s.(workers := s.workers - {0});
    s' := s1.(clock := s.clock + LeaseDuration(cfg) + 1);
    hide Reachable;
    ReachableStep(cfg, s, Work(0, Crash));
    ReachableStep(cfg, s1, Tick(s'.clock));
  }

  // ------------------------------------------------------- the attempt ceiling

  /** Failing at once, over and over, until one attempt is left. */
  lemma {:induction false} RetriesOut(cfg: Config, s: World, h: nat) returns (s': World)
    requires Lone(cfg, s) && Next(cfg, s, h) && !s.db.endpoints[0].busy && s.db.deliveries[h].state == Pending
    requires s.db.deliveries[h].attemptCount < Max(1, cfg.maxAttempts)
    ensures Lone(cfg, s') && Next(cfg, s', h) && s'.clock == s.clock && SameRest(s, s') && !s'.db.endpoints[0].busy
    ensures var d, d' := s.db.deliveries[h], s'.db.deliveries[h];
            && s'.db.deliveries == s.db.deliveries[h := d']
            && d'.state == Pending && d'.attemptCount == Max(1, cfg.maxAttempts) - 1 && d'.expiries == d.expiries && SameStatic(d, d')
    decreases Max(1, cfg.maxAttempts) - s.db.deliveries[h].attemptCount
  {
    hide Lone, Underway;
    if s.db.deliveries[h].attemptCount == Max(1, cfg.maxAttempts) - 1 {
      s' := s;
    } else {
      var s1 := Attempts(cfg, s, h);
      var s2 := Fails(cfg, s1, h);
      assert Single(s2) by { LoneIsSingle(cfg, s2); }
      s' := RetriesOut(cfg, s2, h);
    }
  }

  lemma LoneIsSingle(cfg: Config, s: World)
    requires Lone(cfg, s)
    ensures Single(s)
  {
    hide Reachable;
  }

  /** The delivery is attempted until it has failed for good. */
  lemma FailsForGood(cfg: Config, s: World, h: nat) returns (s': World)
    requires Lone(cfg, s) && Next(cfg, s, h) && !s.db.endpoints[0].busy && s.db.deliveries[h].state == Pending && s.db.deliveries[h].attemptCount == 0
    ensures Lone(cfg, s') && SameRest(s, s') && |s'.db.deliveries| == |s.db.deliveries|
    ensures s'.db.deliveries == s.db.deliveries[h := s'.db.deliveries[h]]
    ensures s'.db.deliveries[h].state == Failed && SameStatic(s.db.deliveries[h], s'.db.deliveries[h])
  {
    hide Reachable;
    var s1 := RetriesOut(cfg, s, h);
    var s2 := Attempts(cfg, s1, h);
    s' := Fails(cfg, s2, h);
  }

  /** Worker after worker stops while sending. */
  lemma {:induction false} ExpiresTimes(cfg: Config, s: World, h: nat, n: nat) returns (s': World)
    requires Lone(cfg, s) && Next(cfg, s, h) && !s.db.endpoints[0].busy && s.db.deliveries[h].state == Pending && s.db.deliveries[h].expiries == 0
    ensures Lone(cfg, s') && Next(cfg, s', h)
    ensures var d, d' := s.db.deliveries[h], s'.db.deliveries[h];
            && d'.attemptCount == d.attemptCount + n
            && d'.expiries + (if d'.state == InFlight then 1 else 0) == n
    decreases n
  {
    hide Underway;
    if n == 0 {
      s' := s;
    } else {
      var s1 := ExpiresTimes(cfg, s, h, n - 1);
      hide Reachable;
      var s2 := Attempts(cfg, s1, h);
      s' := Abandons(cfg, s2, h);
    }
  }

  /** More lease expiries take the attempts of a delivery as far beyond the ceiling as they number: the bound
      of Guarantees.AttemptsAreAccountedFor is met, whatever the configuration. */
  lemma CeilingIsPassed(cfg: Config, n: nat) returns (s: World)
    ensures Reachable(cfg, s) && |s.db.deliveries| > 0
    ensures s.db.deliveries[0].expiries == n && s.db.deliveries[0].attemptCount == Max(1, cfg.maxAttempts) + n
  {
    var s0 := Queued(cfg, false, 2, 2);
    hide Reachable;
    var s1 := RetriesOut(cfg, s0, 0);
    var s2 := ExpiresTimes(cfg, s1, 0, n);
    s := Attempts(cfg, s2, 0);
  }

  // ------------------------------------------------------------ a queue to begin with

  function Row(ev: nat, sq: int, began: Time, origin: Origin): Delivery {
    Delivery(ev, 0, sq, Pending, 0, began, began, origin, 0, 0, 0)
  }

  lemma Registered(cfg: Config, conforming: bool) returns (s: World)
    ensures s.receivers == [if conforming then Some(Receiver({}, map[], [])) else None]
    ensures Lone(cfg, s) && s.workers == map[] && s.clock == 2 && s.db.endpoints[0].status == Active && !s.db.endpoints[0].busy
    ensures s.db.events == [] && s.db.deliveries == [] && s.db.attempts == [] && s.db.replays == []
  {
    var s0 := World(DB([], [], [], [], [], []), 2, 0, map[], map[], map[], {}, {}, []);
    assert Reachable(cfg, s0) by { EmptyRun(cfg, s0); assert Init(s0) && IsRun(cfg, s0, []) && After(cfg, s0, []) == s0; }
    hide Reachable;
    var s1 := DoApi(s0, AddTenant(0));
    ReachableStep(cfg, s0, Api(AddTenant(0)));
    s := DoApi(s1, Register(0, {"order"}, "secret", conforming));
    ReachableStep(cfg, s1, Api(Register(0, {"order"}, "secret", conforming)));
  }

  function Order(key: string, sq: int): Event {
    Event(0, key, "order", PendingExpansion, sq, 0)
  }

  lemma Published(cfg: Config, conforming: bool) returns (s: World)
    ensures s.receivers == [if conforming then Some(Receiver({}, map[], [])) else None]
    ensures Lone(cfg, s) && s.workers == map[] && s.clock == 2 && s.db.endpoints[0].status == Active && !s.db.endpoints[0].busy
    ensures s.db.events == [Order("first", 1), Order("second", 2)]
    ensures s.db.deliveries == [] && s.db.attempts == [] && s.db.replays == []
  {
    var s0 := Registered(cfg, conforming);
    var s1 := FirstPublished(cfg, s0);
    s := SecondPublished(cfg, s1);
  }

  lemma FirstPublished(cfg: Config, s: World) returns (s': World)
    requires Lone(cfg, s) && s.db.events == []
    ensures Lone(cfg, s') && s' == s.(db := s.db.(events := [Order("first", 1)]))
  {
    hide Lone;
    NoSuchKey(s.db.events, "first");
    s' := PublishesNew(cfg, s, "first", 1);
    assert s.db.events + [Order("first", 1)] == [Order("first", 1)];
  }

  lemma SecondPublished(cfg: Config, s: World) returns (s': World)
    requires Lone(cfg, s) && s.db.events == [Order("first", 1)]
    ensures Lone(cfg, s') && s' == s.(db := s.db.(events := [Order("first", 1), Order("second", 2)]))
  {
    hide Lone;
    assert "first"[0] != "second"[0];
    NoSuchKey(s.db.events, "second");
    s' := PublishesNew(cfg, s, "second", 2);
    assert s.db.events + [Order("second", 2)] == [Order("first", 1), Order("second", 2)];
  }

  lemma NoSuchKey(events: seq<Event>, key: string)
    requires forall i :: 0 <= i < |events| ==> events[i].key != key
    ensures EventByKey(events, 0, key).None?
  {
  }

  /** Tenant 0 publishes an event under a new key. */
  lemma PublishesNew(cfg: Config, s: World, key: string, sq: int) returns (s': World)
    requires Lone(cfg, s) && key != "" && EventByKey(s.db.events, 0, key).None? && forall i :: 0 <= i < |s.db.events| ==> s.db.events[i].seqNo < sq
    ensures Lone(cfg, s') && s' == s.(db := s.db.(events := s.db.events + [Order(key, sq)]))
  {
    hide Reachable, EventByKey;
    s' := DoApi(s, Publish(0, key, "order", sq));
    ReachableStep(cfg, s, Api(Publish(0, key, "order", sq)));
  }

  lemma OnlySubscriber(db: DB)
    requires |db.endpoints| == 1 && Subscribes(db.endpoints[0], 0, "order")
    ensures Subscribers(db, 0, "order") == [0]
  {
    var ids := Subscribers(db, 0, "order");
    assert 0 in ids;
    assert forall k :: 0 <= k < |ids| ==> ids[k] == 0;
    assert |ids| <= 1;
  }

  /** An expansion that began at `began` and commits now. */
  lemma Expands(cfg: Config, s: World, ev: nat, began: Time, next: int) returns (s': World)
    requires Lone(cfg, s) && began <= s.clock && OldestPending(s.db.events, 0) == Some(ev) && AllBelow(s.db.deliveries, next)
    requires ev < |s.db.events| && s.db.events[ev].tenant == 0 && s.db.events[ev].eventType == "order"
    ensures Lone(cfg, s') && s'.workers == s.workers && s'.receivers == s.receivers && s'.clock == s.clock && s'.db.endpoints == s.db.endpoints && s'.db.attempts == s.db.attempts && s'.db.replays == s.db.replays
    ensures s'.db.events == s.db.events[ev := s.db.events[ev].(status := Expanded, registered := 1)]
    ensures s'.db.deliveries == s.db.deliveries + [Row(ev, next, began, FromEvent)]
  {
    OnlySubscriber(s.db);
    hide Reachable, IsRun, After, Subscribers, OldestPending, FanOut, ExpandTenant;
    assert HeldLocks(s) == {};
    var steps := ExpandTenantIsARun(cfg, s, 0, 0, began, next);
    ReachableRun(cfg, s, steps);
    s' := After(cfg, s, steps);
    assert s' == s.(db := ExpandTenant(s.db, 0, began, next));
    OneExpanded(s.db, ev, next, began);
  }

  lemma OneExpanded(db: DB, ev: nat, next: int, began: Time)
    requires OldestPending(db.events, 0) == Some(ev) && ev < |db.events| && |db.endpoints| == 1
    requires Subscribers(db, db.events[ev].tenant, db.events[ev].eventType) == [0]
    ensures ExpandTenant(db, 0, began, next)
            == db.(deliveries := db.deliveries + [Row(ev, next, began, FromEvent)], events := db.events[ev := db.events[ev].(status := Expanded, registered := 1)])
  {
    hide Subscribers, OldestPending, FanOut;
    assert Numbers(next, 1) == [next];
    OneRow(db, ev, next, began);
  }

  lemma OneRow(db: DB, ev: nat, sq: int, began: Time)
    requires ev < |db.events| && Subscribers(db, db.events[ev].tenant, db.events[ev].eventType) == [0]
    ensures FanOut(db, ev, [sq], began) == [Row(ev, sq, began, FromEvent)]
  {
    hide Subscribers;
  }

  /** Two deliveries of one tenant, by transactions that began at `first` and at `second`. */
  lemma Queued(cfg: Config, conforming: bool, first: Time, second: Time) returns (s: World)
    requires first <= 2 && second <= 2
    ensures s.receivers == [if conforming then Some(Receiver({}, map[], [])) else None]
    ensures Lone(cfg, s) && s.workers == map[] && s.clock == 2 && !s.db.endpoints[0].busy && Next(cfg, s, 0)
    ensures s.db.deliveries == [Row(0, 1, first, FromEvent), Row(1, 2, second, FromEvent)]
    ensures s.db.attempts == [] && s.db.replays == [] && |s.db.events| == 2
  {
    var s0 := Published(cfg, conforming);
    hide Reachable;
    assert s0.db.events[..1] == [s0.db.events[0]] && s0.db.events[..1][..0] == [];
    assert OldestPending(s0.db.events, 0) == Some(0);
    var s1 := Expands(cfg, s0, 0, first, 1);
    assert s1.db.events[..1] == [s1.db.events[0]];
    assert OldestPending(s1.db.events, 0) == Some(1);
    s := Expands(cfg, s1, 1, second, 2);
  }

  // ----------------------------------------------------------- what resume leaves out

  /** Creation times need not follow the queue, even when no two are the same: of two expansions of a
      tenant, the one that began later may get the lock first. Resume then does not name the failure. */
  lemma LateStarterHidesFailure(cfg: Config) returns (s: World)
    ensures Reachable(cfg, s) && |s.db.deliveries| == 2
    ensures s.db.deliveries[0].endpoint == 0 && s.db.deliveries[0].state == Failed && Waits(s.db.deliveries[1], 0, true)
    ensures s.db.deliveries[0].seqNo < s.db.deliveries[1].seqNo && s.db.deliveries[0].createdAt != s.db.deliveries[1].createdAt
    ensures 0 !in Resuming.SkippedFailed(s.db.deliveries, 0)
  {
    var s0 := Queued(cfg, false, 2, 1);
    hide Reachable;
    s := FailsForGood(cfg, s0, 0);
    hide Resuming.SkippedFailed, Next, Resuming.CreatedInOrder;
    Resuming.SkippedIff(cfg, s, 0);
    assert Waits(s.db.deliveries[1], 0, true);
    assert Resuming.Overtaken(s.db.deliveries, 0, 0);
  }

  lemma BothOf(ids: seq<nat>)
    requires 0 in ids && 1 in ids && (forall k :: 0 <= k < |ids| ==> ids[k] < 2) && forall j, k :: 0 <= j < k < |ids| ==> ids[j] < ids[k]
    ensures ids == [0, 1]
  {
    var i :| 0 <= i < |ids| && ids[i] == 0;
    var j :| 0 <= j < |ids| && ids[j] == 1;
    assert i == 0 && j > 0;
    assert ids[0] < ids[1];
    assert |ids| <= 2;
  }

  /** Two delivered events, and a replay of both. */
  lemma Replayed(cfg: Config) returns (s: World)
    ensures Lone(cfg, s) && !s.db.endpoints[0].busy && Next(cfg, s, 2) && |s.db.deliveries| == 4 && |s.db.events| == 2
    ensures forall i :: 0 <= i < 2 ==> s.db.deliveries[i].state == Succeeded && s.db.deliveries[i].event == i && s.db.deliveries[i].endpoint == 0
    ensures s.db.deliveries[2] == Row(0, 3, 2, FromReplay(0)) && s.db.deliveries[3] == Row(1, 4, 2, FromReplay(0))
  {
    var s0 := Queued(cfg, false, 2, 2);
    var s1 := Attempts(cfg, s0, 0);
    var s2 := Succeeds(cfg, s1, 0);
    var s3 := Attempts(cfg, s2, 1);
    var s4 := Succeeds(cfg, s3, 1);
    assert s4.db.deliveries == [Row(0, 1, 2, FromEvent).(state := Succeeded, attemptCount := 1), Row(1, 2, 2, FromEvent).(state := Succeeded, attemptCount := 1)];
    hide Reachable, Next, Underway;
    s := Replays(cfg, s4);
    assert Next(cfg, s, 2);
  }

  lemma Replays(cfg: Config, s: World) returns (s': World)
    requires Lone(cfg, s) && s.clock == 2 && |s.db.replays| == 0 && |s.db.deliveries| == 2
    requires forall i :: 0 <= i < 2 ==> s.db.deliveries[i] == Row(i, i + 1, 2, FromEvent).(state := Succeeded, attemptCount := 1)
    ensures Lone(cfg, s') && s'.clock == 2 && s'.db.endpoints == s.db.endpoints && s'.db.events == s.db.events
    ensures s'.db.deliveries == s.db.deliveries + [Row(0, 3, 2, FromReplay(0)), Row(1, 4, 2, FromReplay(0))]
  {
    hide Reachable, IsRun, After, Window;
    assert ReplayByKey(s.db.replays, 0, "again").None?;
    var s1 := DoApi(s, AskReplay(0, "again", 2, 2, 2));
    ReachableStep(cfg, s, Api(AskReplay(0, "again", 2, 2, 2)));
    assert s1.db.replays == [Replay(0, "again", 2, 2, 2, PendingExpansion, [])];
    BothOf(Window(s1.db, s1.db.replays[0]));
    var steps := ExpandReplayIsARun(cfg, s1, 0, 0, 2, 3);
    ReachableRun(cfg, s1, steps);
    s' := After(cfg, s1, steps);
    assert Numbers(3, 2) == [3, 4];
    assert WindowEvents(s1.db, s1.db.replays[0]) == [0, 1];
    assert ReplayRows(s1.db, 0, [3, 4], 2) == [Row(0, 3, 2, FromReplay(0)), Row(1, 4, 2, FromReplay(0))];
  }

  /** The rows of a replay share their creation time: when the first has failed, resume does not name it. */
  lemma BatchHidesFailure(cfg: Config) returns (s: World)
    ensures Reachable(cfg, s) && |s.db.deliveries| == 4
    ensures s.db.deliveries[2].endpoint == 0 && s.db.deliveries[2].state == Failed && Waits(s.db.deliveries[3], 0, true) && s.db.deliveries[2].origin == s.db.deliveries[3].origin == FromReplay(0)
    ensures 2 !in Resuming.SkippedFailed(s.db.deliveries, 0)
  {
    var s0 := Replayed(cfg);
    hide Reachable;
    s := FailsForGood(cfg, s0, 2);
    hide Resuming.SkippedFailed, Next, Resuming.CreatedInOrder;
    Resuming.SkippedIff(cfg, s, 0);
    assert Waits(s.db.deliveries[3], 0, true);
    assert Resuming.Overtaken(s.db.deliveries, 0, 2);
  }

  /** An event may have more than one delivery on an endpoint. */
  lemma DeliveredTwice(cfg: Config) returns (s: World)
    ensures Reachable(cfg, s) && |s.db.events| > 0 && Copies.RowsFor(s.db.deliveries, 0, 0) == 2
  {
    s := Replayed(cfg);
    hide Reachable, Next;
    var ds := s.db.deliveries;
    assert ds[..4][..3] == ds[..3] && ds[..3][..2] == ds[..2] && ds[..2][..1] == ds[..1] && ds[..1][..0] == [] && ds[..4] == ds;
    assert Copies.RowsFor(ds[..1], 0, 0) == 1 && Copies.RowsFor(ds[..2], 0, 0) == 1;
    assert Copies.RowsFor(ds[..3], 0, 0) == 2;
  }

  // -------------------------------------------- a claim that stops before its mark

  /** A worker takes a free endpoint, finds its head and records its attempt. */
  lemma Records(cfg: Config, s: World, w: nat, h: nat) returns (s': World)
    requires Lone(cfg, s) && Next(cfg, s, h) && !s.db.endpoints[0].busy && w !in s.workers
    ensures Reachable(cfg, s') && Single(s') && s'.receivers == s.receivers && s'.expanders == map[] && s'.replayers == map[] && s'.clock == s.clock
    ensures InPhase(s', w, Inserted) && s'.workers == s.workers[w := s'.workers[w]] && s'.workers[w].claim.endpoint == 0
    ensures s'.workers[w].claim.delivery == h && s'.workers[w].claim.number == s.db.deliveries[h].attemptCount + 1 && s'.workers[w].claim.attempt == |s.db.attempts|
    ensures s'.db.deliveries == s.db.deliveries && s'.db.events == s.db.events && s'.db.replays == s.db.replays
    ensures s'.db.attempts == s.db.attempts + [Attempt(h, s.db.deliveries[h].attemptCount + 1, Open, false)]
    ensures s'.db.endpoints[0].busySince == Some(s.clock) && s'.db.endpoints[0].status == Active
  {
    var s1 := Picks(cfg, s, w, h);
    hide Reachable;
    s' := DoInsertAttempt(s1, w);
    ReachableStep(cfg, s1, Work(w, InsertRow));
  }

  lemma Picks(cfg: Config, s: World, w: nat, h: nat) returns (s': World)
    requires Lone(cfg, s) && Next(cfg, s, h) && !s.db.endpoints[0].busy && w !in s.workers
    ensures Reachable(cfg, s') && Single(s') && s'.receivers == s.receivers && s'.expanders == map[] && s'.replayers == map[] && s'.clock == s.clock
    ensures InPhase(s', w, Picked) && s'.workers == s.workers[w := s'.workers[w]] && s'.workers[w].claim.since == s.clock && s'.workers[w].claim.endpoint == 0
    ensures s'.workers[w].claim.delivery == h && s'.workers[w].claim.number == s.db.deliveries[h].attemptCount + 1
    ensures s'.db.deliveries == s.db.deliveries && s'.db.attempts == s.db.attempts && s'.db.events == s.db.events && s'.db.replays == s.db.replays
    ensures s'.db.endpoints[0].busySince == Some(s.clock) && s'.db.endpoints[0].status == Active
  {
    hide Reachable, RowsOk, Lowest, Due, QueueOrder;
    var s1 := Asks(cfg, s, w, h);
    NextIsDue(cfg, s, h);
    InFlightIsReady(s, h);
    ReclaimedHead(s.db, 0, false);
    var s2 := DoTakeLease(s1, w);
    ReachableStep(cfg, s1, Work(w, LeaseRow));
    var s3 := DoStamp(s2, w);
    ReachableStep(cfg, s2, Work(w, Stamp));
    s' := DoFetchHead(s3, w);
    ReachableStep(cfg, s3, Work(w, FetchHead));
  }

  /** Time passes until the lease on the endpoint has run out. */
  lemma LeaseRunsOut(cfg: Config, s: World) returns (s': World)
    requires Reachable(cfg, s) && Single(s) && s.db.endpoints[0].busySince == Some(s.clock)
    ensures Reachable(cfg, s') && s' == s.(clock := s'.clock) && s'.clock == s.clock + LeaseDuration(cfg) + 1
  {
    hide Reachable;
    s' := s.(clock := s.clock + LeaseDuration(cfg) + 1);
    ReachableStep(cfg, s, Tick(s'.clock));
  }

  /** A worker records its attempt and stops for good. */
  lemma StopsBeforeMark(cfg: Config, s: World, h: nat) returns (s': World)
    requires Lone(cfg, s) && Next(cfg, s, h) && !s.db.endpoints[0].busy && s.db.deliveries[h].state == Pending
    ensures Lone(cfg, s') && s'.receivers == s.receivers && Next(cfg, s', h) && s'.db.deliveries == s.db.deliveries
    ensures s'.db.attempts == s.db.attempts + [Attempt(h, s.db.deliveries[h].attemptCount + 1, Open, false)]
  {
    var s1 := Records(cfg, s, 0, h);
    hide Reachable;
    var s2 := s1.(workers := s1.workers - {0});
    ReachableStep(cfg, s1, Work(0, Crash));
    s' := LeaseRunsOut(cfg, s2);
  }

  /** Two rows of one endpoint open at once, the second of them being sent; after its write-back the first
      is open, and stays so in every later state; and the delivery's attempts are numbered 1, 1. */
  lemma OpenAlongside(cfg: Config) returns (s: World, s': World)
    ensures Reachable(cfg, s) && 0 in s.workers && s.workers[0].Sending? && s.workers[0].claim.endpoint == 0 && HoldsLease(s.db, 0, s.workers[0].claim.lease)
    ensures OpenAt(s.db, 0) == {0, 1} && s.workers[0].claim.attempt == 1
    ensures Reachable(cfg, s') && OpenAt(s'.db, 0) == {0} && s'.db.deliveries[0].state == Succeeded
    ensures Numbering.AllNumbers(s'.db.attempts, 0) == [1, 1]
    ensures forall steps :: IsRun(cfg, s', steps) ==> 0 < |After(cfg, s', steps).db.attempts| && After(cfg, s', steps).db.attempts[0].outcome == Open
  {
    var s0 := Queued(cfg, false, 2, 2);
    var s1 := StopsBeforeMark(cfg, s0, 0);
    s := Attempts(cfg, s1, 0);
    s' := Succeeds(cfg, s, 0);
    hide Reachable, Next, IsRun, After, Underway;
    assert s.db.attempts == [Attempt(0, 1, Open, false), Attempt(0, 1, Open, true)];
    assert s'.db.attempts == [Attempt(0, 1, Open, false), Attempt(0, 1, Closed(Response(200)), true)];
    NumbersOfTwo(s'.db.attempts);
    StaysOpen(cfg, s');
  }

  lemma NumbersOfTwo(at: seq<Attempt>)
    requires |at| == 2 && forall a :: 0 <= a < 2 ==> at[a].delivery == 0 && at[a].number == 1
    ensures Numbering.AllNumbers(at, 0) == [1, 1]
  {
    assert at[..1][..0] == [];
    assert Numbering.AllNumbers(at[..1], 0) == [1];
  }

  lemma StaysOpen(cfg: Config, s: World)
    requires Reachable(cfg, s) && |s.db.attempts| > 0 && s.db.attempts[0].outcome == Open && s.db.attempts[0].delivery == 0
    requires |s.db.deliveries| > 0 && s.db.deliveries[0].state == Succeeded
    ensures forall steps :: IsRun(cfg, s, steps) ==> 0 < |After(cfg, s, steps).db.attempts| && After(cfg, s, steps).db.attempts[0].outcome == Open
  {
    hide Inv, IsRun, After;
    ReachableInv(cfg, s);
    hide Reachable;
    forall steps | IsRun(cfg, s, steps)
      ensures 0 < |After(cfg, s, steps).db.attempts| && After(cfg, s, steps).db.attempts[0].outcome == Open
    {
      Numbering.OpenForEver(cfg, s, steps, 0);
    }
  }

  // ------------------------------------------------- claim phases that outlive their leases

  /** Worker 1 has recorded its attempt and stalls; worker 0 takes over and delivers. */
  lemma DeliveredByAnother(cfg: Config) returns (s: World)
    ensures Lone(cfg, s) && BeforeMark(s, 1) && s.workers[1].claim.delivery == 0 && s.workers[1].claim.number == 1
    ensures s.workers[1].claim.endpoint == 0 && s.workers[1].claim.attempt == 0 && s.db.endpoints[0].status == Active && !s.db.endpoints[0].busy
    ensures |s.db.deliveries| == 2 && s.db.deliveries[0].state == Succeeded && s.db.deliveries[0].attemptCount == 1
    ensures s.db.deliveries[1].state == Pending && s.db.deliveries[1].endpoint == 0 && s.db.deliveries[1].nextAttemptAt <= s.clock
    ensures s.db.attempts == [Attempt(0, 1, Open, false), Attempt(0, 1, Closed(Response(200)), true)]
  {
    var s0 := Queued(cfg, false, 2, 2);
    var s1 := Records(cfg, s0, 1, 0);
    var s2 := LeaseRunsOut(cfg, s1);
    hide Reachable;
    assert Next(cfg, s2, 0);
    var s3 := Attempts(cfg, s2, 0);
    s := Succeeds(cfg, s3, 0);
    hide Next;
    assert CloseOrphans(s2.db, 0).attempts == s2.db.attempts;
    assert 1 in s2.workers - {0} && 1 in s3.workers - {0} && 1 in s.workers - {0};
    assert s.workers[1] == s2.workers[1];
  }

  /** A reachable state in which the in_flight mark of a stalled claim, executed now, re-opens a delivery that
      succeeded and gives it a second attempt with the same number. The next claim then takes the delivery
      behind it, and both are in flight. */
  lemma StalledClaimReopens(cfg: Config) returns (s: World)
    ensures Reachable(cfg, s) && BeforeMark(s, 1) && s.workers[1].claim.delivery == 0 && |s.db.deliveries| == 2
    ensures s.db.deliveries[0].state == Succeeded && DoMarkInFlight(s, 1).db.deliveries[0].state == InFlight
    ensures |s.db.attempts| == 2 && s.db.attempts[0].number == s.db.attempts[1].number && s.db.attempts[0].delivery == s.db.attempts[1].delivery == 0
    ensures var (db', claim) := TryClaim(DoMarkInFlight(s, 1).db, Candidate(0, false), s.clock - LeaseDuration(cfg), s.clock, s.nextLease);
            && claim.Some? && claim.value.delivery == 1
            && |db'.deliveries| == 2 && db'.deliveries[0].state == InFlight && db'.deliveries[1].state == InFlight
    ensures !Kept(cfg, s, DoMarkInFlight(s, 1))
  {
    s := DeliveredByAnother(cfg);
    hide Reachable, Kept, Lowest;
    var db, cutoff := DoMarkInFlight(s, 1).db, s.clock - LeaseDuration(cfg);
    ReachableIsLate(cfg, s);
    hide LateReachable;
    KeptIff(cfg, s, 1, MarkRow);
    BehindIs(db);
    hide Lone;
    MarkOnFreeLosesOrder(cfg, s, 1, cutoff, s.clock, s.nextLease);
    hide QueueShape;
    OneTry(db, cutoff, s.clock, s.nextLease);
  }

  lemma BehindIs(db: DB)
    requires |db.deliveries| == 2 && db.deliveries[0].state == InFlight && Waits(db.deliveries[1], 0, false)
    ensures PendingHead(db, 0) == Some(1)
  {
    var h := PendingHead(db, 0);
    assert h.Some? && h.value != 0;
  }

  /** A try changes at most the head it claims. */
  lemma OneTry(db: DB, cutoff: Time, now: Time, lease: nat)
    requires |db.deliveries| == 2
    ensures var (db', claim) := TryClaim(db, Candidate(0, false), cutoff, now, lease);
            |db'.deliveries| == 2 && (claim.Some? ==> claim.value.delivery < 2)
  {
    hide Lowest;
  }

  /** Worker 1 takes a stale lease over and stalls before its reclaim; worker 0 takes over from it. */
  lemma TwoTakeovers(cfg: Config) returns (s: World)
    ensures Underway(cfg, s, 0) && InPhase(s, 1, Served) && s.workers[1].claim.endpoint == 0 && s.workers[0].claim.attempt == 1 && |s.db.attempts| == 2
  {
    var s0 := Queued(cfg, false, 2, 2);
    var s1 := Attempts(cfg, s0, 0);
    var s2 := Abandons(cfg, s1, 0);
    hide Reachable;
    assert s2.db.endpoints[0].busy;
    hide Underway;
    var s3 := Asks(cfg, s2, 1, 0);
    var s4 := DoTakeLease(s3, 1);
    ReachableStep(cfg, s3, Work(1, LeaseRow));
    var s5 := DoStamp(s4, 1);
    ReachableStep(cfg, s4, Work(1, Stamp));
    var s6 := LeaseRunsOut(cfg, s5);
    assert Next(cfg, s6, 0);
    s := Attempts(cfg, s6, 0);
    hide Next;
    assert |s6.db.attempts| == 1;
    assert 1 in s6.workers - {0} && 1 in s.workers - {0};
    assert s.workers[1] == s6.workers[1];
  }

  /** A reachable state in which the reclaim of a stalled claim, executed now, closes the attempt that the
      holder of the lease is sending; the holder's write-back then changes it again. */
  lemma LateReclaimClosesLive(cfg: Config) returns (s: World)
    ensures Reachable(cfg, s) && InPhase(s, 1, Served) && 0 in s.workers && s.workers[0].Sending? && HoldsLease(s.db, 0, s.workers[0].claim.lease)
    ensures s.workers[0].claim.attempt == 1 && |s.db.attempts| == 2 && s.workers[0].claim.endpoint == 0 && s.workers[0].claim.delivery < |s.db.deliveries|
    ensures s.db.attempts[1].outcome == Open && DoCloseOrphans(s, 1).db.attempts[1].outcome == LeaseExpired
    ensures forall reply, now, delay: nat ::
              WriteBack(DoCloseOrphans(s, 1).db, cfg, s.workers[0].claim, reply, now, delay).0.attempts[1].outcome == Closed(reply)
    ensures !Kept(cfg, s, DoCloseOrphans(s, 1))
  {
    s := TwoTakeovers(cfg);
    hide Reachable, Kept;
    assert OrphanOf(s.db, s.db.attempts[1], 0);
    ReachableIsLate(cfg, s);
    hide LateReachable;
    KeptIff(cfg, s, 1, CloseOrphanRows);
    assert Holds(s, 0, 0);
  }

  // ------------------------------------------------------- a delivery, end to end

  /** A reachable state in which an event has been delivered to a conforming receiver: its business logic ran
      once, and the delivery succeeded on the answer. */
  lemma DeliveredToReceiver(cfg: Config) returns (s: World)
    ensures Reachable(cfg, s) && Conforms(s, 0) && |s.db.deliveries| == 2
    ensures s.db.deliveries[0].state == Succeeded && s.db.deliveries[0].event == 0 && s.db.deliveries[0].endpoint == 0
    ensures s.receivers[0].value.effects == [0] && s.receivers[0].value.processed == {0} && s.receivers[0].value.attempts == map[0 := 1]
  {
    var s0 := Queued(cfg, true, 2, 2);
    var s1 := Attempts(cfg, s0, 0);
    hide Reachable;
    var a := s1.workers[0].claim.attempt;
    var s2 := DoSend(s1, 0);
    ReachableStep(cfg, s1, Work(0, Send));
    assert CanReceive(s2, a);
    var s3 := DoReceive(s2, a, true);
    ReachableStep(cfg, s2, Receive(a, true));
    assert (a, 200) in s3.replies && s3.workers[0].claim.attempt == a;
    s := Succeeds(cfg, s3, 0);
  }
}
