/** The expansion cycles: one event, or one replay, per call. Each is a run of the transition system,
    and finds work whenever one of its candidates has some. */
module Cycles {
  import opened Tables
  import opened Protocol
  import opened Runs
  import opened Ranking

  /** What nextval hands to `n` rows inserted by one statement. */
  function Numbers(from: int, n: nat): seq<int> {
    seq(n, i => from + i)
  }

  /** Every queue number drawn so far lies below `next`. */
  predicate AllBelow(ds: seq<Delivery>, next: int) {
    forall i :: 0 <= i < |ds| ==> ds[i].seqNo < next
  }

  // ------------------------------------------------------------------- events

  predicate CanExpandTenant(db: DB, locked: set<int>, t: nat) {
    t < |db.tenants| && db.tenants[t].lockKey !in locked && OldestPending(db.events, t).Some?
  }

  function Expansions(db: DB, t: nat): nat
    requires OldestPending(db.events, t).Some?
  {
    var ev := OldestPending(db.events, t).value;
    |Subscribers(db, db.events[ev].tenant, db.events[ev].eventType)|
  }

  /** One tenant's transaction, when it gets the lock and finds an event. */
  function ExpandTenant(db: DB, t: nat, now: Time, next: int): DB
    requires OldestPending(db.events, t).Some?
  {
    ExpandEvent(db, OldestPending(db.events, t).value, Numbers(next, Expansions(db, t)), now)
  }

  /** runExpansionCycle over the tenants its query answered: the first that can be expanded. */
  function ExpandFirst(db: DB, locked: set<int>, tenants: seq<nat>, now: Time, next: int): (r: (DB, bool))
    ensures r.1 <==> exists k :: 0 <= k < |tenants| && CanExpandTenant(db, locked, tenants[k])
    ensures !r.1 ==> r.0 == db
    decreases |tenants|
  {
    if |tenants| == 0 then (db, false)
    else if CanExpandTenant(db, locked, tenants[0]) then (ExpandTenant(db, tenants[0], now, next), true)
    else
      var r := ExpandFirst(db, locked, tenants[1..], now, next);
      assert r.1 ==> exists k :: 0 <= k < |tenants[1..]| && CanExpandTenant(db, locked, tenants[1..][k]) && tenants[k + 1] == tenants[1..][k];
      assert forall k :: 0 < k < |tenants| ==> tenants[1..][k - 1] == tenants[k];
      r
  }

  // the query: SELECT tenant_id ... GROUP BY tenant_id ORDER BY MIN(seq) LIMIT 20

  predicate HasPending(db: DB, t: nat) {
    t < |db.tenants| && OldestPending(db.events, t).Some?
  }

  /** MIN(seq) of the tenant's pending events. */
  function FirstPending(db: DB, t: nat): int {
    if HasPending(db, t) then db.events[OldestPending(db.events, t).value].seqNo else 0
  }

  /** The tenants an expansion cycle looks at. */
  function PendingTenants(db: DB): seq<nat> {
    First(Rank(ByKey((t: nat) => FirstPending(db, t)), (t: nat) => HasPending(db, t), |db.tenants|), LIMIT)
  }

  /** runExpansionCycle. */
  function ExpansionCycle(db: DB, locked: set<int>, now: Time, next: int): (DB, bool) {
    ExpandFirst(db, locked, PendingTenants(db), now, next)
  }

  predicate IsPendingOf(db: DB, i: nat, t: nat) {
    i < |db.events| && db.events[i].tenant == t && db.events[i].status == PendingExpansion
  }

  /** Tenant `t` has a pending event that no pending event of `u` is older than. */
  ghost predicate WaitsLonger(db: DB, t: nat, u: nat) {
    exists i: nat :: IsPendingOf(db, i, t) && forall j: nat :: IsPendingOf(db, j, u) ==> db.events[i].seqNo <= db.events[j].seqNo
  }

  ghost predicate HasWork(db: DB, t: nat) {
    t < |db.tenants| && exists i: nat :: IsPendingOf(db, i, t)
  }

  lemma HasWorkIff(db: DB, t: nat)
    ensures HasPending(db, t) <==> HasWork(db, t)
  {
    var h := OldestPending(db.events, t);
    hide OldestPending;
    if h.Some? { assert IsPendingOf(db, h.value, t); }
  }

  lemma FirstWaits(db: DB, t: nat, u: nat)
    requires HasPending(db, t) && HasPending(db, u) && FirstPending(db, t) <= FirstPending(db, u)
    ensures WaitsLonger(db, t, u)
  {
    var h := OldestPending(db.events, t).value;
    hide OldestPending;
    assert IsPendingOf(db, h, t);
  }

  /** The query's answer: at most twenty tenants with a pending event, each once, those whose oldest pending
      event is older first; one with a pending event that is not listed has none older than any that is. */
  lemma PendingTenantsIsTheQuery(db: DB)
    ensures |PendingTenants(db)| <= 20 && forall k :: 0 <= k < |PendingTenants(db)| ==> HasWork(db, PendingTenants(db)[k])
    ensures forall j, k :: 0 <= j < k < |PendingTenants(db)| ==>
              PendingTenants(db)[j] != PendingTenants(db)[k] && WaitsLonger(db, PendingTenants(db)[j], PendingTenants(db)[k])
    ensures forall t: nat :: HasWork(db, t) && t !in PendingTenants(db) ==>
              |PendingTenants(db)| == 20 && forall k :: 0 <= k < 20 ==> WaitsLonger(db, PendingTenants(db)[k], t)
  {
    var key, p := (t: nat) => FirstPending(db, t), (t: nat) => HasPending(db, t);
    KeyOrders(key, p);
    FirstOfRank(ByKey(key), p, |db.tenants|, LIMIT);
    var listed := PendingTenants(db);
    assert listed == First(Rank(ByKey(key), p, |db.tenants|), LIMIT);
    hide PendingTenants, FirstPending, HasPending, HasWork, WaitsLonger, First, Rank, Orders;
    assert forall k :: 0 <= k < |listed| ==> p(listed[k]) && key(listed[k]) == FirstPending(db, listed[k]);
    forall t: nat ensures HasPending(db, t) <==> HasWork(db, t) { HasWorkIff(db, t); }
    forall j, k | 0 <= j < k < |listed| ensures listed[j] != listed[k] && WaitsLonger(db, listed[j], listed[k]) {
      FirstWaits(db, listed[j], listed[k]);
    }
    forall t: nat | HasWork(db, t) && t !in listed
      ensures |listed| == LIMIT && forall k :: 0 <= k < LIMIT ==> WaitsLonger(db, listed[k], t)
    {
      assert p(t) && key(t) == FirstPending(db, t) && t < |db.tenants| by { TenantOfWork(db, t); }
      forall k | 0 <= k < |listed| ensures WaitsLonger(db, listed[k], t) { FirstWaits(db, listed[k], t); }
    }
  }

  lemma TenantOfWork(db: DB, t: nat)
    requires HasWork(db, t)
    ensures t < |db.tenants| && HasPending(db, t)
  {
    HasWorkIff(db, t);
  }

  /** A cycle expands an event if and only if one of the tenants the query lists is not locked. */
  lemma CycleExpandsIff(db: DB, locked: set<int>, now: Time, next: int)
    ensures forall k :: 0 <= k < |PendingTenants(db)| ==> PendingTenants(db)[k] < |db.tenants|
    ensures ExpansionCycle(db, locked, now, next).1
            <==> exists k :: 0 <= k < |PendingTenants(db)| && db.tenants[PendingTenants(db)[k]].lockKey !in locked
    ensures !ExpansionCycle(db, locked, now, next).1 ==> ExpansionCycle(db, locked, now, next).0 == db
  {
    PendingTenantsIsTheQuery(db);
    var listed := PendingTenants(db);
    hide OldestPending, PendingTenants, WaitsLonger;
    forall k | 0 <= k < |listed| ensures HasPending(db, listed[k]) { HasWorkIff(db, listed[k]); }
    hide HasWork;
    assert forall k :: 0 <= k < |listed| ==> (CanExpandTenant(db, locked, listed[k]) <==> db.tenants[listed[k]].lockKey !in locked);
  }

  /** When no lock is held and a tenant has an event pending, a cycle expands the oldest pending event of all
      tenants, into the deliveries it fans out to. */
  lemma CycleTakesOldest(db: DB, some: nat, now: Time, next: int) returns (ev: nat)
    requires HasWork(db, some)
    ensures ev < |db.events| && db.events[ev].status == PendingExpansion && db.events[ev].tenant < |db.tenants|
    ensures forall i: nat :: i < |db.events| && db.events[i].status == PendingExpansion && db.events[i].tenant < |db.tenants| ==> db.events[ev].seqNo <= db.events[i].seqNo
    ensures var n := |Subscribers(db, db.events[ev].tenant, db.events[ev].eventType)|;
            ExpansionCycle(db, {}, now, next) == (ExpandEvent(db, ev, Numbers(next, n), now), true)
  {
    PendingTenantsIsTheQuery(db);
    var listed := PendingTenants(db);
    hide PendingTenants, WaitsLonger, ExpandEvent, Subscribers;
    assert listed != [];
    var t := listed[0];
    HasWorkIff(db, t);
    assert CanExpandTenant(db, {}, t);
    ev := OldestPending(db.events, t).value;
    hide OldestPending;
    forall i: nat | i < |db.events| && db.events[i].status == PendingExpansion && db.events[i].tenant < |db.tenants|
      ensures db.events[ev].seqNo <= db.events[i].seqNo
    {
      var u := db.events[i].tenant;
      assert IsPendingOf(db, i, u) && HasWork(db, u);
      if u == t {
      } else {
        assert WaitsLonger(db, t, u) by { if u in listed { var j :| 0 <= j < |listed| && listed[j] == u; } }
        OldestOfLonger(db, t, u, ev, i);
      }
    }
  }

  lemma OldestOfLonger(db: DB, t: nat, u: nat, ev: nat, i: nat)
    requires WaitsLonger(db, t, u) && OldestPending(db.events, t) == Some(ev) && IsPendingOf(db, i, u)
    ensures ev < |db.events| && i < |db.events| && db.events[ev].seqNo <= db.events[i].seqNo
  {
    var k: nat :| IsPendingOf(db, k, t) && forall j: nat :: IsPendingOf(db, j, u) ==> db.events[k].seqNo <= db.events[j].seqNo;
    hide OldestPending;
  }

  /** A tenant that cannot be expanded is passed over. */
  lemma SkipFirst(db: DB, locked: set<int>, tenants: seq<nat>, now: Time, next: int)
    requires tenants != [] && !CanExpandTenant(db, locked, tenants[0])
    ensures ExpandFirst(db, locked, tenants, now, next) == ExpandFirst(db, locked, tenants[1..], now, next)
  {
  }

  /** The advisory locks held by the transactions in progress. */
  function HeldLocks(s: World): set<int> {
    set x | x in s.expanders && s.expanders[x].tenant < |s.db.tenants| :: s.db.tenants[s.expanders[x].tenant].lockKey
  }

  lemma FanOutInOrder(db: DB, ev: nat, now: Time, next: int)
    requires ev < |db.events| && AllBelow(db.deliveries, next)
    ensures var n := |Subscribers(db, db.events[ev].tenant, db.events[ev].eventType)|;
            CommitInOrder(db.deliveries, FanOut(db, ev, Numbers(next, n), now))
  {
    hide Subscribers;
  }

  /** The transaction of one tenant is three steps of the transition system, whenever it began. */
  lemma ExpandTenantIsARun(cfg: Config, s: World, x: nat, t: nat, began: Time, next: int) returns (steps: seq<Step>)
    requires x !in s.expanders && began <= s.clock && CanExpandTenant(s.db, HeldLocks(s), t) && AllBelow(s.db.deliveries, next)
    ensures IsRun(cfg, s, steps)
    ensures After(cfg, s, steps) == s.(db := ExpandTenant(s.db, t, began, next))
  {
    var ev := OldestPending(s.db.events, t).value;
    var seqs := Numbers(next, Expansions(s.db, t));
    FanOutInOrder(s.db, ev, began, next);
    var s1 := s.(expanders := s.expanders[x := Expander(t, None, began)]);
    var s2 := DoReadOldest(s1, x);
    LockIsFree(s, t);
    assert CanExpand(s2, x, seqs);
    var s3 := DoExpand(s2, x, seqs);
    assert s3.expanders == s.expanders;
    hide ExpandTenant, CanExpandTenant, CommitInOrder, FanOut, Subscribers, OldestPending;
    var last := Transact(x, Expand(seqs));
    RunOfOne(cfg, s2, last);
    Prepend(cfg, s1, Transact(x, ReadOldest), [last]);
    Prepend(cfg, s, Transact(x, Lock(t, began)), [Transact(x, ReadOldest)] + [last]);
    steps := [Transact(x, Lock(t, began))] + ([Transact(x, ReadOldest)] + [last]);
  }

  lemma LockIsFree(s: World, t: nat)
    requires t < |s.db.tenants| && s.db.tenants[t].lockKey !in HeldLocks(s)
    ensures forall y :: y in s.expanders && s.expanders[y].tenant < |s.db.tenants| ==> s.db.tenants[s.expanders[y].tenant].lockKey != s.db.tenants[t].lockKey
  {
  }

  // ------------------------------------------------------------------ replays

  predicate CanExpandReplayRow(db: DB, locked: set<nat>, r: nat) {
    r < |db.replays| && r !in locked && db.replays[r].status == PendingExpansion
  }

  function ExpandReplayRow(db: DB, r: nat, now: Time, next: int): DB
    requires r < |db.replays|
  {
    ExpandReplay(db, r, Numbers(next, |Window(db, db.replays[r])|), now)
  }

  /** runReplayExpansionCycle over the replays its query answered. */
  function ExpandFirstReplay(db: DB, locked: set<nat>, replays: seq<nat>, now: Time, next: int): (r: (DB, bool))
    ensures r.1 <==> exists k :: 0 <= k < |replays| && CanExpandReplayRow(db, locked, replays[k])
    ensures !r.1 ==> r.0 == db
    decreases |replays|
  {
    if |replays| == 0 then (db, false)
    else if CanExpandReplayRow(db, locked, replays[0]) then (ExpandReplayRow(db, replays[0], now, next), true)
    else
      var r := ExpandFirstReplay(db, locked, replays[1..], now, next);
      assert r.1 ==> exists k :: 0 <= k < |replays[1..]| && CanExpandReplayRow(db, locked, replays[1..][k]) && replays[k + 1] == replays[1..][k];
      assert forall k :: 0 < k < |replays| ==> replays[1..][k - 1] == replays[k];
      r
  }

  lemma SkipFirstReplay(db: DB, locked: set<nat>, replays: seq<nat>, now: Time, next: int)
    requires replays != [] && !CanExpandReplayRow(db, locked, replays[0])
    ensures ExpandFirstReplay(db, locked, replays, now, next) == ExpandFirstReplay(db, locked, replays[1..], now, next)
  {
  }

  // the query: SELECT id ... WHERE status = 'pending_expansion' ORDER BY created_at LIMIT 20

  predicate IsPendingReplay(db: DB, r: nat) {
    r < |db.replays| && db.replays[r].status == PendingExpansion
  }

  function RequestedAt(db: DB, r: nat): Time {
    if r < |db.replays| then db.replays[r].createdAt else 0
  }

  /** The replays an expansion cycle looks at. */
  function PendingReplays(db: DB): seq<nat> {
    First(Rank(ByKey((r: nat) => RequestedAt(db, r)), (r: nat) => IsPendingReplay(db, r), |db.replays|), LIMIT)
  }

  /** runReplayExpansionCycle. */
  function ReplayCycle(db: DB, locked: set<nat>, now: Time, next: int): (DB, bool) {
    ExpandFirstReplay(db, locked, PendingReplays(db), now, next)
  }

  /** The query's answer: at most twenty pending replays, each once, by creation time; one that is left out
      is no older than any of them. */
  lemma PendingReplaysIsTheQuery(db: DB)
    ensures |PendingReplays(db)| <= 20
    ensures forall k :: 0 <= k < |PendingReplays(db)| ==> PendingReplays(db)[k] < |db.replays| && db.replays[PendingReplays(db)[k]].status == PendingExpansion
    ensures forall j, k :: 0 <= j < k < |PendingReplays(db)| ==>
              PendingReplays(db)[j] != PendingReplays(db)[k] && db.replays[PendingReplays(db)[j]].createdAt <= db.replays[PendingReplays(db)[k]].createdAt
    ensures forall r: nat :: r < |db.replays| && db.replays[r].status == PendingExpansion && r !in PendingReplays(db) ==>
              |PendingReplays(db)| == 20 && forall k :: 0 <= k < 20 ==> db.replays[PendingReplays(db)[k]].createdAt <= db.replays[r].createdAt
  {
    var key, p := (r: nat) => RequestedAt(db, r), (r: nat) => IsPendingReplay(db, r);
    KeyOrders(key, p);
    FirstOfRank(ByKey(key), p, |db.replays|, LIMIT);
    var listed := PendingReplays(db);
    assert listed == First(Rank(ByKey(key), p, |db.replays|), LIMIT);
    hide PendingReplays, First, Rank, Orders;
    assert forall k :: 0 <= k < |listed| ==> p(listed[k]) && key(listed[k]) == db.replays[listed[k]].createdAt;
    forall r: nat | r < |db.replays| && db.replays[r].status == PendingExpansion && r !in listed
      ensures |listed| == LIMIT && forall k :: 0 <= k < LIMIT ==> db.replays[listed[k]].createdAt <= db.replays[r].createdAt
    {
      assert p(r) && key(r) == db.replays[r].createdAt;
    }
  }

  /** A cycle expands a replay if and only if one of those the query lists is not locked. */
  lemma ReplayCycleExpandsIff(db: DB, locked: set<nat>, now: Time, next: int)
    ensures ReplayCycle(db, locked, now, next).1 <==> exists k :: 0 <= k < |PendingReplays(db)| && PendingReplays(db)[k] !in locked
    ensures !ReplayCycle(db, locked, now, next).1 ==> ReplayCycle(db, locked, now, next).0 == db
  {
    PendingReplaysIsTheQuery(db);
    var listed := PendingReplays(db);
    hide PendingReplays;
    assert forall k :: 0 <= k < |listed| ==> (CanExpandReplayRow(db, locked, listed[k]) <==> listed[k] !in locked);
  }

  /** When no row is locked and a replay is pending, a cycle expands a pending one than which none is older. */
  lemma ReplayCycleTakesOldest(db: DB, some: nat, now: Time, next: int) returns (r: nat)
    requires some < |db.replays| && db.replays[some].status == PendingExpansion
    ensures r < |db.replays| && db.replays[r].status == PendingExpansion
    ensures forall q: nat :: q < |db.replays| && db.replays[q].status == PendingExpansion ==> db.replays[r].createdAt <= db.replays[q].createdAt
    ensures ReplayCycle(db, {}, now, next) == (ExpandReplay(db, r, Numbers(next, |Window(db, db.replays[r])|), now), true)
  {
    PendingReplaysIsTheQuery(db);
    var listed := PendingReplays(db);
    hide PendingReplays, ExpandReplay, Window;
    assert listed != [];
    r := listed[0];
    assert CanExpandReplayRow(db, {}, r);
    forall q: nat | q < |db.replays| && db.replays[q].status == PendingExpansion ensures db.replays[r].createdAt <= db.replays[q].createdAt {
      if q in listed {
        var j :| 0 <= j < |listed| && listed[j] == q;
      }
    }
  }

  function LockedReplays(s: World): set<nat> {
    set x | x in s.replayers :: s.replayers[x].replay
  }

  lemma ReplayInOrder(db: DB, r: nat, now: Time, next: int)
    requires r < |db.replays| && AllBelow(db.deliveries, next)
    ensures CommitInOrder(db.deliveries, ReplayRows(db, r, Numbers(next, |Window(db, db.replays[r])|), now))
  {
    hide Window;
  }

  /** The transaction of one replay is two steps of the transition system, whenever it began. */
  lemma ExpandReplayIsARun(cfg: Config, s: World, x: nat, r: nat, began: Time, next: int) returns (steps: seq<Step>)
    requires x !in s.replayers && began <= s.clock && CanExpandReplayRow(s.db, LockedReplays(s), r) && AllBelow(s.db.deliveries, next)
    ensures IsRun(cfg, s, steps)
    ensures After(cfg, s, steps) == s.(db := ExpandReplayRow(s.db, r, began, next))
  {
    var seqs := Numbers(next, |Window(s.db, s.db.replays[r])|);
    ReplayInOrder(s.db, r, began, next);
    var s1 := s.(replayers := s.replayers[x := Replayer(r, began)]);
    assert forall y :: y in s.replayers ==> s.replayers[y].replay in LockedReplays(s);
    assert CanExpandReplay(s1, x, seqs);
    var s2 := DoExpandReplay(s1, x, seqs);
    assert s2.replayers == s.replayers;
    hide ExpandReplayRow, CanExpandReplayRow, CommitInOrder, ReplayRows, Window, WindowEvents;
    var last := Transact(x, AppendReplay(seqs));
    RunOfOne(cfg, s1, last);
    Prepend(cfg, s, Transact(x, LockReplay(r, began)), [last]);
    steps := [Transact(x, LockReplay(r, began))] + [last];
  }
}
