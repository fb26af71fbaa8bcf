/** Tenant fairness: with atomic claim calls and increasing stamps, a tenant with a candidate is
    passed over by every other tenant at most once. */
module Fairness {
  import opened Tables
  import opened Protocol
  import opened LeaseInvariant
  import opened AttemptInvariant
  import opened GateInvariant
  import opened ExpansionInvariant
  import opened EffectInvariant
  import opened SystemInvariant
  import opened Claiming

  /** claimDelivery: try the candidates in order until one is claimed, the k-th at time `times[k]`. */
  function ClaimFirst(db: DB, cands: seq<Candidate>, cutoff: Time, times: seq<Time>, lease: nat): (DB, Option<Claim>)
    requires |times| == |cands|
    decreases |cands|
  {
    if cands == [] then (db, None)
    else
      var (db1, claim) := TryClaim(db, cands[0], cutoff, times[0], lease);
      if claim.Some? then (db1, claim) else ClaimFirst(db1, cands[1..], cutoff, times[1..], lease + 1)
  }

  /** How many candidates a call tries. */
  function TriedCount(db: DB, cands: seq<Candidate>, cutoff: Time, times: seq<Time>, lease: nat): (n: nat)
    requires |times| == |cands|
    ensures n <= |cands| && (cands != [] ==> n > 0)
    decreases |cands|
  {
    if cands == [] then 0
    else
      var (db1, claim) := TryClaim(db, cands[0], cutoff, times[0], lease);
      if claim.Some? then 1 else 1 + TriedCount(db1, cands[1..], cutoff, times[1..], lease + 1)
  }

  ghost predicate AllWin(db: DB, cands: seq<Candidate>, cutoff: Time) {
    && (forall k :: 0 <= k < |cands| ==> WinsLease(db, cands[k], cutoff))
    && (forall j, k :: 0 <= j < k < |cands| ==> cands[j].endpoint != cands[k].endpoint)
  }

  /** A try changes no endpoint but its own, and no stamp but its tenant's. */
  lemma TryFrame(db: DB, c: Candidate, cutoff: Time, now: Time, lease: nat)
    requires WinsLease(db, c, cutoff)
    ensures var db' := TryClaim(db, c, cutoff, now, lease).0;
            && |db'.endpoints| == |db.endpoints| && |db'.tenants| == |db.tenants|
            && (forall e :: 0 <= e < |db.endpoints| ==> db'.endpoints[e].tenant == db.endpoints[e].tenant && (e != c.endpoint ==> db'.endpoints[e] == db.endpoints[e]))
            && db'.tenants == StampTenant(db, db.endpoints[c.endpoint].tenant, now).tenants
    ensures TryClaim(db, c, cutoff, now, lease).1.Some? ==> TryClaim(db, c, cutoff, now, lease).1.value.endpoint == c.endpoint
  {
  }

  /** Candidate `k` belongs to tenant `t`. */
  predicate Owned(db: DB, cands: seq<Candidate>, k: nat, t: nat) {
    k < |cands| && cands[k].endpoint < |db.endpoints| && db.endpoints[cands[k].endpoint].tenant == t
  }

  /** Tenant `t` owns one of the first `n` candidates. */
  ghost predicate Among(db: DB, cands: seq<Candidate>, n: nat, t: nat) {
    exists k: nat :: k < n && Owned(db, cands, k, t)
  }

  /** `k` is the last of the first `n` candidates that belongs to tenant `t`. */
  ghost predicate LastOwned(db: DB, cands: seq<Candidate>, n: nat, t: nat, k: nat) {
    k < n && Owned(db, cands, k, t) && forall j: nat :: k < j < n ==> !Owned(db, cands, j, t)
  }

  /** The stamp of a tenant after `n` candidates were tried: the time of its last try, if there was one. */
  ghost predicate Stamped(db: DB, cands: seq<Candidate>, times: seq<Time>, n: nat, t: nat, before: Option<Time>, after: Option<Time>)
    requires |times| == |cands|
  {
    if Among(db, cands, n, t) then exists k: nat :: LastOwned(db, cands, n, t, k) && after == Some(times[k]) else after == before
  }

  /** A call stamps exactly the tenants it tries, each with the time of its last try, and its claim is
      for the last candidate tried. */
  lemma {:induction false} StampsOfCall(db: DB, cands: seq<Candidate>, cutoff: Time, times: seq<Time>, lease: nat)
    requires |times| == |cands| && AllWin(db, cands, cutoff)
    ensures var (db', claim) := ClaimFirst(db, cands, cutoff, times, lease); var n := TriedCount(db, cands, cutoff, times, lease);
            && |db'.tenants| == |db.tenants|
            && (forall t :: 0 <= t < |db.tenants| ==> Stamped(db, cands, times, n, t, db.tenants[t].lastServedAt, db'.tenants[t].lastServedAt))
            && (claim.Some? ==> n > 0 && claim.value.endpoint == cands[n - 1].endpoint)
    decreases |cands|
  {
    if cands == [] {
      assert forall t: nat :: !Among(db, cands, 0, t);
    } else {
      hide TryClaim, Stamped;
      RestWins(db, cands, cutoff, times[0], lease);
      var (db1, claim) := TryClaim(db, cands[0], cutoff, times[0], lease);
      if claim.None? {
        var n := TriedCount(db, cands, cutoff, times, lease);
        StampsOfCall(db1, cands[1..], cutoff, times[1..], lease + 1);
        var db' := ClaimFirst(db, cands, cutoff, times, lease).0;
        hide ClaimFirst, TriedCount, AllWin;
        forall t | 0 <= t < |db.tenants| ensures Stamped(db, cands, times, n, t, db.tenants[t].lastServedAt, db'.tenants[t].lastServedAt) {
          StampedStep(db, db1, cands, times, n, t, db.tenants[t].lastServedAt, db'.tenants[t].lastServedAt);
        }
      } else {
        StampsOfClaim(db, cands, cutoff, times, lease);
      }
    }
  }

  /** What the first try leaves: the rest still win, and only its own tenant has a new stamp. */
  lemma RestWins(db: DB, cands: seq<Candidate>, cutoff: Time, at: Time, lease: nat)
    requires cands != [] && AllWin(db, cands, cutoff)
    ensures var db1 := TryClaim(db, cands[0], cutoff, at, lease).0;
            && AllWin(db1, cands[1..], cutoff) && cands[0].endpoint < |db.endpoints|
            && |db1.endpoints| == |db.endpoints| && |db1.tenants| == |db.tenants|
            && (forall e :: 0 <= e < |db.endpoints| ==> db1.endpoints[e].tenant == db.endpoints[e].tenant)
            && (forall t :: 0 <= t < |db.tenants| ==>
                  db1.tenants[t].lastServedAt == if t == db.endpoints[cands[0].endpoint].tenant then Some(at) else db.tenants[t].lastServedAt)
    ensures var claim := TryClaim(db, cands[0], cutoff, at, lease).1; claim.Some? ==> claim.value.endpoint == cands[0].endpoint
  {
    TryFrame(db, cands[0], cutoff, at, lease);
    hide TryClaim;
    assert forall k :: 0 <= k < |cands[1..]| ==> cands[1..][k] == cands[k + 1];
  }

  /** A call that claims with its first try. */
  lemma StampsOfClaim(db: DB, cands: seq<Candidate>, cutoff: Time, times: seq<Time>, lease: nat)
    requires |times| == |cands| && cands != [] && AllWin(db, cands, cutoff) && TryClaim(db, cands[0], cutoff, times[0], lease).1.Some?
    ensures var db' := TryClaim(db, cands[0], cutoff, times[0], lease).0;
            && |db'.tenants| == |db.tenants|
            && (forall t :: 0 <= t < |db.tenants| ==> Stamped(db, cands, times, 1, t, db.tenants[t].lastServedAt, db'.tenants[t].lastServedAt))
  {
    hide TryClaim, AllWin;
    RestWins(db, cands, cutoff, times[0], lease);
    var t0 := db.endpoints[cands[0].endpoint].tenant;
    forall t | 0 <= t < |db.tenants| ensures Among(db, cands, 1, t) <==> t == t0 {
      if t == t0 { assert Owned(db, cands, 0, t); }
    }
    assert t0 < |db.tenants| ==> LastOwned(db, cands, 1, t0, 0);
  }

  /** The first try stamps its tenant; a later one of the same tenant overwrites that. */
  lemma StampedStep(db: DB, db1: DB, cands: seq<Candidate>, times: seq<Time>, n: nat, t: nat, before: Option<Time>, after: Option<Time>)
    requires |times| == |cands| && cands != [] && 0 < n <= |cands| && cands[0].endpoint < |db.endpoints|
    requires |db1.endpoints| == |db.endpoints| && forall e :: 0 <= e < |db.endpoints| ==> db1.endpoints[e].tenant == db.endpoints[e].tenant
    requires Stamped(db1, cands[1..], times[1..], n - 1, t, if t == db.endpoints[cands[0].endpoint].tenant then Some(times[0]) else before, after)
    ensures Stamped(db, cands, times, n, t, before, after)
  {
    AmongStep(db, db1, cands, n, t);
    OwnedStep(db, db1, cands, t);
    if Among(db1, cands[1..], n - 1, t) {
      var k: nat :| LastOwned(db1, cands[1..], n - 1, t, k) && after == Some(times[1..][k]);
      forall j: nat | k + 1 < j < n ensures !Owned(db, cands, j, t) {
        assert !Owned(db1, cands[1..], j - 1, t);
      }
      assert LastOwned(db, cands, n, t, k + 1) && after == Some(times[k + 1]);
    } else if t == db.endpoints[cands[0].endpoint].tenant {
      forall j: nat | 0 < j < n ensures !Owned(db, cands, j, t) {
        assert !Owned(db1, cands[1..], j - 1, t);
      }
      assert LastOwned(db, cands, n, t, 0) && after == Some(times[0]);
    }
  }

  lemma OwnedStep(db: DB, db1: DB, cands: seq<Candidate>, t: nat)
    requires cands != []
    requires |db1.endpoints| == |db.endpoints| && forall e :: 0 <= e < |db.endpoints| ==> db1.endpoints[e].tenant == db.endpoints[e].tenant
    ensures forall k: nat :: Owned(db1, cands[1..], k, t) <==> Owned(db, cands, k + 1, t)
  {
  }

  lemma AmongStep(db: DB, db1: DB, cands: seq<Candidate>, n: nat, t: nat)
    requires cands != [] && 0 < n && cands[0].endpoint < |db.endpoints|
    requires |db1.endpoints| == |db.endpoints| && forall e :: 0 <= e < |db.endpoints| ==> db1.endpoints[e].tenant == db.endpoints[e].tenant
    ensures Among(db, cands, n, t) <==> t == db.endpoints[cands[0].endpoint].tenant || Among(db1, cands[1..], n - 1, t)
  {
    OwnedStep(db, db1, cands, t);
    if Among(db1, cands[1..], n - 1, t) {
      var k: nat :| k < n - 1 && Owned(db1, cands[1..], k, t);
      assert Owned(db, cands, k + 1, t);
    }
    if Among(db, cands, n, t) {
      var k: nat :| k < n && Owned(db, cands, k, t);
      if k > 0 { assert Owned(db1, cands[1..], k - 1, t); }
    } else {
      assert !Owned(db, cands, 0, t);
    }
  }

  // ------------------------------------------------------------- one claim call

  /** `now` is the time of the candidate query, `times` those of the tries that follow it. */
  datatype Call = Call(db: DB, cutoff: Time, now: Time, cands: seq<Candidate>, times: seq<Time>, lease: nat)

  function Outcome(c: Call): (DB, Option<Claim>)
    requires |c.times| == |c.cands|
  {
    ClaimFirst(c.db, c.cands, c.cutoff, c.times, c.lease)
  }

  /** A call on well-formed tables, later than every stamp. */
  ghost predicate GoodCall(c: Call) {
    && IsSelection(c.db, c.now, c.cutoff, c.cands)
    && |c.times| == |c.cands| && (forall k :: 0 <= k < |c.times| ==> c.now <= c.times[k])
    && (forall e :: 0 <= e < |c.db.endpoints| ==> c.db.endpoints[e].tenant < |c.db.tenants|)
    && (forall t :: 0 <= t < |c.db.tenants| && c.db.tenants[t].lastServedAt.Some? ==> c.db.tenants[t].lastServedAt.value < c.now)
  }

  ghost predicate HasCandidate(c: Call, t: nat) {
    exists e: nat :: IsCandidate(c.db, e, c.cutoff, c.now) && c.db.endpoints[e].tenant == t
  }

  /** The call left a new stamp on the tenant. */
  predicate Tried(c: Call, t: nat)
    requires |c.times| == |c.cands|
  {
    && t < |c.db.tenants| && |Outcome(c).0.tenants| == |c.db.tenants|
    && Outcome(c).0.tenants[t].lastServedAt.Some? && Outcome(c).0.tenants[t].lastServedAt.value >= c.now
  }

  /** The other tenants served no later than `t`. */
  function Ahead(db: DB, t: nat): set<nat>
    requires t < |db.tenants|
  {
    set u: nat | u < |db.tenants| && u != t && ServedNoLater(db.tenants[u].lastServedAt, db.tenants[t].lastServedAt)
  }

  lemma SelectedWin(db: DB, now: Time, cutoff: Time, cands: seq<Candidate>)
    requires IsSelection(db, now, cutoff, cands)
    ensures AllWin(db, cands, cutoff)
  {
    hide Precedes;
  }

  /** While `t` has a candidate and is not tried, only tenants ahead of it are tried, and at least one is. */
  lemma OnlyAheadAreTried(c: Call, t: nat)
    requires GoodCall(c) && t < |c.db.tenants| && HasCandidate(c, t) && !Tried(c, t)
    ensures |Outcome(c).0.tenants| == |c.db.tenants|
    ensures Outcome(c).0.tenants[t].lastServedAt == c.db.tenants[t].lastServedAt
    ensures forall u :: 0 <= u < |c.db.tenants| ==> Outcome(c).0.tenants[u].lastServedAt == c.db.tenants[u].lastServedAt || (Tried(c, u) && u in Ahead(c.db, t))
    ensures exists u :: u in Ahead(c.db, t) && Tried(c, u)
    ensures Outcome(c).1.Some? ==> Outcome(c).1.value.endpoint < |c.db.endpoints| && Tried(c, c.db.endpoints[Outcome(c).1.value.endpoint].tenant)
                                   && c.db.endpoints[Outcome(c).1.value.endpoint].tenant in Ahead(c.db, t)
  {
    SelectedWin(c.db, c.now, c.cutoff, c.cands);
    StampsOfCall(c.db, c.cands, c.cutoff, c.times, c.lease);
    var n := TriedCount(c.db, c.cands, c.cutoff, c.times, c.lease);
    hide ClaimFirst, TriedCount, Precedes, IsCandidate;
    forall u | 0 <= u < |c.db.tenants| ensures Tried(c, u) <==> Among(c.db, c.cands, n, u) {
      StampTells(c, n, u);
    }
    assert !Among(c.db, c.cands, n, t);
    forall k: nat | k < n
      ensures c.cands[k].endpoint < |c.db.endpoints| && c.db.endpoints[c.cands[k].endpoint].tenant in Ahead(c.db, t)
      ensures Tried(c, c.db.endpoints[c.cands[k].endpoint].tenant)
    {
      TriedIsAhead(c, t, n, k);
      assert Owned(c.db, c.cands, k, c.db.endpoints[c.cands[k].endpoint].tenant);
    }
    SomeCandidate(c, t);
    var u := c.db.endpoints[c.cands[0].endpoint].tenant;
    assert u in Ahead(c.db, t) && Tried(c, u);
    forall v | 0 <= v < |c.db.tenants| && Outcome(c).0.tenants[v].lastServedAt != c.db.tenants[v].lastServedAt
      ensures Tried(c, v) && v in Ahead(c.db, t)
    {
      assert Among(c.db, c.cands, n, v);
      var k: nat :| k < n && Owned(c.db, c.cands, k, v);
    }
  }

  /** New stamps are later than old ones, so they tell which tenants were tried. */
  lemma StampTells(c: Call, n: nat, u: nat)
    requires GoodCall(c) && u < |c.db.tenants| && |Outcome(c).0.tenants| == |c.db.tenants| && n <= |c.cands|
    requires Stamped(c.db, c.cands, c.times, n, u, c.db.tenants[u].lastServedAt, Outcome(c).0.tenants[u].lastServedAt)
    ensures Tried(c, u) <==> Among(c.db, c.cands, n, u)
  {
    hide ClaimFirst, IsSelection;
  }

  lemma SomeCandidate(c: Call, t: nat)
    requires GoodCall(c) && HasCandidate(c, t)
    ensures c.cands != []
  {
    var e: nat :| IsCandidate(c.db, e, c.cutoff, c.now) && c.db.endpoints[e].tenant == t;
    assert Listed(c.cands, e) || |c.cands| == LIMIT;
  }

  /** A candidate tried before any of `t`'s comes no later than `t` in the order. */
  lemma TriedIsAhead(c: Call, t: nat, n: nat, k: nat)
    requires GoodCall(c) && t < |c.db.tenants| && HasCandidate(c, t) && k < n <= |c.cands| && !Among(c.db, c.cands, n, t)
    ensures c.cands[k].endpoint < |c.db.endpoints| && c.db.endpoints[c.cands[k].endpoint].tenant in Ahead(c.db, t)
  {
    var e: nat :| IsCandidate(c.db, e, c.cutoff, c.now) && c.db.endpoints[e].tenant == t;
    assert IsCandidate(c.db, c.cands[k].endpoint, c.cutoff, c.now);
    var x := c.cands[k].endpoint;
    assert !Owned(c.db, c.cands, k, t);
    if Listed(c.cands, e) {
      var j :| 0 <= j < |c.cands| && c.cands[j].endpoint == e;
      assert Owned(c.db, c.cands, j, t);
      assert Precedes(c.db, c.now, c.cands[k].endpoint, c.cands[j].endpoint);
    } else {
      assert Precedes(c.db, c.now, c.cands[k].endpoint, e);
    }
  }

  // ---------------------------------------------------------- sequences of calls

  /** Successive calls; whatever happens in between leaves the stamps alone, but may add tenants. */
  ghost predicate IsHistory(calls: seq<Call>) {
    && (forall i :: 0 <= i < |calls| ==> GoodCall(calls[i]))
    && (forall i :: 0 <= i < |calls| - 1 ==> SameStamps(Outcome(calls[i]).0, calls[i + 1].db))
  }

  ghost predicate SameStamps(db: DB, db': DB) {
    |db'.tenants| >= |db.tenants| && forall t :: 0 <= t < |db.tenants| ==> db'.tenants[t].lastServedAt == db.tenants[t].lastServedAt
  }

  /** `t` has a candidate in every call, and none of them tries it. */
  ghost predicate PassedOver(calls: seq<Call>, t: nat) {
    forall i :: 0 <= i < |calls| ==>
      |calls[i].times| == |calls[i].cands| && t < |calls[i].db.tenants| && HasCandidate(calls[i], t) && !Tried(calls[i], t)
  }

  /** The ids of the tenants added when their number went from `lo` to `hi`. */
  function Added(lo: nat, hi: nat): (ids: set<nat>)
    requires lo <= hi
    ensures |ids| == hi - lo && forall u: nat :: u in ids <==> lo <= u < hi
    decreases hi
  {
    if lo == hi then {} else Added(lo, hi - 1) + {hi - 1}
  }

  lemma AheadShrinks(c: Call, next: DB, t: nat)
    requires GoodCall(c) && t < |c.db.tenants| && HasCandidate(c, t) && !Tried(c, t) && SameStamps(Outcome(c).0, next)
    ensures |c.db.tenants| <= |next.tenants| && next.tenants[t].lastServedAt == c.db.tenants[t].lastServedAt
    ensures |Ahead(next, t)| < |Ahead(c.db, t)| + |next.tenants| - |c.db.tenants|
    ensures forall u :: u in Ahead(next, t) && u < |c.db.tenants| ==> u in Ahead(c.db, t) && !Tried(c, u)
  {
    OnlyAheadAreTried(c, t);
    hide Outcome, IsSelection;
    var u :| u in Ahead(c.db, t) && Tried(c, u);
    assert u !in Ahead(next, t);
    var added := Added(|c.db.tenants|, |next.tenants|);
    assert Ahead(next, t) <= (Ahead(c.db, t) - {u}) + added;
    hide Ahead, Tried;
    SubsetSize(Ahead(next, t), (Ahead(c.db, t) - {u}) + added);
    UnionSize(Ahead(c.db, t) - {u}, added);
  }

  lemma UnionSize(a: set<nat>, b: set<nat>)
    ensures |a + b| <= |a| + |b|
  {
    assert a + b == a + (b - a);
    SubsetSize(b - a, b);
  }

  lemma {:induction false} SubsetSize(a: set<nat>, b: set<nat>)
    requires a <= b
    ensures |a| <= |b|
    decreases a
  {
    if a != {} {
      var x :| x in a;
      SubsetSize(a - {x}, b - {x});
    }
  }

  /** Bounded bypass: a tenant with a candidate is passed over in at most as many calls as there are
      other tenants served no later than it, and tenants added meanwhile; so it is tried in the call
      after those at the latest. */
  lemma {:induction false} PassedOverAtMost(calls: seq<Call>, t: nat)
    requires calls != [] && IsHistory(calls) && PassedOver(calls, t)
    ensures |calls| <= |Ahead(calls[0].db, t)| + |calls[|calls| - 1].db.tenants| - |calls[0].db.tenants|
    decreases |calls|
  {
    hide IsSelection, HasCandidate, Tried, Outcome, SameStamps;
    assert GoodCall(calls[0]) && HasCandidate(calls[0], t);
    OnlyAheadAreTried(calls[0], t);
    if |calls| > 1 {
      var rest := calls[1..];
      assert forall i :: 0 <= i < |rest| ==> rest[i] == calls[i + 1];
      assert SameStamps(Outcome(calls[0]).0, calls[0 + 1].db);
      AheadShrinks(calls[0], calls[1].db, t);
      PassedOverAtMost(rest, t);
    }
  }

  predicate ServedBy(c: Call, u: nat)
    requires |c.times| == |c.cands|
  {
    Outcome(c).1.Some? && Outcome(c).1.value.endpoint < |c.db.endpoints| && c.db.endpoints[Outcome(c).1.value.endpoint].tenant == u
  }

  /** Once behind `t`, a tenant stays there for as long as `t` is passed over. */
  lemma {:induction false} StaysBehind(calls: seq<Call>, t: nat, u: nat, i: nat, j: nat)
    requires IsHistory(calls) && PassedOver(calls, t) && i <= j < |calls| && u !in Ahead(calls[i].db, t) && u < |calls[i].db.tenants|
    ensures u < |calls[j].db.tenants| && t < |calls[j].db.tenants| && u !in Ahead(calls[j].db, t)
    decreases j - i
  {
    hide Outcome, IsSelection, HasCandidate, Tried, SameStamps, Ahead;
    if i < j {
      StaysBehind(calls, t, u, i, j - 1);
      assert SameStamps(Outcome(calls[j - 1]).0, calls[j - 1 + 1].db);
      AheadShrinks(calls[j - 1], calls[j].db, t);
    }
  }

  lemma ServedIsAhead(c: Call, t: nat, u: nat)
    requires GoodCall(c) && t < |c.db.tenants| && HasCandidate(c, t) && !Tried(c, t) && ServedBy(c, u)
    ensures u in Ahead(c.db, t) && Tried(c, u) && u < |c.db.tenants|
  {
    OnlyAheadAreTried(c, t);
  }

  /** Every other tenant gets at most one claim before `t` is tried. */
  lemma OneClaimEach(calls: seq<Call>, t: nat, u: nat, i: nat, j: nat)
    requires IsHistory(calls) && PassedOver(calls, t) && i < |calls| && j < |calls|
    requires GoodCall(calls[i]) && GoodCall(calls[j]) && ServedBy(calls[i], u) && ServedBy(calls[j], u)
    ensures i == j
  {
    if i < j { OneClaimBefore(calls, t, u, i, j); }
    if j < i { OneClaimBefore(calls, t, u, j, i); }
  }

  lemma OneClaimBefore(calls: seq<Call>, t: nat, u: nat, i: nat, j: nat)
    requires IsHistory(calls) && PassedOver(calls, t) && i < j < |calls| && GoodCall(calls[i]) && GoodCall(calls[j]) && ServedBy(calls[i], u)
    ensures !ServedBy(calls[j], u)
  {
    hide Outcome, IsSelection, HasCandidate, Tried, SameStamps, Ahead, ServedBy;
    ServedIsAhead(calls[i], t, u);
    assert SameStamps(Outcome(calls[i]).0, calls[i + 1].db);
    AheadShrinks(calls[i], calls[i + 1].db, t);
    StaysBehind(calls, t, u, i + 1, j);
    if ServedBy(calls[j], u) { ServedIsAhead(calls[j], t, u); }
  }

  // ----------------------------------------------- when the try is also a claim

  /** The head of `e` may be sent now, once whatever a stale holder left behind is reclaimed. */
  ghost predicate HeadReady(db: DB, e: nat, now: Time) {
    && e < |db.endpoints| && QueueOrder(db.deliveries) && (db.endpoints[e].busy || NoneInFlight(db.deliveries, e))
    && ReportedHead(db, e).Some? && db.deliveries[ReportedHead(db, e).value].nextAttemptAt <= now
  }

  /** This is so for every endpoint that is due. */
  lemma DueIsReady(cfg: Config, s: World, e: nat)
    requires RowsOk(s.db, s.nextLease, s.clock) && Due(cfg, s.db, e, s.clock)
    ensures HeadReady(s.db, e, s.clock)
  {
    hide QueueOrder, QueueShape, LeaseColumns;
  }

  lemma ReadyIsClaimed(db: DB, c: Candidate, cutoff: Time, now: Time, at: Time, lease: nat)
    requires WinsLease(db, c, cutoff) && HeadReady(db, c.endpoint, now) && now <= at && c.busy == db.endpoints[c.endpoint].busy
    ensures TryClaim(db, c, cutoff, at, lease).1.Some?
  {
    ClaimedIff(db, c, cutoff, at, lease);
  }

  lemma {:induction false} SameLowest(ds: seq<Delivery>, ds': seq<Delivery>, e: nat, alsoInFlight: bool)
    requires |ds'| == |ds| && forall i :: 0 <= i < |ds| ==> (ds[i].endpoint == e ==> ds'[i] == ds[i]) && ds'[i].endpoint == ds[i].endpoint
    ensures Lowest(ds', e, alsoInFlight) == Lowest(ds, e, alsoInFlight)
  {
    if |ds| > 0 {
      var last := |ds| - 1;
      SameLowest(ds[..last], ds'[..last], e, alsoInFlight);
      var h := Lowest(ds[..last], e, alsoInFlight);
      assert h.Some? ==> ds'[h.value] == ds[h.value];
      assert Waits(ds'[last], e, alsoInFlight) <==> Waits(ds[last], e, alsoInFlight);
      assert Waits(ds[last], e, alsoInFlight) ==> ds'[last] == ds[last];
    }
  }

  /** A try leaves the deliveries of every other endpoint alone. */
  lemma TryDeliveries(db: DB, c: Candidate, cutoff: Time, now: Time, lease: nat)
    requires WinsLease(db, c, cutoff)
    ensures var ds' := TryClaim(db, c, cutoff, now, lease).0.deliveries;
            && |ds'| == |db.deliveries|
            && (forall i :: 0 <= i < |ds'| ==> ds'[i].endpoint == db.deliveries[i].endpoint && ds'[i].seqNo == db.deliveries[i].seqNo)
            && (forall i :: 0 <= i < |ds'| && db.deliveries[i].endpoint != c.endpoint ==> ds'[i] == db.deliveries[i])
  {
    hide Lowest;
    var leased := StampTenant(TakeLease(db, c.endpoint, now, lease), db.endpoints[c.endpoint].tenant, now);
    var clean := if c.busy then RequeueInFlight(CloseOrphans(leased, c.endpoint), c.endpoint) else leased;
    assert forall i :: 0 <= i < |db.deliveries| ==> clean.deliveries[i] == db.deliveries[i] || clean.deliveries[i] == Requeued(db.deliveries[i], c.endpoint);
  }

  lemma TryKeepsReady(db: DB, c: Candidate, cutoff: Time, at: Time, lease: nat, e: nat, now: Time)
    requires WinsLease(db, c, cutoff) && HeadReady(db, e, now) && e != c.endpoint
    ensures HeadReady(TryClaim(db, c, cutoff, at, lease).0, e, now)
  {
    TryFrame(db, c, cutoff, at, lease);
    TryDeliveries(db, c, cutoff, at, lease);
    SameLowest(db.deliveries, TryClaim(db, c, cutoff, at, lease).0.deliveries, e, true);
    hide TryClaim;
  }

  ghost predicate AllReady(db: DB, cands: seq<Candidate>, t: nat, now: Time) {
    forall k :: 0 <= k < |cands| && cands[k].endpoint < |db.endpoints| && db.endpoints[cands[k].endpoint].tenant == t ==>
      HeadReady(db, cands[k].endpoint, now) && cands[k].busy == db.endpoints[cands[k].endpoint].busy
  }

  /** If every listed candidate of a tenant has a ready head, a call that tries the tenant claims for it. */
  lemma {:induction false} ReadyIsServed(db: DB, cands: seq<Candidate>, cutoff: Time, now: Time, times: seq<Time>, lease: nat, t: nat)
    requires |times| == |cands| && (forall k :: 0 <= k < |times| ==> now <= times[k])
    requires AllWin(db, cands, cutoff) && AllReady(db, cands, t, now)
    requires Among(db, cands, TriedCount(db, cands, cutoff, times, lease), t)
    ensures var claim := ClaimFirst(db, cands, cutoff, times, lease).1;
            claim.Some? && claim.value.endpoint < |db.endpoints| && db.endpoints[claim.value.endpoint].tenant == t
    decreases |cands|
  {
    var c := cands[0];
    var n := TriedCount(db, cands, cutoff, times, lease);
    assert WinsLease(db, c, cutoff);
    TryFrame(db, c, cutoff, times[0], lease);
    if db.endpoints[c.endpoint].tenant == t {
      assert HeadReady(db, c.endpoint, now);
      ReadyIsClaimed(db, c, cutoff, now, times[0], lease);
    } else {
      hide TryClaim, HeadReady, AllWin, AllReady;
      var (db1, claim) := TryClaim(db, c, cutoff, times[0], lease);
      OnlyFirstTried(db, cands, t);
      if claim.None? {
        RestReady(db, cands, cutoff, now, times[0], lease, t);
        AmongStep(db, db1, cands, n, t);
        ReadyIsServed(db1, cands[1..], cutoff, now, times[1..], lease + 1, t);
      }
    }
  }

  lemma OnlyFirstTried(db: DB, cands: seq<Candidate>, t: nat)
    requires cands != [] && cands[0].endpoint < |db.endpoints| && db.endpoints[cands[0].endpoint].tenant != t
    ensures !Among(db, cands, 1, t)
  {
  }

  lemma RestReady(db: DB, cands: seq<Candidate>, cutoff: Time, now: Time, at: Time, lease: nat, t: nat)
    requires cands != [] && AllWin(db, cands, cutoff) && AllReady(db, cands, t, now)
    ensures AllWin(TryClaim(db, cands[0], cutoff, at, lease).0, cands[1..], cutoff) && AllReady(TryClaim(db, cands[0], cutoff, at, lease).0, cands[1..], t, now)
  {
    var c := cands[0];
    var db1 := TryClaim(db, c, cutoff, at, lease).0;
    assert WinsLease(db, c, cutoff);
    TryFrame(db, c, cutoff, at, lease);
    hide TryClaim, HeadReady;
    forall k | 0 <= k < |cands[1..]| && cands[1..][k].endpoint < |db1.endpoints| && db1.endpoints[cands[1..][k].endpoint].tenant == t
      ensures HeadReady(db1, cands[1..][k].endpoint, now) && cands[1..][k].busy == db1.endpoints[cands[1..][k].endpoint].busy
    {
      assert cands[1..][k] == cands[k + 1];
      TryKeepsReady(db, c, cutoff, at, lease, cands[k + 1].endpoint, now);
    }
  }

  /** When `t` is tried and all its candidates have ready heads, the call is a claim for `t`. */
  lemma TriedIsServed(c: Call, t: nat)
    requires GoodCall(c) && Tried(c, t)
    requires forall e: nat :: IsCandidate(c.db, e, c.cutoff, c.now) && c.db.endpoints[e].tenant == t ==> HeadReady(c.db, e, c.now)
    ensures ServedBy(c, t)
  {
    SelectedWin(c.db, c.now, c.cutoff, c.cands);
    StampsOfCall(c.db, c.cands, c.cutoff, c.times, c.lease);
    var n := TriedCount(c.db, c.cands, c.cutoff, c.times, c.lease);
    hide ClaimFirst, TriedCount, Precedes, HeadReady;
    StampTells(c, n, t);
    ReadyIsServed(c.db, c.cands, c.cutoff, c.now, c.times, c.lease, t);
  }

  /** So in a reachable state, a call that tries a tenant all of whose candidates are due claims for it. */
  lemma DueIsServed(cfg: Config, s: World, c: Call, t: nat)
    requires Reachable(cfg, s) && c.db == s.db && c.now == s.clock && c.cutoff == s.clock - LeaseDuration(cfg)
    requires GoodCall(c) && Tried(c, t)
    requires forall e: nat :: IsCandidate(s.db, e, c.cutoff, s.clock) && s.db.endpoints[e].tenant == t ==> Due(cfg, s.db, e, s.clock)
    ensures ServedBy(c, t)
  {
    ReachableInv(cfg, s);
    hide RowsOk, WorkerOk, AttemptInv, GateInv, ExpansionInv, EffectInv, HeadReady, Due, GoodCall, Tried, ServedBy;
    forall e: nat | IsCandidate(s.db, e, c.cutoff, s.clock) && s.db.endpoints[e].tenant == t ensures HeadReady(c.db, e, c.now) {
      DueIsReady(cfg, s, e);
    }
    TriedIsServed(c, t);
  }

  // --------------------------------------------------- which candidate a call claims

  /** The head that the read side reports for `e` may be sent at time `at`. */
  predicate HeadReadyAt(db: DB, e: nat, at: Time) {
    ReportedHead(db, e).Some? && db.deliveries[ReportedHead(db, e).value].nextAttemptAt <= at
  }

  /** The candidates are as the query saw them, and only leased endpoints have a delivery in flight. */
  ghost predicate AsSeen(db: DB, cands: seq<Candidate>) {
    && QueueOrder(db.deliveries)
    && forall k :: 0 <= k < |cands| ==>
         && cands[k].endpoint < |db.endpoints| && cands[k].busy == db.endpoints[cands[k].endpoint].busy
         && (cands[k].busy || NoneInFlight(db.deliveries, cands[k].endpoint))
  }

  lemma RestAsSeen(db: DB, cands: seq<Candidate>, cutoff: Time, at: Time, lease: nat)
    requires cands != [] && AllWin(db, cands, cutoff) && AsSeen(db, cands)
    ensures AsSeen(TryClaim(db, cands[0], cutoff, at, lease).0, cands[1..])
    ensures forall k, now :: 0 < k < |cands| ==> (HeadReadyAt(TryClaim(db, cands[0], cutoff, at, lease).0, cands[k].endpoint, now) <==> HeadReadyAt(db, cands[k].endpoint, now))
    ensures forall k :: 0 < k < |cands| ==> ReportedHead(TryClaim(db, cands[0], cutoff, at, lease).0, cands[k].endpoint) == ReportedHead(db, cands[k].endpoint)
  {
    var c := cands[0];
    var db1 := TryClaim(db, c, cutoff, at, lease).0;
    TryFrame(db, c, cutoff, at, lease);
    TryDeliveries(db, c, cutoff, at, lease);
    hide TryClaim;
    forall k | 0 < k < |cands|
      ensures ReportedHead(db1, cands[k].endpoint) == ReportedHead(db, cands[k].endpoint)
      ensures ReportedHead(db, cands[k].endpoint).Some? ==> db1.deliveries[ReportedHead(db, cands[k].endpoint).value] == db.deliveries[ReportedHead(db, cands[k].endpoint).value]
      ensures cands[1..][k - 1] == cands[k]
    {
      SameLowest(db.deliveries, db1.deliveries, cands[k].endpoint, true);
    }
    hide Lowest;
    assert forall k :: 0 <= k < |cands[1..]| ==> cands[1..][k] == cands[k + 1];
  }

  lemma FirstHead(db: DB, cands: seq<Candidate>, cutoff: Time, at: Time, lease: nat)
    requires cands != [] && AllWin(db, cands, cutoff) && AsSeen(db, cands)
    ensures var claim := TryClaim(db, cands[0], cutoff, at, lease).1;
            && (claim.Some? <==> HeadReadyAt(db, cands[0].endpoint, at))
            && (claim.Some? ==> claim.value.endpoint == cands[0].endpoint && Some(claim.value.delivery) == ReportedHead(db, cands[0].endpoint))
  {
    hide Lowest, TryClaim, QueueOrder, NoneInFlight;
    ClaimedIff(db, cands[0], cutoff, at, lease);
    TryFrame(db, cands[0], cutoff, at, lease);
  }

  /** The claim is for the head of the first candidate whose head is ready when it is tried; there is none
      exactly when no head is. */
  ghost predicate ClaimsFirstReady(db: DB, cands: seq<Candidate>, times: seq<Time>, claim: Option<Claim>)
    requires |times| == |cands|
  {
    if claim.None? then forall k :: 0 <= k < |cands| ==> !HeadReadyAt(db, cands[k].endpoint, times[k])
    else exists k :: 0 <= k < |cands| && claim.value.endpoint == cands[k].endpoint && Some(claim.value.delivery) == ReportedHead(db, cands[k].endpoint)
                     && HeadReadyAt(db, cands[k].endpoint, times[k]) && NoneReadyBefore(db, cands, times, k)
  }

  ghost predicate NoneReadyBefore(db: DB, cands: seq<Candidate>, times: seq<Time>, k: nat)
    requires |times| == |cands| && k <= |cands|
  {
    forall j :: 0 <= j < k ==> !HeadReadyAt(db, cands[j].endpoint, times[j])
  }

  lemma RestClaimsFirst(db: DB, db1: DB, cands: seq<Candidate>, times: seq<Time>, claim: Option<Claim>)
    requires |times| == |cands| && cands != [] && !HeadReadyAt(db, cands[0].endpoint, times[0])
    requires forall k, now :: 0 < k < |cands| ==> (HeadReadyAt(db1, cands[k].endpoint, now) <==> HeadReadyAt(db, cands[k].endpoint, now))
    requires forall k :: 0 < k < |cands| ==> ReportedHead(db1, cands[k].endpoint) == ReportedHead(db, cands[k].endpoint)
    requires ClaimsFirstReady(db1, cands[1..], times[1..], claim)
    ensures ClaimsFirstReady(db, cands, times, claim)
  {
    hide HeadReadyAt, Lowest;
    var rest, later := cands[1..], times[1..];
    assert forall k :: 0 <= k < |rest| ==> rest[k] == cands[k + 1] && later[k] == times[k + 1];
    if claim.None? {
      forall k | 0 <= k < |cands| ensures !HeadReadyAt(db, cands[k].endpoint, times[k]) {
        if k > 0 { assert !HeadReadyAt(db1, rest[k - 1].endpoint, later[k - 1]); }
      }
    } else {
      var k :| 0 <= k < |rest| && claim.value.endpoint == rest[k].endpoint && Some(claim.value.delivery) == ReportedHead(db1, rest[k].endpoint)
               && HeadReadyAt(db1, rest[k].endpoint, later[k]) && NoneReadyBefore(db1, rest, later, k);
      forall j | 0 <= j < k + 1 ensures !HeadReadyAt(db, cands[j].endpoint, times[j]) {
        if j > 0 { assert !HeadReadyAt(db1, rest[j - 1].endpoint, later[j - 1]); }
      }
      assert NoneReadyBefore(db, cands, times, k + 1) && claim.value.endpoint == cands[k + 1].endpoint;
    }
  }

  lemma {:induction false} TriesClaimFirst(db: DB, cands: seq<Candidate>, cutoff: Time, times: seq<Time>, lease: nat)
    requires |times| == |cands| && AllWin(db, cands, cutoff) && AsSeen(db, cands)
    ensures ClaimsFirstReady(db, cands, times, ClaimFirst(db, cands, cutoff, times, lease).1)
    decreases |cands|
  {
    hide TryClaim, AllWin, AsSeen, HeadReadyAt, Lowest;
    if cands != [] {
      var (db1, claim) := TryClaim(db, cands[0], cutoff, times[0], lease);
      FirstHead(db, cands, cutoff, times[0], lease);
      if claim.None? {
        RestAsSeen(db, cands, cutoff, times[0], lease);
        RestWins(db, cands, cutoff, times[0], lease);
        TriesClaimFirst(db1, cands[1..], cutoff, times[1..], lease + 1);
        RestClaimsFirst(db, db1, cands, times, ClaimFirst(db1, cands[1..], cutoff, times[1..], lease + 1).1);
      } else {
        assert NoneReadyBefore(db, cands, times, 0);
      }
    }
  }

  /** An uninterrupted claim call, in every reachable state: it claims the head that the read side reports for
      the first candidate, in the order of the query, whose head is ready when it is tried; and nothing
      exactly when none is. */
  lemma CallClaimsFirstReady(cfg: Config, s: World, cands: seq<Candidate>, times: seq<Time>)
    requires Reachable(cfg, s) && IsSelection(s.db, s.clock, s.clock - LeaseDuration(cfg), cands) && |times| == |cands|
    ensures ClaimsFirstReady(s.db, cands, times, ClaimFirst(s.db, cands, s.clock - LeaseDuration(cfg), times, s.nextLease).1)
  {
    hide Reachable, LeaseInv, AttemptInv, GateInv, ExpansionInv, EffectInv, IsSelection, RowsOk, AllWin, AsSeen, ClaimFirst, ClaimsFirstReady;
    ReachableInv(cfg, s);
    RowsOf(cfg, s);
    SelectedWin(s.db, s.clock, s.clock - LeaseDuration(cfg), cands);
    SelectedAsSeen(s, s.clock - LeaseDuration(cfg), cands);
    TriesClaimFirst(s.db, cands, s.clock - LeaseDuration(cfg), times, s.nextLease);
  }

  lemma SelectedAsSeen(s: World, cutoff: Time, cands: seq<Candidate>)
    requires RowsOk(s.db, s.nextLease, s.clock) && IsSelection(s.db, s.clock, cutoff, cands)
    ensures AsSeen(s.db, cands)
  {
    hide Precedes, QueueShape;
    assert QueueOrder(s.db.deliveries) by { hide QueueOrder; }
    hide QueueOrder;
    assert forall k :: 0 <= k < |cands| ==> IsCandidate(s.db, cands[k].endpoint, cutoff, s.clock);
  }
}
