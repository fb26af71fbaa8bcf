/** The candidate query's answer, computed: its ORDER BY is a total preorder, so it always has one. */
module Selection {
  import opened Tables
  import opened Protocol
  import opened Ranking

  /** MinReady is the least number of the endpoint's ready deliveries. */
  lemma {:induction false} MinReadyIsLeast(ds: seq<Delivery>, e: nat, now: Time)
    ensures MinReady(ds, e, now).None? <==> forall i :: 0 <= i < |ds| ==> !Ready(ds[i], e, now)
    ensures MinReady(ds, e, now).Some? ==>
              && (exists i :: 0 <= i < |ds| && Ready(ds[i], e, now) && ds[i].seqNo == MinReady(ds, e, now).value)
              && forall i :: 0 <= i < |ds| && Ready(ds[i], e, now) ==> MinReady(ds, e, now).value <= ds[i].seqNo
  {
    if |ds| > 0 {
      var front := ds[..|ds| - 1];
      MinReadyIsLeast(front, e, now);
      assert forall i :: 0 <= i < |front| ==> front[i] == ds[i];
    }
  }

  /** The ORDER BY of the query, as a relation on ids. */
  function Earlier(db: DB, now: Time): Order {
    (a: nat, b: nat) => a < |db.endpoints| && b < |db.endpoints| && Precedes(db, now, a, b)
  }

  function IsListed(db: DB, cutoff: Time, now: Time): Filter {
    (e: nat) => IsCandidate(db, e, cutoff, now)
  }

  /** It is a total preorder on the candidates, so the query always has an answer. */
  lemma EarlierOrders(db: DB, cutoff: Time, now: Time)
    ensures Orders(Earlier(db, now), IsListed(db, cutoff, now))
  {
    var before, p := Earlier(db, now), IsListed(db, cutoff, now);
    forall a: nat, b: nat | p(a) && p(b) ensures before(a, b) || before(b, a) {
      PrecedesIsTotal(db, now, a, b);
    }
    forall a: nat, b: nat, c: nat | p(a) && p(b) && p(c) && before(a, b) && before(b, c) ensures before(a, c) {
      PrecedesIsTransitive(db, now, a, b, c);
    }
  }

  lemma PrecedesIsTotal(db: DB, now: Time, a: nat, b: nat)
    requires a < |db.endpoints| && b < |db.endpoints|
    ensures Precedes(db, now, a, b) || Precedes(db, now, b, a)
  {
  }

  lemma PrecedesIsTransitive(db: DB, now: Time, a: nat, b: nat, c: nat)
    requires a < |db.endpoints| && b < |db.endpoints| && c < |db.endpoints|
    requires Precedes(db, now, a, b) && Precedes(db, now, b, c)
    ensures Precedes(db, now, a, c)
  {
    hide MinReady;
  }

  function SelectedIds(db: DB, cutoff: Time, now: Time): (ids: seq<nat>)
    ensures forall k :: 0 <= k < |ids| ==> ids[k] < |db.endpoints|
  {
    var ids := First(Rank(Earlier(db, now), IsListed(db, cutoff, now), |db.endpoints|), LIMIT);
    EarlierOrders(db, cutoff, now);
    FirstOfRank(Earlier(db, now), IsListed(db, cutoff, now), |db.endpoints|, LIMIT);
    ids
  }

  /** The first rows of the ranking, each with its busy flag. */
  function Selected(db: DB, cutoff: Time, now: Time): seq<Candidate> {
    var ids := SelectedIds(db, cutoff, now);
    seq(|ids|, k requires 0 <= k < |ids| => Candidate(ids[k], db.endpoints[ids[k]].busy))
  }

  /** What the ranking says of the selected ids. */
  lemma SelectedIdsAnswer(db: DB, cutoff: Time, now: Time)
    ensures var ids := SelectedIds(db, cutoff, now);
            && |ids| <= LIMIT && (forall k :: 0 <= k < |ids| ==> IsCandidate(db, ids[k], cutoff, now))
            && (forall j, k :: 0 <= j < k < |ids| ==> ids[j] != ids[k] && Precedes(db, now, ids[j], ids[k]))
            && (forall e: nat :: IsCandidate(db, e, cutoff, now) && e !in ids ==>
                  |ids| == LIMIT && e < |db.endpoints| && forall k :: 0 <= k < |ids| ==> Precedes(db, now, ids[k], e))
  {
    var before, p := Earlier(db, now), IsListed(db, cutoff, now);
    EarlierOrders(db, cutoff, now);
    FirstOfRank(before, p, |db.endpoints|, LIMIT);
    var ids := SelectedIds(db, cutoff, now);
    assert ids == First(Rank(before, p, |db.endpoints|), LIMIT);
    hide Rank, First, Orders, Precedes, IsCandidate, SelectedIds;
    assert forall k :: 0 <= k < |ids| ==> p(ids[k]);
    assert forall j, k :: 0 <= j < k < |ids| ==> before(ids[j], ids[k]);
    forall e: nat | IsCandidate(db, e, cutoff, now) && e !in ids
      ensures |ids| == LIMIT && e < |db.endpoints| && forall k :: 0 <= k < |ids| ==> Precedes(db, now, ids[k], e)
    {
      CandidatesExist(db, e, cutoff, now);
      assert p(e);
      assert forall k :: 0 <= k < |ids| ==> before(ids[k], e);
    }
  }

  lemma SelectedIsSelection(db: DB, cutoff: Time, now: Time)
    ensures IsSelection(db, now, cutoff, Selected(db, cutoff, now))
  {
    SelectedIdsAnswer(db, cutoff, now);
    var ids, cands := SelectedIds(db, cutoff, now), Selected(db, cutoff, now);
    hide SelectedIds, Precedes, IsCandidate;
    assert forall k :: 0 <= k < |cands| ==> cands[k].endpoint == ids[k];
    forall e: nat | e in ids ensures Listed(cands, e) {
      var k :| 0 <= k < |ids| && ids[k] == e;
      assert cands[k].endpoint == e;
    }
  }

  lemma CandidatesExist(db: DB, e: nat, cutoff: Time, now: Time)
    requires IsCandidate(db, e, cutoff, now)
    ensures e < |db.endpoints|
  {
  }

  // ------------------------------------------------- the query, in its own terms

  /** The WHERE clause: active, idle or leased before the cutoff, and with a delivery that is pending and due,
      or in flight. */
  ghost predicate MayBeTried(db: DB, now: Time, cutoff: Time, e: nat) {
    && e < |db.endpoints| && db.endpoints[e].status == Active
    && (db.endpoints[e].busy ==> db.endpoints[e].busySince.Some? && db.endpoints[e].busySince.value < cutoff)
    && exists i :: 0 <= i < |db.deliveries| && WantsAttempt(db.deliveries[i], e, now)
  }

  predicate WantsAttempt(d: Delivery, e: nat, now: Time) {
    d.endpoint == e && ((d.state == Pending && d.nextAttemptAt <= now) || d.state == InFlight)
  }

  /** The ORDER BY clause: tenants never served come first, then those served longest ago; between endpoints
      of equally served tenants, the one with the oldest delivery that wants an attempt. */
  ghost predicate ComesFirst(db: DB, now: Time, a: nat, b: nat)
    requires TenantsExist(db) && a < |db.endpoints| && b < |db.endpoints|
  {
    var sa, sb := db.tenants[db.endpoints[a].tenant].lastServedAt, db.tenants[db.endpoints[b].tenant].lastServedAt;
    && (sb.None? ==> sa.None?)
    && (sa.Some? && sb.Some? ==> sa.value <= sb.value)
    && (sa == sb ==> exists i :: 0 <= i < |db.deliveries| && WantsAttempt(db.deliveries[i], a, now) && OlderThanAll(db.deliveries, i, b, now))
  }

  /** Delivery `i` is no later than any of endpoint `b` that wants an attempt. */
  ghost predicate OlderThanAll(ds: seq<Delivery>, i: nat, b: nat, now: Time)
    requires i < |ds|
  {
    forall j :: 0 <= j < |ds| && WantsAttempt(ds[j], b, now) ==> ds[i].seqNo <= ds[j].seqNo
  }

  ghost predicate TenantsExist(db: DB) {
    forall e :: 0 <= e < |db.endpoints| ==> db.endpoints[e].tenant < |db.tenants|
  }

  ghost predicate AnswersQuery(db: DB, now: Time, cutoff: Time, cands: seq<Candidate>)
    requires TenantsExist(db)
  {
    && |cands| <= 20
    && (forall k :: 0 <= k < |cands| ==> MayBeTried(db, now, cutoff, cands[k].endpoint) && (cands[k].busy <==> db.endpoints[cands[k].endpoint].busy))
    && (forall j, k :: 0 <= j < k < |cands| ==> cands[j].endpoint != cands[k].endpoint && ComesFirst(db, now, cands[j].endpoint, cands[k].endpoint))
    && (forall e: nat :: MayBeTried(db, now, cutoff, e) && (forall k :: 0 <= k < |cands| ==> cands[k].endpoint != e) ==>
          |cands| == 20 && forall k :: 0 <= k < |cands| ==> ComesFirst(db, now, cands[k].endpoint, e))
  }

  lemma TriedIff(db: DB, now: Time, cutoff: Time, e: nat)
    ensures MayBeTried(db, now, cutoff, e) <==> IsCandidate(db, e, cutoff, now)
  {
    if MayBeTried(db, now, cutoff, e) {
      var i :| 0 <= i < |db.deliveries| && WantsAttempt(db.deliveries[i], e, now);
      assert Ready(db.deliveries[i], e, now);
    }
    if IsCandidate(db, e, cutoff, now) {
      var i :| 0 <= i < |db.deliveries| && Ready(db.deliveries[i], e, now);
      assert WantsAttempt(db.deliveries[i], e, now);
    }
  }

  lemma FirstIff(db: DB, now: Time, cutoff: Time, a: nat, b: nat)
    requires TenantsExist(db) && IsCandidate(db, a, cutoff, now) && IsCandidate(db, b, cutoff, now)
    ensures ComesFirst(db, now, a, b) <==> Precedes(db, now, a, b)
  {
    var ds := db.deliveries;
    assert exists i :: 0 <= i < |ds| && Ready(ds[i], a, now);
    assert exists i :: 0 <= i < |ds| && Ready(ds[i], b, now);
    OldestIff(ds, a, b, now);
    hide MinReady, OlderThanAll, Ready, WantsAttempt, Claimable;
  }

  lemma OldestIff(ds: seq<Delivery>, a: nat, b: nat, now: Time)
    requires (exists i :: 0 <= i < |ds| && Ready(ds[i], a, now)) && exists i :: 0 <= i < |ds| && Ready(ds[i], b, now)
    ensures MinReady(ds, a, now).Some? && MinReady(ds, b, now).Some?
    ensures (exists i :: 0 <= i < |ds| && WantsAttempt(ds[i], a, now) && OlderThanAll(ds, i, b, now))
            <==> MinReady(ds, a, now).value <= MinReady(ds, b, now).value
  {
    MinReadyIsLeast(ds, a, now);
    MinReadyIsLeast(ds, b, now);
    hide MinReady;
    var x, y := MinReady(ds, a, now).value, MinReady(ds, b, now).value;
    var i :| 0 <= i < |ds| && Ready(ds[i], a, now) && ds[i].seqNo == x;
    var j :| 0 <= j < |ds| && Ready(ds[j], b, now) && ds[j].seqNo == y;
    if x <= y {
      assert WantsAttempt(ds[i], a, now);
      forall k | 0 <= k < |ds| && WantsAttempt(ds[k], b, now) ensures ds[i].seqNo <= ds[k].seqNo { assert Ready(ds[k], b, now); }
      assert OlderThanAll(ds, i, b, now);
    }
    if k :| 0 <= k < |ds| && WantsAttempt(ds[k], a, now) && OlderThanAll(ds, k, b, now) {
      assert Ready(ds[k], a, now) && WantsAttempt(ds[j], b, now);
    }
  }

  /** The selection of the protocol is that query: a list of candidates is a possible selection if and only
      if it is an answer of it. */
  lemma SelectionIff(db: DB, now: Time, cutoff: Time, cands: seq<Candidate>)
    requires TenantsExist(db)
    ensures IsSelection(db, now, cutoff, cands) <==> AnswersQuery(db, now, cutoff, cands)
  {
    hide IsCandidate, MayBeTried, ComesFirst, Precedes;
    forall e: nat ensures MayBeTried(db, now, cutoff, e) <==> IsCandidate(db, e, cutoff, now) { TriedIff(db, now, cutoff, e); }
    forall a: nat, b: nat | IsCandidate(db, a, cutoff, now) && IsCandidate(db, b, cutoff, now)
      ensures a < |db.endpoints| && b < |db.endpoints| && (ComesFirst(db, now, a, b) <==> Precedes(db, now, a, b))
    {
      CandidatesExist(db, a, cutoff, now);
      CandidatesExist(db, b, cutoff, now);
      FirstIff(db, now, cutoff, a, b);
    }
    SameAnswers(db, now, cutoff, cands);
  }

  /** So the first rows of the ranking answer it. */
  lemma SelectedAnswers(db: DB, cutoff: Time, now: Time)
    requires TenantsExist(db)
    ensures AnswersQuery(db, now, cutoff, Selected(db, cutoff, now))
  {
    hide IsSelection, AnswersQuery, Selected;
    SelectedIsSelection(db, cutoff, now);
    SelectionIff(db, now, cutoff, Selected(db, cutoff, now));
  }

  lemma SameAnswers(db: DB, now: Time, cutoff: Time, cands: seq<Candidate>)
    requires TenantsExist(db)
    requires forall e: nat :: MayBeTried(db, now, cutoff, e) <==> IsCandidate(db, e, cutoff, now)
    requires forall a: nat, b: nat :: IsCandidate(db, a, cutoff, now) && IsCandidate(db, b, cutoff, now) ==>
               a < |db.endpoints| && b < |db.endpoints| && (ComesFirst(db, now, a, b) <==> Precedes(db, now, a, b))
    ensures IsSelection(db, now, cutoff, cands) <==> AnswersQuery(db, now, cutoff, cands)
  {
    hide IsCandidate, MayBeTried, ComesFirst, Precedes, TenantsExist;
    assert forall e: nat :: Listed(cands, e) <==> !forall k :: 0 <= k < |cands| ==> cands[k].endpoint != e;
  }
}
