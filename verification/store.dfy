/** The service's operations as the code runs them: statement by statement on one set of tables, each
    proved to do what its specification says. A method is one call with nothing in between. */
module Service {
  import opened Tables
  import opened Protocol
  import opened Claiming
  import opened Fairness
  import opened Selection
  import opened Ranking
  import opened Cycles
  import opened Paging
  import opened Resuming
  import opened Operators
  import Draining

  /** 202 with an id, 400, or 404. */
  datatype Answer = Accepted(id: nat) | Invalid | NotFound

  class Store {
    var tenants: seq<Tenant>
    var endpoints: seq<Endpoint>
    var events: seq<Event>
    var deliveries: seq<Delivery>
    var attempts: seq<Attempt>
    var replays: seq<Replay>
    var clock: Time
    var nextLease: nat          // the next fresh lease id
    var nextEventSeq: int       // the sequences behind events.seq and deliveries.seq
    var nextDeliverySeq: int
    var lockedTenants: set<int> // advisory locks and replay rows held by other transactions
    var lockedReplays: set<nat>
    const config: Config

    function Db(): DB
      reads this
    {
      DB(tenants, endpoints, events, deliveries, attempts, replays)
    }

    /** Drawn numbers are in use; the next one is larger than all of them. */
    predicate Valid()
      reads this
    {
      && AllBelow(deliveries, nextDeliverySeq)
      && forall i :: 0 <= i < |events| ==> events[i].seqNo < nextEventSeq
    }

    // ------------------------------------------------------------------ delivery

    method SelectCandidates(cutoff: Time) returns (cands: seq<Candidate>)
      ensures IsSelection(Db(), clock, cutoff, cands) && cands == Selected(Db(), cutoff, clock)
      ensures TenantsExist(Db()) ==> AnswersQuery(Db(), clock, cutoff, cands)
      ensures |cands| <= LIMIT
    {
      cands := Selected(Db(), cutoff, clock);
      SelectedIsSelection(Db(), cutoff, clock);
      if TenantsExist(Db()) { SelectedAnswers(Db(), cutoff, clock); }
    }

    method ReclaimStaleLease(e: nat)
      modifies this`attempts, this`deliveries
      ensures Db() == RequeueInFlight(CloseOrphans(old(Db()), e), e)
    {
      attempts := CloseOrphans(Db(), e).attempts;
      deliveries := RequeueInFlight(Db(), e).deliveries;
    }

    method TryClaimEndpoint(candidate: Candidate, cutoff: Time, now: Time) returns (claimed: Option<Claim>)
      modifies this`tenants, this`endpoints, this`deliveries, this`attempts, this`nextLease
      ensures (Db(), claimed) == TryClaim(old(Db()), candidate, cutoff, now, old(nextLease))
      ensures nextLease == old(nextLease) + 1
    {
      var lease := nextLease;
      nextLease := nextLease + 1;
      if !WinsLease(Db(), candidate, cutoff) {
        return None;
      }
      var e := candidate.endpoint;
      var wasBusy := endpoints[e].busy;
      endpoints := endpoints[e := endpoints[e].(busy := true, busySince := Some(now), leaseId := Some(lease))];
      tenants := StampTenant(Db(), endpoints[e].tenant, now).tenants;
      if candidate.busy {
        ReclaimStaleLease(e);
      }
      claimed := FetchClaimableHead(Claim(e, lease, now, wasBusy, 0, 0, 0), now);
    }

    method FetchClaimableHead(claim: Claim, now: Time) returns (claimed: Option<Claim>)
      requires claim.endpoint < |endpoints|
      modifies this`endpoints, this`deliveries, this`attempts
      ensures (Db(), claimed) == ClaimHead(old(Db()), claim, now)
    {
      var head := PendingHead(Db(), claim.endpoint);
      if head.None? || deliveries[head.value].nextAttemptAt > now {
        if endpoints[claim.endpoint].leaseId == Some(claim.lease) {
          endpoints := endpoints[claim.endpoint := endpoints[claim.endpoint].(busy := false, busySince := None, leaseId := None)];
        }
        return None;
      }
      var d := head.value;
      var number := deliveries[d].attemptCount + 1;
      var a := |attempts|;
      attempts := attempts + [Attempt(d, number, Open, false)];
      deliveries := deliveries[d := deliveries[d].(state := InFlight, attemptCount := number)];
      attempts := attempts[a := attempts[a].(sent := true)];
      claimed := Some(claim.(delivery := d, number := number, attempt := a));
    }

    /** Try the candidates in order, the k-th at `times[k]`; the first claim ends the call. */
    method ClaimFrom(cands: seq<Candidate>, cutoff: Time, times: seq<Time>) returns (claimed: Option<Claim>)
      requires |times| == |cands|
      modifies this`tenants, this`endpoints, this`deliveries, this`attempts, this`nextLease
      ensures (Db(), claimed) == ClaimFirst(old(Db()), cands, cutoff, times, old(nextLease))
    {
      claimed := None;
      var i := 0;
      while i < |cands|
        invariant 0 <= i <= |cands| && claimed.None?
        invariant events == old(events) && replays == old(replays)
        invariant ClaimFirst(old(Db()), cands, cutoff, times, old(nextLease)) == ClaimFirst(Db(), cands[i..], cutoff, times[i..], nextLease)
      {
        assert cands[i..][1..] == cands[i + 1..] && times[i..][1..] == times[i + 1..];
        claimed := TryClaimEndpoint(cands[i], cutoff, times[i]);
        if claimed.Some? {
          return;
        }
        i := i + 1;
      }
    }

    /** claimDelivery; `times` is what the clock says at its tries. */
    method ClaimDelivery(times: seq<Time>) returns (claimed: Option<Claim>)
      requires |times| == LIMIT
      modifies this`tenants, this`endpoints, this`deliveries, this`attempts, this`nextLease
      ensures var cutoff := clock - LeaseDuration(config); var cands := Selected(old(Db()), cutoff, clock);
              |cands| <= |times| && (Db(), claimed) == ClaimFirst(old(Db()), cands, cutoff, times[..|cands|], old(nextLease))
    {
      hide IsSelection, Selected, ClaimFirst;
      var cutoff := clock - LeaseDuration(config);
      var cands := SelectCandidates(cutoff);
      claimed := ClaimFrom(cands, cutoff, times[..|cands|]);
    }

    /** completeDelivery. */
    method CompleteDelivery(claim: Claim, reply: Reply, delay: nat) returns (verdict: Verdict)
      requires claim.delivery < |deliveries| && claim.attempt < |attempts|
      modifies this`endpoints, this`deliveries, this`attempts
      ensures (Db(), verdict) == WriteBack(old(Db()), config, claim, reply, clock, delay)
      ensures verdict == LeaseLost <==> !(claim.endpoint < |old(endpoints)| && old(endpoints)[claim.endpoint].leaseId == Some(claim.lease))
      ensures verdict != LeaseLost ==>
                |endpoints| == |old(endpoints)| && |deliveries| == |old(deliveries)|
                && !endpoints[claim.endpoint].busy && endpoints[claim.endpoint].leaseId.None?
                && if reply.Response? && 200 <= reply.status <= 299 then
                     verdict == Success && deliveries[claim.delivery].state == Succeeded && endpoints[claim.endpoint].status == old(endpoints)[claim.endpoint].status
                   else if claim.number >= config.maxAttempts then
                     verdict == HaltedNow && deliveries[claim.delivery].state == Failed && endpoints[claim.endpoint].status == Halted
                   else
                     && verdict == Retrying && endpoints[claim.endpoint].status == old(endpoints)[claim.endpoint].status
                     && deliveries[claim.delivery].state == Pending && deliveries[claim.delivery].nextAttemptAt == clock + delay
    {
      var e, d, a := claim.endpoint, claim.delivery, claim.attempt;
      if !(e < |endpoints| && endpoints[e].leaseId == Some(claim.lease)) {
        return LeaseLost;
      }
      attempts := attempts[a := attempts[a].(outcome := Closed(reply))];
      if IsSuccess(reply) {
        deliveries := deliveries[d := deliveries[d].(state := Succeeded)];
        verdict := Success;
      } else if claim.number >= config.maxAttempts {
        deliveries := deliveries[d := deliveries[d].(state := Failed)];
        endpoints := endpoints[e := endpoints[e].(status := Halted, gated := true)];
        verdict := HaltedNow;
      } else {
        var row := deliveries[d];
        deliveries := deliveries[d := row.(state := Pending, nextAttemptAt := clock + delay, retries := row.retries + 1, scheduled := row.scheduled + delay)];
        verdict := Retrying;
      }
      endpoints := endpoints[e := endpoints[e].(busy := false, busySince := None, leaseId := None)];
    }

    // ----------------------------------------------------------------- expansion

    /** One tenant's transaction: its lock, its oldest pending event, the fan-out. */
    method ExpandOneTenant(t: nat) returns (expanded: bool)
      requires t < |tenants|
      requires Valid()
      modifies this`events, this`deliveries, this`nextDeliverySeq
      ensures Valid()
      ensures expanded <==> CanExpandTenant(old(Db()), lockedTenants, t)
      ensures Db() == if expanded then ExpandTenant(old(Db()), t, clock, old(nextDeliverySeq)) else old(Db())
      ensures !expanded ==> nextDeliverySeq == old(nextDeliverySeq)
    {
      if tenants[t].lockKey in lockedTenants {
        return false;
      }
      var head := OldestPending(events, t);
      if head.None? {
        return false;
      }
      var ev := head.value;
      var targets := Subscribers(Db(), events[ev].tenant, events[ev].eventType);
      var rows := NewDeliveries(Repeat(ev, |targets|), targets, Numbers(nextDeliverySeq, |targets|), clock, FromEvent);
      deliveries := deliveries + rows;
      nextDeliverySeq := nextDeliverySeq + |targets|;
      events := events[ev := events[ev].(status := Expanded, registered := |endpoints|)];
      expanded := true;
    }

    /** runExpansionCycle. */
    method RunExpansionCycle() returns (expanded: bool)
      requires Valid()
      modifies this`events, this`deliveries, this`nextDeliverySeq
      ensures Valid()
      ensures (Db(), expanded) == ExpansionCycle(old(Db()), lockedTenants, clock, old(nextDeliverySeq))
    {
      hide OldestPending, FirstPending, ExpandTenant;
      var candidates := PendingTenants(Db());
      PendingTenantsIsTheQuery(Db());
      hide PendingTenants;
      ghost var db, next := Db(), nextDeliverySeq;
      var i := 0;
      while i < |candidates|
        invariant 0 <= i <= |candidates| && Valid()
        invariant Db() == db && nextDeliverySeq == next
        invariant ExpandFirst(db, lockedTenants, candidates, clock, next) == ExpandFirst(db, lockedTenants, candidates[i..], clock, next)
      {
        assert HasWork(db, candidates[i]);
        assert candidates[i..][1..] == candidates[i + 1..];
        expanded := ExpandOneTenant(candidates[i]);
        if expanded {
          return;
        }
        SkipFirst(db, lockedTenants, candidates[i..], clock, next);
        i := i + 1;
      }
      expanded := false;
    }

    method ExpandOneReplay(r: nat) returns (expanded: bool)
      requires Valid()
      modifies this`replays, this`deliveries, this`nextDeliverySeq
      ensures Valid()
      ensures expanded <==> CanExpandReplayRow(old(Db()), lockedReplays, r)
      ensures Db() == if expanded then ExpandReplayRow(old(Db()), r, clock, old(nextDeliverySeq)) else old(Db())
      ensures !expanded ==> nextDeliverySeq == old(nextDeliverySeq)
    {
      if !(r < |replays| && r !in lockedReplays && replays[r].status == PendingExpansion) {
        return false;
      }
      var copied := WindowEvents(Db(), replays[r]);
      var rows := NewDeliveries(copied, Repeat(replays[r].endpoint, |copied|), Numbers(nextDeliverySeq, |copied|), clock, FromReplay(r));
      deliveries := deliveries + rows;
      nextDeliverySeq := nextDeliverySeq + |copied|;
      replays := replays[r := replays[r].(status := Expanded, batch := copied)];
      expanded := true;
    }

    /** runReplayExpansionCycle. */
    method RunReplayExpansionCycle() returns (expanded: bool)
      requires Valid()
      modifies this`replays, this`deliveries, this`nextDeliverySeq
      ensures Valid()
      ensures (Db(), expanded) == ReplayCycle(old(Db()), lockedReplays, clock, old(nextDeliverySeq))
    {
      var candidates := PendingReplays(Db());
      ghost var db, next := Db(), nextDeliverySeq;
      var i := 0;
      while i < |candidates|
        invariant 0 <= i <= |candidates| && Valid()
        invariant Db() == db && nextDeliverySeq == next
        invariant ExpandFirstReplay(db, lockedReplays, candidates, clock, next) == ExpandFirstReplay(db, lockedReplays, candidates[i..], clock, next)
      {
        assert candidates[i..][1..] == candidates[i + 1..];
        expanded := ExpandOneReplay(candidates[i]);
        if expanded {
          return;
        }
        SkipFirstReplay(db, lockedReplays, candidates[i..], clock, next);
        i := i + 1;
      }
      expanded := false;
    }

    // ---------------------------------------------------------------- API routes

    /** POST /events: insert, and on a conflict look the original up. */
    method Publish(t: nat, key: string, eventType: string) returns (answer: Answer)
      requires Valid()
      modifies this`events, this`nextEventSeq
      ensures Valid()
      ensures if key == "" || eventType == "" then answer == Invalid && Db() == old(Db())
              else answer.Accepted? && (Db(), answer.id) == PublishEvent(old(Db()), t, key, eventType, old(nextEventSeq))
      ensures answer.Accepted? ==>
                && answer.id < |events| && events[answer.id].tenant == t && events[answer.id].key == key
                && events == if answer.id < |old(events)| then old(events)
                             else old(events) + [Event(t, key, eventType, PendingExpansion, old(nextEventSeq), 0)]
    {
      if key == "" || eventType == "" {
        return Invalid;
      }
      var sq := nextEventSeq;
      nextEventSeq := nextEventSeq + 1;
      var existing := EventByKey(events, t, key);
      if existing.None? {
        answer := Accepted(|events|);
        events := events + [Event(t, key, eventType, PendingExpansion, sq, 0)];
      } else {
        answer := Accepted(existing.value);
      }
    }

    /** POST /endpoints/:id/replays, for the tenant's own endpoint. */
    method RequestReplays(t: nat, e: nat, key: string, rangeStart: Time, rangeEnd: Time) returns (answer: Answer)
      modifies this`replays
      ensures answer.Invalid? <==> key == "" || rangeEnd < rangeStart
      ensures answer.NotFound? <==> !answer.Invalid? && !(e < |endpoints| && endpoints[e].tenant == t)
      ensures if answer.Accepted? then (Db(), answer.id) == RequestReplay(old(Db()), e, key, rangeStart, rangeEnd, clock) else Db() == old(Db())
      ensures answer.Accepted? ==>
                && answer.id < |replays| && replays[answer.id].endpoint == e && replays[answer.id].key == key
                && replays == if answer.id < |old(replays)| then old(replays)
                              else old(replays) + [Replay(e, key, rangeStart, rangeEnd, clock, PendingExpansion, [])]
    {
      if key == "" || rangeEnd < rangeStart {
        return Invalid;
      }
      if !(e < |endpoints| && endpoints[e].tenant == t) {
        return NotFound;
      }
      var existing := ReplayByKey(replays, e, key);
      if existing.None? {
        answer := Accepted(|replays|);
        replays := replays + [Replay(e, key, rangeStart, rangeEnd, clock, PendingExpansion, [])];
      } else {
        answer := Accepted(existing.value);
      }
    }

    method Pause(t: nat, e: nat) returns (found: bool)
      modifies this`endpoints
      ensures found <==> e < |old(endpoints)| && old(endpoints)[e].tenant == t
      ensures Db() == if found then PauseEndpoint(old(Db()), e) else old(Db())
      ensures found ==> |endpoints| == |old(endpoints)| && endpoints[e].status == Paused && OnlyStatus(old(endpoints)[e], endpoints[e])
      ensures forall i :: 0 <= i < |endpoints| && i != e ==> i < |old(endpoints)| && endpoints[i] == old(endpoints)[i]
    {
      found := e < |endpoints| && endpoints[e].tenant == t;
      if found {
        endpoints := endpoints[e := endpoints[e].(status := Paused)];
      }
    }

    /** Resume, and what it discloses: the backlog, and the failed deliveries it leaves behind. */
    method Resume(t: nat, e: nat) returns (found: bool, backlog: nat, skipped: seq<nat>)
      modifies this`endpoints
      ensures found <==> e < |old(endpoints)| && old(endpoints)[e].tenant == t
      ensures Db() == if found then ResumeEndpoint(old(Db()), e) else old(Db())
      ensures found ==> |endpoints| == |old(endpoints)| && endpoints[e].status == Active && OnlyStatus(old(endpoints)[e], endpoints[e])
      ensures forall i :: 0 <= i < |endpoints| && i != e ==> i < |old(endpoints)| && endpoints[i] == old(endpoints)[i]
      ensures found ==> backlog == Draining.Backlog(deliveries, e) && skipped == SkippedFailed(deliveries, e)
    {
      found, backlog, skipped := e < |endpoints| && endpoints[e].tenant == t, 0, [];
      if found {
        var row := endpoints[e];
        endpoints := endpoints[e := row.(status := Active, gated := false, resumes := row.resumes + 1)];
        backlog := Draining.Backlog(deliveries, e);
        skipped := SkippedFailed(deliveries, e);
      }
    }

    method Rotate(t: nat, e: nat, newSecret: string, overlap: nat) returns (found: bool)
      modifies this`endpoints
      ensures found <==> e < |old(endpoints)| && old(endpoints)[e].tenant == t
      ensures Db() == if found then RotateSecret(old(Db()), e, newSecret, clock + overlap) else old(Db())
      ensures found ==>
                |endpoints| == |old(endpoints)|
                && endpoints[e] == old(endpoints)[e].(secrets := Secrets(newSecret, Some(old(endpoints)[e].secrets.signing), Some(clock + overlap)))
      ensures forall i :: 0 <= i < |endpoints| && i != e ==> i < |old(endpoints)| && endpoints[i] == old(endpoints)[i]
    {
      found := e < |endpoints| && endpoints[e].tenant == t;
      if found {
        var secrets := endpoints[e].secrets;
        endpoints := endpoints[e := endpoints[e].(secrets := Secrets(newSecret, Some(secrets.signing), Some(clock + overlap)))];
      }
    }

    /** The listing query: the first `n` rows past the cursor. */
    method ScanQueue(e: nat, cursor: Option<int>, n: nat) returns (rows: seq<nat>)
      ensures rows == First(RowsPast(deliveries, 0, e, cursor), n)
    {
      rows := [];
      var ds, i := deliveries, 0;
      while i < |ds| && |rows| < n
        invariant 0 <= i <= |ds| && |rows| <= n
        invariant RowsPast(ds, 0, e, cursor) == rows + RowsPast(ds, i, e, cursor)
      {
        if PastCursor(ds[i], e, cursor) {
          rows := rows + [i];
        }
        i := i + 1;
      }
    }

    /** GET /endpoints/:id/deliveries: one row more than the page tells whether there is a next one. */
    method ListDeliveries(t: nat, e: nat, cursor: Option<int>, limit: nat) returns (page: Option<Page>)
      ensures page.Some? <==> e < |endpoints| && endpoints[e].tenant == t
      ensures page.Some? ==> page.value == ReadPage(deliveries, e, cursor, limit)
    {
      if !(e < |endpoints| && endpoints[e].tenant == t) {
        return None;
      }
      var rows := ScanQueue(e, cursor, limit + 1);
      var hasMore := |rows| > limit;
      var shown := if hasMore then rows[..limit] else rows;
      page := Some(Page(shown, if hasMore && |shown| > 0 then Some(deliveries[shown[|shown| - 1]].seqNo) else None));
    }
  }

  /** The reference receiver: it remembers an event once its business logic has succeeded. */
  class ConformingReceiver {
    const shouldSucceed: (nat, nat) -> bool
    var processedEventIds: set<nat>
    var attemptsByEventId: map<nat, nat>
    ghost var effects: seq<nat>

    constructor (decide: (nat, nat) -> bool)
      ensures shouldSucceed == decide && Value() == Receiver({}, map[], [])
    {
      shouldSucceed, processedEventIds, attemptsByEventId, effects := decide, {}, map[], [];
    }

    ghost function Value(): Receiver
      reads this
    {
      Receiver(processedEventIds, attemptsByEventId, effects)
    }

    function AttemptNumber(ev: nat): nat
      reads this
    {
      (if ev in attemptsByEventId then attemptsByEventId[ev] else 0) + 1
    }

    method Request(ev: nat) returns (status: int)
      modifies this
      ensures (Value(), status) == Handle(old(Value()), ev, shouldSucceed(ev, old(AttemptNumber(ev))))
    {
      if ev in processedEventIds {
        return 200;
      }
      var number := AttemptNumber(ev);
      attemptsByEventId := attemptsByEventId[ev := number];
      if shouldSucceed(ev, number) {
        processedEventIds := processedEventIds + {ev};
        effects := effects + [ev];
        status := 200;
      } else {
        status := 500;
      }
    }
  }
}
