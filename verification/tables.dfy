/** The rows of the delivery service's tables, and its SQL statements as functions on them.
    A table is the sequence of its rows in commit order; a row's id is its index there, because
    nothing is ever deleted. The `seqNo` columns (seq in the service) are kept apart from the index: every ORDER BY of
    the service goes by `seqNo`. Columns marked "history" exist in no table; they only record what
    happened, so that properties of whole runs can be stated, and no statement reads them. */
module Tables {

  datatype Option<+T> = None | Some(value: T)

  /** One clock, in milliseconds, for the database and for every worker. */
  type Time = int

  datatype Status = Active | Paused | Halted
  datatype DeliveryState = Pending | InFlight | Succeeded | Failed
  datatype Expansion = PendingExpansion | Expanded

  /** What one send came back with: a response, or no response at all. */
  datatype Reply = Response(status: int) | NoResponse

  datatype AttemptOutcome = Open | Closed(reply: Reply) | LeaseExpired

  /** Where a delivery row came from (history). */
  datatype Origin = FromEvent | FromReplay(replay: nat)

  datatype Secrets = Secrets(signing: string, secondary: Option<string>, secondaryExpiresAt: Option<Time>)

  /** `lockKey` is hashtext(id), the advisory lock of the tenant; two tenants may share one. */
  datatype Tenant = Tenant(lockKey: int, lastServedAt: Option<Time>)

  datatype Endpoint = Endpoint(
    tenant: nat, eventTypes: set<string>, status: Status, secrets: Secrets,
    busy: bool, busySince: Option<Time>, leaseId: Option<nat>,
    resumes: nat,       // history: resumes so far
    gated: bool)        // history: halted, and not resumed since

  datatype Event = Event(
    tenant: nat, key: string, eventType: string, status: Expansion, seqNo: int,
    registered: nat)    // history: endpoints registered when the event was expanded

  datatype Delivery = Delivery(
    event: nat, endpoint: nat, seqNo: int, state: DeliveryState, attemptCount: nat,
    nextAttemptAt: Time, createdAt: Time,
    origin: Origin, retries: nat, expiries: nat, scheduled: nat)  // history

  datatype Attempt = Attempt(
    delivery: nat, number: nat, outcome: AttemptOutcome,
    sent: bool)         // history: its delivery was marked in_flight for it

  datatype Replay = Replay(
    endpoint: nat, key: string, rangeStart: Time, rangeEnd: Time, createdAt: Time, status: Expansion,
    batch: seq<nat>)    // history: the event ids it appended

  datatype DB = DB(
    tenants: seq<Tenant>, endpoints: seq<Endpoint>, events: seq<Event>,
    deliveries: seq<Delivery>, attempts: seq<Attempt>, replays: seq<Replay>)

  predicate IsSuccess(reply: Reply) {
    reply.Response? && 200 <= reply.status < 300
  }

  predicate Terminal(state: DeliveryState) {
    state == Succeeded || state == Failed
  }

  predicate Unresolved(state: DeliveryState) {
    state == Pending || state == InFlight
  }

  // ---------------------------------------------------------------- queries

  /** The ids below `n` that satisfy `p`, in ascending order. */
  function Ids(n: nat, p: nat -> bool): (ids: seq<nat>)
    ensures forall k :: 0 <= k < |ids| ==> ids[k] < n && p(ids[k])
    ensures forall j, k :: 0 <= j < k < |ids| ==> ids[j] < ids[k]
    ensures forall i: nat :: i < n && p(i) ==> i in ids
  {
    if n == 0 then [] else Ids(n - 1, p) + (if p(n - 1) then [n - 1] else [])
  }

  predicate Waits(d: Delivery, endpoint: nat, alsoInFlight: bool) {
    d.endpoint == endpoint && (d.state == Pending || (alsoInFlight && d.state == InFlight))
  }

  /** SELECT id ... WHERE endpoint_id = $1 AND state = 'pending' (or also 'in_flight')
      ORDER BY seq LIMIT 1. */
  function Lowest(ds: seq<Delivery>, endpoint: nat, alsoInFlight: bool): (h: Option<nat>)
    ensures h.Some? ==> h.value < |ds| && Waits(ds[h.value], endpoint, alsoInFlight)
    ensures h.Some? ==> forall i :: 0 <= i < |ds| && Waits(ds[i], endpoint, alsoInFlight) ==> ds[h.value].seqNo <= ds[i].seqNo
    ensures h.None? ==> forall i :: 0 <= i < |ds| ==> !Waits(ds[i], endpoint, alsoInFlight)
  {
    if |ds| == 0 then None
    else
      var last := |ds| - 1;
      var h := Lowest(ds[..last], endpoint, alsoInFlight);
      if Waits(ds[last], endpoint, alsoInFlight) && (h.None? || ds[last].seqNo < ds[h.value].seqNo) then Some(last) else h
  }

  /** What the claim fetches: the lowest pending delivery. */
  function PendingHead(db: DB, endpoint: nat): (h: Option<nat>) {
    Lowest(db.deliveries, endpoint, false)
  }

  /** What the read side reports as head_delivery_id: the lowest unresolved delivery. */
  function ReportedHead(db: DB, endpoint: nat): (h: Option<nat>) {
    Lowest(db.deliveries, endpoint, true)
  }

  /** busy_since < $cutoff; comparing NULL is not true. */
  predicate Stale(ep: Endpoint, cutoff: Time) {
    ep.busySince.Some? && ep.busySince.value < cutoff
  }

  predicate Claimable(ep: Endpoint, cutoff: Time) {
    ep.status == Active && (!ep.busy || Stale(ep, cutoff))
  }

  /** A delivery that makes its endpoint a candidate. */
  predicate Ready(d: Delivery, endpoint: nat, now: Time) {
    d.endpoint == endpoint && ((d.state == Pending && d.nextAttemptAt <= now) || d.state == InFlight)
  }

  predicate IsCandidate(db: DB, e: nat, cutoff: Time, now: Time) {
    && e < |db.endpoints|
    && Claimable(db.endpoints[e], cutoff)
    && exists i :: 0 <= i < |db.deliveries| && Ready(db.deliveries[i], e, now)
  }

  predicate Subscribes(ep: Endpoint, tenant: nat, eventType: string) {
    ep.tenant == tenant && eventType in ep.eventTypes
  }

  /** The endpoints an event of this tenant and type fans out to. */
  function Subscribers(db: DB, tenant: nat, eventType: string): (ids: seq<nat>)
    ensures forall k :: 0 <= k < |ids| ==> ids[k] < |db.endpoints| && Subscribes(db.endpoints[ids[k]], tenant, eventType)
    ensures forall j, k :: 0 <= j < k < |ids| ==> ids[j] < ids[k]
    ensures forall i :: 0 <= i < |db.endpoints| && Subscribes(db.endpoints[i], tenant, eventType) ==> i in ids
  {
    var p := (i: nat) => i < |db.endpoints| && Subscribes(db.endpoints[i], tenant, eventType);
    assert forall i: nat :: i < |db.endpoints| && Subscribes(db.endpoints[i], tenant, eventType) ==> p(i);
    Ids(|db.endpoints|, p)
  }

  predicate InWindow(d: Delivery, r: Replay) {
    d.endpoint == r.endpoint && r.rangeStart <= d.createdAt <= r.rangeEnd && d.state != Pending && d.state != InFlight
  }

  /** The deliveries a replay copies, in queue order. */
  function Window(db: DB, r: Replay): (ids: seq<nat>)
    ensures forall k :: 0 <= k < |ids| ==> ids[k] < |db.deliveries| && InWindow(db.deliveries[ids[k]], r)
    ensures forall j, k :: 0 <= j < k < |ids| ==> ids[j] < ids[k]
    ensures forall i :: 0 <= i < |db.deliveries| && InWindow(db.deliveries[i], r) ==> i in ids
  {
    var p := (i: nat) => i < |db.deliveries| && InWindow(db.deliveries[i], r);
    assert forall i: nat :: i < |db.deliveries| && InWindow(db.deliveries[i], r) ==> p(i);
    Ids(|db.deliveries|, p)
  }

  // ------------------------------------------------------------- statements

  /** UPDATE endpoints SET busy = true, busy_since = now(), lease_id = gen_random_uuid(). */
  function TakeLease(db: DB, e: nat, now: Time, lease: nat): DB
    requires e < |db.endpoints|
  {
    db.(endpoints := db.endpoints[e := db.endpoints[e].(busy := true, busySince := Some(now), leaseId := Some(lease))])
  }

  /** UPDATE endpoints SET busy = false, busy_since = NULL, lease_id = NULL. */
  function FreeLease(db: DB, e: nat): DB
    requires e < |db.endpoints|
  {
    db.(endpoints := db.endpoints[e := db.endpoints[e].(busy := false, busySince := None, leaseId := None)])
  }

  predicate HoldsLease(db: DB, e: nat, lease: nat) {
    e < |db.endpoints| && db.endpoints[e].leaseId == Some(lease)
  }

  function StampTenant(db: DB, t: nat, now: Time): DB {
    if t < |db.tenants| then db.(tenants := db.tenants[t := db.tenants[t].(lastServedAt := Some(now))]) else db
  }

  predicate OrphanOf(db: DB, a: Attempt, e: nat) {
    && a.outcome == Open && a.delivery < |db.deliveries|
    && db.deliveries[a.delivery].endpoint == e && db.deliveries[a.delivery].state == InFlight
  }

  /** UPDATE attempts SET error_class = 'worker_lease_expired' for the endpoint's in_flight delivery. */
  function CloseOrphans(db: DB, e: nat): DB {
    db.(attempts := seq(|db.attempts|, i requires 0 <= i < |db.attempts| =>
                       if OrphanOf(db, db.attempts[i], e) then db.attempts[i].(outcome := LeaseExpired) else db.attempts[i]))
  }

  function Requeued(d: Delivery, e: nat): Delivery {
    if d.endpoint == e && d.state == InFlight then d.(state := Pending, expiries := d.expiries + 1) else d
  }

  /** UPDATE deliveries SET state = 'pending' WHERE endpoint_id = $1 AND state = 'in_flight'. */
  function RequeueInFlight(db: DB, e: nat): DB {
    db.(deliveries := seq(|db.deliveries|, i requires 0 <= i < |db.deliveries| => Requeued(db.deliveries[i], e)))
  }

  /** INSERT INTO attempts; its id is the old length of the table. */
  function InsertAttempt(db: DB, d: nat, number: nat): DB {
    db.(attempts := db.attempts + [Attempt(d, number, Open, false)])
  }

  /** UPDATE deliveries SET state = 'in_flight', attempt_count = $2. */
  function MarkInFlight(db: DB, d: nat, number: nat, a: nat): DB
    requires d < |db.deliveries| && a < |db.attempts|
  {
    db.(deliveries := db.deliveries[d := db.deliveries[d].(state := InFlight, attemptCount := number)],
        attempts := db.attempts[a := db.attempts[a].(sent := true)])
  }

  function CloseAttempt(db: DB, a: nat, reply: Reply): DB
    requires a < |db.attempts|
  {
    db.(attempts := db.attempts[a := db.attempts[a].(outcome := Closed(reply))])
  }

  function SetState(db: DB, d: nat, state: DeliveryState): DB
    requires d < |db.deliveries|
  {
    db.(deliveries := db.deliveries[d := db.deliveries[d].(state := state)])
  }

  /** UPDATE deliveries SET state = 'pending', next_attempt_at = now() + delay. */
  function ScheduleRetry(db: DB, d: nat, now: Time, delay: nat): DB
    requires d < |db.deliveries|
  {
    var row := db.deliveries[d];
    db.(deliveries := db.deliveries[d := row.(state := Pending, nextAttemptAt := now + delay,
                                              retries := row.retries + 1, scheduled := row.scheduled + delay)])
  }

  /** UPDATE endpoints SET status = 'halted'. */
  function Halt(db: DB, e: nat): DB
    requires e < |db.endpoints|
  {
    db.(endpoints := db.endpoints[e := db.endpoints[e].(status := Halted, gated := true)])
  }

  function PauseEndpoint(db: DB, e: nat): DB
    requires e < |db.endpoints|
  {
    db.(endpoints := db.endpoints[e := db.endpoints[e].(status := Paused)])
  }

  function ResumeEndpoint(db: DB, e: nat): DB
    requires e < |db.endpoints|
  {
    var row := db.endpoints[e];
    db.(endpoints := db.endpoints[e := row.(status := Active, gated := false, resumes := row.resumes + 1)])
  }

  /** The current secret moves to the secondary slot, with its expiry. */
  function Rotated(secrets: Secrets, newSecret: string, expiresAt: Time): Secrets {
    Secrets(newSecret, Some(secrets.signing), Some(expiresAt))
  }

  /** The secrets a claim at time `now` signs with. */
  function ActiveSecrets(secrets: Secrets, now: Time): seq<string> {
    if secrets.secondary.Some? && secrets.secondaryExpiresAt.Some? && secrets.secondaryExpiresAt.value > now
    then [secrets.signing, secrets.secondary.value]
    else [secrets.signing]
  }

  function RotateSecret(db: DB, e: nat, newSecret: string, expiresAt: Time): DB
    requires e < |db.endpoints|
  {
    var row := db.endpoints[e];
    db.(endpoints := db.endpoints[e := row.(secrets := Rotated(row.secrets, newSecret, expiresAt))])
  }

  /** The rows of one INSERT INTO deliveries: column defaults everywhere but in the given columns. */
  function NewDeliveries(events: seq<nat>, endpoints: seq<nat>, seqs: seq<int>, now: Time, origin: Origin): seq<Delivery>
    requires |events| == |endpoints| == |seqs|
  {
    seq(|events|, i requires 0 <= i < |events| =>
      Delivery(events[i], endpoints[i], seqs[i], Pending, 0, now, now, origin, 0, 0, 0))
  }

  function Repeat(x: nat, n: nat): seq<nat> {
    seq(n, i => x)
  }

  /** The rows event `ev` fans out to. */
  function FanOut(db: DB, ev: nat, seqs: seq<int>, now: Time): seq<Delivery>
    requires ev < |db.events|
    requires |seqs| == |Subscribers(db, db.events[ev].tenant, db.events[ev].eventType)|
  {
    var targets := Subscribers(db, db.events[ev].tenant, db.events[ev].eventType);
    NewDeliveries(Repeat(ev, |targets|), targets, seqs, now, FromEvent)
  }

  function ExpandEvent(db: DB, ev: nat, seqs: seq<int>, now: Time): DB
    requires ev < |db.events|
    requires |seqs| == |Subscribers(db, db.events[ev].tenant, db.events[ev].eventType)|
  {
    db.(deliveries := db.deliveries + FanOut(db, ev, seqs, now),
        events := db.events[ev := db.events[ev].(status := Expanded, registered := |db.endpoints|)])
  }

  /** The event ids of the deliveries a replay copies. */
  function WindowEvents(db: DB, r: Replay): (events: seq<nat>)
    ensures |events| == |Window(db, r)|
    ensures forall k :: 0 <= k < |events| ==> Window(db, r)[k] < |db.deliveries| && events[k] == db.deliveries[Window(db, r)[k]].event
  {
    var ids := Window(db, r);
    seq(|ids|, k requires 0 <= k < |ids| => db.deliveries[ids[k]].event)
  }

  function ReplayRows(db: DB, r: nat, seqs: seq<int>, now: Time): seq<Delivery>
    requires r < |db.replays| && |seqs| == |Window(db, db.replays[r])|
  {
    var events := WindowEvents(db, db.replays[r]);
    NewDeliveries(events, Repeat(db.replays[r].endpoint, |events|), seqs, now, FromReplay(r))
  }

  function ExpandReplay(db: DB, r: nat, seqs: seq<int>, now: Time): DB
    requires r < |db.replays| && |seqs| == |Window(db, db.replays[r])|
  {
    var row := db.replays[r];
    db.(deliveries := db.deliveries + ReplayRows(db, r, seqs, now),
        replays := db.replays[r := row.(status := Expanded, batch := WindowEvents(db, row))])
  }

  /** The id of the event already stored under (tenant, key), if any. */
  function EventByKey(events: seq<Event>, tenant: nat, key: string): (id: Option<nat>)
    ensures id.Some? ==> id.value < |events| && events[id.value].tenant == tenant && events[id.value].key == key
    ensures id.None? ==> forall i :: 0 <= i < |events| ==> !(events[i].tenant == tenant && events[i].key == key)
  {
    if |events| == 0 then None
    else
      var last := |events| - 1;
      if events[last].tenant == tenant && events[last].key == key then Some(last) else EventByKey(events[..last], tenant, key)
  }

  function ReplayByKey(replays: seq<Replay>, endpoint: nat, key: string): (id: Option<nat>)
    ensures id.Some? ==> id.value < |replays| && replays[id.value].endpoint == endpoint && replays[id.value].key == key
    ensures id.None? ==> forall i :: 0 <= i < |replays| ==> !(replays[i].endpoint == endpoint && replays[i].key == key)
  {
    if |replays| == 0 then None
    else
      var last := |replays| - 1;
      if replays[last].endpoint == endpoint && replays[last].key == key then Some(last) else ReplayByKey(replays[..last], endpoint, key)
  }

  /** POST /events: insert, or return the original's id. */
  function PublishEvent(db: DB, tenant: nat, key: string, eventType: string, sq: int): (r: (DB, nat))
    ensures r.1 < |r.0.events|
  {
    match EventByKey(db.events, tenant, key)
    case Some(id) => (db, id)
    case None => (db.(events := db.events + [Event(tenant, key, eventType, PendingExpansion, sq, 0)]), |db.events|)
  }

  /** POST /endpoints/:id/replays: insert, or return the original's id. */
  function RequestReplay(db: DB, endpoint: nat, key: string, rangeStart: Time, rangeEnd: Time, now: Time): (r: (DB, nat))
    ensures r.1 < |r.0.replays|
  {
    match ReplayByKey(db.replays, endpoint, key)
    case Some(id) => (db, id)
    case None => (db.(replays := db.replays + [Replay(endpoint, key, rangeStart, rangeEnd, now, PendingExpansion, [])]), |db.replays|)
  }
}
