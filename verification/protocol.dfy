/** The delivery service as one transition system. Every SQL statement that commits on its own is
    one step, so the steps of any number of workers, expanders and API calls interleave freely;
    a worker may stall for any time between two of its steps, or stop for good (`Crash`). */
module Protocol {
  import opened Tables

  // ---------------------------------------------------------- configuration

  datatype Config = Config(timeout: nat, floor: nat, baseDelay: nat, multiplier: nat, maxDelay: nat, maxAttempts: nat)

  function Max(a: int, b: int): int {
    if a < b then b else a
  }

  function Min(a: int, b: int): int {
    if a < b then a else b
  }

  /** The lease duration: the outbound timeout, and the larger of it and the floor on top. */
  function LeaseDuration(cfg: Config): nat {
    cfg.timeout + Max(cfg.timeout, cfg.floor)
  }

  function Power(b: nat, e: nat): nat {
    if e == 0 then 1 else b * Power(b, e - 1)
  }

  /** The backoff ceiling after attempt `n`, counted from 1. */
  function Ceiling(cfg: Config, n: nat): nat
    requires n >= 1
  {
    Min(cfg.baseDelay * Power(cfg.multiplier, n - 1), cfg.maxDelay)
  }

  /** What floor(random * ceiling) can be, for random in [0, 1). */
  predicate PossibleDelay(cfg: Config, n: nat, delay: nat)
    requires n >= 1
  {
    delay == 0 || delay < Ceiling(cfg, n)
  }

  // ------------------------------------------------------ claim and receiver

  /** One row of the candidate query: the endpoint, and its busy flag as the query saw it. */
  datatype Candidate = Candidate(endpoint: nat, busy: bool)

  /** What a worker remembers of its claim; the last three fields are filled in as it goes. */
  datatype Claim = Claim(
    endpoint: nat, lease: nat,
    since: Time, tookOver: bool,  // history: when the lease was taken, and whether from a stale holder
    delivery: nat, number: nat, attempt: nat)

  datatype Verdict = Success | Retrying | HaltedNow | LeaseLost

  /** completeDelivery: everything is fenced on the lease, in one transaction. */
  function WriteBack(db: DB, cfg: Config, claim: Claim, reply: Reply, now: Time, delay: nat): (DB, Verdict)
    requires claim.delivery < |db.deliveries| && claim.attempt < |db.attempts|
  {
    if !HoldsLease(db, claim.endpoint, claim.lease) then (db, LeaseLost)
    else
      var closed := CloseAttempt(db, claim.attempt, reply);
      if IsSuccess(reply) then (FreeLease(SetState(closed, claim.delivery, Succeeded), claim.endpoint), Success)
      else if claim.number >= cfg.maxAttempts then
        (FreeLease(Halt(SetState(closed, claim.delivery, Failed), claim.endpoint), claim.endpoint), HaltedNow)
      else (FreeLease(ScheduleRetry(closed, claim.delivery, now, delay), claim.endpoint), Retrying)
  }

  /** The conforming receiver of one endpoint. `effects` lists the events whose business logic
      succeeded, in order (history). */
  datatype Receiver = Receiver(processed: set<nat>, attempts: map<nat, nat>, effects: seq<nat>)

  /** One request; `ok` is what the business logic would answer. */
  function Handle(r: Receiver, event: nat, ok: bool): (Receiver, int) {
    if event in r.processed then (r, 200)
    else
      var counted := r.(attempts := r.attempts[event := (if event in r.attempts then r.attempts[event] else 0) + 1]);
      if ok then (counted.(processed := r.processed + {event}, effects := r.effects + [event]), 200) else (counted, 500)
  }

  // ------------------------------------------------------- candidate ordering

  /** last_served_at ASC NULLS FIRST. */
  predicate ServedNoLater(a: Option<Time>, b: Option<Time>) {
    a.None? || (b.Some? && a.value <= b.value)
  }

  /** MIN(seq) over the endpoint's ready deliveries. */
  function MinReady(ds: seq<Delivery>, e: nat, now: Time): (m: Option<int>) {
    if |ds| == 0 then None
    else
      var last := |ds| - 1;
      var m := MinReady(ds[..last], e, now);
      if Ready(ds[last], e, now) && (m.None? || ds[last].seqNo < m.value) then Some(ds[last].seqNo) else m
  }

  function ServedAt(db: DB, e: nat): Option<Time>
    requires e < |db.endpoints|
  {
    var t := db.endpoints[e].tenant;
    if t < |db.tenants| then db.tenants[t].lastServedAt else None
  }

  /** ORDER BY last_served_at, MIN(seq). */
  predicate Precedes(db: DB, now: Time, a: nat, b: nat)
    requires a < |db.endpoints| && b < |db.endpoints|
  {
    && ServedNoLater(ServedAt(db, a), ServedAt(db, b))
    && (ServedAt(db, a) == ServedAt(db, b) ==>
          var x, y := MinReady(db.deliveries, a, now), MinReady(db.deliveries, b, now);
          y.None? || (x.Some? && x.value <= y.value))
  }

  const LIMIT := 20

  ghost predicate Listed(cands: seq<Candidate>, e: nat) {
    exists k :: 0 <= k < |cands| && cands[k].endpoint == e
  }

  /** `cands` is a possible answer of the candidate query. */
  ghost predicate IsSelection(db: DB, now: Time, cutoff: Time, cands: seq<Candidate>) {
    && |cands| <= LIMIT
    && (forall k :: 0 <= k < |cands| ==>
          IsCandidate(db, cands[k].endpoint, cutoff, now) && cands[k].busy == db.endpoints[cands[k].endpoint].busy)
    && (forall j, k :: 0 <= j < k < |cands| ==>
          cands[j].endpoint != cands[k].endpoint && Precedes(db, now, cands[j].endpoint, cands[k].endpoint))
    && (forall e: nat :: IsCandidate(db, e, cutoff, now) && !Listed(cands, e) ==>
          |cands| == LIMIT && forall k :: 0 <= k < |cands| ==> Precedes(db, now, cands[k].endpoint, e))
  }

  // ------------------------------------------------------------ the workers

  /** Where a claim phase stands: the last statement it executed. */
  datatype Phase = Leased | Served | Closing | Clean | NotReady | Picked | Inserted

  datatype Worker =
    | Trying(cands: seq<Candidate>, cutoff: Time)
    | Claiming(phase: Phase, rest: seq<Candidate>, cutoff: Time, wasBusy: bool, claim: Claim)
    | Sending(claim: Claim)
    | Replied(claim: Claim, reply: Reply, at: Time)

  /** An expansion transaction, holding the advisory lock of its tenant; `began` is the time of its
      BEGIN, which is what now() gives to every statement of the transaction. */
  datatype Expander = Expander(tenant: nat, event: Option<nat>, began: Time)

  /** A replay transaction, holding its replay row. */
  datatype Replayer = Replayer(replay: nat, began: Time)

  /** `wire` holds the attempts whose request left its worker, `replies` the answers that conforming
      receivers gave to them. Of an endpoint without a receiver in `receivers`, nothing is known about
      the service behind it. */
  datatype World = World(
    db: DB, clock: Time, nextLease: nat, workers: map<nat, Worker>,
    expanders: map<nat, Expander>, replayers: map<nat, Replayer>,
    wire: set<nat>, replies: set<(nat, int)>, receivers: seq<Option<Receiver>>)

  predicate Conforms(s: World, e: nat) {
    e < |s.receivers| && s.receivers[e].Some?
  }

  predicate InPhase(s: World, w: nat, phase: Phase) {
    w in s.workers && s.workers[w].Claiming? && s.workers[w].phase == phase
  }

  /** A claim phase that stalls past its own lease is outside the model (see README): only the
      statements up to MarkInFlight are unfenced, and they are assumed to run within the lease. */
  predicate InTime(cfg: Config, s: World, w: nat)
    requires w in s.workers && s.workers[w].Claiming?
  {
    s.clock <= s.workers[w].claim.since + LeaseDuration(cfg)
  }

  /** The new rows come after everything their endpoints hold, in order. */
  predicate CommitInOrder(ds: seq<Delivery>, rows: seq<Delivery>) {
    && (forall i, k :: 0 <= i < |ds| && 0 <= k < |rows| && ds[i].endpoint == rows[k].endpoint ==> ds[i].seqNo < rows[k].seqNo)
    && (forall j, k :: 0 <= j < k < |rows| && rows[j].endpoint == rows[k].endpoint ==> rows[j].seqNo < rows[k].seqNo)
  }

  /** SELECT id FROM events WHERE tenant_id AND status = 'pending_expansion' ORDER BY seq LIMIT 1. */
  function OldestPending(events: seq<Event>, tenant: nat): (h: Option<nat>)
    ensures h.Some? ==> h.value < |events| && events[h.value].tenant == tenant && events[h.value].status == PendingExpansion
    ensures h.Some? ==> forall i :: 0 <= i < |events| && events[i].tenant == tenant && events[i].status == PendingExpansion ==>
                          events[h.value].seqNo <= events[i].seqNo
    ensures h.None? ==> forall i :: 0 <= i < |events| ==> !(events[i].tenant == tenant && events[i].status == PendingExpansion)
  {
    if |events| == 0 then None
    else
      var last := |events| - 1;
      var h := OldestPending(events[..last], tenant);
      if events[last].tenant == tenant && events[last].status == PendingExpansion && (h.None? || events[last].seqNo < events[h.value].seqNo)
      then Some(last) else h
  }

  function NewEndpoint(t: nat, eventTypes: set<string>, secret: string): Endpoint {
    Endpoint(t, eventTypes, Active, Secrets(secret, None, None), false, None, None, 0, false)
  }

  function Put(s: World, w: nat, k: Worker): World {
    s.(workers := s.workers[w := k])
  }

  // ------------------------------------------------- the steps of a delivery

  ghost predicate CanSelect(cfg: Config, s: World, w: nat, cutoff: Time, cands: seq<Candidate>) {
    w !in s.workers && cutoff <= s.clock - LeaseDuration(cfg) && IsSelection(s.db, s.clock, cutoff, cands)
  }

  predicate CanTakeLease(s: World, w: nat) {
    w in s.workers && s.workers[w].Trying? && s.workers[w].cands != []
  }

  predicate WinsLease(db: DB, c: Candidate, cutoff: Time) {
    c.endpoint < |db.endpoints| && Claimable(db.endpoints[c.endpoint], cutoff)
  }

  /** The lease UPDATE on the next candidate; losing the race moves on to the one after. */
  function DoTakeLease(s: World, w: nat): World
    requires CanTakeLease(s, w)
  {
    var k := s.workers[w];
    var c := k.cands[0];
    if WinsLease(s.db, c, k.cutoff) then
      Put(s, w, Claiming(Leased, k.cands[1..], k.cutoff, c.busy, Claim(c.endpoint, s.nextLease, s.clock, s.db.endpoints[c.endpoint].busy, 0, 0, 0)))
        .(db := TakeLease(s.db, c.endpoint, s.clock, s.nextLease), nextLease := s.nextLease + 1)
    else Put(s, w, Trying(k.cands[1..], k.cutoff))
  }

  predicate CanStamp(s: World, w: nat) {
    InPhase(s, w, Leased) && s.workers[w].claim.endpoint < |s.db.endpoints|
  }

  function DoStamp(s: World, w: nat): World
    requires CanStamp(s, w)
  {
    var k := s.workers[w];
    Put(s, w, k.(phase := if k.wasBusy then Served else Clean)).(db := StampTenant(s.db, s.db.endpoints[k.claim.endpoint].tenant, s.clock))
  }

  predicate CanCloseOrphans(cfg: Config, s: World, w: nat) {
    InPhase(s, w, Served) && InTime(cfg, s, w)
  }

  function DoCloseOrphans(s: World, w: nat): World
    requires InPhase(s, w, Served)
  {
    Put(s, w, s.workers[w].(phase := Closing)).(db := CloseOrphans(s.db, s.workers[w].claim.endpoint))
  }

  predicate CanRequeue(cfg: Config, s: World, w: nat) {
    InPhase(s, w, Closing) && InTime(cfg, s, w)
  }

  function DoRequeue(s: World, w: nat): World
    requires InPhase(s, w, Closing)
  {
    Put(s, w, s.workers[w].(phase := Clean)).(db := RequeueInFlight(s.db, s.workers[w].claim.endpoint))
  }

  predicate CanFetchHead(s: World, w: nat) {
    InPhase(s, w, Clean)
  }

  /** The lowest pending delivery, whether ready or not; only a ready one is picked. */
  function DoFetchHead(s: World, w: nat): World
    requires CanFetchHead(s, w)
  {
    var k := s.workers[w];
    var h := PendingHead(s.db, k.claim.endpoint);
    if h.None? || s.db.deliveries[h.value].nextAttemptAt > s.clock then Put(s, w, k.(phase := NotReady))
    else Put(s, w, k.(phase := Picked, claim := k.claim.(delivery := h.value, number := s.db.deliveries[h.value].attemptCount + 1)))
  }

  predicate CanRelease(s: World, w: nat) {
    InPhase(s, w, NotReady)
  }

  function Released(db: DB, c: Claim): DB {
    if HoldsLease(db, c.endpoint, c.lease) then FreeLease(db, c.endpoint) else db
  }

  function DoRelease(s: World, w: nat): World
    requires CanRelease(s, w)
  {
    var k := s.workers[w];
    Put(s, w, Trying(k.rest, k.cutoff)).(db := Released(s.db, k.claim))
  }

  predicate CanInsertAttempt(cfg: Config, s: World, w: nat) {
    InPhase(s, w, Picked) && InTime(cfg, s, w)
  }

  function DoInsertAttempt(s: World, w: nat): World
    requires InPhase(s, w, Picked)
  {
    var k := s.workers[w];
    Put(s, w, k.(phase := Inserted, claim := k.claim.(attempt := |s.db.attempts|)))
      .(db := InsertAttempt(s.db, k.claim.delivery, k.claim.number))
  }

  /** The worker stands before the in_flight mark of rows that exist. */
  predicate BeforeMark(s: World, w: nat) {
    InPhase(s, w, Inserted) && s.workers[w].claim.delivery < |s.db.deliveries| && s.workers[w].claim.attempt < |s.db.attempts|
  }

  predicate CanMarkInFlight(cfg: Config, s: World, w: nat) {
    BeforeMark(s, w) && InTime(cfg, s, w)
  }

  function DoMarkInFlight(s: World, w: nat): World
    requires BeforeMark(s, w)
  {
    var c := s.workers[w].claim;
    Put(s, w, Sending(c)).(db := MarkInFlight(s.db, c.delivery, c.number, c.attempt))
  }

  predicate CanSend(s: World, w: nat) {
    w in s.workers && s.workers[w].Sending?
  }

  function DoSend(s: World, w: nat): World
    requires CanSend(s, w)
  {
    s.(wire := s.wire + {s.workers[w].claim.attempt})
  }

  /** A worker may see any status, or none at all; only a 2xx from an endpoint with a conforming receiver
      must be an answer that this receiver gave. */
  predicate CanAnswer(s: World, w: nat, reply: Reply) {
    && w in s.workers && s.workers[w].Sending?
    && (IsSuccess(reply) && Conforms(s, s.workers[w].claim.endpoint) ==> (s.workers[w].claim.attempt, reply.status) in s.replies)
  }

  function DoAnswer(s: World, w: nat, reply: Reply): World
    requires CanAnswer(s, w, reply)
  {
    Put(s, w, Replied(s.workers[w].claim, reply, s.clock))
  }

  /** The write-back is one transaction; it began some time after the reply came in. */
  predicate CanWriteBack(cfg: Config, s: World, w: nat, began: Time, delay: nat) {
    && w in s.workers && s.workers[w].Replied? && s.workers[w].at <= began <= s.clock
    && s.workers[w].claim.delivery < |s.db.deliveries| && s.workers[w].claim.attempt < |s.db.attempts|
    && s.workers[w].claim.number >= 1 && PossibleDelay(cfg, s.workers[w].claim.number, delay)
  }

  function DoWriteBack(cfg: Config, s: World, w: nat, began: Time, delay: nat): World
    requires CanWriteBack(cfg, s, w, began, delay)
  {
    s.(db := WriteBack(s.db, cfg, s.workers[w].claim, s.workers[w].reply, began, delay).0, workers := s.workers - {w})
  }

  // ------------------------------------------------------------ the receiver

  /** A request on the wire may arrive late, more than once, or never. */
  predicate CanReceive(s: World, a: nat) {
    && a in s.wire && a < |s.db.attempts| && s.db.attempts[a].delivery < |s.db.deliveries|
    && Conforms(s, s.db.deliveries[s.db.attempts[a].delivery].endpoint)
  }

  function DoReceive(s: World, a: nat, ok: bool): World
    requires CanReceive(s, a)
  {
    var d := s.db.deliveries[s.db.attempts[a].delivery];
    var (receiver, status) := Handle(s.receivers[d.endpoint].value, d.event, ok);
    s.(receivers := s.receivers[d.endpoint := Some(receiver)], replies := s.replies + {(a, status)})
  }

  // --------------------------------------------------- expansion transactions

  /** pg_try_advisory_xact_lock: nobody holds the tenant's key. */
  predicate CanLock(s: World, x: nat, t: nat, began: Time) {
    && x !in s.expanders && t < |s.db.tenants| && began <= s.clock
    && forall y :: y in s.expanders && s.expanders[y].tenant < |s.db.tenants| ==> s.db.tenants[s.expanders[y].tenant].lockKey != s.db.tenants[t].lockKey
  }

  predicate CanReadOldest(s: World, x: nat) {
    x in s.expanders && s.expanders[x].event.None?
  }

  function DoReadOldest(s: World, x: nat): World
    requires CanReadOldest(s, x)
  {
    var h := OldestPending(s.db.events, s.expanders[x].tenant);
    if h.None? then s.(expanders := s.expanders - {x})
    else s.(expanders := s.expanders[x := s.expanders[x].(event := h)])
  }

  predicate CanExpand(s: World, x: nat, seqs: seq<int>) {
    && x in s.expanders && s.expanders[x].event.Some? && s.expanders[x].event.value < |s.db.events|
    && (var ev := s.expanders[x].event.value;
        && |seqs| == |Subscribers(s.db, s.db.events[ev].tenant, s.db.events[ev].eventType)|
        && CommitInOrder(s.db.deliveries, FanOut(s.db, ev, seqs, s.expanders[x].began)))
  }

  function DoExpand(s: World, x: nat, seqs: seq<int>): World
    requires CanExpand(s, x, seqs)
  {
    s.(db := ExpandEvent(s.db, s.expanders[x].event.value, seqs, s.expanders[x].began), expanders := s.expanders - {x})
  }

  /** SELECT ... FOR UPDATE SKIP LOCKED on the replay row. */
  predicate CanLockReplay(s: World, x: nat, r: nat, began: Time) {
    && x !in s.replayers && r < |s.db.replays| && s.db.replays[r].status == PendingExpansion && began <= s.clock
    && forall y :: y in s.replayers ==> s.replayers[y].replay != r
  }

  predicate CanExpandReplay(s: World, x: nat, seqs: seq<int>) {
    && x in s.replayers && s.replayers[x].replay < |s.db.replays|
    && |seqs| == |Window(s.db, s.db.replays[s.replayers[x].replay])|
    && CommitInOrder(s.db.deliveries, ReplayRows(s.db, s.replayers[x].replay, seqs, s.replayers[x].began))
  }

  function DoExpandReplay(s: World, x: nat, seqs: seq<int>): World
    requires CanExpandReplay(s, x, seqs)
  {
    s.(db := ExpandReplay(s.db, s.replayers[x].replay, seqs, s.replayers[x].began), replayers := s.replayers - {x})
  }

  // ----------------------------------------------------------- API requests

  /** A publish names a type, and commits after every event its tenant already has. */
  predicate CanPublish(s: World, t: nat, key: string, eventType: string, sq: int) {
    && t < |s.db.tenants| && key != "" && eventType != ""
    && (EventByKey(s.db.events, t, key).None? ==> forall i :: 0 <= i < |s.db.events| && s.db.events[i].tenant == t ==> s.db.events[i].seqNo < sq)
  }

  // -------------------------------------------------------------- all steps

  datatype WorkerStep =
    | Select(cutoff: Time, cands: seq<Candidate>) | LeaseRow | Stamp | CloseOrphanRows | RequeueRow | FetchHead | Release
    | InsertRow | MarkRow | Send | Answer(reply: Reply) | Finish(began: Time, delay: nat) | Crash

  datatype ExpansionStep =
    | Lock(t: nat, began: Time) | ReadOldest | Expand(seqs: seq<int>) | Abort
    | LockReplay(r: nat, began: Time) | AppendReplay(seqs: seq<int>) | AbortReplay

  datatype ApiStep =
    | AddTenant(lockKey: int) | Register(t: nat, eventTypes: set<string>, secret: string, conforming: bool)
    | Publish(t: nat, key: string, eventType: string, sq: int) | AskReplay(e: nat, key: string, from: Time, until: Time, began: Time)
    | Pause(e: nat) | Resume(e: nat) | Rotate(e: nat, secret: string, expiresAt: Time)

  datatype Step =
    | Tick(to: Time)
    | Work(w: nat, work: WorkerStep)
    | Receive(attempt: nat, ok: bool)
    | Transact(x: nat, tx: ExpansionStep)
    | Api(api: ApiStep)

  ghost predicate CanWork(cfg: Config, s: World, w: nat, st: WorkerStep) {
    match st
    case Select(cutoff, cands) => CanSelect(cfg, s, w, cutoff, cands)
    case LeaseRow => CanTakeLease(s, w)
    case Stamp => CanStamp(s, w)
    case CloseOrphanRows => CanCloseOrphans(cfg, s, w)
    case RequeueRow => CanRequeue(cfg, s, w)
    case FetchHead => CanFetchHead(s, w)
    case Release => CanRelease(s, w)
    case InsertRow => CanInsertAttempt(cfg, s, w)
    case MarkRow => CanMarkInFlight(cfg, s, w)
    case Send => CanSend(s, w)
    case Answer(reply) => CanAnswer(s, w, reply)
    case Finish(began, delay) => CanWriteBack(cfg, s, w, began, delay)
    case Crash => w in s.workers
  }

  ghost function DoWork(cfg: Config, s: World, w: nat, st: WorkerStep): World
    requires CanWork(cfg, s, w, st)
  {
    match st
    case Select(cutoff, cands) => Put(s, w, Trying(cands, cutoff))
    case LeaseRow => DoTakeLease(s, w)
    case Stamp => DoStamp(s, w)
    case CloseOrphanRows => DoCloseOrphans(s, w)
    case RequeueRow => DoRequeue(s, w)
    case FetchHead => DoFetchHead(s, w)
    case Release => DoRelease(s, w)
    case InsertRow => DoInsertAttempt(s, w)
    case MarkRow => DoMarkInFlight(s, w)
    case Send => DoSend(s, w)
    case Answer(reply) => DoAnswer(s, w, reply)
    case Finish(began, delay) => DoWriteBack(cfg, s, w, began, delay)
    case Crash => s.(workers := s.workers - {w})
  }

  predicate CanTransact(s: World, x: nat, st: ExpansionStep) {
    match st
    case Lock(t, began) => CanLock(s, x, t, began)
    case ReadOldest => CanReadOldest(s, x)
    case Expand(seqs) => CanExpand(s, x, seqs)
    case Abort => x in s.expanders
    case LockReplay(r, began) => CanLockReplay(s, x, r, began)
    case AppendReplay(seqs) => CanExpandReplay(s, x, seqs)
    case AbortReplay => x in s.replayers
  }

  function DoTransact(s: World, x: nat, st: ExpansionStep): World
    requires CanTransact(s, x, st)
  {
    match st
    case Lock(t, began) => s.(expanders := s.expanders[x := Expander(t, None, began)])
    case ReadOldest => DoReadOldest(s, x)
    case Expand(seqs) => DoExpand(s, x, seqs)
    case Abort => s.(expanders := s.expanders - {x})
    case LockReplay(r, began) => s.(replayers := s.replayers[x := Replayer(r, began)])
    case AppendReplay(seqs) => DoExpandReplay(s, x, seqs)
    case AbortReplay => s.(replayers := s.replayers - {x})
  }

  predicate CanApi(s: World, st: ApiStep) {
    match st
    case AddTenant(_) => true
    case Register(t, _, _, _) => t < |s.db.tenants|
    case Publish(t, key, eventType, sq) => CanPublish(s, t, key, eventType, sq)
    case AskReplay(e, _, from, until, began) => e < |s.db.endpoints| && from <= until && began <= s.clock
    case Pause(e) => e < |s.db.endpoints|
    case Resume(e) => e < |s.db.endpoints|
    case Rotate(e, _, _) => e < |s.db.endpoints|
  }

  function DoApi(s: World, st: ApiStep): World
    requires CanApi(s, st)
  {
    match st
    case AddTenant(lockKey) => s.(db := s.db.(tenants := s.db.tenants + [Tenant(lockKey, None)]))
    case Register(t, types, secret, conforming) =>
      s.(db := s.db.(endpoints := s.db.endpoints + [NewEndpoint(t, types, secret)]),
         receivers := s.receivers + [if conforming then Some(Receiver({}, map[], [])) else None])
    case Publish(t, key, eventType, sq) => s.(db := PublishEvent(s.db, t, key, eventType, sq).0)
    case AskReplay(e, key, from, until, began) => s.(db := RequestReplay(s.db, e, key, from, until, began).0)
    case Pause(e) => s.(db := PauseEndpoint(s.db, e))
    case Resume(e) => s.(db := ResumeEndpoint(s.db, e))
    case Rotate(e, secret, expiresAt) => s.(db := RotateSecret(s.db, e, secret, expiresAt))
  }

  ghost predicate Enabled(cfg: Config, s: World, st: Step) {
    match st
    case Tick(to) => s.clock <= to
    case Work(w, work) => CanWork(cfg, s, w, work)
    case Receive(a, _) => CanReceive(s, a)
    case Transact(x, tx) => CanTransact(s, x, tx)
    case Api(api) => CanApi(s, api)
  }

  ghost function Apply(cfg: Config, s: World, st: Step): World
    requires Enabled(cfg, s, st)
  {
    match st
    case Tick(to) => s.(clock := to)
    case Work(w, work) => DoWork(cfg, s, w, work)
    case Receive(a, ok) => DoReceive(s, a, ok)
    case Transact(x, tx) => DoTransact(s, x, tx)
    case Api(api) => DoApi(s, api)
  }

  predicate Init(s: World) {
    && |s.db.tenants| == 0 && |s.db.endpoints| == 0 && |s.db.events| == 0 && |s.db.deliveries| == 0 && |s.db.attempts| == 0 && |s.db.replays| == 0
    && s.workers == map[] && s.expanders == map[] && s.replayers == map[] && s.wire == {} && s.replies == {} && |s.receivers| == 0
  }

  // -------------------------------------------------------------------- runs

  ghost predicate IsRun(cfg: Config, s: World, steps: seq<Step>)
    decreases |steps|
  {
    steps == [] || (Enabled(cfg, s, steps[0]) && IsRun(cfg, Apply(cfg, s, steps[0]), steps[1..]))
  }

  /** The state a run ends in. */
  ghost function After(cfg: Config, s: World, steps: seq<Step>): World
    requires IsRun(cfg, s, steps)
    decreases |steps|
  {
    if steps == [] then s else After(cfg, Apply(cfg, s, steps[0]), steps[1..])
  }

  ghost predicate Reachable(cfg: Config, s: World) {
    exists s0: World, steps: seq<Step> :: Init(s0) && IsRun(cfg, s0, steps) && After(cfg, s0, steps) == s
  }
}
