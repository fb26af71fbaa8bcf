/** The invariant of the attempt history: numbering, accounting, closing, and the order in which
    an endpoint's deliveries are attempted. */
module AttemptInvariant {
  import opened Tables
  import opened Protocol
  import opened LeaseInvariant

  /** The numbers of the attempts of delivery `d` that its worker went on to send, in table order. */
  function SentNumbers(at: seq<Attempt>, d: nat): seq<nat> {
    if |at| == 0 then []
    else
      var last := at[|at| - 1];
      SentNumbers(at[..|at| - 1], d) + if last.delivery == d && last.sent then [last.number] else []
  }

  function UpTo(n: nat): seq<nat> {
    seq(n, i requires 0 <= i < n => i + 1)
  }

  predicate Won(a: Attempt) {
    a.outcome.Closed? && IsSuccess(a.outcome.reply)
  }

  /** The sum of the backoff ceilings of attempts 1..n. */
  function CeilingSum(cfg: Config, n: int): nat {
    if n <= 0 then 0 else CeilingSum(cfg, n - 1) + Ceiling(cfg, n)
  }

  predicate Accounted(cfg: Config, d: Delivery) {
    && d.attemptCount == d.retries + d.expiries + (if d.state == Pending then 0 else 1)
    && d.retries < Max(1, cfg.maxAttempts)
    && d.scheduled <= CeilingSum(cfg, Min(d.attemptCount - (if d.state == InFlight then 1 else 0), cfg.maxAttempts - 1))
  }

  ghost predicate NumberingOk(ds: seq<Delivery>, at: seq<Attempt>) {
    && (forall d :: 0 <= d < |ds| ==> SentNumbers(at, d) == UpTo(ds[d].attemptCount))
    && (forall a :: 0 <= a < |at| ==> at[a].delivery < |ds| && at[a].number >= 1)
    && (forall a :: 0 <= a < |at| && at[a].sent ==> at[a].number <= ds[at[a].delivery].attemptCount)
    && (forall a, b :: 0 <= a < b < |at| && at[a].delivery == at[b].delivery && at[a].sent && at[b].sent ==> at[a].number < at[b].number)
  }

  /** An attempt that was not sent carries the number of one that was, or the number of the next one of
      a pending delivery. */
  ghost predicate UnsentOk(ds: seq<Delivery>, at: seq<Attempt>) {
    forall a :: 0 <= a < |at| && !at[a].sent ==>
      && at[a].delivery < |ds|
      && at[a].number <= ds[at[a].delivery].attemptCount + (if ds[at[a].delivery].state == Pending then 1 else 0)
  }

  /** An attempt still open was sent for the delivery in flight, or was never sent. */
  ghost predicate OpenOk(ds: seq<Delivery>, at: seq<Attempt>) {
    && (forall a :: 0 <= a < |at| ==> at[a].delivery < |ds|)
    && (forall a :: 0 <= a < |at| && !at[a].sent ==> !at[a].outcome.Closed?)
    && (forall a :: 0 <= a < |at| && at[a].sent && at[a].outcome == Open ==>
          ds[at[a].delivery].state == InFlight && at[a].number == ds[at[a].delivery].attemptCount)
  }

  /** A delivery succeeded exactly when one attempt of it, and only one, got a 2xx. */
  ghost predicate WinsOk(ds: seq<Delivery>, at: seq<Attempt>) {
    && (forall a :: 0 <= a < |at| ==> at[a].delivery < |ds|)
    && (forall a :: 0 <= a < |at| && Won(at[a]) ==> ds[at[a].delivery].state == Succeeded)
    && (forall a, b :: 0 <= a < |at| && 0 <= b < |at| && Won(at[a]) && Won(at[b]) && at[a].delivery == at[b].delivery ==> a == b)
    && (forall d :: 0 <= d < |ds| && ds[d].state == Succeeded ==> exists a :: 0 <= a < |at| && at[a].delivery == d && Won(at[a]))
  }

  ghost predicate InPublicationOrder(ds: seq<Delivery>, at: seq<Attempt>) {
    && (forall a :: 0 <= a < |at| ==> at[a].delivery < |ds|)
    && (forall a, i :: 0 <= a < |at| && 0 <= i < |ds| && ds[i].endpoint == ds[at[a].delivery].endpoint && ds[i].seqNo < ds[at[a].delivery].seqNo ==>
          Terminal(ds[i].state))
    && (forall a, b :: 0 <= a < b < |at| && ds[at[a].delivery].endpoint == ds[at[b].delivery].endpoint ==>
          ds[at[a].delivery].seqNo <= ds[at[b].delivery].seqNo)
  }

  ghost predicate AllAccounted(cfg: Config, ds: seq<Delivery>) {
    forall d :: 0 <= d < |ds| ==> Accounted(cfg, ds[d])
  }

  ghost predicate AttemptInv(cfg: Config, db: DB) {
    && NumberingOk(db.deliveries, db.attempts)
    && UnsentOk(db.deliveries, db.attempts)
    && AllAccounted(cfg, db.deliveries)
    && OpenOk(db.deliveries, db.attempts)
    && WinsOk(db.deliveries, db.attempts)
    && InPublicationOrder(db.deliveries, db.attempts)
  }

  // ------------------------------------------------------------- the numbers

  lemma {:induction false} SentNumbersSame(at: seq<Attempt>, at': seq<Attempt>, d: nat)
    requires |at| == |at'|
    requires forall a :: 0 <= a < |at| ==> at'[a].delivery == at[a].delivery && at'[a].sent == at[a].sent && at'[a].number == at[a].number
    ensures SentNumbers(at', d) == SentNumbers(at, d)
  {
    if |at| > 0 { SentNumbersSame(at[..|at| - 1], at'[..|at| - 1], d); }
  }

  /** Marking the last attempt of `d` as sent adds its number at the end. */
  lemma {:induction false} SentNumbersMark(at: seq<Attempt>, a: nat, d: nat)
    requires a < |at| && !at[a].sent
    requires forall b :: a < b < |at| && at[b].delivery == at[a].delivery ==> !at[b].sent
    ensures SentNumbers(at[a := at[a].(sent := true)], d) == SentNumbers(at, d) + if at[a].delivery == d then [at[a].number] else []
  {
    var n := |at| - 1;
    var at' := at[a := at[a].(sent := true)];
    if a == n {
      assert at'[..n] == at[..n];
    } else {
      SentNumbersMark(at[..n], a, d);
      assert at'[..n] == at[..n][a := at[a].(sent := true)];
    }
  }

  /** A delivery nobody attempted yet has no numbers. */
  lemma {:induction false} SentNumbersNone(at: seq<Attempt>, d: nat)
    requires forall a :: 0 <= a < |at| ==> at[a].delivery != d
    ensures SentNumbers(at, d) == []
  {
    if |at| > 0 { SentNumbersNone(at[..|at| - 1], d); }
  }

  lemma {:induction false} CeilingSumMonotone(cfg: Config, m: int, n: int)
    requires m <= n
    ensures CeilingSum(cfg, m) <= CeilingSum(cfg, n)
    decreases n - m
  {
    if m < n { CeilingSumMonotone(cfg, m, n - 1); }
  }

  // ------------------------------------------------------------------ frames

  /** Same rows up to state, outcome and schedule. */
  ghost predicate SameNumbers(ds: seq<Delivery>, at: seq<Attempt>, ds': seq<Delivery>, at': seq<Attempt>) {
    && |ds'| == |ds| && (forall d :: 0 <= d < |ds| ==> ds'[d].attemptCount == ds[d].attemptCount)
    && |at'| == |at|
    && (forall a :: 0 <= a < |at| ==> at'[a].delivery == at[a].delivery && at'[a].sent == at[a].sent && at'[a].number == at[a].number)
  }

  lemma NumberingFrame(ds: seq<Delivery>, at: seq<Attempt>, ds': seq<Delivery>, at': seq<Attempt>)
    requires NumberingOk(ds, at) && SameNumbers(ds, at, ds', at')
    ensures NumberingOk(ds', at')
  {
    forall d | 0 <= d < |ds'| ensures SentNumbers(at', d) == UpTo(ds'[d].attemptCount) {
      SentNumbersSame(at, at', d);
    }
  }

  /** Queue positions stay, and what was resolved stays resolved. */
  ghost predicate SameOrder(ds: seq<Delivery>, ds': seq<Delivery>) {
    && |ds'| == |ds|
    && (forall d :: 0 <= d < |ds| ==>
          ds'[d].endpoint == ds[d].endpoint && ds'[d].seqNo == ds[d].seqNo && (Terminal(ds[d].state) ==> Terminal(ds'[d].state)))
  }

  lemma OrderFrame(ds: seq<Delivery>, at: seq<Attempt>, ds': seq<Delivery>, at': seq<Attempt>)
    requires InPublicationOrder(ds, at) && SameOrder(ds, ds')
    requires |at'| == |at| && forall a :: 0 <= a < |at| ==> at'[a].delivery == at[a].delivery
    ensures InPublicationOrder(ds', at')
  {
  }

  lemma WinsFrame(ds: seq<Delivery>, at: seq<Attempt>, ds': seq<Delivery>, at': seq<Attempt>)
    requires WinsOk(ds, at) && |ds'| == |ds| && |at'| == |at|
    requires forall a :: 0 <= a < |at| ==> at'[a].delivery == at[a].delivery && (Won(at'[a]) <==> Won(at[a]))
    requires forall d :: 0 <= d < |ds| ==> (ds'[d].state == Succeeded <==> ds[d].state == Succeeded)
    ensures WinsOk(ds', at')
  {
    forall d | 0 <= d < |ds'| && ds'[d].state == Succeeded
      ensures exists a :: 0 <= a < |at'| && at'[a].delivery == d && Won(at'[a])
    {
      var a :| 0 <= a < |at| && at[a].delivery == d && Won(at[a]);
      assert Won(at'[a]);
    }
  }

  // ---------------------------------------------------------------- the steps

  lemma CloseOrphansKeepsAttempts(cfg: Config, db: DB, e: nat)
    requires AttemptInv(cfg, db)
    ensures AttemptInv(cfg, CloseOrphans(db, e))
  {
    var ds, at, at' := db.deliveries, db.attempts, CloseOrphans(db, e).attempts;
    assert forall a :: 0 <= a < |at| ==> at'[a] == at[a] || (at[a].outcome == Open && at'[a] == at[a].(outcome := LeaseExpired));
    NumberingFrame(ds, at, ds, at');
    OrderFrame(ds, at, ds, at');
    WinsFrame(ds, at, ds, at');
    assert OpenOk(ds, at') && UnsentOk(ds, at');
  }

  lemma RequeueKeepsAttempts(cfg: Config, db: DB, e: nat)
    requires AttemptInv(cfg, db) && OrphansClosed(db, e)
    ensures AttemptInv(cfg, RequeueInFlight(db, e))
  {
    var ds, at, ds' := db.deliveries, db.attempts, RequeueInFlight(db, e).deliveries;
    assert forall i :: 0 <= i < |ds| ==> ds'[i] == Requeued(ds[i], e);
    RequeueOpen(db, e);
    hide NumberingOk, UnsentOk, OpenOk, WinsOk, InPublicationOrder, AllAccounted, OrphansClosed;
    NumberingFrame(ds, at, ds', at);
    OrderFrame(ds, at, ds', at);
    WinsFrame(ds, at, ds', at);
    RequeueAccounts(cfg, ds, ds', e);
  }

  lemma RequeueOpen(db: DB, e: nat)
    requires OpenOk(db.deliveries, db.attempts) && UnsentOk(db.deliveries, db.attempts) && OrphansClosed(db, e)
    ensures OpenOk(RequeueInFlight(db, e).deliveries, db.attempts) && UnsentOk(RequeueInFlight(db, e).deliveries, db.attempts)
  {
    var ds, ds' := db.deliveries, RequeueInFlight(db, e).deliveries;
    assert forall i :: 0 <= i < |ds| ==> ds'[i] == Requeued(ds[i], e);
    assert forall a :: 0 <= a < |db.attempts| && db.attempts[a].sent ==> !OrphanOf(db, db.attempts[a], e);
  }

  lemma RequeueAccounts(cfg: Config, ds: seq<Delivery>, ds': seq<Delivery>, e: nat)
    requires AllAccounted(cfg, ds) && |ds'| == |ds| && forall i :: 0 <= i < |ds| ==> ds'[i] == Requeued(ds[i], e)
    ensures AllAccounted(cfg, ds')
  {
    forall i | 0 <= i < |ds| ensures Accounted(cfg, ds'[i]) {
      assert Accounted(cfg, ds[i]);
      CeilingSumMonotone(cfg, Min(ds[i].attemptCount - 1, cfg.maxAttempts - 1), Min(ds[i].attemptCount, cfg.maxAttempts - 1));
    }
  }

  lemma InsertKeepsAttempts(cfg: Config, db: DB, d: nat, number: nat)
    requires AttemptInv(cfg, db) && AtHead(db.deliveries, d) && number == db.deliveries[d].attemptCount + 1
    ensures AttemptInv(cfg, InsertAttempt(db, d, number))
  {
    var a := Attempt(d, number, Open, false);
    InsertNumbers(db.deliveries, db.attempts, a);
    InsertWins(db.deliveries, db.attempts, a);
    InsertOrder(db.deliveries, db.attempts, a);
    assert OpenOk(db.deliveries, db.attempts + [a]) && UnsentOk(db.deliveries, db.attempts + [a]);
  }

  lemma InsertNumbers(ds: seq<Delivery>, at: seq<Attempt>, a: Attempt)
    requires NumberingOk(ds, at) && a.delivery < |ds| && a.number >= 1 && !a.sent
    ensures NumberingOk(ds, at + [a])
  {
    var at' := at + [a];
    forall i | 0 <= i < |ds| ensures SentNumbers(at', i) == UpTo(ds[i].attemptCount) {
      assert at'[..|at|] == at;
    }
  }

  lemma InsertWins(ds: seq<Delivery>, at: seq<Attempt>, a: Attempt)
    requires WinsOk(ds, at) && a.delivery < |ds| && a.outcome == Open
    ensures WinsOk(ds, at + [a])
  {
    var at' := at + [a];
    forall i | 0 <= i < |ds| && ds[i].state == Succeeded
      ensures exists b :: 0 <= b < |at'| && at'[b].delivery == i && Won(at'[b])
    {
      var b :| 0 <= b < |at| && at[b].delivery == i && Won(at[b]);
      assert Won(at'[b]);
    }
  }

  /** A new attempt for the head comes after every attempt for an earlier delivery. */
  lemma InsertOrder(ds: seq<Delivery>, at: seq<Attempt>, a: Attempt)
    requires InPublicationOrder(ds, at) && AtHead(ds, a.delivery)
    ensures InPublicationOrder(ds, at + [a])
  {
    assert forall b :: 0 <= b < |at| && ds[at[b].delivery].endpoint == ds[a.delivery].endpoint ==> ds[at[b].delivery].seqNo <= ds[a.delivery].seqNo;
  }

  lemma MarkKeepsAttempts(cfg: Config, db: DB, c: Claim)
    requires AttemptInv(cfg, db) && InsertedOk(db, c) && AtHead(db.deliveries, c.delivery)
    requires c.number == db.deliveries[c.delivery].attemptCount + 1
    ensures AttemptInv(cfg, MarkInFlight(db, c.delivery, c.number, c.attempt))
  {
    hide NumberingOk, UnsentOk, OpenOk, AllAccounted;
    var db' := MarkInFlight(db, c.delivery, c.number, c.attempt);
    MarkNumbers(db, c);
    MarkOpen(db, c);
    WinsFrame(db.deliveries, db.attempts, db'.deliveries, db'.attempts);
    OrderFrame(db.deliveries, db.attempts, db'.deliveries, db'.attempts);
    MarkAccounts(cfg, db, c);
    MarkUnsent(db, c);
    hide NumberingOk, UnsentOk, OpenOk, WinsOk, InPublicationOrder, AllAccounted;
  }

  lemma MarkUnsent(db: DB, c: Claim)
    requires UnsentOk(db.deliveries, db.attempts) && InsertedOk(db, c) && c.delivery < |db.deliveries|
    requires c.number == db.deliveries[c.delivery].attemptCount + 1
    ensures var db' := MarkInFlight(db, c.delivery, c.number, c.attempt); UnsentOk(db'.deliveries, db'.attempts)
  {
  }

  lemma MarkNumbers(db: DB, c: Claim)
    requires NumberingOk(db.deliveries, db.attempts) && InsertedOk(db, c) && c.delivery < |db.deliveries|
    requires c.number == db.deliveries[c.delivery].attemptCount + 1
    ensures var db' := MarkInFlight(db, c.delivery, c.number, c.attempt); NumberingOk(db'.deliveries, db'.attempts)
  {
    var db' := MarkInFlight(db, c.delivery, c.number, c.attempt);
    forall i | 0 <= i < |db.deliveries| ensures SentNumbers(db'.attempts, i) == UpTo(db'.deliveries[i].attemptCount) {
      SentNumbersMark(db.attempts, c.attempt, i);
      assert UpTo(c.number) == UpTo(c.number - 1) + [c.number];
    }
  }

  lemma MarkOpen(db: DB, c: Claim)
    requires OpenOk(db.deliveries, db.attempts) && InsertedOk(db, c) && c.delivery < |db.deliveries| && db.deliveries[c.delivery].state == Pending
    ensures var db' := MarkInFlight(db, c.delivery, c.number, c.attempt); OpenOk(db'.deliveries, db'.attempts)
  {
  }

  lemma MarkAccounts(cfg: Config, db: DB, c: Claim)
    requires AllAccounted(cfg, db.deliveries) && c.delivery < |db.deliveries| && c.attempt < |db.attempts| && db.deliveries[c.delivery].state == Pending
    requires c.number == db.deliveries[c.delivery].attemptCount + 1
    ensures AllAccounted(cfg, MarkInFlight(db, c.delivery, c.number, c.attempt).deliveries)
  {
    assert Accounted(cfg, db.deliveries[c.delivery]);
  }

  lemma WriteBackKeepsAttempts(cfg: Config, db: DB, c: Claim, reply: Reply, now: Time, delay: nat)
    requires AttemptInv(cfg, db) && SendingOk(db, c) && HoldsLease(db, c.endpoint, c.lease)
    requires c.number >= 1 && PossibleDelay(cfg, c.number, delay)
    ensures AttemptInv(cfg, WriteBack(db, cfg, c, reply, now, delay).0)
  {
    WriteBackAccounts(cfg, db, c, reply, now, delay);
    WriteBackWins(cfg, db, c, reply, now, delay);
    WriteBackKeepsOrder(cfg, db, c, reply, now, delay);
    WriteBackOpen(cfg, db, c, reply, now, delay);
    WriteBackUnsent(cfg, db, c, reply, now, delay);
    hide NumberingOk, UnsentOk, OpenOk, WinsOk, InPublicationOrder, AllAccounted, WriteBack;
  }

  lemma WriteBackKeepsOrder(cfg: Config, db: DB, c: Claim, reply: Reply, now: Time, delay: nat)
    requires NumberingOk(db.deliveries, db.attempts) && InPublicationOrder(db.deliveries, db.attempts)
    requires SendingOk(db, c) && HoldsLease(db, c.endpoint, c.lease)
    ensures var db' := WriteBack(db, cfg, c, reply, now, delay).0;
            NumberingOk(db'.deliveries, db'.attempts) && InPublicationOrder(db'.deliveries, db'.attempts)
  {
    var db' := WriteBack(db, cfg, c, reply, now, delay).0;
    WriteBackRowsChanged(db, cfg, c, reply, now, delay);
    assert db'.deliveries[c.delivery].attemptCount == c.number;
    hide WriteBack, NumberingOk, InPublicationOrder;
    NumberingFrame(db.deliveries, db.attempts, db'.deliveries, db'.attempts);
    OrderFrame(db.deliveries, db.attempts, db'.deliveries, db'.attempts);
  }

  lemma WriteBackOpen(cfg: Config, db: DB, c: Claim, reply: Reply, now: Time, delay: nat)
    requires NumberingOk(db.deliveries, db.attempts) && OpenOk(db.deliveries, db.attempts) && SendingOk(db, c) && HoldsLease(db, c.endpoint, c.lease)
    ensures var db' := WriteBack(db, cfg, c, reply, now, delay).0; OpenOk(db'.deliveries, db'.attempts)
  {
    WriteBackRowsChanged(db, cfg, c, reply, now, delay);
    OneOpenAttempt(db, c);
    hide WriteBack, NumberingOk;
  }

  lemma WriteBackUnsent(cfg: Config, db: DB, c: Claim, reply: Reply, now: Time, delay: nat)
    requires UnsentOk(db.deliveries, db.attempts) && SendingOk(db, c) && HoldsLease(db, c.endpoint, c.lease)
    ensures var db' := WriteBack(db, cfg, c, reply, now, delay).0; UnsentOk(db'.deliveries, db'.attempts)
  {
    WriteBackRowsChanged(db, cfg, c, reply, now, delay);
    assert WriteBack(db, cfg, c, reply, now, delay).0.deliveries[c.delivery].attemptCount == c.number;
    hide WriteBack;
  }

  /** A write-back records a 2xx exactly when it marks the delivery succeeded. */
  lemma WriteBackWins(cfg: Config, db: DB, c: Claim, reply: Reply, now: Time, delay: nat)
    requires WinsOk(db.deliveries, db.attempts) && SendingOk(db, c) && HoldsLease(db, c.endpoint, c.lease)
    ensures var db' := WriteBack(db, cfg, c, reply, now, delay).0; WinsOk(db'.deliveries, db'.attempts)
  {
    var db' := WriteBack(db, cfg, c, reply, now, delay).0;
    WriteBackRowsChanged(db, cfg, c, reply, now, delay);
    assert Won(db'.attempts[c.attempt]) <==> db'.deliveries[c.delivery].state == Succeeded;
    hide WriteBack;
    if IsSuccess(reply) {
      WinsAdded(db.deliveries, db.attempts, c.delivery, c.attempt, db'.deliveries, db'.attempts);
    } else {
      WinsFrame(db.deliveries, db.attempts, db'.deliveries, db'.attempts);
    }
  }

  lemma WinsAdded(ds: seq<Delivery>, at: seq<Attempt>, d: nat, a: nat, ds': seq<Delivery>, at': seq<Attempt>)
    requires WinsOk(ds, at) && d < |ds| && a < |at| && at[a].delivery == d && ds[d].state != Succeeded
    requires |ds'| == |ds| && |at'| == |at| && ds'[d].state == Succeeded && at'[a].delivery == d && Won(at'[a])
    requires forall i :: 0 <= i < |ds| && i != d ==> ds'[i] == ds[i]
    requires forall b :: 0 <= b < |at| && b != a ==> at'[b] == at[b]
    ensures WinsOk(ds', at')
  {
    forall i | 0 <= i < |ds'| && ds'[i].state == Succeeded
      ensures exists b :: 0 <= b < |at'| && at'[b].delivery == i && Won(at'[b])
    {
      if i == d {
        assert at'[a].delivery == i;
      } else {
        var b :| 0 <= b < |at| && at[b].delivery == i && Won(at[b]);
        assert at'[b] == at[b];
      }
    }
  }

  /** The claim's attempt is the only sent attempt of its delivery still open. */
  lemma OneOpenAttempt(db: DB, c: Claim)
    requires NumberingOk(db.deliveries, db.attempts) && OpenOk(db.deliveries, db.attempts) && SendingOk(db, c)
    ensures forall a :: 0 <= a < |db.attempts| && db.attempts[a].delivery == c.delivery && db.attempts[a].sent && db.attempts[a].outcome == Open ==> a == c.attempt
  {
  }

  lemma WriteBackAccounts(cfg: Config, db: DB, c: Claim, reply: Reply, now: Time, delay: nat)
    requires SendingOk(db, c) && HoldsLease(db, c.endpoint, c.lease) && AllAccounted(cfg, db.deliveries)
    requires c.number >= 1 && PossibleDelay(cfg, c.number, delay)
    ensures var db' := WriteBack(db, cfg, c, reply, now, delay).0;
            AllAccounted(cfg, db'.deliveries)
  {
    var db' := WriteBack(db, cfg, c, reply, now, delay).0;
    WriteBackRowsChanged(db, cfg, c, reply, now, delay);
    CeilingSumMonotone(cfg, Min(c.number - 1, cfg.maxAttempts - 1), Min(c.number, cfg.maxAttempts - 1));
    assert Accounted(cfg, db.deliveries[c.delivery]);
    assert Accounted(cfg, db'.deliveries[c.delivery]);
  }

  lemma AppendKeepsAttempts(cfg: Config, db: DB, rows: seq<Delivery>)
    requires AttemptInv(cfg, db) && CommitInOrder(db.deliveries, rows)
    requires forall k :: 0 <= k < |rows| ==>
               rows[k].state == Pending && rows[k].attemptCount == 0 && rows[k].retries == 0 && rows[k].expiries == 0 && rows[k].scheduled == 0
    ensures AttemptInv(cfg, db.(deliveries := db.deliveries + rows))
  {
    AppendNumbers(db.deliveries, db.attempts, rows);
    AppendRest(cfg, db.deliveries, db.attempts, rows);
    AppendOrder(db.deliveries, db.attempts, rows);
    assert UnsentOk(db.deliveries + rows, db.attempts) by { hide NumberingOk, OpenOk, WinsOk, InPublicationOrder, AllAccounted; }
  }

  lemma AppendNumbers(ds: seq<Delivery>, at: seq<Attempt>, rows: seq<Delivery>)
    requires NumberingOk(ds, at) && forall k :: 0 <= k < |rows| ==> rows[k].attemptCount == 0
    ensures NumberingOk(ds + rows, at)
  {
    var ds' := ds + rows;
    forall d | 0 <= d < |ds'| ensures SentNumbers(at, d) == UpTo(ds'[d].attemptCount) {
      if d >= |ds| { SentNumbersNone(at, d); }
    }
  }

  lemma AppendRest(cfg: Config, ds: seq<Delivery>, at: seq<Attempt>, rows: seq<Delivery>)
    requires AllAccounted(cfg, ds) && OpenOk(ds, at) && WinsOk(ds, at)
    requires forall k :: 0 <= k < |rows| ==>
               rows[k].state == Pending && rows[k].attemptCount == 0 && rows[k].retries == 0 && rows[k].expiries == 0 && rows[k].scheduled == 0
    ensures AllAccounted(cfg, ds + rows) && OpenOk(ds + rows, at) && WinsOk(ds + rows, at)
  {
  }

  lemma AppendOrder(ds: seq<Delivery>, at: seq<Attempt>, rows: seq<Delivery>)
    requires InPublicationOrder(ds, at) && CommitInOrder(ds, rows)
    ensures InPublicationOrder(ds + rows, at)
  {
    var ds' := ds + rows;
    assert forall i :: 0 <= i < |ds| ==> ds'[i] == ds[i];
    assert forall i :: |ds| <= i < |ds'| ==> ds'[i] == rows[i - |ds|];
  }
}
