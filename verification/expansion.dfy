/** The invariants of publishing, fan-out and replay: an event or replay is expanded exactly once,
    and live deliveries follow publication order. */
module ExpansionInvariant {
  import opened Tables
  import opened Protocol

  predicate Subscribed(db: DB, ev: nat, e: nat)
    requires ev < |db.events|
  {
    e < db.events[ev].registered && e < |db.endpoints| && Subscribes(db.endpoints[e], db.events[ev].tenant, db.events[ev].eventType)
  }

  /** `i` is the row event `ev` fanned out to endpoint `e`. */
  predicate LiveRow(ds: seq<Delivery>, i: nat, ev: nat, e: nat) {
    i < |ds| && ds[i].origin == FromEvent && ds[i].event == ev && ds[i].endpoint == e
  }

  ghost predicate FanOutOk(db: DB) {
    && (forall i :: 0 <= i < |db.deliveries| ==> db.deliveries[i].event < |db.events|)
    && (forall ev :: 0 <= ev < |db.events| ==> db.events[ev].registered <= |db.endpoints|)
    && (forall i :: 0 <= i < |db.deliveries| && db.deliveries[i].origin == FromEvent ==>
          db.events[db.deliveries[i].event].status == Expanded && Subscribed(db, db.deliveries[i].event, db.deliveries[i].endpoint))
    && (forall i: nat, j: nat, ev: nat, e: nat :: LiveRow(db.deliveries, i, ev, e) && LiveRow(db.deliveries, j, ev, e) ==> i == j)
    && (forall ev, e: nat :: 0 <= ev < |db.events| && db.events[ev].status == Expanded && Subscribed(db, ev, e) ==>
          exists i :: LiveRow(db.deliveries, i, ev, e))
  }

  /** Every delivery goes back to a live one of the same event on the same endpoint. */
  ghost predicate RootedOk(ds: seq<Delivery>) {
    forall i :: 0 <= i < |ds| ==> Rooted(ds, ds[i].event, ds[i].endpoint)
  }

  ghost predicate Rooted(ds: seq<Delivery>, ev: nat, e: nat) {
    exists j: nat :: LiveRow(ds, j, ev, e)
  }

  /** Live deliveries of an endpoint come in the order their events were published. */
  ghost predicate LiveOrder(db: DB) {
    && (forall i :: 0 <= i < |db.deliveries| ==> db.deliveries[i].event < |db.events|)
    && forall i, j :: 0 <= i < |db.deliveries| && 0 <= j < |db.deliveries| && db.deliveries[i].endpoint == db.deliveries[j].endpoint
                      && db.deliveries[i].origin == FromEvent && db.deliveries[j].origin == FromEvent && db.deliveries[i].seqNo < db.deliveries[j].seqNo ==>
                        db.events[db.deliveries[i].event].seqNo < db.events[db.deliveries[j].event].seqNo
  }

  ghost predicate PublishOk(db: DB) {
    && (forall i, j :: 0 <= i < j < |db.events| && db.events[i].tenant == db.events[j].tenant ==>
          db.events[i].seqNo < db.events[j].seqNo && db.events[i].key != db.events[j].key)
    && (forall i, j :: 0 <= i < |db.events| && 0 <= j < |db.events| && db.events[i].tenant == db.events[j].tenant
                       && db.events[i].status == Expanded && db.events[j].status == PendingExpansion ==>
          db.events[i].seqNo < db.events[j].seqNo)
  }

  /** What an expansion transaction has read. */
  ghost predicate ExpanderOk(db: DB, x: Expander) {
    && x.tenant < |db.tenants|
    && (x.event.Some? ==>
          && x.event.value < |db.events| && db.events[x.event.value].tenant == x.tenant && db.events[x.event.value].status == PendingExpansion
          && forall i :: 0 <= i < |db.events| && db.events[i].tenant == x.tenant && db.events[i].status == PendingExpansion ==>
               db.events[x.event.value].seqNo <= db.events[i].seqNo)
  }

  ghost predicate ExpandersOk(s: World) {
    && (forall x :: x in s.expanders ==> ExpanderOk(s.db, s.expanders[x]))
    && (forall x, y :: x in s.expanders && y in s.expanders && x != y ==>
          s.db.tenants[s.expanders[x].tenant].lockKey != s.db.tenants[s.expanders[y].tenant].lockKey)
  }

  /** The event ids replay `r` appended, in table order. */
  function Batch(ds: seq<Delivery>, r: nat): seq<nat> {
    if |ds| == 0 then []
    else
      var last := ds[|ds| - 1];
      Batch(ds[..|ds| - 1], r) + if last.origin == FromReplay(r) then [last.event] else []
  }

  ghost predicate ReplayOk(db: DB) {
    && (forall r :: 0 <= r < |db.replays| ==> db.replays[r].endpoint < |db.endpoints|)
    && (forall i, j :: 0 <= i < j < |db.replays| && db.replays[i].endpoint == db.replays[j].endpoint ==> db.replays[i].key != db.replays[j].key)
    && (forall i :: 0 <= i < |db.deliveries| && db.deliveries[i].origin.FromReplay? ==>
          db.deliveries[i].origin.replay < |db.replays| && db.replays[db.deliveries[i].origin.replay].endpoint == db.deliveries[i].endpoint)
    && (forall r :: 0 <= r < |db.replays| ==>
          Batch(db.deliveries, r) == db.replays[r].batch && (db.replays[r].status == PendingExpansion ==> db.replays[r].batch == []))
  }

  ghost predicate ReplayersOk(s: World) {
    && (forall x :: x in s.replayers ==> s.replayers[x].replay < |s.db.replays| && s.db.replays[s.replayers[x].replay].status == PendingExpansion)
    && (forall x, y :: x in s.replayers && y in s.replayers && x != y ==> s.replayers[x].replay != s.replayers[y].replay)
  }

  ghost predicate ExpansionInv(s: World) {
    FanOutOk(s.db) && RootedOk(s.db.deliveries) && LiveOrder(s.db) && PublishOk(s.db) && ExpandersOk(s) && ReplayOk(s.db) && ReplayersOk(s)
  }

  // ------------------------------------------------------------------ frames

  predicate SameStatic(d: Delivery, d': Delivery) {
    d'.event == d.event && d'.endpoint == d.endpoint && d'.seqNo == d.seqNo && d'.createdAt == d.createdAt && d'.origin == d.origin
  }

  ghost predicate SameQueues(ds: seq<Delivery>, ds': seq<Delivery>) {
    |ds'| == |ds| && forall i :: 0 <= i < |ds| ==> SameStatic(ds[i], ds'[i])
  }

  /** Tenants and endpoints may be added and updated, but not change hands or subscriptions. */
  ghost predicate SameCatalog(db: DB, db': DB) {
    && |db'.tenants| >= |db.tenants| && (forall t :: 0 <= t < |db.tenants| ==> db'.tenants[t].lockKey == db.tenants[t].lockKey)
    && |db'.endpoints| >= |db.endpoints|
    && (forall e :: 0 <= e < |db.endpoints| ==>
          db'.endpoints[e].tenant == db.endpoints[e].tenant && db'.endpoints[e].eventTypes == db.endpoints[e].eventTypes)
    && db'.events == db.events
  }

  lemma {:induction false} BatchSame(ds: seq<Delivery>, ds': seq<Delivery>, r: nat)
    requires SameQueues(ds, ds')
    ensures Batch(ds', r) == Batch(ds, r)
  {
    if |ds| > 0 {
      BatchSame(ds[..|ds| - 1], ds'[..|ds| - 1], r);
      assert SameStatic(ds[|ds| - 1], ds'[|ds| - 1]);
    }
  }

  lemma {:induction false} BatchAppend(ds: seq<Delivery>, rows: seq<Delivery>, r: nat)
    ensures Batch(ds + rows, r) == Batch(ds, r) + Batch(rows, r)
  {
    if |rows| == 0 {
      assert ds + rows == ds;
    } else {
      var n := |rows| - 1;
      BatchAppend(ds, rows[..n], r);
      assert (ds + rows)[..|ds + rows| - 1] == ds + rows[..n];
    }
  }

  lemma {:induction false} BatchOfOther(rows: seq<Delivery>, r: nat)
    requires forall k :: 0 <= k < |rows| ==> rows[k].origin != FromReplay(r)
    ensures Batch(rows, r) == []
  {
    if |rows| > 0 { BatchOfOther(rows[..|rows| - 1], r); }
  }

  lemma {:induction false} BatchOfOwn(rows: seq<Delivery>, events: seq<nat>, r: nat)
    requires |rows| == |events| && forall k :: 0 <= k < |rows| ==> rows[k].origin == FromReplay(r) && rows[k].event == events[k]
    ensures Batch(rows, r) == events
  {
    if |rows| > 0 {
      var n := |rows| - 1;
      BatchOfOwn(rows[..n], events[..n], r);
      assert events == events[..n] + [events[n]];
    }
  }

  lemma FanOutFrame(db: DB, db': DB)
    requires FanOutOk(db) && SameCatalog(db, db') && SameQueues(db.deliveries, db'.deliveries)
    ensures FanOutOk(db')
  {
    var ds, ds' := db.deliveries, db'.deliveries;
    assert forall i: nat :: i < |ds| ==> SameStatic(ds[i], ds'[i]);
    assert forall i: nat, ev: nat, e: nat :: LiveRow(ds', i, ev, e) <==> LiveRow(ds, i, ev, e);
    forall ev, e: nat | 0 <= ev < |db'.events| && db'.events[ev].status == Expanded && Subscribed(db', ev, e)
      ensures exists i :: LiveRow(ds', i, ev, e)
    {
      assert Subscribed(db, ev, e);
      var i :| LiveRow(ds, i, ev, e);
      assert LiveRow(ds', i, ev, e);
    }
  }

  lemma RootedFrame(ds: seq<Delivery>, ds': seq<Delivery>)
    requires RootedOk(ds) && SameQueues(ds, ds')
    ensures RootedOk(ds')
  {
    forall i | 0 <= i < |ds'| ensures Rooted(ds', ds'[i].event, ds'[i].endpoint) {
      assert SameStatic(ds[i], ds'[i]) && Rooted(ds, ds[i].event, ds[i].endpoint);
      var j: nat :| LiveRow(ds, j, ds[i].event, ds[i].endpoint);
      assert SameStatic(ds[j], ds'[j]);
      assert LiveRow(ds', j, ds'[i].event, ds'[i].endpoint);
    }
  }

  /** Appended rows that are live, or copies of rows there, keep this so. */
  lemma RootedAppend(ds: seq<Delivery>, rows: seq<Delivery>)
    requires RootedOk(ds)
    requires forall k :: 0 <= k < |rows| ==> rows[k].origin == FromEvent || Rooted(ds, rows[k].event, rows[k].endpoint)
    ensures RootedOk(ds + rows)
  {
    var ds' := ds + rows;
    forall i | 0 <= i < |ds'| ensures Rooted(ds', ds'[i].event, ds'[i].endpoint) {
      if i >= |ds| && rows[i - |ds|].origin == FromEvent {
        assert LiveRow(ds', i, ds'[i].event, ds'[i].endpoint);
      } else {
        assert Rooted(ds, ds'[i].event, ds'[i].endpoint);
        var j: nat :| LiveRow(ds, j, ds'[i].event, ds'[i].endpoint);
        assert LiveRow(ds', j, ds'[i].event, ds'[i].endpoint);
      }
    }
  }

  lemma LiveOrderFrame(db: DB, db': DB)
    requires LiveOrder(db) && db'.events == db.events && SameQueues(db.deliveries, db'.deliveries)
    ensures LiveOrder(db')
  {
    assert forall i :: 0 <= i < |db.deliveries| ==> SameStatic(db.deliveries[i], db'.deliveries[i]);
  }

  lemma ReplayFrame(db: DB, db': DB)
    requires ReplayOk(db) && SameCatalog(db, db') && db'.replays == db.replays && SameQueues(db.deliveries, db'.deliveries)
    ensures ReplayOk(db')
  {
    assert forall i :: 0 <= i < |db.deliveries| ==> SameStatic(db.deliveries[i], db'.deliveries[i]);
    forall r | 0 <= r < |db.replays| ensures Batch(db'.deliveries, r) == Batch(db.deliveries, r) {
      BatchSame(db.deliveries, db'.deliveries, r);
    }
  }

  /** The delivery protocol and the catalogue API leave expansion alone. */
  lemma ExpansionFrame(s: World, s': World)
    requires ExpansionInv(s) && SameCatalog(s.db, s'.db) && SameQueues(s.db.deliveries, s'.db.deliveries)
    requires s'.expanders == s.expanders && s'.replayers == s.replayers && s'.db.replays == s.db.replays
    ensures ExpansionInv(s')
  {
    FanOutFrame(s.db, s'.db);
    RootedFrame(s.db.deliveries, s'.db.deliveries);
    LiveOrderFrame(s.db, s'.db);
    ReplayFrame(s.db, s'.db);
  }

  // ---------------------------------------------------------------- the steps

  lemma LockKeeps(s: World, x: nat, t: nat, began: Time)
    requires ExpandersOk(s) && CanLock(s, x, t, began)
    ensures ExpandersOk(s.(expanders := s.expanders[x := Expander(t, None, began)]))
  {
    var s' := s.(expanders := s.expanders[x := Expander(t, None, began)]);
    forall y | y in s'.expanders ensures ExpanderOk(s'.db, s'.expanders[y]) {
      if y != x { assert ExpanderOk(s.db, s.expanders[y]); }
    }
  }

  lemma ReadOldestKeeps(s: World, x: nat)
    requires ExpandersOk(s) && CanReadOldest(s, x)
    ensures ExpandersOk(DoReadOldest(s, x))
  {
    var s' := DoReadOldest(s, x);
    forall y | y in s'.expanders ensures ExpanderOk(s'.db, s'.expanders[y]) {
      assert ExpanderOk(s.db, s.expanders[y]);
    }
  }

  /** A transaction that ends takes its lock with it; the others keep theirs. */
  lemma FewerExpanders(s: World, s': World)
    requires ExpandersOk(s) && s'.db.tenants == s.db.tenants
    requires forall x :: x in s'.expanders ==> x in s.expanders && s'.expanders[x] == s.expanders[x] && ExpanderOk(s'.db, s.expanders[x])
    ensures ExpandersOk(s')
  {
  }

  lemma PublishKeeps(s: World, t: nat, key: string, eventType: string, sq: int)
    requires ExpansionInv(s) && CanPublish(s, t, key, eventType, sq)
    ensures ExpansionInv(s.(db := PublishEvent(s.db, t, key, eventType, sq).0))
  {
    if EventByKey(s.db.events, t, key).None? {
      var ev := Event(t, key, eventType, PendingExpansion, sq, 0);
      var s' := s.(db := s.db.(events := s.db.events + [ev]));
      PublishFanOut(s.db, s'.db, ev);
      PublishOrder(s.db, ev);
      forall x | x in s.expanders ensures ExpanderOk(s'.db, s.expanders[x]) {
        PublishExpander(s.db, s.expanders[x], ev);
      }
      hide FanOutOk, RootedOk, LiveOrder, PublishOk, ExpanderOk;
      FewerExpanders(s, s');
    }
  }

  lemma PublishOrder(db: DB, ev: Event)
    requires LiveOrder(db) && PublishOk(db) && ev.status == PendingExpansion
    requires forall i :: 0 <= i < |db.events| && db.events[i].tenant == ev.tenant ==> db.events[i].seqNo < ev.seqNo && db.events[i].key != ev.key
    ensures LiveOrder(db.(events := db.events + [ev])) && PublishOk(db.(events := db.events + [ev]))
  {
  }

  lemma PublishExpander(db: DB, x: Expander, ev: Event)
    requires ExpanderOk(db, x)
    requires forall i :: 0 <= i < |db.events| && db.events[i].tenant == ev.tenant ==> db.events[i].seqNo < ev.seqNo
    ensures ExpanderOk(db.(events := db.events + [ev]), x)
  {
  }

  lemma PublishFanOut(db: DB, db': DB, ev: Event)
    requires FanOutOk(db) && db' == db.(events := db.events + [ev]) && ev.status == PendingExpansion && ev.registered == 0
    ensures FanOutOk(db')
  {
    forall v, e: nat | 0 <= v < |db'.events| && db'.events[v].status == Expanded && Subscribed(db', v, e)
      ensures exists i :: LiveRow(db'.deliveries, i, v, e)
    {
      assert Subscribed(db, v, e);
    }
    forall i | 0 <= i < |db.deliveries| && db.deliveries[i].origin == FromEvent
      ensures Subscribed(db', db.deliveries[i].event, db.deliveries[i].endpoint)
    {
      assert Subscribed(db, db.deliveries[i].event, db.deliveries[i].endpoint);
    }
  }

  lemma RequestKeeps(s: World, e: nat, key: string, from: Time, until: Time, began: Time)
    requires ExpansionInv(s) && e < |s.db.endpoints|
    ensures ExpansionInv(s.(db := RequestReplay(s.db, e, key, from, until, began).0))
  {
    if ReplayByKey(s.db.replays, e, key).None? {
      var r := Replay(e, key, from, until, began, PendingExpansion, []);
      RequestReplays(s.db, r);
      RequestOthers(s, r);
      hide FanOutOk, RootedOk, LiveOrder, PublishOk, ExpandersOk, ReplayOk, ReplayersOk;
    }
  }

  lemma RequestOthers(s: World, r: Replay)
    requires FanOutOk(s.db) && LiveOrder(s.db) && PublishOk(s.db) && ExpandersOk(s) && ReplayersOk(s)
    ensures var s' := s.(db := s.db.(replays := s.db.replays + [r]));
            FanOutOk(s'.db) && LiveOrder(s'.db) && PublishOk(s'.db) && ExpandersOk(s') && ReplayersOk(s')
  {
    var s' := s.(db := s.db.(replays := s.db.replays + [r]));
    FanOutFrame(s.db, s'.db);
    LiveOrderFrame(s.db, s'.db);
    forall x | x in s.expanders ensures ExpanderOk(s'.db, s.expanders[x]) {
      assert ExpanderOk(s.db, s.expanders[x]);
    }
    FewerExpanders(s, s');
  }

  lemma RequestReplays(db: DB, r: Replay)
    requires ReplayOk(db) && r.endpoint < |db.endpoints| && r.status == PendingExpansion && r.batch == []
    requires forall i :: 0 <= i < |db.replays| && db.replays[i].endpoint == r.endpoint ==> db.replays[i].key != r.key
    ensures ReplayOk(db.(replays := db.replays + [r]))
  {
    BatchOfOther(db.deliveries, |db.replays|);
  }

  /** The transaction of the advisory lock: the tenant's oldest pending event, and no other
      transaction of that tenant. */
  lemma ExpandKeeps(s: World, x: nat, seqs: seq<int>)
    requires ExpansionInv(s) && CanExpand(s, x, seqs)
    ensures ExpansionInv(DoExpand(s, x, seqs))
  {
    var s' := DoExpand(s, x, seqs);
    var ev := s.expanders[x].event.value;
    assert ExpanderOk(s.db, s.expanders[x]);
    var began := s.expanders[x].began;
    ExpandFanOut(s.db, ev, seqs, began);
    ExpandLiveOrder(s.db, ev, seqs, began);
    ExpandReplays(s.db, ev, seqs, began);
    ExpandPublished(s.db, s.expanders[x], |s.db.endpoints|);
    ExpandOtherExpanders(s, x, seqs);
    RootedAppend(s.db.deliveries, FanOut(s.db, ev, seqs, began));
    assert ReplayersOk(s');
    hide FanOutOk, RootedOk, LiveOrder, ExpandersOk, ReplayOk, ReplayersOk;
  }

  /** The others are transactions of other tenants: the lock keys differ. */
  lemma ExpandOtherExpanders(s: World, x: nat, seqs: seq<int>)
    requires ExpandersOk(s) && CanExpand(s, x, seqs)
    ensures ExpandersOk(DoExpand(s, x, seqs))
  {
    var s' := DoExpand(s, x, seqs);
    assert ExpanderOk(s.db, s.expanders[x]);
    forall y | y in s'.expanders ensures ExpanderOk(s'.db, s'.expanders[y]) {
      assert ExpanderOk(s.db, s.expanders[y]);
    }
    FewerExpanders(s, s');
  }

  /** Expanding the oldest pending event keeps the expanded ones a prefix. */
  lemma ExpandPublished(db: DB, x: Expander, n: nat)
    requires PublishOk(db) && ExpanderOk(db, x) && x.event.Some?
    ensures PublishOk(db.(events := db.events[x.event.value := db.events[x.event.value].(status := Expanded, registered := n)]))
  {
    var ev := x.event.value;
    forall j | 0 <= j < |db.events| && j != ev && db.events[j].tenant == x.tenant && db.events[j].status == PendingExpansion
      ensures db.events[ev].seqNo < db.events[j].seqNo
    {
    }
  }

  lemma ExpandFanOut(db: DB, ev: nat, seqs: seq<int>, now: Time)
    requires FanOutOk(db) && ev < |db.events| && db.events[ev].status == PendingExpansion
    requires |seqs| == |Subscribers(db, db.events[ev].tenant, db.events[ev].eventType)|
    ensures FanOutOk(ExpandEvent(db, ev, seqs, now))
  {
    var db' := ExpandEvent(db, ev, seqs, now);
    var rows := FanOut(db, ev, seqs, now);
    var targets := Subscribers(db, db.events[ev].tenant, db.events[ev].eventType);
    forall i | 0 <= i < |db.deliveries| && db.deliveries[i].origin == FromEvent
      ensures db.deliveries[i].event != ev && db'.events[db.deliveries[i].event].status == Expanded
              && Subscribed(db', db.deliveries[i].event, db.deliveries[i].endpoint)
    {
      assert Subscribed(db, db.deliveries[i].event, db.deliveries[i].endpoint);
    }
    FannedOutOnce(db.deliveries, rows, ev, targets);
    forall v, e: nat | 0 <= v < |db'.events| && db'.events[v].status == Expanded && Subscribed(db', v, e)
      ensures exists i :: LiveRow(db'.deliveries, i, v, e)
    {
      if v == ev {
        assert e in targets;
      } else {
        assert Subscribed(db, v, e);
        var i :| LiveRow(db.deliveries, i, v, e);
        assert LiveRow(db'.deliveries, i, v, e);
      }
    }
  }

  /** Appending one row per target of an event without rows gives each target exactly one. */
  lemma FannedOutOnce(ds: seq<Delivery>, rows: seq<Delivery>, ev: nat, targets: seq<nat>)
    requires forall i: nat, j: nat, v: nat, e: nat :: LiveRow(ds, i, v, e) && LiveRow(ds, j, v, e) ==> i == j
    requires forall i :: 0 <= i < |ds| && ds[i].origin == FromEvent ==> ds[i].event != ev
    requires |rows| == |targets| && forall j, k :: 0 <= j < k < |targets| ==> targets[j] < targets[k]
    requires forall k :: 0 <= k < |rows| ==> rows[k].event == ev && rows[k].endpoint == targets[k] && rows[k].origin == FromEvent
    ensures forall i: nat, j: nat, v: nat, e: nat :: LiveRow(ds + rows, i, v, e) && LiveRow(ds + rows, j, v, e) ==> i == j
    ensures forall e :: e in targets ==> exists i :: LiveRow(ds + rows, i, ev, e)
  {
    var ds' := ds + rows;
    assert forall i: nat :: i < |ds| ==> ds'[i] == ds[i];
    assert forall i: nat :: |ds| <= i < |ds'| ==> ds'[i] == rows[i - |ds|];
    forall i: nat, j: nat, v: nat, e: nat | LiveRow(ds', i, v, e) && LiveRow(ds', j, v, e)
      ensures i == j
    {
      if i < |ds| && j < |ds| { assert LiveRow(ds, i, v, e) && LiveRow(ds, j, v, e); }
      if i >= |ds| && j >= |ds| { assert targets[i - |ds|] == targets[j - |ds|]; }
    }
    forall e | e in targets ensures exists i :: LiveRow(ds', i, ev, e) {
      var k :| 0 <= k < |targets| && targets[k] == e;
      assert LiveRow(ds', |ds| + k, ev, e);
    }
  }

  lemma ExpandLiveOrder(db: DB, ev: nat, seqs: seq<int>, now: Time)
    requires FanOutOk(db) && LiveOrder(db) && PublishOk(db) && ev < |db.events| && db.events[ev].status == PendingExpansion
    requires |seqs| == |Subscribers(db, db.events[ev].tenant, db.events[ev].eventType)|
    requires CommitInOrder(db.deliveries, FanOut(db, ev, seqs, now))
    ensures LiveOrder(ExpandEvent(db, ev, seqs, now))
  {
    var rows := FanOut(db, ev, seqs, now);
    var targets := Subscribers(db, db.events[ev].tenant, db.events[ev].eventType);
    assert forall k :: 0 <= k < |rows| ==> rows[k].event == ev && rows[k].endpoint == targets[k];
    forall i, k | 0 <= i < |db.deliveries| && 0 <= k < |rows| && db.deliveries[i].endpoint == rows[k].endpoint && db.deliveries[i].origin == FromEvent
      ensures db.events[db.deliveries[i].event].seqNo < db.events[ev].seqNo
    {
      EarlierEvent(db, i, ev, targets[k]);
    }
    AppendedLiveOrder(db, ExpandEvent(db, ev, seqs, now), ev, rows);
  }

  /** A live delivery of a subscriber of a still pending event belongs to an earlier event. */
  lemma EarlierEvent(db: DB, i: nat, ev: nat, e: nat)
    requires FanOutOk(db) && PublishOk(db) && ev < |db.events| && db.events[ev].status == PendingExpansion
    requires e < |db.endpoints| && Subscribes(db.endpoints[e], db.events[ev].tenant, db.events[ev].eventType)
    requires i < |db.deliveries| && db.deliveries[i].origin == FromEvent && db.deliveries[i].endpoint == e
    ensures db.events[db.deliveries[i].event].seqNo < db.events[ev].seqNo
  {
    assert Subscribed(db, db.deliveries[i].event, e);
  }

  lemma AppendedLiveOrder(db: DB, db': DB, ev: nat, rows: seq<Delivery>)
    requires LiveOrder(db) && ev < |db.events| && db'.deliveries == db.deliveries + rows && CommitInOrder(db.deliveries, rows)
    requires |db'.events| == |db.events| && forall i :: 0 <= i < |db.events| ==> db'.events[i].seqNo == db.events[i].seqNo
    requires forall k :: 0 <= k < |rows| ==> rows[k].event == ev
    requires forall i, k :: 0 <= i < |db.deliveries| && 0 <= k < |rows| && db.deliveries[i].endpoint == rows[k].endpoint && db.deliveries[i].origin == FromEvent ==>
               db.events[db.deliveries[i].event].seqNo < db.events[ev].seqNo
    requires forall j, k :: 0 <= j < |rows| && 0 <= k < |rows| && rows[j].endpoint == rows[k].endpoint ==> j == k
    ensures LiveOrder(db')
  {
    var ds, ds' := db.deliveries, db'.deliveries;
    assert forall i :: 0 <= i < |ds| ==> ds'[i] == ds[i];
    assert forall i :: |ds| <= i < |ds'| ==> ds'[i] == rows[i - |ds|];
  }

  lemma ExpandReplays(db: DB, ev: nat, seqs: seq<int>, now: Time)
    requires ReplayOk(db) && ev < |db.events|
    requires |seqs| == |Subscribers(db, db.events[ev].tenant, db.events[ev].eventType)|
    ensures ReplayOk(ExpandEvent(db, ev, seqs, now))
  {
    var rows := FanOut(db, ev, seqs, now);
    forall r | 0 <= r < |db.replays| ensures Batch(db.deliveries + rows, r) == Batch(db.deliveries, r) {
      BatchAppend(db.deliveries, rows, r);
      BatchOfOther(rows, r);
    }
  }

  lemma ExpandReplayKeeps(s: World, x: nat, seqs: seq<int>)
    requires ExpansionInv(s) && CanExpandReplay(s, x, seqs)
    ensures ExpansionInv(DoExpandReplay(s, x, seqs))
  {
    var s' := DoExpandReplay(s, x, seqs);
    var r, began := s.replayers[x].replay, s.replayers[x].began;
    var rows := ReplayRows(s.db, r, seqs, began);
    assert s.db.replays[r].status == PendingExpansion;
    ReplayFanOut(s.db, s'.db, rows);
    ReplayLiveOrder(s.db, s'.db, rows);
    ReplayBatches(s.db, r, seqs, began);
    ReplayOtherLocks(s, x, seqs);
    ReplayRooted(s.db, r, seqs, began);
    hide FanOutOk, RootedOk, LiveOrder, ExpandersOk, ReplayOk, ReplayersOk;
  }

  lemma ReplayRooted(db: DB, r: nat, seqs: seq<int>, now: Time)
    requires RootedOk(db.deliveries) && r < |db.replays| && |seqs| == |Window(db, db.replays[r])|
    ensures RootedOk(ExpandReplay(db, r, seqs, now).deliveries)
  {
    var ids, rows := Window(db, db.replays[r]), ReplayRows(db, r, seqs, now);
    forall k | 0 <= k < |rows| ensures Rooted(db.deliveries, rows[k].event, rows[k].endpoint) {
      assert InWindow(db.deliveries[ids[k]], db.replays[r]);
    }
    hide RootedOk, Window;
    RootedAppend(db.deliveries, rows) by { assert RootedOk(db.deliveries); }
  }

  lemma ReplayOtherLocks(s: World, x: nat, seqs: seq<int>)
    requires ExpandersOk(s) && ReplayersOk(s) && CanExpandReplay(s, x, seqs)
    ensures ExpandersOk(DoExpandReplay(s, x, seqs)) && ReplayersOk(DoExpandReplay(s, x, seqs))
  {
    var s' := DoExpandReplay(s, x, seqs);
    forall y | y in s'.expanders ensures ExpanderOk(s'.db, s'.expanders[y]) {
      assert ExpanderOk(s.db, s.expanders[y]);
    }
    FewerExpanders(s, s');
  }

  lemma ReplayLiveOrder(db: DB, db': DB, rows: seq<Delivery>)
    requires LiveOrder(db) && db'.deliveries == db.deliveries + rows && db'.events == db.events
    requires forall k :: 0 <= k < |rows| ==> rows[k].origin != FromEvent && rows[k].event < |db.events|
    ensures LiveOrder(db')
  {
    assert forall i :: 0 <= i < |db.deliveries| ==> db'.deliveries[i] == db.deliveries[i];
    assert forall i :: |db.deliveries| <= i < |db'.deliveries| ==> db'.deliveries[i] == rows[i - |db.deliveries|];
  }

  lemma ReplayFanOut(db: DB, db': DB, rows: seq<Delivery>)
    requires FanOutOk(db) && db'.deliveries == db.deliveries + rows && db'.events == db.events && db'.endpoints == db.endpoints
    requires forall k :: 0 <= k < |rows| ==> rows[k].origin != FromEvent && rows[k].event < |db.events|
    ensures FanOutOk(db')
  {
    var ds, ds' := db.deliveries, db'.deliveries;
    assert forall i: nat :: i < |ds| ==> ds'[i] == ds[i];
    assert forall i: nat :: |ds| <= i < |ds'| ==> ds'[i] == rows[i - |ds|];
    assert forall i: nat, ev: nat, e: nat :: LiveRow(ds', i, ev, e) <==> LiveRow(ds, i, ev, e);
    forall v, e: nat | 0 <= v < |db'.events| && db'.events[v].status == Expanded && Subscribed(db', v, e)
      ensures exists i :: LiveRow(ds', i, v, e)
    {
      assert Subscribed(db, v, e);
      var i :| LiveRow(ds, i, v, e);
      assert LiveRow(ds', i, v, e);
    }
    forall i | 0 <= i < |ds| && ds[i].origin == FromEvent
      ensures Subscribed(db', ds[i].event, ds[i].endpoint)
    {
      assert Subscribed(db, ds[i].event, ds[i].endpoint);
    }
  }

  lemma ReplayBatches(db: DB, r: nat, seqs: seq<int>, now: Time)
    requires ReplayOk(db) && r < |db.replays| && db.replays[r].status == PendingExpansion && |seqs| == |Window(db, db.replays[r])|
    ensures ReplayOk(ExpandReplay(db, r, seqs, now))
  {
    var db' := ExpandReplay(db, r, seqs, now);
    forall q | 0 <= q < |db.replays| ensures Batch(db'.deliveries, q) == db'.replays[q].batch {
      ReplayBatch(db, r, seqs, now, q);
    }
    ReplayOrigins(db, r, seqs, now);
    hide Batch, ReplayRows, WindowEvents;
  }

  lemma ReplayBatch(db: DB, r: nat, seqs: seq<int>, now: Time, q: nat)
    requires r < |db.replays| && q < |db.replays| && |seqs| == |Window(db, db.replays[r])|
    requires Batch(db.deliveries, q) == db.replays[q].batch && (q == r ==> db.replays[q].batch == [])
    ensures Batch(ExpandReplay(db, r, seqs, now).deliveries, q) == ExpandReplay(db, r, seqs, now).replays[q].batch
  {
    var rows := ReplayRows(db, r, seqs, now);
    BatchAppend(db.deliveries, rows, q);
    if q == r { BatchOfOwn(rows, WindowEvents(db, db.replays[r]), r); } else { BatchOfOther(rows, q); }
  }

  lemma ReplayOrigins(db: DB, r: nat, seqs: seq<int>, now: Time)
    requires ReplayOk(db) && r < |db.replays| && |seqs| == |Window(db, db.replays[r])|
    ensures var ds' := ExpandReplay(db, r, seqs, now).deliveries;
            forall i :: 0 <= i < |ds'| && ds'[i].origin.FromReplay? ==> ds'[i].origin.replay < |db.replays| && db.replays[ds'[i].origin.replay].endpoint == ds'[i].endpoint
  {
    var rows := ReplayRows(db, r, seqs, now);
    var ds' := db.deliveries + rows;
    assert forall k :: 0 <= k < |rows| ==> rows[k].origin == FromReplay(r) && rows[k].endpoint == db.replays[r].endpoint;
    assert forall i :: |db.deliveries| <= i < |ds'| ==> ds'[i] == rows[i - |db.deliveries|];
    hide Batch;
  }

  lemma LockReplayKeeps(s: World, x: nat, r: nat, began: Time)
    requires ReplayersOk(s) && CanLockReplay(s, x, r, began)
    ensures ReplayersOk(s.(replayers := s.replayers[x := Replayer(r, began)]))
  {
  }

  lemma TransactKeepsExpansion(s: World, x: nat, st: ExpansionStep)
    requires ExpansionInv(s) && CanTransact(s, x, st)
    ensures ExpansionInv(DoTransact(s, x, st))
  {
    hide FanOutOk, RootedOk, LiveOrder, PublishOk, ReplayOk;
    match st
    case Lock(t, began) => LockKeeps(s, x, t, began);
    case ReadOldest => ReadOldestKeeps(s, x);
    case Expand(seqs) => ExpandKeeps(s, x, seqs);
    case Abort => FewerExpanders(s, s.(expanders := s.expanders - {x}));
    case LockReplay(r, began) => LockReplayKeeps(s, x, r, began);
    case AppendReplay(seqs) => ExpandReplayKeeps(s, x, seqs);
    case AbortReplay => assert ReplayersOk(s.(replayers := s.replayers - {x}));
  }

  lemma ApiKeepsExpansion(s: World, st: ApiStep)
    requires ExpansionInv(s) && CanApi(s, st)
    ensures ExpansionInv(DoApi(s, st))
  {
    match st
    case Publish(t, key, eventType, sq) => PublishKeeps(s, t, key, eventType, sq);
    case AskReplay(e, key, from, until, began) => RequestKeeps(s, e, key, from, until, began);
    case _ =>
      hide ExpansionInv;
      ExpansionFrame(s, DoApi(s, st));
  }
}
