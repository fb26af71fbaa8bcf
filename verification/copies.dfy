/** How many deliveries an event has on one endpoint: the one it fanned out to, and one for each time a
    replay of that endpoint copied it. */
module Copies {
  import opened Tables
  import opened Protocol
  import opened ExpansionInvariant
  import opened SystemInvariant
  import opened Guarantees

  /** The number of deliveries of event `ev` on endpoint `e`. */
  function RowsFor(ds: seq<Delivery>, ev: nat, e: nat): nat {
    if |ds| == 0 then 0
    else
      var last := ds[|ds| - 1];
      RowsFor(ds[..|ds| - 1], ev, e) + if last.event == ev && last.endpoint == e then 1 else 0
  }

  function Occurrences(xs: seq<nat>, x: nat): nat {
    if |xs| == 0 then 0 else Occurrences(xs[..|xs| - 1], x) + if xs[|xs| - 1] == x then 1 else 0
  }

  /** How often the first `n` replays copied event `ev` on endpoint `e`. */
  function Copied(rs: seq<Replay>, n: nat, ev: nat, e: nat): nat
    requires n <= |rs|
  {
    if n == 0 then 0 else Copied(rs, n - 1, ev, e) + if rs[n - 1].endpoint == e then Occurrences(rs[n - 1].batch, ev) else 0
  }

  /** The same, read off the deliveries. */
  function CopyRows(ds: seq<Delivery>, rs: seq<Replay>, n: nat, ev: nat, e: nat): nat
    requires n <= |rs|
  {
    if n == 0 then 0 else CopyRows(ds, rs, n - 1, ev, e) + if rs[n - 1].endpoint == e then Occurrences(Batch(ds, n - 1), ev) else 0
  }

  lemma OccurrencesAdd(xs: seq<nat>, y: nat, x: nat)
    ensures Occurrences(xs + [y], x) == Occurrences(xs, x) + if y == x then 1 else 0
  {
    assert (xs + [y])[..|xs|] == xs;
  }

  /** One more delivery is one more copy if a replay of `e` among the first `n` made it from `ev`. */
  lemma {:induction false} CopyRowsAdd(ds: seq<Delivery>, rs: seq<Replay>, n: nat, ev: nat, e: nat)
    requires n <= |rs| && |ds| > 0
    ensures var d := ds[|ds| - 1];
            CopyRows(ds, rs, n, ev, e) == CopyRows(ds[..|ds| - 1], rs, n, ev, e)
              + if d.origin.FromReplay? && d.origin.replay < n && rs[d.origin.replay].endpoint == e && d.event == ev then 1 else 0
  {
    if n > 0 {
      CopyRowsAdd(ds, rs, n - 1, ev, e);
      var d, before := ds[|ds| - 1], Batch(ds[..|ds| - 1], n - 1);
      assert before + [] == before;
      assert Batch(ds, n - 1) == if d.origin == FromReplay(n - 1) then before + [d.event] else before;
      OccurrencesAdd(before, d.event, ev);
    }
  }

  /** Every delivery made by a replay is on that replay's endpoint. */
  ghost predicate CopiesAtHome(ds: seq<Delivery>, rs: seq<Replay>) {
    forall i :: 0 <= i < |ds| && ds[i].origin.FromReplay? ==> ds[i].origin.replay < |rs| && rs[ds[i].origin.replay].endpoint == ds[i].endpoint
  }

  lemma LiveRowsAdd(ds: seq<Delivery>, ev: nat, e: nat)
    requires |ds| > 0
    ensures var d := ds[|ds| - 1];
            |LiveRows(ds, ev, e)| == |LiveRows(ds[..|ds| - 1], ev, e)| + if d.origin == FromEvent && d.event == ev && d.endpoint == e then 1 else 0
  {
    var n := |ds| - 1;
    var before := LiveRows(ds[..n], ev, e);
    assert n !in before;
    assert LiveRows(ds, ev, e) == before + if LiveRow(ds, n, ev, e) then {n} else {};
  }

  /** Live rows and copies are all there is. */
  lemma {:induction false} RowsAreLiveOrCopies(ds: seq<Delivery>, rs: seq<Replay>, ev: nat, e: nat)
    requires CopiesAtHome(ds, rs)
    ensures RowsFor(ds, ev, e) == |LiveRows(ds, ev, e)| + CopyRows(ds, rs, |rs|, ev, e)
  {
    if |ds| == 0 {
      assert LiveRows(ds, ev, e) == {};
      NoCopies(ds, rs, |rs|, ev, e);
    } else {
      RowsAreLiveOrCopies(ds[..|ds| - 1], rs, ev, e);
      LiveRowsAdd(ds, ev, e);
      CopyRowsAdd(ds, rs, |rs|, ev, e);
    }
  }

  lemma {:induction false} NoCopies(ds: seq<Delivery>, rs: seq<Replay>, n: nat, ev: nat, e: nat)
    requires |ds| == 0 && n <= |rs|
    ensures CopyRows(ds, rs, n, ev, e) == 0
  {
    if n > 0 { NoCopies(ds, rs, n - 1, ev, e); }
  }

  lemma {:induction false} CopyRowsAreCopied(ds: seq<Delivery>, rs: seq<Replay>, n: nat, ev: nat, e: nat)
    requires n <= |rs| && forall r :: 0 <= r < |rs| ==> Batch(ds, r) == rs[r].batch
    ensures CopyRows(ds, rs, n, ev, e) == Copied(rs, n, ev, e)
  {
    hide Batch, Occurrences;
    if n > 0 { CopyRowsAreCopied(ds, rs, n - 1, ev, e); }
  }

  lemma {:induction false} SomeRow(ds: seq<Delivery>, ev: nat, e: nat)
    requires RowsFor(ds, ev, e) > 0
    ensures exists i :: 0 <= i < |ds| && ds[i].event == ev && ds[i].endpoint == e
  {
    var n := |ds| - 1;
    if ds[n].event != ev || ds[n].endpoint != e {
      SomeRow(ds[..n], ev, e);
      var i :| 0 <= i < n && ds[..n][i].event == ev && ds[..n][i].endpoint == e;
      assert ds[i].event == ev;
    }
  }

  /** Where there is a delivery of an event at all, there is the one it fanned out to. */
  lemma LiveIfAny(ds: seq<Delivery>, ev: nat, e: nat)
    requires RootedOk(ds) && RowsFor(ds, ev, e) > 0
    ensures |LiveRows(ds, ev, e)| > 0
  {
    SomeRow(ds, ev, e);
    var i :| 0 <= i < |ds| && ds[i].event == ev && ds[i].endpoint == e;
    assert Rooted(ds, ds[i].event, ds[i].endpoint);
    var j: nat :| LiveRow(ds, j, ev, e);
    assert j in LiveRows(ds, ev, e);
  }

  lemma ExpansionFacts(cfg: Config, s: World)
    requires Inv(cfg, s)
    ensures FanOutOk(s.db) && RootedOk(s.db.deliveries) && CopiesAtHome(s.db.deliveries, s.db.replays)
    ensures forall r :: 0 <= r < |s.db.replays| ==> Batch(s.db.deliveries, r) == s.db.replays[r].batch
  {
    hide FanOutOk, RootedOk, LiveOrder, PublishOk, Batch;
  }

  /** The deliveries of an event on an endpoint are the one it fanned out to, if the endpoint was
      subscribed when the event was expanded, and one per copy a replay of the endpoint made of it.
      So the event has at most one delivery there exactly as long as no replay copied it. */
  lemma AtMostOneUnlessReplayed(cfg: Config, s: World, ev: nat, e: nat)
    requires Reachable(cfg, s) && ev < |s.db.events|
    ensures RowsFor(s.db.deliveries, ev, e)
            == (if s.db.events[ev].status == Expanded && e < s.db.events[ev].registered && e < |s.db.endpoints| && s.db.endpoints[e].tenant == s.db.events[ev].tenant
                   && s.db.events[ev].eventType in s.db.endpoints[e].eventTypes then 1 else 0) + Copied(s.db.replays, |s.db.replays|, ev, e)
    ensures RowsFor(s.db.deliveries, ev, e) <= 1 <==> Copied(s.db.replays, |s.db.replays|, ev, e) == 0
  {
    hide Inv, RowsFor, Batch, CopyRows, Copied, RootedOk, FanOutOk, LiveRows;
    ReachableInv(cfg, s);
    ExpansionFacts(cfg, s);
    RowsAreLiveOrCopies(s.db.deliveries, s.db.replays, ev, e);
    CopyRowsAreCopied(s.db.deliveries, s.db.replays, |s.db.replays|, ev, e);
    OneLiveRow(s.db, ev, e);
    if RowsFor(s.db.deliveries, ev, e) > 0 { LiveIfAny(s.db.deliveries, ev, e); }
  }
}
