/** The conforming receiver over whole sequences of requests: what it has counted, what it has processed,
    and what it answers. */
module Receiving {
  import opened Protocol

  /** A request for an event, and what the business logic would answer if it ran. */
  datatype Request = Request(event: nat, ok: bool)

  function Serve(requests: seq<Request>): (Receiver, seq<int>) {
    if |requests| == 0 then (Receiver({}, map[], []), [])
    else
      var last := requests[|requests| - 1];
      var (before, statuses) := Serve(requests[..|requests| - 1]);
      var (after, status) := Handle(before, last.event, last.ok);
      (after, statuses + [status])
  }

  /** The business logic succeeded for the event in one of the requests. */
  ghost predicate Processed(requests: seq<Request>, ev: nat) {
    exists i :: 0 <= i < |requests| && requests[i] == Request(ev, true)
  }

  /** The requests for which the business logic ran: those up to the first success. */
  ghost function Tries(requests: seq<Request>, ev: nat): set<nat> {
    set i: nat | i < |requests| && requests[i].event == ev && !Processed(requests[..i], ev)
  }

  lemma ProcessedLast(requests: seq<Request>, ev: nat)
    requires |requests| > 0
    ensures var last := requests[|requests| - 1];
            Processed(requests, ev) <==> Processed(requests[..|requests| - 1], ev) || last == Request(ev, true)
  {
    var front := requests[..|requests| - 1];
    if Processed(requests, ev) && requests[|requests| - 1] != Request(ev, true) {
      var i :| 0 <= i < |requests| && requests[i] == Request(ev, true);
      assert front[i] == Request(ev, true);
    }
    if Processed(front, ev) {
      var i :| 0 <= i < |front| && front[i] == Request(ev, true);
      assert requests[i] == Request(ev, true);
    }
  }

  lemma TriesLast(requests: seq<Request>, ev: nat)
    requires |requests| > 0
    ensures var n := |requests| - 1;
            |Tries(requests, ev)| == |Tries(requests[..n], ev)| + if requests[n].event == ev && !Processed(requests[..n], ev) then 1 else 0
  {
    hide Processed;
    var n := |requests| - 1;
    var front := requests[..n];
    var before, all := Tries(front, ev), Tries(requests, ev);
    assert forall i :: 0 <= i <= n ==> front[..i] == requests[..i];
    forall i: nat ensures i in all <==> i in before || (i == n && requests[n].event == ev && !Processed(front, ev)) {
      assert requests[..n] == front;
    }
    hide Tries;
    assert n !in before by { TriesBelow(front, ev, n); }
    assert all == before + if requests[n].event == ev && !Processed(front, ev) then {n} else {};
  }

  lemma TriesBelow(requests: seq<Request>, ev: nat, n: nat)
    requires n >= |requests|
    ensures n !in Tries(requests, ev)
  {
  }

  /** After any requests, in any order and however often repeated: the receiver has processed the events that
      succeeded once, each exactly once; it has counted, for each event, the requests up to that success;
      and it answered 200 to exactly the requests that came with or after one. */
  lemma {:induction false} ServesOnce(requests: seq<Request>, ev: nat)
    ensures var (r, statuses) := Serve(requests);
            && |statuses| == |requests|
            && (ev in r.processed <==> Processed(requests, ev))
            && (if ev in r.attempts then r.attempts[ev] else 0) == |Tries(requests, ev)|
            && (forall i, j :: 0 <= i < j < |r.effects| ==> r.effects[i] != r.effects[j])
            && (forall x :: x in r.effects <==> x in r.processed)
            && (forall k :: 0 <= k < |requests| ==> statuses[k] == if Processed(requests[..k + 1], requests[k].event) then 200 else 500)
  {
    if |requests| == 0 {
      assert Tries(requests, ev) == {};
    } else {
      var n := |requests| - 1;
      var last, front := requests[n], requests[..n];
      ServesOnce(front, ev);
      ServesOnce(front, last.event);
      ProcessedLast(requests, ev);
      ProcessedLast(requests, last.event);
      TriesLast(requests, ev);
      hide Processed, Tries;
      assert requests[..n + 1] == requests;
      assert forall m :: 0 <= m <= n ==> front[..m] == requests[..m];
    }
  }
}
