/** Halting as an operator gate: a halted endpoint stays idle until it is resumed, and fails at
    most one delivery per resume and one more. */
module GateInvariant {
  import opened Tables
  import opened Protocol
  import opened LeaseInvariant

  function FailedAt(ds: seq<Delivery>, e: nat): set<nat> {
    set i: nat | i < |ds| && ds[i].endpoint == e && ds[i].state == Failed
  }

  ghost predicate GateInv(db: DB) {
    forall e :: 0 <= e < |db.endpoints| ==>
      && |FailedAt(db.deliveries, e)| <= db.endpoints[e].resumes + (if db.endpoints[e].gated then 1 else 0)
      && (db.endpoints[e].gated ==> !db.endpoints[e].busy && db.endpoints[e].status != Active)
      && (db.endpoints[e].status == Halted ==> db.endpoints[e].gated)
  }

  /** Nothing newly failed, and no gate was opened or forgotten. */
  lemma GateFrame(db: DB, db': DB)
    requires GateInv(db) && |db'.endpoints| == |db.endpoints|
    requires forall e :: 0 <= e < |db.endpoints| ==>
               && db'.endpoints[e].resumes == db.endpoints[e].resumes && db'.endpoints[e].gated == db.endpoints[e].gated
               && (db.endpoints[e].gated ==> !db'.endpoints[e].busy && db'.endpoints[e].status != Active)
               && (db'.endpoints[e].status == Halted ==> db.endpoints[e].gated)
    requires |db'.deliveries| >= |db.deliveries|
    requires forall i :: 0 <= i < |db.deliveries| ==>
               db'.deliveries[i].endpoint == db.deliveries[i].endpoint && (db'.deliveries[i].state == Failed <==> db.deliveries[i].state == Failed)
    requires forall i :: |db.deliveries| <= i < |db'.deliveries| ==> db'.deliveries[i].state == Pending
    ensures GateInv(db')
  {
    forall e | 0 <= e < |db.endpoints|
      ensures FailedAt(db'.deliveries, e) == FailedAt(db.deliveries, e)
    {
    }
  }

  lemma RegisterKeepsGate(db: DB, ep: Endpoint)
    requires GateInv(db) && ep.resumes == 0 && !ep.gated && ep.status == Active
    requires forall i :: 0 <= i < |db.deliveries| ==> db.deliveries[i].endpoint < |db.endpoints|
    ensures GateInv(db.(endpoints := db.endpoints + [ep]))
  {
    assert FailedAt(db.deliveries, |db.endpoints|) == {};
  }

  lemma ResumeKeepsGate(db: DB, e: nat)
    requires GateInv(db) && e < |db.endpoints|
    ensures GateInv(ResumeEndpoint(db, e))
  {
  }

  lemma WriteBackKeepsGate(db: DB, cfg: Config, c: Claim, reply: Reply, now: Time, delay: nat)
    requires GateInv(db) && SendingOk(db, c) && HoldsLease(db, c.endpoint, c.lease) && db.endpoints[c.endpoint].busy
    ensures GateInv(WriteBack(db, cfg, c, reply, now, delay).0)
  {
    var db' := WriteBack(db, cfg, c, reply, now, delay).0;
    WriteBackRowsChanged(db, cfg, c, reply, now, delay);
    if WriteBack(db, cfg, c, reply, now, delay).1 == HaltedNow {
      FailureCloses(db, db', c.endpoint, c.delivery);
    } else {
      GateFrame(db, db');
    }
  }

  /** One more failure, behind a gate that was open. */
  lemma FailureCloses(db: DB, db': DB, e: nat, d: nat)
    requires GateInv(db) && e < |db.endpoints| && d < |db.deliveries| && db.deliveries[d].endpoint == e && !db.endpoints[e].gated
    requires |db'.deliveries| == |db.deliveries| && |db'.endpoints| == |db.endpoints|
    requires forall i :: 0 <= i < |db.deliveries| && i != d ==> db'.deliveries[i] == db.deliveries[i]
    requires db'.deliveries[d].endpoint == e && db'.deliveries[d].state == Failed
    requires forall i :: 0 <= i < |db.endpoints| && i != e ==> db'.endpoints[i] == db.endpoints[i]
    requires db'.endpoints[e].resumes == db.endpoints[e].resumes && db'.endpoints[e].gated && !db'.endpoints[e].busy && db'.endpoints[e].status == Halted
    ensures GateInv(db')
  {
    forall i | 0 <= i < |db.endpoints| ensures |FailedAt(db'.deliveries, i)| <= |FailedAt(db.deliveries, i)| + (if i == e then 1 else 0) {
      assert FailedAt(db'.deliveries, i) == FailedAt(db.deliveries, i) + (if i == e then {d} else {});
    }
  }
}
