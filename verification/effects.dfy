/** End-to-end effect: whatever is retried, lost, taken over or replayed, a conforming receiver runs
    the business logic of an event successfully at most once, and has run it for every delivery of its
    endpoint marked succeeded. Nothing is said of endpoints with another service behind them. */
module EffectInvariant {
  import opened Tables
  import opened Protocol
  import opened LeaseInvariant

  ghost predicate ReceiverOk(r: Receiver) {
    && (forall i, j :: 0 <= i < j < |r.effects| ==> r.effects[i] != r.effects[j])
    && (forall ev :: ev in r.effects <==> ev in r.processed)
  }

  /** The receiver of delivery `d`, if a conforming one, has processed its event. */
  predicate Done(s: World, d: nat) {
    && d < |s.db.deliveries| && s.db.deliveries[d].endpoint < |s.receivers|
    && (Conforms(s, s.db.deliveries[d].endpoint) ==> s.db.deliveries[d].event in s.receivers[s.db.deliveries[d].endpoint].value.processed)
  }

  predicate AttemptDone(s: World, a: nat) {
    a < |s.db.attempts| && Done(s, s.db.attempts[a].delivery)
  }

  predicate RepliedSuccess(k: Worker) {
    k.Replied? && IsSuccess(k.reply)
  }

  ghost predicate EffectInv(s: World) {
    && |s.receivers| == |s.db.endpoints|
    && (forall e :: 0 <= e < |s.receivers| && s.receivers[e].Some? ==> ReceiverOk(s.receivers[e].value))
    && (forall a, status :: (a, status) in s.replies && 200 <= status < 300 ==> AttemptDone(s, a))
    && (forall w :: w in s.workers && RepliedSuccess(s.workers[w]) ==> AttemptDone(s, s.workers[w].claim.attempt))
    && (forall d :: 0 <= d < |s.db.deliveries| && s.db.deliveries[d].state == Succeeded ==> Done(s, d))
  }

  /** Receivers only learn, and rows keep their event and endpoint. */
  ghost predicate Learns(s: World, s': World) {
    && |s'.receivers| >= |s.receivers| && |s'.db.deliveries| >= |s.db.deliveries| && |s'.db.attempts| >= |s.db.attempts|
    && (forall e :: 0 <= e < |s.receivers| ==>
          && (s'.receivers[e].Some? <==> s.receivers[e].Some?)
          && (s.receivers[e].Some? ==> s.receivers[e].value.processed <= s'.receivers[e].value.processed))
    && (forall d :: 0 <= d < |s.db.deliveries| ==>
          s'.db.deliveries[d].event == s.db.deliveries[d].event && s'.db.deliveries[d].endpoint == s.db.deliveries[d].endpoint)
    && (forall a :: 0 <= a < |s.db.attempts| ==> s'.db.attempts[a].delivery == s.db.attempts[a].delivery)
  }

  lemma EffectFrame(s: World, s': World)
    requires EffectInv(s) && Learns(s, s') && |s'.receivers| == |s'.db.endpoints|
    requires forall e :: 0 <= e < |s'.receivers| && s'.receivers[e].Some? ==> ReceiverOk(s'.receivers[e].value)
    requires s'.replies == s.replies
    requires forall w :: w in s'.workers && RepliedSuccess(s'.workers[w]) ==>
               AttemptDone(s', s'.workers[w].claim.attempt) || (w in s.workers && s.workers[w] == s'.workers[w])
    requires forall d :: 0 <= d < |s'.db.deliveries| && s'.db.deliveries[d].state == Succeeded ==>
               Done(s', d) || (d < |s.db.deliveries| && s.db.deliveries[d].state == Succeeded)
    ensures EffectInv(s')
  {
    assert forall d :: Done(s, d) ==> Done(s', d);
    assert forall a :: AttemptDone(s, a) ==> AttemptDone(s', a);
  }

  lemma HandleKeeps(r: Receiver, ev: nat, ok: bool)
    requires ReceiverOk(r)
    ensures var (r', status) := Handle(r, ev, ok);
            ReceiverOk(r') && r.processed <= r'.processed && (200 <= status < 300 ==> ev in r'.processed)
  {
  }

  lemma ReceiveKeeps(s: World, a: nat, ok: bool)
    requires EffectInv(s) && CanReceive(s, a)
    ensures EffectInv(DoReceive(s, a, ok))
  {
    var s' := DoReceive(s, a, ok);
    var d := s.db.deliveries[s.db.attempts[a].delivery];
    HandleKeeps(s.receivers[d.endpoint].value, d.event, ok);
    assert forall e :: 0 <= e < |s.receivers| && s.receivers[e].Some? ==>
             s'.receivers[e].Some? && s.receivers[e].value.processed <= s'.receivers[e].value.processed && ReceiverOk(s'.receivers[e].value);
    hide Handle, ReceiverOk;
    assert forall i :: Done(s, i) ==> Done(s', i);
    assert forall b :: AttemptDone(s, b) ==> AttemptDone(s', b);
  }

  lemma WriteBackKeepsEffects(cfg: Config, s: World, w: nat, began: Time, delay: nat)
    requires EffectInv(s) && CanWriteBack(cfg, s, w, began, delay)
    requires ClaimRefs(s.db, s.workers[w].claim) && (Owns(s.db, s.workers[w]) ==> SendingOk(s.db, s.workers[w].claim))
    ensures EffectInv(DoWriteBack(cfg, s, w, began, delay))
  {
    var s' := DoWriteBack(cfg, s, w, began, delay);
    var k := s.workers[w];
    if Owns(s.db, k) {
      WriteBackRowsChanged(s.db, cfg, k.claim, k.reply, began, delay);
      if s'.db.deliveries[k.claim.delivery].state == Succeeded {
        assert RepliedSuccess(k);
        assert AttemptDone(s, k.claim.attempt);
      }
    }
    hide WriteBack, EffectInv;
    EffectFrame(s, s') by { assert EffectInv(s); }
  }

  lemma WorkKeepsEffects(cfg: Config, s: World, w: nat, st: WorkerStep)
    requires LeaseInv(cfg, s) && EffectInv(s) && CanWork(cfg, s, w, st)
    ensures EffectInv(DoWork(cfg, s, w, st))
  {
    if st.Finish? {
      WriteBackWorker(cfg, s, w, st.began, st.delay);
      hide LeaseInv, EffectInv, WriteBack;
      WriteBackKeepsEffects(cfg, s, w, st.began, st.delay);
    } else {
      hide LeaseInv, EffectInv;
      if st.Answer? { AnswerKeepsEffects(cfg, s, w, st.reply); }
      else if st.CloseOrphanRows? || st.RequeueRow? || st.InsertRow? || st.MarkRow? { RowStepKeepsEffects(cfg, s, w, st); }
      else { OtherWorkKeepsEffects(cfg, s, w, st); }
    }
  }

  lemma RowStepKeepsEffects(cfg: Config, s: World, w: nat, st: WorkerStep)
    requires EffectInv(s) && CanWork(cfg, s, w, st) && (st.CloseOrphanRows? || st.RequeueRow? || st.InsertRow? || st.MarkRow?)
    ensures EffectInv(DoWork(cfg, s, w, st))
  {
    match st
    case CloseOrphanRows => EffectFrame(s, DoCloseOrphans(s, w));
    case RequeueRow =>
      var s' := DoRequeue(s, w);
      assert forall i :: 0 <= i < |s.db.deliveries| ==> s'.db.deliveries[i] == Requeued(s.db.deliveries[i], s.workers[w].claim.endpoint);
      EffectFrame(s, s');
    case InsertRow => EffectFrame(s, DoInsertAttempt(s, w));
    case MarkRow => EffectFrame(s, DoMarkInFlight(s, w));
  }

  /** A 2xx from a conforming receiver is an answer it gave once it was done. */
  lemma AnswerKeepsEffects(cfg: Config, s: World, w: nat, reply: Reply)
    requires LeaseInv(cfg, s) && EffectInv(s) && CanAnswer(s, w, reply)
    ensures EffectInv(DoAnswer(s, w, reply))
  {
    assert WorkerOk(cfg, s, s.workers[w]);
    hide LeaseInv, RowsOk;
    var s' := DoAnswer(s, w, reply);
    if IsSuccess(reply) { assert AttemptDone(s, s.workers[w].claim.attempt); }
    EffectFrame(s, s');
  }

  lemma OtherWorkKeepsEffects(cfg: Config, s: World, w: nat, st: WorkerStep)
    requires EffectInv(s) && CanWork(cfg, s, w, st)
    requires !st.CloseOrphanRows? && !st.RequeueRow? && !st.InsertRow? && !st.MarkRow? && !st.Finish? && !st.Answer?
    ensures EffectInv(DoWork(cfg, s, w, st))
  {
    hide DoWork, CanWork;
    OtherWorkFrame(cfg, s, w, st);
    EffectFrame(s, DoWork(cfg, s, w, st));
  }

  lemma OtherWorkFrame(cfg: Config, s: World, w: nat, st: WorkerStep)
    requires CanWork(cfg, s, w, st)
    requires !st.CloseOrphanRows? && !st.RequeueRow? && !st.InsertRow? && !st.MarkRow? && !st.Finish? && !st.Answer?
    ensures var s' := DoWork(cfg, s, w, st);
            && s'.db.deliveries == s.db.deliveries && s'.db.attempts == s.db.attempts && |s'.db.endpoints| == |s.db.endpoints|
            && s'.receivers == s.receivers && s'.replies == s.replies
            && forall v :: v in s'.workers && RepliedSuccess(s'.workers[v]) ==> v in s.workers && s'.workers[v] == s.workers[v]
  {
    hide Lowest, IsSelection, IsSuccess;
  }
}
