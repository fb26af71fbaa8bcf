/** Signing-secret rotation over whole runs: exactly when a receiver that holds a secret can verify
    what is signed for its endpoint. */
module Rotation {
  import opened Tables
  import opened Protocol
  import opened Runs

  // ------------------------------------------------------------- the signatures

  /** xs.join(","). */
  function Join(xs: seq<string>): string {
    if |xs| == 0 then "" else if |xs| == 1 then xs[0] else xs[0] + "," + Join(xs[1..])
  }

  /** s.split(","). */
  function Split(s: string): (parts: seq<string>)
    ensures |parts| > 0
  {
    if |s| == 0 then [""]
    else if s[0] == ',' then [""] + Split(s[1..])
    else var rest := Split(s[1..]); [[s[0]] + rest[0]] + rest[1..]
  }

  lemma {:induction false} SplitOff(x: string, tail: string)
    requires ',' !in x
    ensures Split(x + "," + tail) == [x] + Split(tail)
  {
    var s := x + "," + tail;
    if |x| == 0 {
      assert s[1..] == tail;
    } else {
      SplitOff(x[1..], tail);
      assert s[1..] == x[1..] + "," + tail;
      assert ([x[1..]] + Split(tail))[1..] == Split(tail);
      assert [x[0]] + x[1..] == x;
    }
  }

  lemma {:induction false} SplitOne(x: string)
    requires ',' !in x
    ensures Split(x) == [x]
  {
    if |x| > 0 {
      SplitOne(x[1..]);
      assert [x[0]] + x[1..] == x;
    }
  }

  /** The receiver recovers the list of signatures the sender joined. */
  lemma {:induction false} SplitJoin(xs: seq<string>)
    requires |xs| > 0 && forall i :: 0 <= i < |xs| ==> ',' !in xs[i]
    ensures Split(Join(xs)) == xs
  {
    if |xs| == 1 {
      SplitOne(xs[0]);
    } else {
      SplitJoin(xs[1..]);
      SplitOff(xs[0], Join(xs[1..]));
    }
  }

  /** `mac` stands for the hex HMAC of a message under a secret. */
  type Mac = (string, string) -> string

  function Signatures(mac: Mac, secrets: seq<string>, message: string): seq<string> {
    seq(|secrets|, i requires 0 <= i < |secrets| => mac(secrets[i], message))
  }

  /** What is signed: the timestamp and the raw body. */
  function SignedString(timestamp: string, body: string): string {
    timestamp + "." + body
  }

  /** No signature covers two different requests: timestamps are digits, so the string tells them apart. */
  lemma {:induction false} SignedStringTells(t1: string, b1: string, t2: string, b2: string)
    requires '.' !in t1 && '.' !in t2 && SignedString(t1, b1) == SignedString(t2, b2)
    ensures t1 == t2 && b1 == b2
  {
    var s1, s2 := SignedString(t1, b1), SignedString(t2, b2);
    assert |t1| == 0 <==> s1[0] == '.';
    assert |t2| == 0 <==> s2[0] == '.';
    if |t1| == 0 {
      assert s1[1..] == b1 && s2[1..] == b2;
    } else {
      assert s1[1..] == SignedString(t1[1..], b1) && s2[1..] == SignedString(t2[1..], b2);
      SignedStringTells(t1[1..], b1, t2[1..], b2);
      assert t1 == [s1[0]] + t1[1..] && t2 == [s2[0]] + t2[1..];
    }
  }

  /** signPayload, of the string above. */
  function SignPayload(mac: Mac, secrets: seq<string>, message: string): string {
    Join(Signatures(mac, secrets, message))
  }

  predicate Accepts(mac: Mac, secret: string, message: string, header: string) {
    mac(secret, message) in Split(header)
  }

  ghost predicate CommaFree(mac: Mac) {
    forall secret, message :: ',' !in mac(secret, message)
  }

  /** Different secrets give different digests. */
  ghost predicate Distinguishes(mac: Mac) {
    forall a, b, message :: mac(a, message) == mac(b, message) ==> a == b
  }

  /** A receiver accepts a signed message exactly when it holds one of the secrets it was signed with. */
  lemma AcceptedIff(mac: Mac, secrets: seq<string>, secret: string, message: string)
    requires CommaFree(mac) && Distinguishes(mac) && |secrets| > 0
    ensures Accepts(mac, secret, message, SignPayload(mac, secrets, message)) <==> secret in secrets
  {
    var sigs := Signatures(mac, secrets, message);
    SplitJoin(sigs);
    if secret in secrets {
      var i :| 0 <= i < |secrets| && secrets[i] == secret;
      assert sigs[i] == mac(secret, message);
    }
  }

  /** From the moment of a rotation, claims sign with the new secret, and until its expiry with the replaced
      one too, and with no other. */
  lemma RotatedSigns(db: DB, e: nat, newSecret: string, expiresAt: Time, now: Time)
    requires e < |db.endpoints|
    ensures var db' := RotateSecret(db, e, newSecret, expiresAt);
            && |db'.endpoints| == |db.endpoints|
            && ActiveSecrets(db'.endpoints[e].secrets, now)
               == if now < expiresAt then [newSecret, db.endpoints[e].secrets.signing] else [newSecret]
  {
  }

  // ------------------------------------------------------- rotations over a run

  datatype Replacement = Replacement(at: Time, secret: string, expiresAt: Time)

  /** The rotations of an endpoint in a run, in order. */
  ghost function RotationsIn(cfg: Config, s: World, steps: seq<Step>, e: nat): seq<Replacement>
    requires IsRun(cfg, s, steps)
    decreases |steps|
  {
    if steps == [] then []
    else RotationOf(s, steps[0], e) + RotationsIn(cfg, Apply(cfg, s, steps[0]), steps[1..], e)
  }

  function RotationOf(s: World, st: Step, e: nat): seq<Replacement> {
    if st.Api? && st.api.Rotate? && st.api.e == e then [Replacement(s.clock, st.api.secret, st.api.expiresAt)] else []
  }

  function SecretsAfter(first: Secrets, rs: seq<Replacement>): Secrets {
    if |rs| == 0 then first else Rotated(SecretsAfter(first, rs[..|rs| - 1]), rs[|rs| - 1].secret, rs[|rs| - 1].expiresAt)
  }

  lemma {:induction false} SecretsAfterPrepend(first: Secrets, r: Replacement, rs: seq<Replacement>)
    ensures SecretsAfter(first, [r] + rs) == SecretsAfter(Rotated(first, r.secret, r.expiresAt), rs)
  {
    var all := [r] + rs;
    if |rs| > 0 {
      SecretsAfterPrepend(first, r, rs[..|rs| - 1]);
      assert all[..|all| - 1] == [r] + rs[..|rs| - 1];
    }
  }

  lemma WorkKeepsSecrets(cfg: Config, s: World, w: nat, st: WorkerStep, e: nat)
    requires CanWork(cfg, s, w, st) && e < |s.db.endpoints|
    ensures var s' := DoWork(cfg, s, w, st);
            e < |s'.db.endpoints| && s'.clock == s.clock && s'.db.endpoints[e].secrets == s.db.endpoints[e].secrets
  {
  }

  lemma StepSecrets(cfg: Config, s: World, st: Step, e: nat)
    requires Enabled(cfg, s, st) && e < |s.db.endpoints|
    ensures var s' := Apply(cfg, s, st);
            e < |s'.db.endpoints| && s'.clock >= s.clock && s'.db.endpoints[e].secrets == SecretsAfter(s.db.endpoints[e].secrets, RotationOf(s, st, e))
  {
    match st
    case Tick(_) =>
    case Receive(_, _) =>
    case Work(w, work) => {
      hide CanWork, DoWork;
      WorkKeepsSecrets(cfg, s, w, work, e);
    }
    case Transact(x, tx) => {
      hide CanTransact, DoTransact;
      TransactKeepsSecrets(s, x, tx, e);
    }
    case Api(api) => {
      hide CanApi, DoApi;
      ApiSecrets(s, api, e);
    }
  }

  lemma TransactKeepsSecrets(s: World, x: nat, st: ExpansionStep, e: nat)
    requires CanTransact(s, x, st) && e < |s.db.endpoints|
    ensures DoTransact(s, x, st).db.endpoints == s.db.endpoints && DoTransact(s, x, st).clock == s.clock
  {
    hide CommitInOrder, FanOut, ReplayRows, WindowEvents;
  }

  lemma ApiSecrets(s: World, st: ApiStep, e: nat)
    requires CanApi(s, st) && e < |s.db.endpoints|
    ensures var s' := DoApi(s, st);
            e < |s'.db.endpoints| && s'.clock == s.clock && s'.db.endpoints[e].secrets == SecretsAfter(s.db.endpoints[e].secrets, RotationOf(s, Api(st), e))
  {
    if RotationOf(s, Api(st), e) != [] {
      assert RotationOf(s, Api(st), e)[..0] == [];
    }
  }

  /** The rotations of a run, in time order from `from` until `until`. */
  ghost predicate InTimeOrder(rs: seq<Replacement>, from: Time, until: Time) {
    && (forall i :: 0 <= i < |rs| ==> from <= rs[i].at <= until)
    && (forall i, j :: 0 <= i < j < |rs| ==> rs[i].at <= rs[j].at)
  }

  /** At the end of any run, the secrets of an endpoint are what its rotations made of them. */
  lemma {:induction false} SecretsOfRun(cfg: Config, s: World, steps: seq<Step>, e: nat)
    requires IsRun(cfg, s, steps) && e < |s.db.endpoints|
    ensures var s' := After(cfg, s, steps); var rs := RotationsIn(cfg, s, steps, e);
            && e < |s'.db.endpoints| && s'.db.endpoints[e].secrets == SecretsAfter(s.db.endpoints[e].secrets, rs)
            && s'.clock >= s.clock && InTimeOrder(rs, s.clock, s'.clock)
    decreases |steps|
  {
    if steps != [] {
      StepSecrets(cfg, s, steps[0], e);
      var s1 := Apply(cfg, s, steps[0]);
      hide Enabled, Apply, SecretsAfter, InTimeOrder, RotationOf;
      SecretsOfRun(cfg, s1, steps[1..], e);
      FirstThenRest(s, steps[0], e, RotationsIn(cfg, s1, steps[1..], e), s1.clock, After(cfg, s1, steps[1..]).clock);
    }
  }

  lemma FirstThenRest(s: World, st: Step, e: nat, rs: seq<Replacement>, mid: Time, until: Time)
    requires e < |s.db.endpoints| && s.clock <= mid <= until && InTimeOrder(rs, mid, until)
    ensures var first := s.db.endpoints[e].secrets; var one := RotationOf(s, st, e);
            && SecretsAfter(first, one + rs) == SecretsAfter(SecretsAfter(first, one), rs)
            && InTimeOrder(one + rs, s.clock, until)
  {
    hide SecretsAfter, InTimeOrder;
    var one := RotationOf(s, st, e);
    SecretsAfterParts(s.db.endpoints[e].secrets, one, rs);
    OrderOfParts(one, rs, s.clock, mid, until);
  }

  lemma SecretsAfterParts(first: Secrets, one: seq<Replacement>, rs: seq<Replacement>)
    requires |one| <= 1
    ensures SecretsAfter(first, one + rs) == SecretsAfter(SecretsAfter(first, one), rs)
  {
    hide SecretsAfter;
    if one == [] {
      assert one + rs == rs;
      SecretsAfterNone(first);
    } else {
      var r := one[0];
      assert one == [r];
      SecretsAfterOne(first, r);
      SecretsAfterPrepend(first, r, rs);
    }
  }

  lemma SecretsAfterNone(first: Secrets)
    ensures SecretsAfter(first, []) == first
  {
  }

  lemma OrderOfParts(one: seq<Replacement>, rs: seq<Replacement>, from: Time, mid: Time, until: Time)
    requires |one| <= 1 && (one != [] ==> one[0].at == from) && from <= mid <= until && InTimeOrder(rs, mid, until)
    ensures InTimeOrder(one + rs, from, until)
  {
    var all := one + rs;
    assert forall i :: |one| <= i < |all| ==> all[i] == rs[i - |one|];
  }

  lemma SecretsAfterOne(first: Secrets, r: Replacement)
    ensures SecretsAfter(first, [r]) == Rotated(first, r.secret, r.expiresAt)
  {
    assert [r][..0] == [];
  }

  // --------------------------------------------------------------- the overlap

  /** Nobody installs this secret again: generated secrets do not repeat. */
  predicate NotReused(rs: seq<Replacement>, secret: string) {
    forall i :: 0 <= i < |rs| ==> rs[i].secret != secret
  }

  /** A secret installed at the start of a run signs a claim at its end exactly when it has not been
      replaced, or has been replaced once, by a rotation that has not expired. */
  lemma ActiveIff(cfg: Config, s: World, steps: seq<Step>, e: nat, now: Time)
    requires IsRun(cfg, s, steps) && e < |s.db.endpoints|
    requires NotReused(RotationsIn(cfg, s, steps, e), s.db.endpoints[e].secrets.signing)
    ensures e < |After(cfg, s, steps).db.endpoints|
    ensures var rs := RotationsIn(cfg, s, steps, e);
            s.db.endpoints[e].secrets.signing in ActiveSecrets(After(cfg, s, steps).db.endpoints[e].secrets, now)
            <==> rs == [] || (|rs| == 1 && now < rs[0].expiresAt)
  {
    hide IsRun, After, RotationsIn;
    SecretsOfRun(cfg, s, steps, e);
    ActiveAfter(s.db.endpoints[e].secrets, RotationsIn(cfg, s, steps, e), now);
  }

  lemma ActiveAfter(first: Secrets, rs: seq<Replacement>, now: Time)
    requires NotReused(rs, first.signing)
    ensures first.signing in ActiveSecrets(SecretsAfter(first, rs), now) <==> rs == [] || (|rs| == 1 && now < rs[0].expiresAt)
  {
    if |rs| >= 2 {
      var front := rs[..|rs| - 1];
      assert SecretsAfter(first, front).signing == front[|front| - 1].secret;
    } else if |rs| == 1 {
      assert SecretsAfter(first, rs[..0]) == first;
    }
  }

  lemma FirstRotation(cfg: Config, s: World, steps: seq<Step>, e: nat)
    requires IsRun(cfg, s, steps)
    ensures steps == [] ==> RotationsIn(cfg, s, steps, e) == []
    ensures steps != [] ==> Enabled(cfg, s, steps[0]) && IsRun(cfg, Apply(cfg, s, steps[0]), steps[1..])
                            && RotationsIn(cfg, s, steps, e) == RotationOf(s, steps[0], e) + RotationsIn(cfg, Apply(cfg, s, steps[0]), steps[1..], e)
  {
  }

  /** The rotations of a run are those of its first part, then those of the rest. */
  lemma {:induction false} RotationsOfParts(cfg: Config, s: World, a: seq<Step>, b: seq<Step>, e: nat)
    requires IsRun(cfg, s, a) && IsRun(cfg, After(cfg, s, a), b)
    ensures IsRun(cfg, s, a + b) && RotationsIn(cfg, s, a + b, e) == RotationsIn(cfg, s, a, e) + RotationsIn(cfg, After(cfg, s, a), b, e)
    decreases |a|
  {
    hide Enabled, Apply, RotationOf, IsRun, After, RotationsIn;
    Concat(cfg, s, a, b);
    FirstRotation(cfg, s, a, e);
    if a == [] {
      EmptyRun(cfg, s);
      assert a + b == b;
    } else {
      FirstStep(cfg, s, a);
      FirstRotation(cfg, s, a + b, e);
      assert (a + b)[0] == a[0] && (a + b)[1..] == a[1..] + b;
      RotationsOfParts(cfg, Apply(cfg, s, a[0]), a[1..], b, e);
    }
  }

  /** The n-th rotation of a run leaves a state of the run behind it. */
  lemma {:induction false} StateOfRotation(cfg: Config, s: World, steps: seq<Step>, e: nat, n: nat) returns (k: nat)
    requires IsRun(cfg, s, steps) && 0 < n <= |RotationsIn(cfg, s, steps, e)|
    ensures k <= |steps| && IsRun(cfg, s, steps[..k])
    ensures RotationsIn(cfg, s, steps[..k], e) == RotationsIn(cfg, s, steps, e)[..n]
    ensures After(cfg, s, steps[..k]).clock == RotationsIn(cfg, s, steps, e)[n - 1].at
    decreases |steps|
  {
    hide Enabled, Apply, IsRun, After, RotationsIn;
    FirstRotation(cfg, s, steps, e);
    var one, s1 := RotationOf(s, steps[0], e), Apply(cfg, s, steps[0]);
    if n == |one| {
      k := 1;
      StateOfFirst(cfg, s, steps, e);
    } else {
      var j := StateOfRotation(cfg, s1, steps[1..], e, n - |one|);
      k := j + 1;
      StateOfLater(cfg, s, steps, e, n, j);
    }
  }

  lemma StateOfFirst(cfg: Config, s: World, steps: seq<Step>, e: nat)
    requires IsRun(cfg, s, steps) && steps != [] && |RotationOf(s, steps[0], e)| == 1
    ensures IsRun(cfg, s, steps[..1]) && RotationsIn(cfg, s, steps, e) != [] && RotationsIn(cfg, s, steps[..1], e) == RotationsIn(cfg, s, steps, e)[..1]
    ensures After(cfg, s, steps[..1]).clock == RotationsIn(cfg, s, steps, e)[0].at
  {
    hide Enabled, Apply, IsRun, After, RotationsIn;
    FirstStep(cfg, s, steps);
    FirstRotation(cfg, s, steps, e);
    RunOfOne(cfg, s, steps[0]);
    FirstRotation(cfg, s, [steps[0]], e);
    EmptyRun(cfg, Apply(cfg, s, steps[0]));
    FirstRotation(cfg, Apply(cfg, s, steps[0]), [], e);
    assert steps[..1] == [steps[0]] && [steps[0]][1..] == [];
    RotationKeepsTime(cfg, s, steps[0], e);
  }

  lemma StateOfLater(cfg: Config, s: World, steps: seq<Step>, e: nat, n: nat, j: nat)
    requires IsRun(cfg, s, steps) && steps != [] && j < |steps| && |RotationOf(s, steps[0], e)| < n <= |RotationsIn(cfg, s, steps, e)|
    requires Enabled(cfg, s, steps[0]) && IsRun(cfg, Apply(cfg, s, steps[0]), steps[1..])
    requires RotationsIn(cfg, s, steps, e) == RotationOf(s, steps[0], e) + RotationsIn(cfg, Apply(cfg, s, steps[0]), steps[1..], e)
    requires var s1, m := Apply(cfg, s, steps[0]), n - |RotationOf(s, steps[0], e)|; var later := RotationsIn(cfg, s1, steps[1..], e);
             && IsRun(cfg, s1, steps[1..][..j]) && m <= |later| && RotationsIn(cfg, s1, steps[1..][..j], e) == later[..m]
             && After(cfg, s1, steps[1..][..j]).clock == later[m - 1].at
    ensures IsRun(cfg, s, steps[..j + 1]) && RotationsIn(cfg, s, steps[..j + 1], e) == RotationsIn(cfg, s, steps, e)[..n]
    ensures After(cfg, s, steps[..j + 1]).clock == RotationsIn(cfg, s, steps, e)[n - 1].at
  {
    hide Enabled, Apply, IsRun, After, RotationsIn, RotationOf;
    var k := j + 1;
    Cut(cfg, s, steps, k);
    assert steps[..k][0] == steps[0] && steps[..k][1..] == steps[1..][..j];
    FirstRotation(cfg, s, steps[..k], e);
    FirstStep(cfg, s, steps[..k]);
    var one, later := RotationOf(s, steps[0], e), RotationsIn(cfg, Apply(cfg, s, steps[0]), steps[1..], e);
    assert (one + later)[..n] == one + later[..n - |one|];
  }

  lemma RotationKeepsTime(cfg: Config, s: World, st: Step, e: nat)
    requires Enabled(cfg, s, st) && RotationOf(s, st, e) != []
    ensures Apply(cfg, s, st).clock == s.clock
  {
  }

  /** A claim in this state would sign with the secret. */
  predicate Signs(s: World, e: nat, secret: string) {
    e < |s.db.endpoints| && secret in ActiveSecrets(s.db.endpoints[e].secrets, s.clock)
  }

  /** The secret signs in every state of the run before time `until`. */
  ghost predicate SignsUntil(cfg: Config, s: World, steps: seq<Step>, e: nat, secret: string, until: Time) {
    forall k: nat :: k <= |steps| && IsRun(cfg, s, steps[..k]) && After(cfg, s, steps[..k]).clock < until ==> Signs(After(cfg, s, steps[..k]), e, secret)
  }

  /** Over any run that rotates a secret away, the secret works in every state of its promised overlap if
      and only if the next rotation comes no sooner than one overlap after the first: rotations at least
      one overlap apart never cut a receiver off, and closer ones always do. */
  lemma OverlapIsKeptIff(cfg: Config, s: World, steps: seq<Step>, e: nat, overlap: nat)
    requires IsRun(cfg, s, steps) && e < |s.db.endpoints| && RotationsIn(cfg, s, steps, e) != []
    requires NotReused(RotationsIn(cfg, s, steps, e), s.db.endpoints[e].secrets.signing)
    requires forall i :: 0 <= i < |RotationsIn(cfg, s, steps, e)| ==> RotationsIn(cfg, s, steps, e)[i].expiresAt == RotationsIn(cfg, s, steps, e)[i].at + overlap
    ensures var rs := RotationsIn(cfg, s, steps, e);
            SignsUntil(cfg, s, steps, e, s.db.endpoints[e].secrets.signing, rs[0].at + overlap) <==> (|rs| > 1 ==> rs[1].at >= rs[0].at + overlap)
  {
    hide IsRun, After, RotationsIn;
    var rs, secret := RotationsIn(cfg, s, steps, e), s.db.endpoints[e].secrets.signing;
    if |rs| > 1 && rs[1].at < rs[0].at + overlap {
      var k := StateOfRotation(cfg, s, steps, e, 2);
      ActiveIff(cfg, s, steps[..k], e, rs[1].at);
      assert !Signs(After(cfg, s, steps[..k]), e, secret);
    } else {
      forall k: nat | k <= |steps| && IsRun(cfg, s, steps[..k]) && After(cfg, s, steps[..k]).clock < rs[0].at + overlap
        ensures Signs(After(cfg, s, steps[..k]), e, secret)
      {
        Cut(cfg, s, steps, k);
        RotationsOfParts(cfg, s, steps[..k], steps[k..], e);
        assert steps[..k] + steps[k..] == steps;
        SecretsOfRun(cfg, s, steps[..k], e);
        ActiveIff(cfg, s, steps[..k], e, After(cfg, s, steps[..k]).clock);
      }
    }
  }

  /** Rotating twice at once is a run of the service in every state; it cuts the secret off with its whole
      overlap still to come. */
  lemma RotatingTwiceCutsOff(cfg: Config, s: World, e: nat, second: string, third: string, overlap: nat)
    requires e < |s.db.endpoints| && overlap > 0 && s.db.endpoints[e].secrets.signing !in {second, third}
    ensures var steps := [Api(Rotate(e, second, s.clock + overlap)), Api(Rotate(e, third, s.clock + overlap))];
            && IsRun(cfg, s, steps) && After(cfg, s, steps).clock == s.clock
            && RotationsIn(cfg, s, steps, e) == [Replacement(s.clock, second, s.clock + overlap), Replacement(s.clock, third, s.clock + overlap)]
            && !Signs(After(cfg, s, steps), e, s.db.endpoints[e].secrets.signing)
  {
    var a, b := Api(Rotate(e, second, s.clock + overlap)), Api(Rotate(e, third, s.clock + overlap));
    RunOfTwo(cfg, s, a, b);
    assert [a, b][1..] == [b] && [b][1..] == [];
    assert RotationsIn(cfg, Apply(cfg, s, a), [b], e) == [Replacement(s.clock, third, s.clock + overlap)];
  }

  /** So, with rotations at least one overlap apart in a run, a receiver that holds a secret verifies
      everything signed from its installation until one overlap after its replacement. */
  lemma ReceiverKeepsVerifying(cfg: Config, s: World, steps: seq<Step>, e: nat, now: Time, overlap: nat, mac: Mac, message: string)
    requires IsRun(cfg, s, steps) && e < |s.db.endpoints| && CommaFree(mac) && Distinguishes(mac)
    requires var rs := RotationsIn(cfg, s, steps, e);
             && NotReused(rs, s.db.endpoints[e].secrets.signing)
             && (forall i :: 0 <= i < |rs| ==> rs[i].expiresAt == rs[i].at + overlap)
             && (forall i, j :: 0 <= i < j < |rs| ==> rs[i].at + overlap <= rs[j].at)
             && After(cfg, s, steps).clock <= now && (rs != [] ==> now < rs[0].at + overlap)
    ensures e < |After(cfg, s, steps).db.endpoints|
    ensures Accepts(mac, s.db.endpoints[e].secrets.signing, message,
                    SignPayload(mac, ActiveSecrets(After(cfg, s, steps).db.endpoints[e].secrets, now), message))
  {
    hide IsRun, After, RotationsIn;
    SecretsOfRun(cfg, s, steps, e);
    ActiveIff(cfg, s, steps, e, now);
    AcceptedIff(mac, ActiveSecrets(After(cfg, s, steps).db.endpoints[e].secrets, now), s.db.endpoints[e].secrets.signing, message);
  }
}
