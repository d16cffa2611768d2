/** The bound of 29 extending renewals is met: a run of reloads that renews each leaf at the first instant the
    threshold allows. */
module Renewals {
  import opened Errors
  import opened Validity
  import opened Certificates
  import opened States
  import opened TrustStore
  import opened TrustStoreProofs
  import opened Provision
  import opened ProvisionProofs
  import opened Runs
  import opened Lifecycle
  import opened Recovery
  import opened Refinement

  /** The calls of one reload that renews, when nothing fails and the CA is the first entry of Root. */
  const CALLS: nat := 15

  /** The number of those made before the clock is read. */
  const CALLS_BEFORE_CLOCK: nat := 7

  lemma OpenPairCalls(env: Env, s: State, f: File, name: KeyName, cert: Certificate)
    requires NoFaults(env, s.tick) && !s.dead && name in s.keys
    requires Disk(s, f) == Some(Raw(cert)) && PublicKeyMatches(cert, P256(s.keys[name]))
    ensures var r := OpenPair(env, s, f, name);
            && r.Ok? && !r.s.dead && r.value == Pair(cert, Signer(|s.handles|, P256(s.keys[name])))
            && r.s.tick == s.tick + 2 && SameMachine(s, r.s)
  {
  }

  lemma VerifyCalls(env: Env, s: State, ca: Certificate)
    requires NoFaults(env, s.tick) && !s.dead
    requires |s.root| > 0 && env.sha(s.root[0].der) == env.sha(Raw(ca))
    ensures var r := VerifyTrust(env, s, Raw(ca));
            && r.Ok? && r.value == TrustHealthy && !r.s.dead && r.s.tick == s.tick + 3 && SameMachine(s, r.s)
  {
  }

  lemma ReplaceCalls(env: Env, s: State, now: Instant, ca: Certificate, caSigner: Signer, serverSigner: Signer)
    requires NoFaults(env, s.tick) && !s.dead && s.dir && serverSigner.pub.P256?
    requires Encodable(Encoded(LeafTemplate(now, ca.window)))
    ensures var r := ReplaceLeaf(env, s, now, ca, caSigner, serverSigner);
            r.Ok? && !r.s.dead && r.s.tick == s.tick + 8 && r.s.now == s.now
  {
    hide Encodable, Encoded, LeafTemplate, AtomicWrite;
    LeafIssued(env, s, now, ca, caSigner, serverSigner);
    var g := GenerateLeaf(env, s, now, ca, caSigner, serverSigner);
    WriteCalls(env, g.s, ServerCert, Raw(g.value));
    WriteIsAtomic(env, g.s, ServerCert, Raw(g.value));
  }

  lemma WriteCalls(env: Env, s: State, target: File, data: Der)
    requires NoFaults(env, s.tick) && !s.dead && s.dir
    ensures var r := AtomicWrite(env, s, target, data);
            r.Ok? && !r.s.dead && r.s.tick == s.tick + 6
  {
  }

  lemma RenewalCalls(env: Env, s: State, ca: Certificate, caSigner: Signer, leaf: Certificate, serverSigner: Signer)
    requires NoFaults(env, s.tick) && !s.dead && s.dir && serverSigner.pub.P256?
    requires CaShape(ca.window) && Encodable(ca.window) && LeafShape(leaf.window, ca.window)
    requires RenewalDue(leaf.window.notAfter, env.clock(s.tick)) && CurrentlyValid(ca.window, env.clock(s.tick))
    ensures var r := RenewIfDue(env, s, ca, caSigner, leaf, serverSigner);
            r.Ok? && !r.s.dead && r.s.tick == s.tick + 8 && r.s.now == env.clock(s.tick)
  {
    hide ReplaceLeaf, CurrentlyValid, RenewalDue, CaShape, LeafShape, Encodable, Encoded, LeafTemplate;
    var now := env.clock(s.tick);
    RenewalShapes(leaf.window, ca.window, now);
    NestedEncodable(now, ca.window);
    ReplaceCalls(env, s.(now := now), now, ca, caSigner, serverSigner);
  }

  /** A machine a reload can renew on. */
  ghost predicate Renewable(env: Env, s: State) {
    && !s.dead && Complete(s) && Genuine(s) && NoFaults(env, s.tick)
    && |s.root| > 0 && env.sha(s.root[0].der) == env.sha(s.files[CaCert])
  }

  lemma RenewingReload(env: Env, s: State)
    requires Renewable(env, s)
    requires var now := env.clock(s.tick + CALLS_BEFORE_CLOCK);
             && RenewalDue(s.files[ServerCert].cert.window.notAfter, now)
             && CurrentlyValid(s.files[CaCert].cert.window, now)
    ensures var r := ReloadMachine(env, s);
            && r.Ok? && !r.s.dead && r.s.tick == s.tick + CALLS && r.s.now == env.clock(s.tick + CALLS_BEFORE_CLOCK)
  {
    hide OpenPair, VerifyTrust, RenewIfDue, CaShape, LeafShape, RenewalDue, CurrentlyValid, ValidSan, Encodable;
    var ca, leaf := s.files[CaCert].cert, s.files[ServerCert].cert;
    OpenPairCalls(env, s, CaCert, CaKey, ca);
    var p := OpenPair(env, s, CaCert, CaKey);
    OpenPairCalls(env, p.s, ServerCert, ServerKey, leaf);
    var q := OpenPair(env, p.s, ServerCert, ServerKey);
    VerifyCalls(env, q.s, ca);
    var v := VerifyTrust(env, q.s, Raw(ca));
    RenewalCalls(env, v.s, ca, p.value.signer, leaf, q.value.signer);
  }

  /** One reload at the first instant the threshold allows: the next eager leaf. */
  lemma EagerReload(env: Env, s: State, k: nat)
    requires Renewable(env, s) && k < 29
    requires s.files[ServerCert].cert.window.notAfter == EagerLeaf(s.files[CaCert].cert.window, k).notAfter
    requires env.clock(s.tick + CALLS_BEFORE_CLOCK)
          == EagerLeaf(s.files[CaCert].cert.window, k).notAfter - RENEWAL_THRESHOLD
    ensures var r := ReloadMachine(env, s);
            && r.Ok? && Renewable(env, r.s) && r.s.tick == s.tick + CALLS
            && r.s.files[CaCert] == s.files[CaCert]
            && r.s.files[ServerCert].cert.window.notAfter == EagerLeaf(s.files[CaCert].cert.window, k + 1).notAfter
            && r.s.files[ServerCert].cert.window.notAfter > s.files[ServerCert].cert.window.notAfter
  {
    hide ReloadMachine, CaShape, LeafShape, RenewalDue, CurrentlyValid, ValidSan, Encodable, Encoded, LeafTemplate;
    hide Owned, Trusted;
    var ca := s.files[CaCert].cert;
    TwentyNineRenewals(ca.window, k);
    RenewingReload(env, s);
    ReloadMachineEffect(env, s);
    ReloadKeepsGenuine(env, s, ReloadMachine(env, s));
  }

  function Reloads(n: nat): seq<Op> {
    if n == 0 then [] else [CallReload] + Reloads(n - 1)
  }

  /** The clock shows the threshold instant of each eager leaf when the reload that finds it asks. */
  ghost predicate EagerClock(env: Env, from: nat, ca: Window) {
    forall k: nat :: k < 29 ==> ReadingAt(env, from, k) == EagerLeaf(ca, k).notAfter - RENEWAL_THRESHOLD
  }

  function ReadingAt(env: Env, from: nat, k: nat): Instant {
    env.clock(from + CALLS * k + CALLS_BEFORE_CLOCK)
  }

  lemma {:induction false} EagerRun(env: Env, from: nat, sys: System, k: nat)
    requires Renewable(env, sys.s) && k <= 29 && sys.s.tick == from + CALLS * k
    requires EagerClock(env, from, sys.s.files[CaCert].cert.window)
    requires sys.s.files[ServerCert].cert.window.notAfter == EagerLeaf(sys.s.files[CaCert].cert.window, k).notAfter
    ensures Extensions(env, sys, Reloads(29 - k)) == 29 - k
    decreases 29 - k
  {
    hide ReloadMachine, EagerLeaf, GenuineCa, GenuineLeaf;
    if k < 29 {
      assert ReadingAt(env, from, k) == EagerLeaf(sys.s.files[CaCert].cert.window, k).notAfter - RENEWAL_THRESHOLD;
      EagerReload(env, sys.s, k);
      var ops := Reloads(29 - k);
      assert ops[0] == CallReload && ops[1..] == Reloads(28 - k);
      EagerRun(env, from, Step(env, sys, CallReload), k + 1);
    }
  }

  /** The environment with its clock set so that every reload comes at the first instant the threshold allows. */
  function Eagerly(env: Env, from: nat, ca: Window): Env {
    env.(clock := (t: nat) =>
      if t < from then 0 else EagerLeaf(ca, (t - from) / CALLS).notAfter - RENEWAL_THRESHOLD)
  }

  lemma EagerlyIsEager(env: Env, from: nat, ca: Window)
    ensures EagerClock(Eagerly(env, from, ca), from, ca)
  {
    hide EagerLeaf;
    forall k: nat | k < 29
      ensures ReadingAt(Eagerly(env, from, ca), from, k) == EagerLeaf(ca, k).notAfter - RENEWAL_THRESHOLD
    {
      assert (CALLS * k + CALLS_BEFORE_CLOCK) / CALLS == k;
    }
  }

  /** On any machine as a first install leaves it, with nothing failing and the CA the first entry of Root, there
      is a clock under which 29 reloads extend the leaf 29 times. */
  lemma TwentyNineExtensions(env: Env, sys: System)
    requires Renewable(env, sys.s)
    requires sys.s.files[ServerCert].cert.window.notAfter
          == sys.s.files[CaCert].cert.window.notBefore + BACKDATE + SERVER_VALIDITY
    ensures var eager := Eagerly(env, sys.s.tick, sys.s.files[CaCert].cert.window);
            Extensions(eager, sys, Reloads(29)) == 29
  {
    hide GenuineLeaf, EagerLeaf, Extensions;
    var ca := sys.s.files[CaCert].cert.window;
    var eager := Eagerly(env, sys.s.tick, ca);
    EagerlyIsEager(env, sys.s.tick, ca);
    assert GenuineCa(sys.s, sys.s.files[CaCert].cert);
    EagerLeafAt(ca, 0);
    EagerRun(eager, sys.s.tick, sys, 0);
  }
}
