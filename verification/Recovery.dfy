/** After a crash or a failure: what the next calls do. */
module Recovery {
  import opened Errors
  import opened Validity
  import opened Certificates
  import opened States
  import opened TrustStore
  import opened TrustStoreProofs
  import opened TrustStoreModel
  import opened Provision
  import opened ProvisionProofs
  import opened Runs
  import opened Lifecycle
  import opened Refinement

  // ---------- when nothing fails ----------

  lemma QuietClassify(env: Env, s: State, der: Der)
    requires NoFaults(env, s.tick) && !s.dead
    ensures var r := Classify(env, s, der);
            && r.Ok? && !r.s.dead
            && (r.value == TrustHealthy <==> Trusted(env, s.root, env.sha(der)))
            && (r.value == TrustConflict <==>
                  !Trusted(env, s.root, env.sha(der)) && Conflicting(env, s.root, der))
  {
    hide FindBySHA256, FirstSubject;
    FindFirst(env, s, env.sha(der));
    QuietSearch(env, s, env.sha(der), None);
  }

  lemma QuietVerify(env: Env, s: State, der: Der)
    requires NoFaults(env, s.tick) && !s.dead && der.CertDer?
    ensures var r := VerifyTrust(env, s, der);
            && r.Ok? && !r.s.dead
            && (r.value == TrustHealthy <==> Trusted(env, s.root, env.sha(der)))
            && (r.value == TrustConflict <==>
                  !Trusted(env, s.root, env.sha(der)) && Conflicting(env, s.root, der))
  {
    hide Classify, Trusted, Conflicting;
    var o := OpenStore(env, s);
    var c := CreateContext(env, o.s, der);
    QuietClassify(env, c.s, der);
  }

  lemma QuietInstall(env: Env, s: State, der: Der)
    requires NoFaults(env, s.tick) && !s.dead && der.CertDer?
    ensures InstallTrust(env, s, der).Ok? && !InstallTrust(env, s, der).s.dead
  {
    hide FindBySHA256, DropFirstSame;
    var o := OpenStore(env, s);
    FindFirst(env, o.s, env.sha(der));
    QuietSearch(env, o.s, env.sha(der), None);
  }

  lemma QuietWrite(env: Env, s: State, target: File, data: Der)
    requires NoFaults(env, s.tick) && !s.dead && s.dir
    ensures AtomicWrite(env, s, target, data).Ok? && !AtomicWrite(env, s, target, data).s.dead
  {
  }

  /** What the trust switch asks for: the CA is in Root, or may be put there. */
  ghost predicate Trustable(env: Env, s: State, der: Der, repairTrust: bool) {
    Trusted(env, s.root, env.sha(der)) || (repairTrust && !Conflicting(env, s.root, der))
  }

  lemma QuietEnsureTrust(env: Env, s: State, ca: Certificate, repairTrust: bool)
    requires NoFaults(env, s.tick) && !s.dead
    ensures var r := EnsureTrust(env, s, ca, repairTrust);
            !r.s.dead && (r.Ok? <==> Trustable(env, s, Raw(ca), repairTrust))
  {
    hide VerifyTrust, InstallTrust, Trusted, Conflicting, Settled, RootGains;
    QuietVerify(env, s, Raw(ca));
    VerifySettles(env, s, Raw(ca));
    var v := VerifyTrust(env, s, Raw(ca));
    if v.value == TrustAbsent {
      QuietInstall(env, v.s, Raw(ca));
      InstallSettles(env, v.s, Raw(ca));
      QuietVerify(env, InstallTrust(env, v.s, Raw(ca)).s, Raw(ca));
    }
  }

  /** With nothing failing, expiry of the CA is all that can stop the renewal block. */
  lemma QuietRenewal(env: Env, s: State, ca: Certificate, caSigner: Signer, leaf: Certificate, serverSigner: Signer)
    requires NoFaults(env, s.tick) && !s.dead && s.dir && serverSigner.pub.P256?
    requires CaShape(ca.window) && Encodable(ca.window) && LeafShape(leaf.window, ca.window)
    ensures var r := RenewIfDue(env, s, ca, caSigner, leaf, serverSigner);
            && r.s.now == env.clock(s.tick)
            && (r.Ok? <==> r.s.now < ca.window.notAfter)
            && (r.Ok? ==> !r.s.dead)
  {
    hide AtomicWrite, CurrentlyValid, RenewalDue, CaShape, LeafShape;
    var now := env.clock(s.tick);
    RenewalDueExact(leaf.window.notAfter, now);
    ShapeBounds(leaf.window, ca.window);
    if RenewalDue(leaf.window.notAfter, now) {
      DueRenewalIsNotEarly(leaf.window, ca.window, now);
      if now < ca.window.notAfter {
        RenewalShapes(leaf.window, ca.window, now);
        NestedEncodable(now, ca.window);
        var t := s.(now := now);
        LeafIssued(env, t, now, ca, caSigner, serverSigner);
        var g := GenerateLeaf(env, t, now, ca, caSigner, serverSigner);
        assert g.Ok?;
        QuietWrite(env, g.s, ServerCert, Raw(g.value));
        WriteIsAtomic(env, g.s, ServerCert, Raw(g.value));
      }
    }
  }

  lemma NestedEncodable(now: Instant, ca: Window)
    requires Encodable(ca) && CurrentlyValid(ca, now) && LeafShape(Encoded(LeafTemplate(now, ca)), ca)
    ensures Encodable(Encoded(LeafTemplate(now, ca)))
  {
  }

  // ---------- the three states of an interrupted install ----------

  /** Nothing there: what the guard takes for a first install. */
  predicate Empty(s: State) {
    CaCert !in s.files && ServerCert !in s.files && CaKey !in s.keys && ServerKey !in s.keys
  }

  /** Both certificate files and both keys. */
  predicate Complete(s: State) {
    CaCert in s.files && ServerCert in s.files && CaKey in s.keys && ServerKey in s.keys
  }

  /** What `provisionStateInconsistent` reports. */
  predicate Partial(s: State) {
    Inconsistent(CaCert in s.files, ServerCert in s.files, CaKey in s.keys, ServerKey in s.keys)
  }

  lemma ThreeStates(s: State)
    ensures Partial(s) <==> !Empty(s) && !Complete(s)
    ensures !(Empty(s) && Complete(s))
  {
  }

  /** A first install that fails or dies anywhere: whatever certificates it leaves are genuine, an anchor is only
      added once both files and both keys are there, a file only once both keys are, and the leaf only after the CA.
      A success leaves the machine complete. */
  lemma InterruptedInstall(env: Env, s: State)
    requires TruthfulStat(env) && Empty(s)
    ensures var t := ProvisionMachine(env, s).s;
            && Genuine(t)
            && (t.root != s.root ==> Complete(t) && RootGains(env, s.root, t.root, t.files[CaCert]))
            && (CaCert in t.files ==> CaKey in t.keys && ServerKey in t.keys)
            && (ServerCert in t.files ==> CaCert in t.files)
            && (ProvisionMachine(env, s).Ok? ==> Complete(t))
  {
    hide ProvisionMachine, Genuine, Owned, RootGains, NewCA, NewLeaf, Encodable;
    assert Genuine(s) by { NothingToBeGenuine(s); }
    ProvisionKeepsGenuine(env, s);
    ProvisionMachineEffect(env, s);
  }

  lemma NothingToBeGenuine(s: State)
    requires CaCert !in s.files && ServerCert !in s.files
    ensures Genuine(s)
  {
  }

  /** On a partial machine a provision is refused without effect, and a reload is an error. Keys without any
      certificate are only seen when a failing key call does not claim that its key is missing. */
  lemma PartialIsRefused(env: Env, s: State)
    requires TruthfulStat(env) && Partial(s)
    requires CaCert in s.files || ServerCert in s.files || HonestFailures(env)
    ensures Refused(s, ProvisionMachine(env, s))
    ensures ReloadMachine(env, s).Err?
  {
    hide ProvisionMachine, ReloadMachine, Owned, RootGains, FirstFrame, TruthfulStat, HonestFailures, Settled;
    ProvisionMachineEffect(env, s);
    ReloadMachineEffect(env, s);
  }

  /** Nothing of the module's on this machine has changed. */
  ghost predicate Untouched(a: State, b: State) {
    a.files == b.files && a.keys == b.keys && a.root == b.root
  }

  lemma PartialStep(env: Env, sys: System, op: Op)
    requires TruthfulStat(env) && Partial(sys.s) && NoCleanup([op])
    requires CaCert in sys.s.files || ServerCert in sys.s.files || HonestFailures(env)
    ensures Untouched(sys.s, Step(env, sys, op).s)
  {
    hide ProvisionMachine, ReloadMachine, LoadServingMaterial, TruthfulStat, HonestFailures, Owned, Settled, Reloaded;
    assert op in [op];
    PartialIsRefused(env, sys.s);
    match op {
      case CallReload =>
        ReloadMachineEffect(env, sys.s);
        SameFiles(sys.s, ReloadMachine(env, sys.s).s);
      case CallServe => LoadServingEffect(env, sys.s);
      case _ =>
    }
  }

  lemma SameFiles(a: State, b: State)
    requires SameDisk(a, b)
    ensures a.files == b.files
  {
    forall f: File ensures Disk(a, f) == Disk(b, f) {
      match f { case CaCert => case ServerCert => }
    }
    assert a.files.Keys == b.files.Keys by {
      assert forall f :: f in a.files <==> Disk(a, f).Some?;
      assert forall f :: f in b.files <==> Disk(b, f).Some?;
    }
    assert forall f :: f in a.files ==> a.files[f] == Disk(a, f).value;
    assert forall f :: f in b.files ==> b.files[f] == Disk(b, f).value;
  }

  /** No run without cleanup gets a partial machine anywhere: no key is created, no certificate file written and
      Root is not touched. */
  lemma {:induction false} PartialForever(env: Env, sys: System, ops: seq<Op>)
    requires TruthfulStat(env) && Partial(sys.s) && NoCleanup(ops)
    requires CaCert in sys.s.files || ServerCert in sys.s.files || HonestFailures(env)
    ensures Untouched(sys.s, Run(env, sys, ops).s)
    decreases |ops|
  {
    hide Step, TruthfulStat, HonestFailures;
    if ops != [] {
      assert NoCleanup([ops[0]]);
      PartialStep(env, sys, ops[0]);
      PartialForever(env, Step(env, sys, ops[0]), ops[1..]);
    }
  }

  // ---------- what the next fault-free provision does ----------

  lemma QuietLoadPair(env: Env, s: State, f: File, name: KeyName, cert: Certificate)
    requires NoFaults(env, s.tick) && !s.dead && name in s.keys
    requires Disk(s, f) == Some(Raw(cert)) && PublicKeyMatches(cert, P256(s.keys[name]))
    ensures var r := LoadPair(env, s, f, name);
            && r.Ok? && !r.s.dead && r.value == Pair(cert, Signer(|s.handles|, P256(s.keys[name])))
  {
  }

  lemma QuietProbe(env: Env, s: State, name: KeyName)
    requires NoFaults(env, s.tick) && !s.dead
    ensures var r := ProbeKey(env, s, name);
            r.Ok? && !r.s.dead && (r.value <==> name in s.keys) && r.s.tick == s.tick + 1
  {
  }

  /** What the guard's two stat calls and two key probes make of the machine. */
  predicate GuardRefuses(env: Env, s: State) {
    Inconsistent(CaCert in s.files && !env.statFails(s.tick), ServerCert in s.files && !env.statFails(s.tick + 1),
                 CaKey in s.keys, ServerKey in s.keys)
  }

  lemma QuietGuard(env: Env, s: State)
    requires NoFaults(env, s.tick) && !s.dead
    ensures var r := CheckInconsistent(env, s);
            && r.Ok? && !r.s.dead && SameMachine(s, r.s)
            && (r.value <==> GuardRefuses(env, s))
            && (!r.value ==> r.s.tick == s.tick + 4)
  {
    hide ProbeKey, Settled;
    GuardEffect(env, s);
    var a := FileExists(env, s, CaCert);
    var b := FileExists(env, a.s, ServerCert);
    QuietProbe(env, b.s, CaKey);
    ProbeEffect(env, b.s, CaKey);
    QuietProbe(env, ProbeKey(env, b.s, CaKey).s, ServerKey);
  }

  /** The clock stands at `now` from call number `from` on. */
  ghost predicate ClockStands(env: Env, from: nat, now: Instant) {
    forall t :: t >= from ==> env.clock(t) == now
  }

  lemma QuietReload(env: Env, s: State, repairTrust: bool)
    requires NoFaults(env, s.tick) && !s.dead && Complete(s) && Genuine(s)
    ensures var r := ReloadWithKeyStore(env, s, repairTrust);
            && (r.Ok? <==> && Trustable(env, s, s.files[CaCert], repairTrust)
                           && r.s.now < s.files[CaCert].cert.window.notAfter)
            && (Trustable(env, s, s.files[CaCert], repairTrust) ==> exists t :: t >= s.tick && r.s.now == env.clock(t))
  {
    hide LoadPair, EnsureTrust, RenewIfDue, Trustable, CaShape, LeafShape, ValidSan, Settled, Trusted, RootGains,
         RepairGains, Encodable;
    var ca, leaf := s.files[CaCert].cert, s.files[ServerCert].cert;
    LoadPairEffect(env, s, CaCert, CaKey);
    QuietLoadPair(env, s, CaCert, CaKey, ca);
    var p := LoadPair(env, s, CaCert, CaKey);
    LoadPairEffect(env, p.s, ServerCert, ServerKey);
    QuietLoadPair(env, p.s, ServerCert, ServerKey, leaf);
    var q := LoadPair(env, p.s, ServerCert, ServerKey);
    EnsureTrustEffect(env, q.s, ca, repairTrust);
    QuietEnsureTrust(env, q.s, ca, repairTrust);
    SameTrustable(env, s, q.s, Raw(ca), repairTrust);
    var t := EnsureTrust(env, q.s, ca, repairTrust);
    if t.Ok? {
      QuietRenewal(env, t.s, ca, p.value.signer, leaf, q.value.signer);
    }
  }

  lemma SameTrustable(env: Env, a: State, b: State, der: Der, repairTrust: bool)
    requires a.root == b.root
    ensures Trustable(env, a, der, repairTrust) <==> Trustable(env, b, der, repairTrust)
  {
  }

  /** Complete: the next fault-free provision succeeds exactly when the CA is in Root, or no other certificate
      there has its subject, and the clock it reads is before the CA's NotAfter. It then returns the same CA, with
      its anchor in Root. */
  lemma CompleteRecovers(env: Env, s: State, now: Instant)
    requires TruthfulStat(env) && Quiet(env, s.tick) && !s.dead && Complete(s) && Genuine(s)
    ensures var r := ProvisionMachine(env, s);
            var der := s.files[CaCert];
            var trustable := Trusted(env, s.root, env.sha(der)) || !Conflicting(env, s.root, der);
            && (r.Ok? <==> trustable && r.s.now < der.cert.window.notAfter)
            && (ClockStands(env, s.tick, now) ==> (r.Ok? <==> trustable && now < der.cert.window.notAfter))
            && (r.Ok? ==> && Disk(r.s, CaCert) == Disk(s, CaCert) == Some(Raw(r.value.ca))
                          && Trusted(env, r.s.root, env.sha(der)))
  {
    hide ProvisionMachine, ReloadWithKeyStore, Genuine, Conflicting, Settled, Trusted, Owned, LeafKept;
    hide RootGains, Quiet, TruthfulStat, ReloadFrame, Refused;
    ProvisionMachineEffect(env, s);
    var t := QuietRoute(env, s);
    StillReady(s, t);
    QuietReload(env, t, true);
    if ProvisionMachine(env, s).Ok? { SameCa(env, s, ProvisionMachine(env, s)); }
  }

  /** A fault-free `ReloadMachine` repairs nothing: it succeeds exactly when the CA is in Root and the clock it
      reads is before the CA's NotAfter. */
  lemma CompleteReloads(env: Env, s: State, now: Instant)
    requires Quiet(env, s.tick) && !s.dead && Complete(s) && Genuine(s)
    ensures var r := ReloadMachine(env, s);
            var trusted := Trusted(env, s.root, env.sha(s.files[CaCert]));
            && (r.Ok? <==> trusted && r.s.now < s.files[CaCert].cert.window.notAfter)
            && (ClockStands(env, s.tick, now) ==> (r.Ok? <==> trusted && now < s.files[CaCert].cert.window.notAfter))
  {
    hide ReloadMachine, ReloadWithKeyStore, Genuine, Trusted;
    ReloadRefinesKeyStoreReload(env, s);
    QuietReload(env, s, false);
  }

  lemma SameCa(env: Env, s: State, r: Out<Material>)
    requires ReloadFrame(env, s, r) && r.Ok?
    ensures CaCert in s.files && CaCert in r.s.files && r.s.files[CaCert] == s.files[CaCert] == Raw(r.value.ca)
    ensures Trusted(env, r.s.root, env.sha(Raw(r.value.ca)))
  {
  }

  /** A complete machine is routed to the reload. */
  lemma QuietRoute(env: Env, s: State) returns (t: State)
    requires Quiet(env, s.tick) && !s.dead && Complete(s)
    ensures ProvisionMachine(env, s) == ReloadWithKeyStore(env, t, true)
    ensures SameMachine(s, t) && !t.dead && s.tick <= t.tick && NoFaults(env, t.tick)
  {
    hide CheckInconsistent, ReloadWithKeyStore, FirstProvision, Settled;
    GuardEffect(env, s);
    QuietGuard(env, s);
    var g := CheckInconsistent(env, s);
    var a := FileExists(env, g.s, CaCert);
    t := FileExists(env, a.s, ServerCert).s;
  }

  lemma StillReady(a: State, b: State)
    requires Genuine(a) && a.files == b.files && a.keys == b.keys && a.dir == b.dir
    ensures Genuine(b)
  {
  }

  lemma QuietFirstWithKeys(env: Env, s: State, ca: Certificate, caSigner: Signer, serverSigner: Signer)
    requires NoFaults(env, s.tick) && !s.dead && s.dir && serverSigner.pub.P256?
    requires ca.window == Encoded(CaTemplate(s.now)) && Encodable(ca.window)
    ensures FirstWithKeys(env, s, s.now, ca, caSigner, serverSigner).Ok?
  {
    hide AtomicWrite, InstallTrust, Settled, RootGains, Trusted, Encoded, CaTemplate, LeafTemplate;
    FirstIssueShapes(s.now);
    LeafIssued(env, s, s.now, ca, caSigner, serverSigner);
    NestedEncodable(s.now, ca.window);
    var g := GenerateLeaf(env, s, s.now, ca, caSigner, serverSigner);
    QuietWrite(env, g.s, CaCert, Raw(ca));
    WriteIsAtomic(env, g.s, CaCert, Raw(ca));
    var w := AtomicWrite(env, g.s, CaCert, Raw(ca));
    QuietWrite(env, w.s, ServerCert, Raw(g.value));
    WriteIsAtomic(env, w.s, ServerCert, Raw(g.value));
    QuietInstall(env, AtomicWrite(env, w.s, ServerCert, Raw(g.value)).s, Raw(ca));
  }

  /** Clock readings whose certificates can be written down. */
  ghost predicate ClockEncodable(env: Env, from: nat) {
    forall t :: t >= from ==> Encodable(Encoded(CaTemplate(env.clock(t))))
  }

  lemma QuietFirst(env: Env, s: State)
    requires NoFaults(env, s.tick) && !s.dead && ClockEncodable(env, s.tick)
    ensures FirstProvision(env, s).Ok?
  {
    hide LoadOrCreate, GenerateCA, FirstWithKeys, Encodable, Encoded, CaTemplate, NoFaults;
    assert NoFaults(env, s.tick);
    var d := MkdirAll(env, s);
    QuietGate(env, s);
    var t := ReadClock(env, d.s).s;
    LoadOrCreateEffect(env, t, CaKey);
    QuietKey(env, t, CaKey);
    var k := LoadOrCreate(env, t, CaKey);
    CaIssued(env, k.s, t.now, k.value);
    QuietCa(env, k.s, t.now, k.value);
    var g := GenerateCA(env, k.s, t.now, k.value);
    LoadOrCreateEffect(env, g.s, ServerKey);
    QuietKey(env, g.s, ServerKey);
    var v := LoadOrCreate(env, g.s, ServerKey);
    QuietLater(env, s.tick, v.s.tick);
    QuietFirstWithKeys(env, v.s, g.value, k.value, v.value);
  }

  lemma QuietGate(env: Env, s: State)
    requires NoFaults(env, s.tick) && !s.dead
    ensures Gate(env, s) == Ok(s.(tick := s.tick + 1), ()) && NoFaults(env, s.tick + 1)
  {
  }

  lemma QuietLater(env: Env, a: nat, b: nat)
    requires NoFaults(env, a) && a <= b
    ensures NoFaults(env, b)
  {
  }

  lemma QuietKey(env: Env, s: State, name: KeyName)
    requires NoFaults(env, s.tick) && !s.dead
    ensures var r := LoadOrCreate(env, s, name);
            r.Ok? && !r.s.dead && NoFaults(env, r.s.tick)
  {
  }

  lemma QuietCa(env: Env, s: State, now: Instant, caSigner: Signer)
    requires NoFaults(env, s.tick) && !s.dead && caSigner.pub.P256? && Encodable(Encoded(CaTemplate(now)))
    ensures var r := GenerateCA(env, s, now, caSigner);
            r.Ok? && !r.s.dead && NoFaults(env, r.s.tick)
  {
  }

  /** Empty: the next fault-free provision installs. */
  lemma EmptyInstalls(env: Env, s: State)
    requires TruthfulStat(env) && Quiet(env, s.tick) && !s.dead && Empty(s) && ClockEncodable(env, s.tick)
    ensures ProvisionMachine(env, s).Ok? && Complete(ProvisionMachine(env, s).s)
  {
    hide ProvisionMachine, FirstProvision, ClockEncodable, Genuine, RootGains, Quiet, TruthfulStat, Complete;
    InterruptedInstall(env, s);
    var t := QuietInstallRoute(env, s);
    EncodableLater(env, s.tick, t.tick);
    QuietFirst(env, t);
  }

  /** An empty machine is routed to the first install. */
  lemma QuietInstallRoute(env: Env, s: State) returns (t: State)
    requires Quiet(env, s.tick) && !s.dead && Empty(s)
    ensures ProvisionMachine(env, s) == FirstProvision(env, t)
    ensures SameMachine(s, t) && !t.dead && s.tick <= t.tick && NoFaults(env, t.tick)
  {
    hide CheckInconsistent, ReloadWithKeyStore, FirstProvision, Settled;
    GuardEffect(env, s);
    QuietGuard(env, s);
    t := FileExists(env, CheckInconsistent(env, s).s, CaCert).s;
  }

  lemma EncodableLater(env: Env, a: nat, b: nat)
    requires ClockEncodable(env, a) && a <= b
    ensures ClockEncodable(env, b)
  {
  }

  // ---------- what is issued can be served ----------

  lemma ReloadedIsServable(env: Env, s: State, r: Out<Material>)
    requires ReloadFrame(env, s, r) && r.Ok?
    ensures Served(env, r.s, r.value)
  {
  }

  lemma InstalledIsServable(env: Env, a: State, b: State, m: Material)
    requires FirstDone(env, a, b, m)
    ensures Served(env, b, m)
  {
  }

  lemma QuietServe(env: Env, s: State, m: Material)
    requires Served(env, s, m) && NoFaults(env, s.tick) && !s.dead
    ensures var r := LoadServingMaterial(env, s);
            && r.Ok? && r.value.ca == m.ca && r.value.leaf == m.leaf
            && r.value.caFingerprint == m.caFingerprint && r.value.signer.pub == m.signer.pub
  {
    hide VerifyTrust, ValidSan, IssuedBy, PublicKeyMatches, Trusted, Conflicting;
    var ca := ReadCertificate(env, s, CaCert);
    var leaf := ReadCertificate(env, ca.s, ServerCert);
    var k := OpenKey(env, leaf.s, ServerKey);
    QuietVerify(env, k.s, Raw(m.ca));
  }

  /** After a provision or reload that succeeded, however it got there, a fault-free load for serving succeeds
      with the same CA, fingerprint, leaf and server key: what is issued passes every check of the loader. */
  lemma SuccessCanBeServed(env: Env, s: State, r: Out<Material>)
    requires TruthfulStat(env)
    requires r == ProvisionMachine(env, s) || r == ReloadMachine(env, s)
    requires r.Ok? && !r.s.dead && Quiet(env, r.s.tick)
    ensures var v := LoadServingMaterial(env, r.s);
            && v.Ok? && v.value.ca == r.value.ca && v.value.leaf == r.value.leaf
            && v.value.caFingerprint == r.value.caFingerprint && v.value.signer.pub == r.value.signer.pub
  {
    hide ProvisionMachine, ReloadMachine, LoadServingMaterial, ReloadFrame, FirstDone, SomeStage, Owned, Served,
         RootGains;
    if r == ReloadMachine(env, s) {
      ReloadMachineEffect(env, s);
      ReloadedIsServable(env, s, r);
    } else {
      ProvisionMachineEffect(env, s);
      if CaCert in s.files {
        ReloadedIsServable(env, s, r);
      } else {
        InstalledIsServable(env, s, r.s, r.value);
      }
    }
    QuietServe(env, r.s, r.value);
  }
}
