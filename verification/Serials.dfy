/** Serial numbers: every certificate file that changes gets one drawn in the call that changed it, so with draws
    that never repeat no two certificates of a run share one. */
module Serials {
  import opened Errors
  import opened Validity
  import opened Certificates
  import opened States
  import opened TrustStore
  import opened TrustStoreProofs
  import opened Provision
  import opened ProvisionProofs
  import opened Cleanup
  import opened CleanupProofs
  import opened Runs
  import opened Acceptance

  /** A draw of one of the calls numbered `from` up to `to` gave this serial. */
  ghost predicate Drawn(env: Env, from: nat, to: nat, serial: Serial) {
    exists t: nat :: from <= t < to && env.serial(t) == serial
  }

  /** The two serials come from two draws. */
  ghost predicate DrawnApart(env: Env, from: nat, to: nat, x: Serial, y: Serial) {
    exists t: nat, u: nat :: from <= t < u < to && env.serial(t) == x && env.serial(u) == y
  }

  /** A file that was `before` and is now `after`: unchanged, gone, or a certificate with a serial drawn meanwhile. */
  ghost predicate Renumbered(env: Env, from: nat, to: nat, before: Option<Der>, after: Option<Der>) {
    after == before || after.None? || (after.value.CertDer? && Drawn(env, from, to, after.value.cert.serial))
  }

  /** What a call does to the serials on disk. */
  ghost predicate DrawsSerials(env: Env, a: State, b: State) {
    && a.tick <= b.tick
    && Renumbered(env, a.tick, b.tick, Disk(a, CaCert), Disk(b, CaCert))
    && Renumbered(env, a.tick, b.tick, Disk(a, ServerCert), Disk(b, ServerCert))
    && (&& Disk(b, CaCert) != Disk(a, CaCert) && Disk(b, CaCert).Some?
        && Disk(b, ServerCert) != Disk(a, ServerCert) && Disk(b, ServerCert).Some? ==>
          DrawnApart(env, a.tick, b.tick, Disk(b, CaCert).value.cert.serial, Disk(b, ServerCert).value.cert.serial))
  }

  lemma NothingRenumbered(env: Env, a: State, b: State)
    requires SameDisk(a, b) && a.tick <= b.tick
    ensures DrawsSerials(env, a, b)
  {
  }

  lemma DrawnLater(env: Env, a: nat, b: nat, c: nat, d: nat, serial: Serial)
    requires Drawn(env, b, c, serial) && a <= b && c <= d
    ensures Drawn(env, a, d, serial)
  {
  }

  lemma DrawnBefore(env: Env, a: nat, b: nat, c: nat, x: Serial, y: Serial)
    requires Drawn(env, a, b, x) && Drawn(env, b, c, y)
    ensures DrawnApart(env, a, c, x, y)
  {
  }

  /** Around a call on an unchanged disk nothing is renumbered. */
  lemma Surrounded(env: Env, a: State, b: State, c: State, d: State)
    requires SameDisk(a, b) && a.tick <= b.tick && DrawsSerials(env, b, c) && SameDisk(c, d) && c.tick <= d.tick
    ensures DrawsSerials(env, a, d)
  {
  }

  // ---------- one call ----------

  /** A leaf carries the serial drawn for it, and so does a CA. */
  lemma IssueDraws(env: Env, s: State, now: Instant, ca: Certificate, caSigner: Signer, serverSigner: Signer)
    ensures var r := GenerateLeaf(env, s, now, ca, caSigner, serverSigner);
            && SameDisk(s, r.s) && s.tick <= r.s.tick
            && (r.Ok? ==> Drawn(env, s.tick, r.s.tick, r.value.serial))
    ensures var r := GenerateCA(env, s, now, caSigner);
            && SameDisk(s, r.s) && s.tick <= r.s.tick
            && (r.Ok? ==> Drawn(env, s.tick, r.s.tick, r.value.serial))
  {
    hide GenerateLeaf, GenerateCA, Encodable, NewLeaf, NewCA;
    LeafIssued(env, s, now, ca, caSigner, serverSigner);
    LeafIsIssued(env, s, now, ca, caSigner, serverSigner);
    CaIssued(env, s, now, caSigner);
    CaIsIssued(env, s, now, caSigner);
  }

  /** A renewal draws its serial; without one nothing is renumbered. */
  lemma RenewalDraws(env: Env, s: State, ca: Certificate, caSigner: Signer, leaf: Certificate, serverSigner: Signer)
    ensures var r := RenewIfDue(env, s, ca, caSigner, leaf, serverSigner);
            && DrawsSerials(env, s, r.s)
            && (r.Ok? ==> r.value == leaf || Drawn(env, s.tick, r.s.tick, r.value.serial))
  {
    hide GenerateLeaf, AtomicWrite, RenewalDue, CurrentlyValid, Drawn;
    var now := env.clock(s.tick);
    var t := s.(now := now);
    IssueDraws(env, t, now, ca, caSigner, serverSigner);
    var g := GenerateLeaf(env, t, now, ca, caSigner, serverSigner);
    if g.Ok? {
      WriteIsAtomic(env, g.s, ServerCert, Raw(g.value));
      DrawnLater(env, s.tick, s.tick, g.s.tick, AtomicWrite(env, g.s, ServerCert, Raw(g.value)).s.tick, g.value.serial);
    }
  }

  lemma ReloadWithPairsDraws(env: Env, s: State, ca: Pair, server: Pair, repairTrust: bool)
    ensures DrawsSerials(env, s, ReloadWithPairs(env, s, ca, server, repairTrust).s)
  {
    hide ReloadWithPairs, EnsureTrust, RenewIfDue, RepairGains, DrawsSerials, Settled, Trusted;
    ReloadWithPairsSteps(env, s, ca, server, repairTrust);
    EnsureTrustEffect(env, s, ca.cert, repairTrust);
    var t := EnsureTrust(env, s, ca.cert, repairTrust);
    NothingRenumbered(env, s, s);
    NothingRenumbered(env, s, t.s);
    if t.Ok? {
      var r := RenewIfDue(env, t.s, ca.cert, ca.signer, server.cert, server.signer);
      RenewalDraws(env, t.s, ca.cert, ca.signer, server.cert, server.signer);
      Surrounded(env, s, t.s, r.s, r.s);
    }
  }

  lemma ReloadDraws(env: Env, s: State, repairTrust: bool)
    ensures DrawsSerials(env, s, ReloadWithKeyStore(env, s, repairTrust).s)
  {
    hide LoadPair, ReloadWithPairs, DrawsSerials, Release, PublicKeyMatches;
    var out := ReloadWithKeyStore(env, s, repairTrust);
    LoadPairEffect(env, s, CaCert, CaKey);
    var ca := LoadPair(env, s, CaCert, CaKey);
    if ca.Ok? {
      LoadPairEffect(env, ca.s, ServerCert, ServerKey);
      var server := LoadPair(env, ca.s, ServerCert, ServerKey);
      if server.Ok? {
        var r := ReloadWithPairs(env, server.s, ca.value, server.value, repairTrust);
        ReloadWithPairsDraws(env, server.s, ca.value, server.value, repairTrust);
        Surrounded(env, s, server.s, r.s, out.s);
      } else {
        NothingRenumbered(env, s, out.s);
      }
    } else {
      NothingRenumbered(env, s, out.s);
    }
  }

  lemma ReloadMachineDraws(env: Env, s: State)
    ensures DrawsSerials(env, s, ReloadMachine(env, s).s)
  {
    hide OpenPair, ReloadOpened, DrawsSerials, Release, PublicKeyMatches;
    var out := ReloadMachine(env, s);
    OpenPairEffect(env, s, CaCert, CaKey);
    var ca := OpenPair(env, s, CaCert, CaKey);
    if Setup(env, s).Ok? && ca.Ok? {
      OpenPairEffect(env, ca.s, ServerCert, ServerKey);
      var server := OpenPair(env, ca.s, ServerCert, ServerKey);
      if server.Ok? {
        var r := ReloadOpened(env, server.s, ca.value, server.value);
        OpenedDraws(env, server.s, ca.value, server.value);
        Surrounded(env, s, server.s, r.s, out.s);
      } else {
        NothingRenumbered(env, s, out.s);
      }
    } else {
      NothingRenumbered(env, s, out.s);
    }
  }

  lemma OpenedDraws(env: Env, s: State, ca: Pair, server: Pair)
    ensures DrawsSerials(env, s, ReloadOpened(env, s, ca, server).s)
  {
    hide ReloadOpened, VerifyTrust, RenewIfDue, DrawsSerials, Settled, Trusted, LeafKept;
    ReloadOpenedSteps(env, s, ca, server);
    ReloadOpenedEffect(env, s, ca, server);
    VerifySettles(env, s, Raw(ca.cert));
    var t := VerifyTrust(env, s, Raw(ca.cert));
    var out := ReloadOpened(env, s, ca, server);
    if SameDisk(s, out.s) {
      NothingRenumbered(env, s, out.s);
    } else {
      RenewalDraws(env, t.s, ca.cert, ca.signer, server.cert, server.signer);
      Surrounded(env, s, t.s, RenewIfDue(env, t.s, ca.cert, ca.signer, server.cert, server.signer).s, out.s);
    }
  }

  // ---------- first install ----------

  /** The CA file is as it was or this CA; the leaf file is as it was or holds a serial drawn since, and then the CA
      file is this CA. */
  ghost predicate Installing(env: Env, a: State, b: State, ca: Certificate) {
    && a.tick <= b.tick
    && (Disk(b, CaCert) == Disk(a, CaCert) || Disk(b, CaCert) == Some(Raw(ca)))
    && (Disk(b, ServerCert) == Disk(a, ServerCert)
        || (&& Disk(b, ServerCert).Some? && Disk(b, ServerCert).value.CertDer?
            && Drawn(env, a.tick, b.tick, Disk(b, ServerCert).value.cert.serial)))
  }

  lemma WithKeysDraws(env: Env, s: State, now: Instant, ca: Certificate, caSigner: Signer, serverSigner: Signer)
    ensures Installing(env, s, FirstWithKeys(env, s, now, ca, caSigner, serverSigner).s, ca)
  {
    hide GenerateLeaf, AtomicWrite, InstallTrust, Drawn, Settled, RootGains, Trusted;
    IssueDraws(env, s, now, ca, caSigner, serverSigner);
    var out := FirstWithKeys(env, s, now, ca, caSigner, serverSigner);
    var g := GenerateLeaf(env, s, now, ca, caSigner, serverSigner);
    if g.Ok? {
      WriteIsAtomic(env, g.s, CaCert, Raw(ca));
      var w := AtomicWrite(env, g.s, CaCert, Raw(ca));
      WriteIsAtomic(env, w.s, ServerCert, Raw(g.value));
      var v := AtomicWrite(env, w.s, ServerCert, Raw(g.value));
      InstallSettles(env, v.s, Raw(ca));
      DrawnLater(env, s.tick, s.tick, g.s.tick, out.s.tick, g.value.serial);
    }
  }

  lemma InstalledDraws(env: Env, a: State, b: State, c: State, d: State, ca: Certificate)
    requires SameDisk(a, b) && a.tick <= b.tick && Drawn(env, a.tick, b.tick, ca.serial)
    requires Installing(env, b, c, ca) && SameDisk(c, d) && c.tick <= d.tick
    ensures DrawsSerials(env, a, d)
  {
    DrawnLater(env, a.tick, a.tick, b.tick, d.tick, ca.serial);
    if Disk(d, ServerCert) != Disk(a, ServerCert) {
      var serial := Disk(d, ServerCert).value.cert.serial;
      DrawnLater(env, a.tick, b.tick, c.tick, d.tick, serial);
      DrawnLater(env, b.tick, b.tick, c.tick, d.tick, serial);
      DrawnBefore(env, a.tick, b.tick, d.tick, ca.serial, serial);
    }
    hide Drawn, DrawnApart;
  }

  lemma FirstDraws(env: Env, s: State)
    ensures DrawsSerials(env, s, FirstProvision(env, s).s)
  {
    hide LoadOrCreate, FirstWithCaKey, DrawsSerials, Release;
    var out := FirstProvision(env, s);
    var d := MkdirAll(env, s);
    NothingRenumbered(env, s, d.s);
    if d.Ok? {
      var t := ReadClock(env, d.s).s;
      LoadOrCreateEffect(env, t, CaKey);
      var k := LoadOrCreate(env, t, CaKey);
      NothingRenumbered(env, s, k.s);
      if k.Ok? {
        WithCaKeyDraws(env, k.s, t.now, k.value);
        Surrounded(env, s, k.s, FirstWithCaKey(env, k.s, t.now, k.value).s, out.s);
      }
    }
  }

  lemma WithCaKeyDraws(env: Env, s: State, now: Instant, caSigner: Signer)
    ensures DrawsSerials(env, s, FirstWithCaKey(env, s, now, caSigner).s)
  {
    hide GenerateCA, LoadOrCreate, FirstWithKeys, DrawsSerials, Installing, Release, Drawn;
    var out := FirstWithCaKey(env, s, now, caSigner);
    IssueDraws(env, s, now, NewCA(now, 1, caSigner.pub), caSigner, caSigner);
    var g := GenerateCA(env, s, now, caSigner);
    NothingRenumbered(env, s, g.s);
    if g.Ok? {
      LoadOrCreateEffect(env, g.s, ServerKey);
      var k := LoadOrCreate(env, g.s, ServerKey);
      NothingRenumbered(env, s, k.s);
      if k.Ok? {
        DrawnLater(env, s.tick, s.tick, g.s.tick, k.s.tick, g.value.serial);
        WithKeysDraws(env, k.s, now, g.value, caSigner, k.value);
        InstalledDraws(env, s, k.s, FirstWithKeys(env, k.s, now, g.value, caSigner, k.value).s, out.s, g.value);
      }
    }
  }

  lemma ProvisionDraws(env: Env, s: State)
    ensures DrawsSerials(env, s, ProvisionMachine(env, s).s)
  {
    hide CheckInconsistent, FirstProvision, ReloadWithKeyStore, DrawsSerials;
    var out := ProvisionMachine(env, s);
    GuardEffect(env, s);
    var g := CheckInconsistent(env, s);
    if Setup(env, s).Ok? && g.Ok? && !g.value {
      var a := FileExists(env, g.s, CaCert);
      var b := FileExists(env, a.s, ServerCert);
      FirstDraws(env, a.s);
      FirstDraws(env, b.s);
      ReloadDraws(env, b.s, true);
      Surrounded(env, s, a.s, FirstProvision(env, a.s).s, FirstProvision(env, a.s).s);
      Surrounded(env, s, b.s, FirstProvision(env, b.s).s, FirstProvision(env, b.s).s);
      Surrounded(env, s, b.s, ReloadWithKeyStore(env, b.s, true).s, ReloadWithKeyStore(env, b.s, true).s);
    } else {
      NothingRenumbered(env, s, out.s);
    }
  }

  // ---------- over runs ----------

  lemma ShrinkDraws(env: Env, a: State, b: State)
    requires Shrinks(env, a, b)
    ensures DrawsSerials(env, a, b)
  {
  }

  lemma StepDraws(env: Env, sys: System, op: Op)
    ensures DrawsSerials(env, sys.s, Step(env, sys, op).s)
  {
    hide ProvisionMachine, ReloadMachine, LoadServingMaterial, CleanupMachine, CleanupMachineBySHA256, DrawsSerials,
         Shrinks, Owned, Served;
    var t := Step(env, sys, op).s;
    match op {
      case CallProvision =>
        ProvisionDraws(env, sys.s);
        Surrounded(env, sys.s, sys.s, ProvisionMachine(env, sys.s).s, t);
      case CallReload =>
        ReloadMachineDraws(env, sys.s);
        Surrounded(env, sys.s, sys.s, ReloadMachine(env, sys.s).s, t);
      case CallServe =>
        LoadServingEffect(env, sys.s);
        NothingRenumbered(env, sys.s, t);
      case CallClose(i) => NothingRenumbered(env, sys.s, t);
      case CallCleanup =>
        CleanupMachineEffect(env, sys.s);
        ShrinkDraws(env, sys.s, CleanupMachine(env, sys.s).s);
        Surrounded(env, sys.s, sys.s, CleanupMachine(env, sys.s).s, t);
      case CallCleanupBy(fp) =>
        CleanupMachineBySHA256Effect(env, sys.s, fp);
        ShrinkDraws(env, sys.s, CleanupMachineBySHA256(env, sys.s, fp).s);
        Surrounded(env, sys.s, sys.s, CleanupMachineBySHA256(env, sys.s, fp).s, t);
      case Exit => NothingRenumbered(env, sys.s, t);
    }
  }

  /** The draws never repeat. */
  ghost predicate DistinctDraws(env: Env) {
    forall t: nat, u: nat :: t < u ==> env.serial(t) != env.serial(u)
  }

  /** What is on disk was drawn before now, and the CA's serial is not the leaf's. */
  ghost predicate Numbered(env: Env, s: State) {
    && (Disk(s, CaCert).Some? ==> Earlier(env, s.tick, Disk(s, CaCert).value))
    && (Disk(s, ServerCert).Some? ==> Earlier(env, s.tick, Disk(s, ServerCert).value))
    && (Disk(s, CaCert).Some? && Disk(s, ServerCert).Some? ==>
          Disk(s, CaCert).value.cert.serial != Disk(s, ServerCert).value.cert.serial)
  }

  ghost predicate Earlier(env: Env, tick: nat, der: Der) {
    der.CertDer? && Drawn(env, 0, tick, der.cert.serial)
  }

  /** A file of `b` that is new against `a` holds a serial that no file of `a` has. */
  ghost predicate NewSerials(a: State, b: State) {
    forall f, g :: f in b.files && Disk(b, f) != Disk(a, f) && g in a.files
                   && b.files[f].CertDer? && a.files[g].CertDer? ==>
      b.files[f].cert.serial != a.files[g].cert.serial
  }

  lemma DrawnTwiceDiffers(env: Env, from: nat, tick: nat, to: nat, x: Serial, y: Serial)
    requires DistinctDraws(env) && Drawn(env, from, tick, x) && Drawn(env, tick, to, y)
    ensures x != y
  {
  }

  lemma DrawsKeepNumbered(env: Env, a: State, b: State)
    requires DistinctDraws(env) && Numbered(env, a) && DrawsSerials(env, a, b)
    ensures Numbered(env, b) && NewSerials(a, b)
  {
    hide Drawn, DistinctDraws;
    forall f | f in b.files ensures FileNumbered(env, a, b, f) { StillNumbered(env, a, b, f); }
    forall f, g | f in b.files && Disk(b, f) != Disk(a, f) && g in a.files
      ensures b.files[f].CertDer? && a.files[g].CertDer? && b.files[f].cert.serial != a.files[g].cert.serial
    {
      assert FileNumbered(env, a, b, f);
      assert Disk(a, g).Some? && (g == CaCert || g == ServerCert);
      DrawnTwiceDiffers(env, 0, a.tick, b.tick, a.files[g].cert.serial, b.files[f].cert.serial);
    }
    if Disk(b, CaCert).Some? && Disk(b, ServerCert).Some? {
      assert FileNumbered(env, a, b, CaCert) && FileNumbered(env, a, b, ServerCert);
      ApartDiffer(env, a.tick, b.tick, b.files[CaCert].cert.serial, b.files[ServerCert].cert.serial);
    }
  }

  ghost predicate FileNumbered(env: Env, a: State, b: State, f: File)
    requires f in b.files
  {
    && Earlier(env, b.tick, b.files[f])
    && (Disk(b, f) != Disk(a, f) ==> Drawn(env, a.tick, b.tick, b.files[f].cert.serial))
  }

  lemma StillNumbered(env: Env, a: State, b: State, f: File)
    requires Numbered(env, a) && DrawsSerials(env, a, b) && f in b.files
    ensures FileNumbered(env, a, b, f)
  {
    assert Renumbered(env, a.tick, b.tick, Disk(a, f), Disk(b, f)) by { assert f == CaCert || f == ServerCert; }
    if Disk(b, f) == Disk(a, f) {
      assert Earlier(env, a.tick, Disk(a, f).value) by { assert f == CaCert || f == ServerCert; }
      DrawnLater(env, 0, 0, a.tick, b.tick, b.files[f].cert.serial);
    } else {
      DrawnLater(env, 0, a.tick, b.tick, b.tick, b.files[f].cert.serial);
    }
  }

  lemma ApartDiffer(env: Env, from: nat, to: nat, x: Serial, y: Serial)
    requires DistinctDraws(env)
    ensures DrawnApart(env, from, to, x, y) ==> x != y
  {
  }

  /** Over every run from a machine without certificate files, whatever fails, dies or is cleaned up: the CA and the
      leaf on disk never share a serial number, and one more call gives every file it changes a serial that neither
      file had before. */
  lemma {:induction false} SerialsNeverRepeat(env: Env, sys: System, ops: seq<Op>, op: Op)
    requires DistinctDraws(env) && Numbered(env, sys.s)
    ensures var last := Run(env, sys, ops);
            Numbered(env, last.s) && NewSerials(last.s, Step(env, last, op).s)
    decreases |ops|
  {
    hide Step, Numbered, NewSerials, DrawsSerials, DistinctDraws;
    if ops == [] {
      StepDraws(env, sys, op);
      DrawsKeepNumbered(env, sys.s, Step(env, sys, op).s);
    } else {
      StepDraws(env, sys, ops[0]);
      DrawsKeepNumbered(env, sys.s, Step(env, sys, ops[0]).s);
      SerialsNeverRepeat(env, Step(env, sys, ops[0]), ops[1..], op);
    }
  }

  /** A machine without certificate files is where such runs start. */
  lemma NoFilesIsNumbered(env: Env, s: State)
    requires CaCert !in s.files && ServerCert !in s.files
    ensures Numbered(env, s)
  {
  }
}
