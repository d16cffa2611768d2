/** What is accepted and what is issued, spelled out in the fields of the certificates themselves, and when each
    entry point succeeds on an arbitrary disk. */
module Acceptance {
  import opened Errors
  import opened Validity
  import opened Certificates
  import opened States
  import opened TrustStore
  import opened TrustStoreProofs
  import opened TrustStoreModel
  import opened Provision
  import opened ProvisionProofs
  import opened CleanupProofs
  import opened Recovery
  import opened Refinement

  // ---------- the checks ----------

  /** localhost and the two loopback addresses, in either order, IPv4 in four or sixteen bytes. */
  predicate NamesLoopback(leaf: Certificate) {
    var v4, v6 := [127, 0, 0, 1], [0, 0, 0, 0, 0, 0, 0, 0, 0, 0, 0, 0, 0, 0, 0, 1];
    var mapped := [0, 0, 0, 0, 0, 0, 0, 0, 0, 0, 255, 255, 127, 0, 0, 1];
    && leaf.dnsNames == ["localhost"]
    && (|| leaf.ipAddresses == [v4, v6] || leaf.ipAddresses == [v6, v4]
        || leaf.ipAddresses == [mapped, v6] || leaf.ipAddresses == [v6, mapped])
  }

  /** The leaf is for server key `key` and loopback, and the CA, which may sign certificates, has signed it. */
  predicate Vouched(leaf: Certificate, ca: Certificate, key: nat) {
    && leaf.pub == P256(key) && NamesLoopback(leaf)
    && ca.isCA && ca.certSign && leaf.signedBy == ca.pub
  }

  lemma ValidSanMeans(leaf: Certificate)
    ensures ValidSan(leaf) <==> NamesLoopback(leaf)
  {
    if |leaf.ipAddresses| == 2 {
      MappedMeans(leaf.ipAddresses[0]);
      MappedMeans(leaf.ipAddresses[1]);
    }
  }

  lemma MappedMeans(ip: IP)
    ensures SameIP(ip, V4_IN_V6 + IPV4_LOOPBACK)
       <==> ip == [127, 0, 0, 1] || ip == [0, 0, 0, 0, 0, 0, 0, 0, 0, 0, 255, 255, 127, 0, 0, 1]
    ensures SameIP(ip, IPV6_LOOPBACK) <==> ip == [0, 0, 0, 0, 0, 0, 0, 0, 0, 0, 0, 0, 0, 0, 0, 1]
  {
    var mapped: IP := V4_IN_V6 + IPV4_LOOPBACK;
    assert mapped == [0, 0, 0, 0, 0, 0, 0, 0, 0, 0, 255, 255, 127, 0, 0, 1];
    assert mapped[12..] == [127, 0, 0, 1] && mapped[..12] == V4_IN_V6;
    assert IPV6_LOOPBACK[..12][10] == 0 && V4_IN_V6[10] == 255;
  }

  lemma VouchedMeans(leaf: Certificate, ca: Certificate, key: nat)
    ensures Vouched(leaf, ca, key) <==> PublicKeyMatches(leaf, P256(key)) && IssuedBy(leaf, ca) && ValidSan(leaf)
  {
    ValidSanMeans(leaf);
  }

  /** A key is accepted for a certificate exactly when it is the ECDSA key the certificate holds. */
  lemma KeyMatchMeans(cert: Certificate, pub: PublicKey)
    ensures PublicKeyMatches(cert, pub) <==> cert.pub == pub && !pub.NonEcdsa?
  {
  }

  /** Both files hold certificates, and the leaf is vouched for by the CA file and the persisted server key. */
  predicate Servable(s: State) {
    && CaCert in s.files && s.files[CaCert].CertDer? && ServerCert in s.files && s.files[ServerCert].CertDer?
    && ServerKey in s.keys && Vouched(s.files[ServerCert].cert, s.files[CaCert].cert, s.keys[ServerKey])
  }

  /** Also, the CA file is for the persisted CA key. */
  predicate Reloadable(s: State) {
    Servable(s) && CaKey in s.keys && s.files[CaCert].cert.pub == P256(s.keys[CaKey])
  }

  /** In Root there is an entry with this file's fingerprint. */
  ghost predicate Anchored(env: Env, s: State, der: Der) {
    exists i :: 0 <= i < |s.root| && env.sha(s.root[i].der) == env.sha(der)
  }

  /** Whatever fails, `LoadServingMaterial` only returns what is on disk and vouched for; with nothing failing it
      does so exactly when that is on disk and the CA in Root. */
  lemma ServesExactly(env: Env, s: State)
    ensures var r := LoadServingMaterial(env, s);
            r.Ok? ==> && Servable(s) && Anchored(env, s, s.files[CaCert])
                      && r.value.ca == s.files[CaCert].cert && r.value.leaf == s.files[ServerCert].cert
                      && Vouched(r.value.leaf, r.value.ca, s.keys[ServerKey])
                      && r.value.caFingerprint == env.sha(s.files[CaCert])
                      && r.value.signer.pub == P256(s.keys[ServerKey])
    ensures NoFaults(env, s.tick) && !s.dead ==>
              (LoadServingMaterial(env, s).Ok? <==> Servable(s) && Anchored(env, s, s.files[CaCert]))
  {
    hide LoadServingMaterial, ValidSan, PublicKeyMatches, IssuedBy, Vouched, Owned, Conflicting, NoFaults;
    LoadServingEffect(env, s);
    var r := LoadServingMaterial(env, s);
    if r.Ok? { VouchedMeans(r.value.leaf, r.value.ca, s.keys[ServerKey]); }
    if NoFaults(env, s.tick) && !s.dead && Servable(s) && Anchored(env, s, s.files[CaCert]) {
      var ca, leaf := s.files[CaCert].cert, s.files[ServerCert].cert;
      VouchedMeans(leaf, ca, s.keys[ServerKey]);
      var m := Material(ca, leaf, env.sha(Raw(ca)), Signer(0, P256(s.keys[ServerKey])));
      assert Served(env, s, m);
      QuietServe(env, s, m);
    }
  }

  // ---------- reload ----------

  /** 30 days in nanoseconds. */
  const THIRTY_DAYS: int := 2_592_000_000_000_000

  /** What a reload at clock reading `now` asks of the windows: more than 30 days left, or a CA that is valid and a new
      leaf whose window can be written down. */
  predicate WindowsAllow(leaf: Window, ca: Window, now: Instant) {
    || leaf.notAfter - now > THIRTY_DAYS
    || (ca.notBefore <= now < ca.notAfter && Encodable(Encoded(LeafTemplate(now, ca))))
  }

  /** Whatever fails, a reload that succeeds found a leaf that is vouched for. It returns that leaf, untouched, when
      more than 30 days are left, and otherwise one in its place that is vouched for as well. */
  lemma ReloadChecks(env: Env, s: State, r: Out<Material>)
    requires ReloadFrame(env, s, r) && r.Ok?
    ensures Reloadable(s) && r.value.ca == s.files[CaCert].cert && Disk(r.s, CaCert) == Disk(s, CaCert)
    ensures Anchored(env, r.s, s.files[CaCert])
    ensures Vouched(r.value.leaf, r.value.ca, s.keys[ServerKey])
    ensures WindowsAllow(s.files[ServerCert].cert.window, s.files[CaCert].cert.window, r.s.now)
    ensures Disk(r.s, ServerCert) == Some(CertDer(r.value.leaf))
    ensures s.files[ServerCert].cert.window.notAfter - r.s.now > THIRTY_DAYS ==>
              r.value.leaf == s.files[ServerCert].cert
    ensures s.files[ServerCert].cert.window.notAfter - r.s.now <= THIRTY_DAYS ==>
              r.value.leaf == NewLeaf(r.s.now, r.value.leaf.serial, r.value.ca, r.value.ca.pub, P256(s.keys[ServerKey]))
  {
    hide Encodable, Encoded, LeafTemplate, Vouched, Owned, RenewalDue, ValidSan, IssuedBy;
    var ca, leaf := s.files[CaCert].cert, s.files[ServerCert].cert;
    RenewalDueExact(leaf.window.notAfter, r.s.now);
    VouchedMeans(leaf, ca, s.keys[ServerKey]);
    VouchedMeans(r.value.leaf, ca, s.keys[ServerKey]);
    IssuerCanSign(leaf, ca);
    NewLeafPassesChecks(r.s.now, r.value.leaf.serial, ca, P256(s.keys[CaKey]), P256(s.keys[ServerKey]));
  }

  lemma IssuerCanSign(leaf: Certificate, ca: Certificate)
    requires IssuedBy(leaf, ca)
    ensures ca.isCA && ca.certSign
  {
  }

  lemma RenewsExactly(env: Env, s: State, ca: Certificate, caSigner: Signer, leaf: Certificate, serverSigner: Signer)
    requires NoFaults(env, s.tick) && !s.dead && s.dir && serverSigner.pub.P256?
    ensures var r := RenewIfDue(env, s, ca, caSigner, leaf, serverSigner);
            && r.s.now == env.clock(s.tick)
            && (r.Ok? <==> WindowsAllow(leaf.window, ca.window, r.s.now))
  {
    hide AtomicWrite, RenewalDue, Encodable, Encoded, LeafTemplate;
    var now := env.clock(s.tick);
    RenewalDueExact(leaf.window.notAfter, now);
    var t := s.(now := now);
    LeafIssued(env, t, now, ca, caSigner, serverSigner);
    var g := GenerateLeaf(env, t, now, ca, caSigner, serverSigner);
    if g.Ok? {
      QuietWrite(env, g.s, ServerCert, Raw(g.value));
      WriteIsAtomic(env, g.s, ServerCert, Raw(g.value));
    }
  }

  /** With nothing failing, a reload through a key store of a disk it accepts turns on trust and the windows only. */
  lemma ReloadsExactly(env: Env, s: State, repairTrust: bool)
    requires NoFaults(env, s.tick) && !s.dead && NoStrayFiles(s) && Reloadable(s)
    ensures var r := ReloadWithKeyStore(env, s, repairTrust);
            r.Ok? <==> && Trustable(env, s, s.files[CaCert], repairTrust)
                       && WindowsAllow(s.files[ServerCert].cert.window, s.files[CaCert].cert.window, r.s.now)
  {
    hide LoadPair, EnsureTrust, RenewIfDue, Trustable, ValidSan, Settled, Trusted, RootGains, RepairGains, Encodable,
         IssuedBy, PublicKeyMatches, WindowsAllow;
    var ca, leaf := s.files[CaCert].cert, s.files[ServerCert].cert;
    VouchedMeans(leaf, ca, s.keys[ServerKey]);
    KeyMatchMeans(ca, P256(s.keys[CaKey]));
    LoadPairEffect(env, s, CaCert, CaKey);
    QuietLoadPair(env, s, CaCert, CaKey, ca);
    var p := LoadPair(env, s, CaCert, CaKey);
    LoadPairEffect(env, p.s, ServerCert, ServerKey);
    QuietLoadPair(env, p.s, ServerCert, ServerKey, leaf);
    var q := LoadPair(env, p.s, ServerCert, ServerKey);
    EnsureTrustEffect(env, q.s, ca, repairTrust);
    QuietEnsureTrust(env, q.s, ca, repairTrust);
    SameTrustable(env, s, q.s, Raw(ca), repairTrust);
    var t := EnsureTrust(env, q.s, ca, repairTrust);
    if t.Ok? {
      RenewsExactly(env, t.s, ca, p.value.signer, leaf, q.value.signer);
    }
  }

  /** With nothing failing, on any disk: `ReloadMachine` succeeds exactly when the two files belong together and to the
      two keys, the CA is in Root, and the windows allow it at the clock reading. */
  lemma ReloadMachineAccepts(env: Env, s: State)
    requires NoFaults(env, s.tick) && !s.dead && NoStrayFiles(s)
    ensures var r := ReloadMachine(env, s);
            r.Ok? <==> && Reloadable(s) && Anchored(env, s, s.files[CaCert])
                       && WindowsAllow(s.files[ServerCert].cert.window, s.files[CaCert].cert.window, r.s.now)
  {
    hide ReloadMachine, ReloadWithKeyStore, Reloadable, WindowsAllow, ReloadFrame;
    ReloadMachineEffect(env, s);
    var r := ReloadMachine(env, s);
    if r.Ok? { ReloadChecks(env, s, r); }
    if Reloadable(s) {
      ReloadableHasKeys(s);
      ReloadRefinesKeyStoreReload(env, s);
      ReloadsExactly(env, s, false);
    }
  }

  lemma ReloadableHasKeys(s: State)
    requires Reloadable(s)
    ensures CaKey in s.keys && ServerKey in s.keys && CaCert in s.files && ServerCert in s.files
  {
  }

  /** The same for `ProvisionMachine` where both files are there: the CA may also be missing from Root, as long as no
      other entry has its subject. */
  lemma ProvisionAccepts(env: Env, s: State)
    requires TruthfulStat(env) && Quiet(env, s.tick) && !s.dead && NoStrayFiles(s)
    requires CaCert in s.files && ServerCert in s.files
    ensures var r := ProvisionMachine(env, s);
            r.Ok? <==> && Reloadable(s)
                       && (Anchored(env, s, s.files[CaCert]) || !Conflicting(env, s.root, s.files[CaCert]))
                       && WindowsAllow(s.files[ServerCert].cert.window, s.files[CaCert].cert.window, r.s.now)
  {
    hide ProvisionMachine, ReloadWithKeyStore, Reloadable, WindowsAllow, ReloadFrame, Conflicting, Quiet, RepairGains;
    ProvisionMachineEffect(env, s);
    var r := ProvisionMachine(env, s);
    if r.Ok? {
      ReloadChecks(env, s, r);
      ReloadableHasKeys(s);
    }
    if Reloadable(s) {
      ReloadableHasKeys(s);
      var t := QuietRoute(env, s);
      SameReloadable(s, t);
      ReloadsExactly(env, t, true);
    }
  }

  lemma SameReloadable(a: State, b: State)
    requires a.files == b.files && a.keys == b.keys
    ensures Reloadable(a) <==> Reloadable(b)
  {
  }

  /** Whatever fails: a provision that succeeds, on whatever it found, leaves and returns two files that belong
      together and to the two keys, with the CA in Root. */
  lemma ProvisionChecks(env: Env, s: State)
    requires TruthfulStat(env) && ProvisionMachine(env, s).Ok?
    ensures var r := ProvisionMachine(env, s);
            && Reloadable(r.s) && Anchored(env, r.s, r.s.files[CaCert])
            && r.value.ca == r.s.files[CaCert].cert && r.value.leaf == r.s.files[ServerCert].cert
            && r.value.signer.pub == P256(r.s.keys[ServerKey])
            && (CaCert in s.files ==> r.s.files[CaCert] == s.files[CaCert])
  {
    hide ProvisionMachine, Encodable, Encoded, LeafTemplate, CaTemplate, Vouched, Owned, RootGains, RepairGains;
    ProvisionMachineEffect(env, s);
    var r := ProvisionMachine(env, s);
    if CaCert in s.files && ServerCert in s.files {
      ReloadChecks(env, s, r);
    } else {
      var ca, leaf := r.value.ca, r.value.leaf;
      VouchedMeans(leaf, ca, r.s.keys[ServerKey]);
      NewLeafPassesChecks(r.s.now, leaf.serial, ca, P256(r.s.keys[CaKey]), P256(r.s.keys[ServerKey]));
    }
  }

  // ---------- what is issued ----------

  /** The whole second at or before `t`, in nanoseconds. */
  function Floor(t: int): int {
    t / 1_000_000_000 * 1_000_000_000
  }

  /** A CA certificate, whatever fails: the drawn serial, five minutes back and 1825 days ahead of the clock reading. */
  lemma CaIsIssued(env: Env, s: State, now: Instant, caSigner: Signer)
    ensures var r := GenerateCA(env, s, now, caSigner);
            var name := Name("Keppin Local Root CA", "Keppin");
            r.Ok? ==> && caSigner.pub.P256? && r.s.tick == s.tick + 2
                      && r.value == Certificate(env.serial(s.tick), name, name,
                                                Window(Floor(now) - 300_000_000_000,
                                                       Floor(now) + 157_680_000_000_000_000),
                                                [], [], true, true, caSigner.pub, caSigner.pub)
  {
    hide Encodable;
    WholeSecondShift(now, 0);
    WholeSecondShift(now, 1825);
  }

  /** A leaf, whatever fails: the drawn serial, five minutes back, and 90 days ahead or to the CA's end. */
  lemma LeafIsIssued(env: Env, s: State, now: Instant, ca: Certificate, caSigner: Signer, serverSigner: Signer)
    ensures var r := GenerateLeaf(env, s, now, ca, caSigner, serverSigner);
            var ahead := now + 7_776_000_000_000_000;
            var end := if ahead > ca.window.notAfter then ca.window.notAfter else ahead;
            r.Ok? ==> && serverSigner.pub.P256? && r.s.tick == s.tick + 2
                      && r.value == Certificate(env.serial(s.tick), Name("localhost", "Keppin"), ca.subject,
                                                Window(Floor(now) - 300_000_000_000, Floor(end)),
                                                ["localhost"],
                                                [[127, 0, 0, 1], [0, 0, 0, 0, 0, 0, 0, 0, 0, 0, 0, 0, 0, 0, 0, 1]],
                                                false, false, serverSigner.pub, caSigner.pub)
  {
    hide Encodable;
    WholeSecondShift(now, 0);
  }

  /** Nothing is issued for a key that is not P-256, and no call is made before saying so. */
  lemma OtherKeysAreRefused(env: Env, s: State, now: Instant, ca: Certificate, caSigner: Signer, signer: Signer)
    requires !signer.pub.P256?
    ensures var r := GenerateCA(env, s, now, signer); r.Err? && r.s == s
    ensures var r := GenerateLeaf(env, s, now, ca, caSigner, signer); r.Err? && r.s == s
  {
  }

  /** Issuing a CA at `now` can be written down exactly from five minutes into year 0 until five years before the end
      of year 9999. */
  lemma CaEncodableMeans(now: Instant)
    ensures Encodable(Encoded(CaTemplate(now))) <==>
              -62_167_218_900_000_000_000 <= now < 253_244_620_800_000_000_000
  {
    WholeSecondShift(now, 0);
    WholeSecondShift(now, 1825);
  }

  /** In particular, wherever the clock stays between 1970 and year 9994, an empty machine installs. */
  lemma EmptyInstallsInRange(env: Env, s: State)
    requires TruthfulStat(env) && Quiet(env, s.tick) && !s.dead && Empty(s)
    requires forall t :: t >= s.tick ==> 0 <= env.clock(t) < 253_244_620_800_000_000_000
    ensures ProvisionMachine(env, s).Ok? && Complete(ProvisionMachine(env, s).s)
  {
    hide ProvisionMachine, Complete, Empty, Encodable;
    forall t | t >= s.tick ensures Encodable(Encoded(CaTemplate(env.clock(t)))) {
      CaEncodableMeans(env.clock(t));
    }
    EmptyInstalls(env, s);
  }
}
