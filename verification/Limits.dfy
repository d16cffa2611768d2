/** Where the guarantees end: each assumption of the run theorems, with what happens without it. */
module Limits {
  import opened Errors
  import opened Validity
  import opened Certificates
  import opened States
  import opened TrustStore
  import opened TrustStoreProofs
  import opened TrustStoreModel
  import opened Provision
  import opened ProvisionProofs
  import opened Cleanup
  import opened Runs
  import opened Lifecycle
  import opened Recovery
  import opened Anchors

  // ---------- truthful stat ----------

  /** Serial numbers drawn from `from` on differ from this one. */
  ghost predicate FreshSerials(env: Env, from: nat, serial: Serial) {
    forall t :: t >= from ==> env.serial(t) != serial
  }

  /** No serial drawn from `from` on is that of the certificate in `der`, if it holds one. */
  ghost predicate NotDrawn(env: Env, from: nat, der: Der) {
    der.CertDer? ==> FreshSerials(env, from, der.cert.serial)
  }

  lemma FreshCaDraw(env: Env, s: State, now: Instant, caSigner: Signer, serial: Serial)
    requires FreshSerials(env, s.tick, serial)
    ensures var r := GenerateCA(env, s, now, caSigner);
            r.Ok? ==> r.value.serial != serial
  {
  }

  /** A first install that finds a CA file replaces it with a certificate of its own. */
  lemma InstallReplacesCa(env: Env, s: State)
    requires NoFaults(env, s.tick) && !s.dead && ClockEncodable(env, s.tick)
    requires CaCert in s.files && NotDrawn(env, s.tick, s.files[CaCert])
    ensures !IdentityKept(s, FirstProvision(env, s).s)
  {
    hide FirstProvision, Encodable, NoFaults, ClockEncodable, FirstDone, SomeStage, Owned;
    FirstProvisionEffect(env, s);
    QuietFirst(env, s);
    var r := FirstProvision(env, s);
    if s.files[CaCert].CertDer? { InstallDrawsFresh(env, s, s.files[CaCert].cert.serial); }
    Installed(env, s, r);
  }

  /** The CA of a first install has a serial number drawn in it. */
  lemma InstallDrawsFresh(env: Env, s: State, serial: Serial)
    requires FreshSerials(env, s.tick, serial)
    ensures FirstProvision(env, s).Ok? ==> FirstProvision(env, s).value.ca.serial != serial
  {
    hide FirstWithCaKey, LoadOrCreate, FreshSerials;
    var d := MkdirAll(env, s);
    if d.Ok? {
      var t := ReadClock(env, d.s).s;
      LoadOrCreateEffect(env, t, CaKey);
      var k := LoadOrCreate(env, t, CaKey);
      SerialsLater(env, s.tick, k.s.tick, serial);
      if k.Ok? { WithCaKeyReplaces(env, k.s, t.now, k.value, serial); }
    }
  }

  lemma SerialsLater(env: Env, a: nat, b: nat, serial: Serial)
    requires FreshSerials(env, a, serial) && a <= b
    ensures FreshSerials(env, b, serial)
  {
  }

  lemma WithCaKeyReplaces(env: Env, s: State, now: Instant, caSigner: Signer, serial: Serial)
    requires FreshSerials(env, s.tick, serial)
    ensures var r := FirstWithCaKey(env, s, now, caSigner);
            r.Ok? ==> r.value.ca.serial != serial
  {
    hide GenerateCA, GenerateLeaf, LoadOrCreate, AtomicWrite, InstallTrust;
    FreshCaDraw(env, s, now, caSigner, serial);
  }

  lemma Installed(env: Env, s: State, r: Out<Material>)
    requires FirstFrame(env, s, r) && r.Ok?
    ensures Disk(r.s, CaCert) == Some(Raw(r.value.ca))
  {
  }

  /** Whatever it creates on the way, a reload through a key store never changes the CA file. */
  lemma ReloadKeepsCa(env: Env, s: State, repairTrust: bool)
    ensures Disk(ReloadWithKeyStore(env, s, repairTrust).s, CaCert) == Disk(s, CaCert)
  {
    hide LoadPair, ReloadWithPairs;
    LoadPairEffect(env, s, CaCert, CaKey);
    var ca := LoadPair(env, s, CaCert, CaKey);
    if ca.Ok? {
      LoadPairEffect(env, ca.s, ServerCert, ServerKey);
      var server := LoadPair(env, ca.s, ServerCert, ServerKey);
      if server.Ok? { ReloadWithPairsEffect(env, server.s, ca.value, server.value, repairTrust); }
    }
  }

  /** On any machine with a CA file, whatever else it has, with nothing but stat failing: `ProvisionMachine` keeps
      the CA's identity exactly when the guard refuses what it sees, or the leaf file is there too and both routing
      stat calls work. A failed stat reads as "absent", and an absent file is provisioned afresh. */
  lemma IdentityDependsOnStat(env: Env, s: State)
    requires NoFaults(env, s.tick) && !s.dead && CaCert in s.files
    requires ClockEncodable(env, s.tick) && NotDrawn(env, s.tick, s.files[CaCert])
    ensures IdentityKept(s, ProvisionMachine(env, s).s) <==>
              || GuardRefuses(env, s)
              || (ServerCert in s.files && !env.statFails(s.tick + 4) && !env.statFails(s.tick + 5))
  {
    hide CheckInconsistent, FirstProvision, ReloadWithKeyStore, ClockEncodable, NoFaults, NotDrawn, GuardRefuses;
    QuietGuard(env, s);
    SetupWorks(env, s);
    var g := CheckInconsistent(env, s);
    if !g.value {
      var a := FileExists(env, g.s, CaCert);
      var b := FileExists(env, a.s, ServerCert);
      StillReplaces(env, s, a.s);
      StillReplaces(env, s, b.s);
      ReloadKeepsCa(env, b.s, true);
    }
  }

  lemma StillReplaces(env: Env, s: State, t: State)
    requires NoFaults(env, s.tick) && ClockEncodable(env, s.tick)
    requires CaCert in s.files && NotDrawn(env, s.tick, s.files[CaCert])
    requires SameMachine(s, t) && s.tick <= t.tick && !t.dead
    ensures !IdentityKept(s, FirstProvision(env, t).s)
  {
    hide FirstProvision, Encodable;
    InstallReplacesCa(env, t);
  }

  /** One failed stat in the guard is enough: a CA file left alone by an interrupted cleanup is replaced. */
  lemma LoneCaIsReplaced(env: Env, s: State)
    requires NoFaults(env, s.tick) && !s.dead && ClockEncodable(env, s.tick)
    requires CaCert in s.files && ServerCert !in s.files && s.keys == map[]
    requires NotDrawn(env, s.tick, s.files[CaCert])
    ensures IdentityKept(s, ProvisionMachine(env, s).s) <==> !env.statFails(s.tick)
  {
    hide ProvisionMachine, IdentityKept, NoFaults, ClockEncodable, NotDrawn;
    IdentityDependsOnStat(env, s);
  }

  lemma SetupWorks(env: Env, s: State)
    requires NoFaults(env, s.tick) && !s.dead
    ensures Setup(env, s).Ok?
  {
  }

  // ---------- honest failures ----------

  /** A removal takes an anchor that is there for "already absent", and cleanup takes that for success, exactly
      when the store opens and its enumeration is cut short before the anchor by an error that looks like the
      end. */
  lemma RemovalMisses(env: Env, s: State, fp: Fingerprint, i: nat)
    requires !s.dead && FirstMatch(env, s.root, fp, 0, i)
    requires forall t :: env.fault(t).Fail? ==> !AlreadyAbsent(env.fault(t).error)
    ensures var r := RemoveTrustBySHA256(env, s, fp);
            r.Err? && AlreadyAbsent(r.error) <==> env.fault(s.tick).Fine? && FalseEnd(env, s.tick + 1, i + 1)
  {
    hide FindBySHA256, FirstMatch;
    assert AlreadyAbsent(Wrap("certificate not found", ErrTrustAnchorNotFound)) by {
      assert Is(ErrTrustAnchorNotFound, ErrTrustAnchorNotFound);
    }
    var o := OpenStore(env, s);
    if o.Ok? {
      SearchMisses(env, o.s, fp, None, i);
      SearchErrorIsAFault(env, o.s, fp, None);
    }
  }

  lemma {:induction false} SearchErrorIsAFault(env: Env, s: State, fp: Fingerprint, prev: Option<Context>)
    requires forall t :: env.fault(t).Fail? ==> !AlreadyAbsent(env.fault(t).error)
    ensures var out := FindBySHA256(env, s, fp, prev);
            out.Err? ==> !AlreadyAbsent(out.error)
    decreases |s.root| - NextIndex(prev)
  {
    hide AlreadyAbsent;
    assert !AlreadyAbsent(Terminated) && !AlreadyAbsent(Errno(CRYPT_E_NOT_FOUND)) by { LeavesAreNotSentinels(); }
    var r := EnumNext(env, s, prev);
    if r.Ok? && env.sha(s.root[r.value.index].der) != fp {
      SearchErrorIsAFault(env, r.s, fp, Some(r.value));
    }
  }

  lemma LeavesAreNotSentinels()
    ensures !AlreadyAbsent(Terminated) && !AlreadyAbsent(Errno(CRYPT_E_NOT_FOUND))
  {
  }

  /** From call number `from` on nothing fails but the third call, with errno 0x12004. */
  ghost predicate OneFalseEnd(env: Env, from: nat) {
    && (forall t :: t >= from ==> !env.setupFails(t))
    && (forall t :: t >= from && t != from + 2 ==> env.fault(t).Fine?)
    && env.fault(from + 2) == Fail(Errno(0x1_2004))
  }

  /** One such error is enough for a nil cleanup that leaves the anchor behind: here errno 0x12004, which is not
      CRYPT_E_NOT_FOUND, from the first enumeration call. */
  lemma NilCleanupCanLeaveTheAnchor(env: Env, s: State, i: nat)
    requires !s.dead && s.dir && CaCert in s.files && s.files[CaCert].CertDer?
    requires FirstMatch(env, s.root, env.sha(s.files[CaCert]), 0, i)
    requires OneFalseEnd(env, s.tick)
    ensures var r := CleanupMachine(env, s);
            && r.Ok? && r.s.root == s.root && Empty(r.s)
            && !r.s.dead && s.tick <= r.s.tick && NoFaults(env, r.s.tick)
  {
    var a := Attempt(s, TrustAnchor);
    var d := ReadFile(env, a, CaCert);
    var r := RemoveTrust(env, d.s, d.value);
    CutShort(env, d.s, env.sha(d.value));
    hide RemoveTrustBySHA256, AlreadyAbsent, DeletePersistedKey, RemoveStateDir, FirstMatch, Is;
    assert RemoveAnchor(env, s, ByDiskCertificate) == r;
    RestOfCleanup(env, r.s);
  }

  /** The first enumeration call fails with an errno that is taken for the end. */
  lemma CutShort(env: Env, s: State, fp: Fingerprint)
    requires !s.dead && env.fault(s.tick).Fine? && env.fault(s.tick + 1) == Fail(Errno(0x1_2004))
    ensures var r := RemoveTrustBySHA256(env, s, fp);
            && r.Err? && AlreadyAbsent(r.error)
            && r.s.root == s.root && r.s.dir == s.dir && !r.s.dead && r.s.tick == s.tick + 2
  {
  }

  lemma RestOfCleanup(env: Env, s: State)
    requires !s.dead && s.dir
    requires forall t :: t >= s.tick ==> env.fault(t).Fine?
    ensures var ca := DeletePersistedKey(env, s, true, CaKey);
            var server := DeletePersistedKey(env, ca.s, true, ServerKey);
            var dir := RemoveStateDir(env, server.s);
            && (ca.Err? ==> AlreadyAbsent(ca.error)) && (server.Err? ==> AlreadyAbsent(server.error))
            && dir.Ok? && Empty(dir.s) && dir.s.root == s.root && !dir.s.dead && s.tick <= dir.s.tick
  {
  }

  // ---------- cleanups that fail ----------

  /** First install does not look for other anchors: it leaves a single one of the module's exactly when there was
      none before. */
  lemma InstallBesideStaleAnchor(env: Env, s: State)
    requires TruthfulStat(env) && ReplacesOnlyItself(env) && Empty(s)
    requires ProvisionMachine(env, s).Ok?
    requires !Trusted(env, s.root, env.sha(Raw(ProvisionMachine(env, s).value.ca)))
    ensures AtMostOneAdded(ProvisionMachine(env, s).s.root) <==> forall x :: x in s.root ==> !x.added
  {
    hide ProvisionMachine, Owned, NewCA, NewLeaf, TruthfulStat, ReplacesOnlyItself, DropFirstSame;
    ProvisionMachineEffect(env, s);
    var r := ProvisionMachine(env, s);
    NothingDropped(env, s.root, Raw(r.value.ca));
    assert r.s.root[|s.root|] == Anchor(Raw(r.value.ca), true);
    assert forall i :: 0 <= i < |s.root| ==> r.s.root[i] == s.root[i];
  }

  /** Nothing else has the fingerprint of an entry of Root. */
  ghost predicate NoCollision(env: Env, root: seq<Anchor>) {
    forall x, der :: x in root && env.sha(der) == env.sha(x.der) ==> der == x.der
  }

  /** No serial drawn from `from` on is that of a certificate in Root. */
  ghost predicate NewToRoot(env: Env, from: nat, root: seq<Anchor>) {
    forall x :: x in root ==> NotDrawn(env, from, x.der)
  }

  /** A run that ends with two anchors of the module's. The machine is complete with its anchor in Root; one
      enumeration call of the cleanup fails with an end-like error, the cleanup returns nil, and the next provision
      installs beside the anchor left behind. */
  lemma TwoAnchorsAfterNilCleanup(env: Env, sys: System, i: nat)
    requires TruthfulStat(env) && ReplacesOnlyItself(env) && NoCollision(env, sys.s.root)
    requires var s := sys.s;
             && Complete(s) && s.files[CaCert].CertDer? && s.dir && !s.dead
             && FirstMatch(env, s.root, env.sha(s.files[CaCert]), 0, i) && s.root[i].added
             && OneFalseEnd(env, s.tick) && ClockEncodable(env, s.tick) && NewToRoot(env, s.tick, s.root)
    ensures CleanupMachine(env, sys.s).Ok?
    ensures !AtMostOneAdded(Run(env, sys, [CallCleanup, CallProvision]).s.root)
  {
    hide CleanupMachine, ProvisionMachine, ClockEncodable, NewToRoot, NoCollision, TruthfulStat,
         ReplacesOnlyItself, AtMostOneAdded, Trusted, OneFalseEnd;
    NilCleanupCanLeaveTheAnchor(env, sys.s, i);
    var t := CleanupMachine(env, sys.s).s;
    QuietAgain(env, t);
    EncodableLater(env, sys.s.tick, t.tick);
    EmptyInstalls(env, t);
    NewLater(env, sys.s.tick, t.tick, t.root);
    NewCaIsUntrusted(env, t);
    InstallBesideStaleAnchor(env, t);
    assert t.root[i] in t.root;
    var next := Step(env, sys, CallCleanup);
    assert next.s == t;
    assert Run(env, sys, [CallCleanup, CallProvision]) == Run(env, next, [CallProvision]);
    assert Run(env, next, [CallProvision]) == Run(env, Step(env, next, CallProvision), []);
  }

  lemma QuietAgain(env: Env, s: State)
    requires TruthfulStat(env) && NoFaults(env, s.tick)
    ensures Quiet(env, s.tick)
  {
  }

  lemma NewLater(env: Env, a: nat, b: nat, root: seq<Anchor>)
    requires NewToRoot(env, a, root) && a <= b
    ensures NewToRoot(env, b, root)
  {
  }

  lemma NewCaIsUntrusted(env: Env, s: State)
    requires NoCollision(env, s.root) && NewToRoot(env, s.tick, s.root)
    requires Quiet(env, s.tick) && !s.dead && Empty(s)
    ensures var r := ProvisionMachine(env, s);
            r.Ok? ==> !Trusted(env, s.root, env.sha(Raw(r.value.ca)))
  {
    hide ProvisionMachine, FirstProvision, Quiet;
    var t := QuietInstallRoute(env, s);
    var r := ProvisionMachine(env, s);
    if r.Ok? {
      forall i | 0 <= i < |s.root| ensures env.sha(s.root[i].der) != env.sha(Raw(r.value.ca)) {
        var der := s.root[i].der;
        assert s.root[i] in s.root;
        if der.CertDer? {
          SerialsLater(env, s.tick, t.tick, der.cert.serial);
          InstallDrawsFresh(env, t, der.cert.serial);
        }
      }
    }
  }

  // ---------- present more than once ----------

  /** Exactly one entry of Root has this fingerprint. */
  ghost predicate PresentOnce(env: Env, root: seq<Anchor>, fp: Fingerprint) {
    exists i :: 0 <= i < |root| && OnlyAt(env, root, fp, i)
  }

  ghost predicate OnlyAt(env: Env, root: seq<Anchor>, fp: Fingerprint, i: nat)
    requires i < |root|
  {
    forall j :: 0 <= j < |root| ==> (env.sha(root[j].der) == fp <==> j == i)
  }

  ghost predicate PresentTwice(env: Env, root: seq<Anchor>, fp: Fingerprint) {
    exists i, j :: 0 <= i < j < |root| && env.sha(root[i].der) == fp && env.sha(root[j].der) == fp
  }

  /** Healthy means "present exactly once" exactly when no two entries have the fingerprint. */
  lemma HealthyMeansOnce(env: Env, s: State, der: Der)
    requires HonestFailures(env)
    ensures var v := VerifyTrust(env, s, der);
            var fp := env.sha(der);
            v.Ok? ==> ((v.value == TrustHealthy <==> PresentOnce(env, s.root, fp)) <==> !PresentTwice(env, s.root, fp))
  {
    hide VerifyTrust, Fingerprints;
    VerifyRefines(env, s, der);
    TrustedIsMember(env, s.root, env.sha(der));
    OnceOrTwice(env, s.root, env.sha(der));
  }

  lemma OnceOrTwice(env: Env, root: seq<Anchor>, fp: Fingerprint)
    ensures PresentOnce(env, root, fp) <==> Trusted(env, root, fp) && !PresentTwice(env, root, fp)
  {
    if PresentOnce(env, root, fp) {
      var i :| 0 <= i < |root| && OnlyAt(env, root, fp, i);
      assert env.sha(root[i].der) == fp;
    }
    if Trusted(env, root, fp) && !PresentTwice(env, root, fp) {
      var i :| 0 <= i < |root| && env.sha(root[i].der) == fp;
      assert OnlyAt(env, root, fp, i);
    }
  }

  /** A store that holds the same certificate twice is healthy. */
  lemma HealthyThoughTwice(env: Env, s: State, ca: Certificate)
    requires NoFaults(env, s.tick) && !s.dead && s.root == [Anchor(Raw(ca), true), Anchor(Raw(ca), true)]
    ensures VerifyTrust(env, s, Raw(ca)).Ok? && VerifyTrust(env, s, Raw(ca)).value == TrustHealthy
    ensures !PresentOnce(env, s.root, env.sha(Raw(ca)))
  {
    hide VerifyTrust;
    QuietVerify(env, s, Raw(ca));
    assert s.root[0].der == Raw(ca) && s.root[1].der == Raw(ca);
  }
}
