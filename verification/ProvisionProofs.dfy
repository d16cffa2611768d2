/** What each provisioning step changes, and which handles it leaves open, under every pattern of
    failures and crashes. */
module ProvisionProofs {
  import opened Errors
  import opened Validity
  import opened Certificates
  import opened States
  import opened TrustStore
  import opened TrustStoreProofs
  import opened TrustStoreModel
  import opened Provision

  function Disk(s: State, f: File): Option<Der> {
    if f in s.files then Some(s.files[f]) else None
  }

  /** The two certificate files are as before; temporary files may have come and gone. */
  ghost predicate SameDisk(a: State, b: State) {
    Disk(a, CaCert) == Disk(b, CaCert) && Disk(a, ServerCert) == Disk(b, ServerCert)
  }

  /** Only files have changed. */
  ghost predicate OnlyFiles(a: State, b: State) {
    && a.dir == b.dir && a.keys == b.keys && a.root == b.root && a.attempted == b.attempted
    && a.handles == b.handles && a.now == b.now && a.tick <= b.tick
  }

  // ---------- atomicWrite ----------

  /** The target holds all of the new contents, or what it held before: the contents are never torn,
      and success means they are in place. */
  lemma WriteIsAtomic(env: Env, s: State, target: File, data: Der)
    ensures var r := AtomicWrite(env, s, target, data);
            && OnlyFiles(s, r.s)
            && r.s.files == (if r.Ok? then s.files[target := data] else s.files)
            && (r.Ok? ==> s.dir)
  {
    hide Publish, RemoveTemp;
    var c := CreateTemp(env, s);
    if c.Ok? {
      var w := WriteTemp(env, c.s, c.value, data);
      RemoveTempOnly(env, w.s, c.value);
      PublishMoves(env, w.s, c.value, target);
    }
  }

  /** `b` is `a` with the target replaced by the temporary file's contents if `moved`, else with its files. */
  ghost predicate Moved(a: State, b: State, tmp: nat, target: File, moved: bool) {
    && OnlyFiles(a, b)
    && if moved then tmp < |a.temps| && a.temps[tmp].Some? && b.files == a.files[target := a.temps[tmp].value]
       else b.files == a.files
  }

  lemma PublishMoves(env: Env, s: State, tmp: nat, target: File)
    ensures var r := Publish(env, s, tmp, target);
            Moved(s, r.s, tmp, target, r.Ok?)
  {
    hide Rename, RemoveTemp;
    var sync := Gate(env, s);
    var close := Gate(env, sync.s);
    var chmod := Gate(env, close.s);
    RemoveTempOnly(env, sync.s, tmp);
    RemoveTempOnly(env, close.s, tmp);
    RemoveTempOnly(env, chmod.s, tmp);
    RenameOrRemove(env, chmod.s, tmp, target);
  }

  lemma RenameOrRemove(env: Env, s: State, tmp: nat, target: File)
    ensures var r := RemovingOnError(env, Rename(env, s, tmp, target), tmp);
            Moved(s, r.s, tmp, target, r.Ok?)
  {
    hide RemoveTemp;
    RemoveTempOnly(env, Rename(env, s, tmp, target).s, tmp);
  }

  lemma RemoveTempOnly(env: Env, s: State, tmp: nat)
    ensures OnlyFiles(s, RemoveTemp(env, s, tmp)) && RemoveTemp(env, s, tmp).files == s.files
  {
  }

  /** The temporary files of `b` are those of `a`, with file `tmp` gone if the last call was not a failing one. */
  ghost predicate Swept(env: Env, a: State, b: State, tmp: nat) {
    && |b.temps| == |a.temps| && a.tick <= b.tick
    && (forall i :: 0 <= i < |a.temps| && i != tmp ==> b.temps[i] == a.temps[i])
    && (tmp < |a.temps| && !b.dead && b.tick > 0 && env.fault(b.tick - 1).Fine? ==> b.temps[tmp].None?)
  }

  lemma RemoveTempSweeps(env: Env, s: State, tmp: nat)
    ensures Swept(env, s, RemoveTemp(env, s, tmp), tmp)
  {
  }

  lemma RenameSweeps(env: Env, s: State, tmp: nat, target: File)
    ensures Swept(env, s, RemovingOnError(env, Rename(env, s, tmp, target), tmp).s, tmp)
  {
    hide RemoveTemp;
    RemoveTempSweeps(env, Rename(env, s, tmp, target).s, tmp);
  }

  lemma PublishSweeps(env: Env, s: State, tmp: nat, target: File)
    ensures Swept(env, s, Publish(env, s, tmp, target).s, tmp)
  {
    hide Rename, RemoveTemp;
    var sync := Gate(env, s);
    var close := Gate(env, sync.s);
    var chmod := Gate(env, close.s);
    RemoveTempSweeps(env, sync.s, tmp);
    RemoveTempSweeps(env, close.s, tmp);
    RemoveTempSweeps(env, chmod.s, tmp);
    RenameSweeps(env, chmod.s, tmp, target);
  }

  /** What `atomicWrite` does with the temporary file it has created. */
  function Filled(env: Env, s: State, tmp: nat, target: File, data: Der): Out<()> {
    var (s, _) :- RemovingOnError(env, WriteTemp(env, s, tmp, data), tmp);
    Publish(env, s, tmp, target)
  }

  lemma FilledSweeps(env: Env, s: State, tmp: nat, target: File, data: Der)
    ensures var r := Filled(env, s, tmp, target, data);
            && Swept(env, s, r.s, tmp)
            && (r.Ok? ==> !r.s.dead && r.s.tick > 0 && env.fault(r.s.tick - 1).Fine?)
  {
    hide Publish, RemoveTemp;
    var w := WriteTemp(env, s, tmp, data);
    RemoveTempSweeps(env, w.s, tmp);
    PublishSweeps(env, w.s, tmp, target);
    PublishEndsWell(env, w.s, tmp, target);
  }

  /** No litter: whether it succeeds or fails, a write leaves every other temporary file alone, and its own behind only
      if the process died or the very last call, which removes it, failed. */
  lemma WriteLeavesNoTemp(env: Env, s: State, target: File, data: Der)
    ensures var r := AtomicWrite(env, s, target, data);
            && |s.temps| <= |r.s.temps| <= |s.temps| + 1 && r.s.temps[..|s.temps|] == s.temps
            && (|r.s.temps| > |s.temps| && !r.s.dead && r.s.tick > 0 && env.fault(r.s.tick - 1).Fine? ==>
                  r.s.temps[|s.temps|].None?)
            && (r.Ok? ==> |r.s.temps| > |s.temps| && !r.s.dead && r.s.tick > 0 && env.fault(r.s.tick - 1).Fine?)
  {
    hide AtomicWrite, Filled, CreateTemp, Swept;
    FilledIs(env, s, target, data);
    TempIsCreated(env, s);
    var c := CreateTemp(env, s);
    if c.Ok? {
      FilledSweeps(env, c.s, c.value, target, data);
      SweptBack(env, s, c.s, AtomicWrite(env, s, target, data).s);
    }
  }

  lemma TempIsCreated(env: Env, s: State)
    ensures var c := CreateTemp(env, s);
            if c.Ok? then c.value == |s.temps| && c.s.temps == s.temps + [Some(OtherBytes([]))]
            else c.s.temps == s.temps
  {
  }

  lemma SweptBack(env: Env, a: State, b: State, c: State)
    requires b.temps == a.temps + [Some(OtherBytes([]))] && Swept(env, b, c, |a.temps|)
    ensures |c.temps| == |a.temps| + 1 && c.temps[..|a.temps|] == a.temps
    ensures !c.dead && c.tick > 0 && env.fault(c.tick - 1).Fine? ==> c.temps[|a.temps|].None?
  {
  }

  lemma FilledIs(env: Env, s: State, target: File, data: Der)
    ensures var c := CreateTemp(env, s);
            AtomicWrite(env, s, target, data)
            == if c.Ok? then Filled(env, c.s, c.value, target, data) else Err(c.s, c.error)
  {
    hide Publish, RemoveTemp, WriteTemp;
  }

  lemma PublishEndsWell(env: Env, s: State, tmp: nat, target: File)
    ensures var r := Publish(env, s, tmp, target);
            r.Ok? ==> !r.s.dead && r.s.tick > 0 && env.fault(r.s.tick - 1).Fine?
  {
    hide RemoveTemp;
  }

  /** From call number `from` on every call works, except that call `k` may fail. */
  ghost predicate OneFailure(env: Env, from: nat, k: nat) {
    !env.fault(k).Crash? && forall t :: t >= from && t != k ==> env.fault(t).Fine?
  }

  lemma RemoveTempWorks(env: Env, s: State, tmp: nat, k: nat)
    requires OneFailure(env, s.tick, k) && k < s.tick && !s.dead && tmp < |s.temps|
    ensures RemoveTemp(env, s, tmp).temps == s.temps[tmp := None]
  {
  }

  lemma PublishTidies(env: Env, s: State, tmp: nat, target: File, k: nat)
    requires OneFailure(env, s.tick, k) && !s.dead && tmp < |s.temps| && s.temps[tmp].Some?
    ensures var r := Publish(env, s, tmp, target);
            r.s.temps == s.temps[tmp := None]
  {
    hide RemoveTemp;
    var sync := Gate(env, s);
    if sync.Err? {
      RemoveTempWorks(env, sync.s, tmp, k);
    } else {
      var close := Gate(env, sync.s);
      if close.Err? {
        RemoveTempWorks(env, close.s, tmp, k);
      } else {
        var chmod := Gate(env, close.s);
        if chmod.Err? {
          RemoveTempWorks(env, chmod.s, tmp, k);
        } else if Rename(env, chmod.s, tmp, target).Err? {
          RemoveTempWorks(env, Rename(env, chmod.s, tmp, target).s, tmp, k);
        }
      }
    }
  }

  /** Whichever single call of a write fails, no temporary file is left. */
  lemma OneFailureLeavesNoTemp(env: Env, s: State, target: File, data: Der, k: nat)
    requires OneFailure(env, s.tick, k) && !s.dead
    ensures var r := AtomicWrite(env, s, target, data);
            r.s.temps == s.temps || r.s.temps == s.temps + [None]
  {
    hide AtomicWrite, Publish, RemoveTemp, WriteTemp;
    FilledIs(env, s, target, data);
    var c := CreateTemp(env, s);
    if c.Ok? {
      FillTidies(env, c.s, c.value, target, data, k);
      assert c.s.temps[c.value := None] == s.temps + [None];
    }
  }

  lemma FillTidies(env: Env, s: State, tmp: nat, target: File, data: Der, k: nat)
    requires OneFailure(env, s.tick, k) && !s.dead && tmp < |s.temps|
    ensures Filled(env, s, tmp, target, data).s.temps == s.temps[tmp := None]
  {
    hide Publish, RemoveTemp;
    var w := WriteTemp(env, s, tmp, data);
    if w.Ok? {
      PublishTidies(env, w.s, tmp, target, k);
      assert w.s.temps[tmp := None] == s.temps[tmp := None];
    } else {
      RemoveTempWorks(env, w.s, tmp, k);
    }
  }

  // ---------- renewal and trust ----------

  /** Issuing changes nothing on the machine; what it returns is the template's certificate. */
  lemma LeafIssued(env: Env, s: State, now: Instant, ca: Certificate, caSigner: Signer, serverSigner: Signer)
    ensures var r := GenerateLeaf(env, s, now, ca, caSigner, serverSigner);
            && OnlyFiles(s, r.s) && r.s.files == s.files
            && (r.Ok? ==> && r.value == NewLeaf(now, r.value.serial, ca, caSigner.pub, serverSigner.pub)
                          && Encodable(r.value.window) && serverSigner.pub.P256?)
  {
    SerialsKept(now, env.serial(s.tick), ca, caSigner.pub, serverSigner.pub);
    hide NewLeaf, Encodable;
  }

  /** The leaf on disk after a renewal test at `b.now`: replaced in full, or untouched. */
  ghost predicate LeafKept(a: State, b: State, ca: Certificate, caPub: PublicKey, leaf: Certificate,
                           serverPub: PublicKey, next: Certificate)
  {
    if RenewalDue(leaf.window.notAfter, b.now) then
      && CurrentlyValid(ca.window, b.now)
      && next == NewLeaf(b.now, next.serial, ca, caPub, serverPub)
      && Encodable(next.window)
      && Disk(b, ServerCert) == Some(Raw(next))
    else
      next == leaf && Disk(b, ServerCert) == Disk(a, ServerCert)
  }

  lemma RenewalEffect(env: Env, s: State, ca: Certificate, caSigner: Signer, leaf: Certificate, serverSigner: Signer)
    ensures var r := RenewIfDue(env, s, ca, caSigner, leaf, serverSigner);
            && OnlyFiles(s.(now := r.s.now), r.s) && Disk(r.s, CaCert) == Disk(s, CaCert)
            && (r.Err? ==> Disk(r.s, ServerCert) == Disk(s, ServerCert))
            && (r.Ok? ==> LeafKept(s, r.s, ca, caSigner.pub, leaf, serverSigner.pub, r.value))
  {
    hide AtomicWrite, GenerateLeaf;
    var t := s.(now := env.clock(s.tick));
    LeafIssued(env, t, t.now, ca, caSigner, serverSigner);
    var g := GenerateLeaf(env, t, t.now, ca, caSigner, serverSigner);
    if g.Ok? {
      WriteIsAtomic(env, g.s, ServerCert, Raw(g.value));
    }
  }

  /** What a repair may do to Root: add exactly this CA, and not when another certificate has its subject. */
  ghost predicate RepairGains(env: Env, a: seq<Anchor>, b: seq<Anchor>, der: Der) {
    RootGains(env, a, b, der) && (HonestFailures(env) && Conflicting(env, a, der) ==> b == a)
  }

  /** With repair off nothing changes; with repair on, Root may gain exactly this CA. */
  lemma EnsureTrustEffect(env: Env, s: State, ca: Certificate, repairTrust: bool)
    ensures var r := EnsureTrust(env, s, ca, repairTrust);
            && OnlyRoot(s, r.s) && RepairGains(env, s.root, r.s.root, Raw(ca))
            && (!repairTrust ==> r.s.root == s.root)
            && (r.Ok? ==> Trusted(env, r.s.root, env.sha(Raw(ca))))
  {
    hide VerifyTrust, InstallTrust, Settled, RootGains, Trusted, HonestFailures, Conflicting;
    VerifySettles(env, s, Raw(ca));
    if HonestFailures(env) { VerifyRefines(env, s, Raw(ca)); }
    GainsNothing(env, s.root, Raw(ca));
    var v := VerifyTrust(env, s, Raw(ca));
    if v.Ok? && v.value == TrustAbsent && repairTrust {
      InstallSettles(env, v.s, Raw(ca));
      var i := InstallTrust(env, v.s, Raw(ca));
      SettledTwice(s.handles, v.s.handles, i.s.handles);
      if i.Ok? {
        VerifySettles(env, i.s, Raw(ca));
        SettledTwice(s.handles, i.s.handles, VerifyTrust(env, i.s, Raw(ca)).s.handles);
      }
    }
  }

  lemma GainsNothing(env: Env, root: seq<Anchor>, der: Der)
    ensures RepairGains(env, root, root, der) && RootGains(env, root, root, der)
  {
  }

  // ---------- what an entry point leaves behind ----------

  /** An error leaves no handle open; success leaves exactly the Material's signer open. */
  ghost predicate Owned(a: State, r: Out<Material>) {
    match r
    case Err(b, _) => Settled(a.handles, b.handles)
    case Ok(b, m) =>
      Holding(a.handles, b.handles, m.signer.h) && b.handles[m.signer.h].kind == SignerHandle(ServerKey)
  }

  /** What every successful reload has checked, and what it has done to the leaf. */
  ghost predicate Reloaded(env: Env, a: State, b: State, m: Material) {
    && CaKey in a.keys && ServerKey in a.keys
    && Disk(a, CaCert) == Some(Raw(m.ca)) && PublicKeyMatches(m.ca, P256(a.keys[CaKey]))
    && Disk(a, ServerCert).Some? && Disk(a, ServerCert).value.CertDer?
    && var leaf := Disk(a, ServerCert).value.cert;
    && PublicKeyMatches(leaf, P256(a.keys[ServerKey])) && IssuedBy(leaf, m.ca) && ValidSan(leaf)
    && Trusted(env, b.root, env.sha(Raw(m.ca)))
    && LeafKept(a, b, m.ca, P256(a.keys[CaKey]), leaf, P256(a.keys[ServerKey]), m.leaf)
    && m.caFingerprint == env.sha(Raw(m.ca)) && m.signer.pub == P256(a.keys[ServerKey])
  }

  /** The frame of every reload: the CA file and the keys stay, and an error also leaves the leaf. */
  ghost predicate ReloadFrame(env: Env, a: State, r: Out<Material>) {
    && r.s.dir == a.dir && r.s.keys == a.keys && r.s.attempted == a.attempted && a.tick <= r.s.tick
    && Disk(r.s, CaCert) == Disk(a, CaCert)
    && (r.Err? ==> Disk(r.s, ServerCert) == Disk(a, ServerCert))
    && (r.Ok? ==> Reloaded(env, a, r.s, r.value))
    && Owned(a, r)
  }

  // ---------- reload through a key store ----------

  ghost predicate KeysGrow(a: map<KeyName, nat>, b: map<KeyName, nat>) {
    forall k :: k in a ==> k in b && b[k] == a[k]
  }

  lemma ReadCertificateEffect(env: Env, s: State, f: File)
    ensures var r := ReadCertificate(env, s, f);
            && SameMachine(s, r.s) && s.now == r.s.now && s.tick <= r.s.tick && r.s.handles == s.handles
            && (r.Ok? ==> Disk(s, f) == Some(Raw(r.value)))
  {
  }

  /** A key that exists is loaded; only a missing one is created. */
  lemma LoadOrCreateEffect(env: Env, s: State, name: KeyName)
    ensures var r := LoadOrCreate(env, s, name);
            && SameMachine(s.(keys := r.s.keys), r.s) && s.now == r.s.now && s.tick <= r.s.tick
            && KeysGrow(s.keys, r.s.keys) && (name in s.keys ==> r.s.keys == s.keys)
            && (r.Err? ==> r.s.handles == s.handles && r.s.keys == s.keys)
            && (r.Ok? ==> && r.s.handles == s.handles + [Handle(SignerHandle(name), 0)]
                          && name in r.s.keys && r.value == Signer(|s.handles|, P256(r.s.keys[name])))
  {
  }

  lemma LoadPairEffect(env: Env, s: State, f: File, name: KeyName)
    ensures var r := LoadPair(env, s, f, name);
            && SameMachine(s.(keys := r.s.keys), r.s) && s.now == r.s.now && s.tick <= r.s.tick
            && (name in s.keys ==> r.s.keys == s.keys)
            && (r.Err? ==> Settled(s.handles, r.s.handles))
            && (r.Ok? ==> && r.s.handles == s.handles + [Handle(SignerHandle(name), 0)]
                          && name in r.s.keys
                          && r.value.signer == Signer(|s.handles|, P256(r.s.keys[name]))
                          && Disk(s, f) == Some(Raw(r.value.cert))
                          && PublicKeyMatches(r.value.cert, P256(r.s.keys[name])))
  {
    hide ReadCertificate, LoadOrCreate, Settled, Release, PublicKeyMatches;
    SettledRefl(s.handles);
    ReadCertificateEffect(env, s, f);
    LoadOrCreateEffect(env, ReadCertificate(env, s, f).s, name);
    OpenedAndPassed(s.handles, SignerHandle(name));
  }

  lemma ReloadWithPairsSteps(env: Env, s: State, ca: Pair, server: Pair, repairTrust: bool)
    ensures var out := ReloadWithPairs(env, s, ca, server, repairTrust);
            var t := EnsureTrust(env, s, ca.cert, repairTrust);
            var r := RenewIfDue(env, t.s, ca.cert, ca.signer, server.cert, server.signer);
            if !IssuedBy(server.cert, ca.cert) || !ValidSan(server.cert) then out.Err? && out.s == s
            else if t.Err? then out.Err? && out.s == t.s
            else if r.Err? then out.Err? && out.s == r.s
            else out == Ok(r.s, MaterialFrom(env, ca.cert, r.value, server.signer))
  {
  }

  lemma ReloadWithPairsEffect(env: Env, s: State, ca: Pair, server: Pair, repairTrust: bool)
    ensures var r := ReloadWithPairs(env, s, ca, server, repairTrust);
            && r.s.dir == s.dir && r.s.keys == s.keys && r.s.attempted == s.attempted && s.tick <= r.s.tick
            && Disk(r.s, CaCert) == Disk(s, CaCert) && Settled(s.handles, r.s.handles)
            && RepairGains(env, s.root, r.s.root, Raw(ca.cert))
            && (!repairTrust ==> r.s.root == s.root)
            && (r.Err? ==> Disk(r.s, ServerCert) == Disk(s, ServerCert))
            && (r.Ok? ==> && IssuedBy(server.cert, ca.cert) && ValidSan(server.cert)
                          && Trusted(env, r.s.root, env.sha(Raw(ca.cert)))
                          && LeafKept(s, r.s, ca.cert, ca.signer.pub, server.cert, server.signer.pub, r.value.leaf)
                          && r.value == MaterialFrom(env, ca.cert, r.value.leaf, server.signer))
  {
    hide ReloadWithPairs, EnsureTrust, RenewIfDue, Settled, RepairGains, Trusted, ValidSan, IssuedBy, LeafKept;
    ReloadWithPairsSteps(env, s, ca, server, repairTrust);
    SettledRefl(s.handles);
    GainsNothing(env, s.root, Raw(ca.cert));
    EnsureTrustEffect(env, s, ca.cert, repairTrust);
    var t := EnsureTrust(env, s, ca.cert, repairTrust);
    if t.Ok? {
      RenewalEffect(env, t.s, ca.cert, ca.signer, server.cert, server.signer);
      var r := RenewIfDue(env, t.s, ca.cert, ca.signer, server.cert, server.signer);
      if r.Ok? {
        SameLeafKept(s, t.s, r.s, ca.cert, ca.signer.pub, server.cert, server.signer.pub, r.value);
      }
    }
  }

  lemma SameLeafKept(a: State, a': State, b: State, ca: Certificate, caPub: PublicKey, leaf: Certificate,
                     serverPub: PublicKey, next: Certificate)
    requires a.files == a'.files && LeafKept(a', b, ca, caPub, leaf, serverPub, next)
    ensures LeafKept(a, b, ca, caPub, leaf, serverPub, next)
  {
  }

  lemma ReloadWithKeyStoreEffect(env: Env, s: State, repairTrust: bool)
    ensures var r := ReloadWithKeyStore(env, s, repairTrust);
            && Owned(s, r)
            && (CaKey in s.keys && ServerKey in s.keys ==> ReloadFrame(env, s, r))
            && (!repairTrust ==> r.s.root == s.root)
            && (r.s.root != s.root ==>
                  Disk(s, CaCert).Some? && RepairGains(env, s.root, r.s.root, Disk(s, CaCert).value))
  {
    hide LoadPair, ReloadWithPairs, Settled, Holding, Release, RepairGains, Trusted, ValidSan, PublicKeyMatches,
         IssuedBy;
    LoadPairEffect(env, s, CaCert, CaKey);
    var ca := LoadPair(env, s, CaCert, CaKey);
    if ca.Ok? {
      LoadPairEffect(env, ca.s, ServerCert, ServerKey);
      var server := LoadPair(env, ca.s, ServerCert, ServerKey);
      if server.Ok? {
        ReloadWithPairsEffect(env, server.s, ca.value, server.value, repairTrust);
        var r := ReloadWithPairs(env, server.s, ca.value, server.value, repairTrust);
        OpenedSettled(ca.s.handles, SignerHandle(ServerKey), r.s.handles);
        if r.Ok? {
          OpenedHolding(s.handles, SignerHandle(CaKey), r.s.handles, server.value.signer.h);
        } else {
          OpenedSettled(s.handles, SignerHandle(CaKey), Release(r.s.handles, server.value.signer.h));
        }
      } else {
        OpenedSettled(s.handles, SignerHandle(CaKey), server.s.handles);
      }
    }
  }

  // ---------- ReloadMachine ----------

  lemma OpenKeyEffect(env: Env, s: State, name: KeyName)
    ensures var r := OpenKey(env, s, name);
            && SameMachine(s, r.s) && s.now == r.s.now && s.tick <= r.s.tick
            && (r.Err? ==> r.s.handles == s.handles)
            && (r.Ok? ==> && r.s.handles == s.handles + [Handle(SignerHandle(name), 0)]
                          && name in s.keys && r.value == Signer(|s.handles|, P256(s.keys[name])))
  {
  }

  lemma OpenPairEffect(env: Env, s: State, f: File, name: KeyName)
    ensures var r := OpenPair(env, s, f, name);
            && SameMachine(s, r.s) && s.now == r.s.now && s.tick <= r.s.tick
            && (r.Err? ==> Settled(s.handles, r.s.handles))
            && (r.Ok? ==> && r.s.handles == s.handles + [Handle(SignerHandle(name), 0)]
                          && name in s.keys
                          && r.value.signer == Signer(|s.handles|, P256(s.keys[name]))
                          && Disk(s, f) == Some(Raw(r.value.cert))
                          && PublicKeyMatches(r.value.cert, P256(s.keys[name])))
  {
    hide ReadCertificate, OpenKey, Settled, Release, PublicKeyMatches;
    SettledRefl(s.handles);
    ReadCertificateEffect(env, s, f);
    OpenKeyEffect(env, ReadCertificate(env, s, f).s, name);
    OpenedAndPassed(s.handles, SignerHandle(name));
  }

  lemma ReloadOpenedSteps(env: Env, s: State, ca: Pair, server: Pair)
    ensures var out := ReloadOpened(env, s, ca, server);
            var t := VerifyTrust(env, s, Raw(ca.cert));
            if !IssuedBy(server.cert, ca.cert) || !ValidSan(server.cert) then out.Err? && out.s == s
            else if Setup(env, s).Err? then out.Err? && out.s == Setup(env, s).s
            else if t.Err? || t.value != TrustHealthy then out.Err? && out.s == t.s
            else out == RenewIfDue(env, t.s, ca.cert, ca.signer, server.cert, server.signer)
  {
  }

  lemma ReloadOpenedEffect(env: Env, s: State, ca: Pair, server: Pair)
    ensures var r := ReloadOpened(env, s, ca, server);
            && r.s.dir == s.dir && r.s.keys == s.keys && r.s.attempted == s.attempted && s.tick <= r.s.tick
            && Disk(r.s, CaCert) == Disk(s, CaCert) && Settled(s.handles, r.s.handles) && r.s.root == s.root
            && (r.Err? ==> Disk(r.s, ServerCert) == Disk(s, ServerCert))
            && (r.Ok? ==> && IssuedBy(server.cert, ca.cert) && ValidSan(server.cert)
                          && Trusted(env, r.s.root, env.sha(Raw(ca.cert)))
                          && LeafKept(s, r.s, ca.cert, ca.signer.pub, server.cert, server.signer.pub, r.value))
  {
    hide ReloadOpened, VerifyTrust, RenewIfDue, Settled, Trusted, ValidSan, IssuedBy, LeafKept;
    ReloadOpenedSteps(env, s, ca, server);
    SettledRefl(s.handles);
    VerifySettles(env, s, Raw(ca.cert));
    var t := VerifyTrust(env, s, Raw(ca.cert));
    if t.Ok? {
      RenewalEffect(env, t.s, ca.cert, ca.signer, server.cert, server.signer);
      var r := RenewIfDue(env, t.s, ca.cert, ca.signer, server.cert, server.signer);
      if r.Ok? {
        SameLeafKept(s, t.s, r.s, ca.cert, ca.signer.pub, server.cert, server.signer.pub, r.value);
      }
    }
  }

  lemma ReloadMachineEffect(env: Env, s: State)
    ensures var r := ReloadMachine(env, s);
            ReloadFrame(env, s, r) && r.s.root == s.root
  {
    hide OpenPair, ReloadOpened, Settled, Holding, Release, Trusted, ValidSan, PublicKeyMatches, IssuedBy;
    SettledRefl(s.handles);
    OpenPairEffect(env, s, CaCert, CaKey);
    var ca := OpenPair(env, s, CaCert, CaKey);
    if Setup(env, s).Ok? && ca.Ok? {
      OpenPairEffect(env, ca.s, ServerCert, ServerKey);
      var server := OpenPair(env, ca.s, ServerCert, ServerKey);
      if server.Ok? {
        ReloadOpenedEffect(env, server.s, ca.value, server.value);
        var r := ReloadOpened(env, server.s, ca.value, server.value);
        var h := server.value.signer.h;
        ReleasesCommute(r.s.handles, ca.value.signer.h, h);
        OpenedSettled(ca.s.handles, SignerHandle(ServerKey), r.s.handles);
        if r.Ok? {
          OpenedHolding(s.handles, SignerHandle(CaKey), r.s.handles, h);
        } else {
          OpenedSettled(s.handles, SignerHandle(CaKey), Release(r.s.handles, h));
        }
      } else {
        OpenedSettled(s.handles, SignerHandle(CaKey), server.s.handles);
      }
    }
  }

  // ---------- LoadServingMaterial ----------

  /** What a successful load for serving has checked. */
  ghost predicate Served(env: Env, a: State, m: Material) {
    && ServerKey in a.keys
    && Disk(a, CaCert) == Some(Raw(m.ca)) && Disk(a, ServerCert) == Some(Raw(m.leaf))
    && PublicKeyMatches(m.leaf, P256(a.keys[ServerKey])) && IssuedBy(m.leaf, m.ca) && ValidSan(m.leaf)
    && Trusted(env, a.root, env.sha(Raw(m.ca)))
    && m.caFingerprint == env.sha(Raw(m.ca)) && m.signer.pub == P256(a.keys[ServerKey])
  }

  lemma ServeOpenedEffect(env: Env, s: State, ca: Certificate, server: Certificate, serverSigner: Signer)
    ensures var r := ServeOpened(env, s, ca, server, serverSigner);
            && SameMachine(s, r.s) && s.now == r.s.now && s.tick <= r.s.tick && Settled(s.handles, r.s.handles)
            && (r.Ok? ==> && PublicKeyMatches(server, serverSigner.pub) && IssuedBy(server, ca) && ValidSan(server)
                          && Trusted(env, s.root, env.sha(Raw(ca)))
                          && r.value == MaterialFrom(env, ca, server, serverSigner))
  {
    hide VerifyTrust, Settled, Trusted, ValidSan, IssuedBy, PublicKeyMatches;
    SettledRefl(s.handles);
    VerifySettles(env, s, Raw(ca));
  }

  lemma ServeOpenedOpensNoKey(env: Env, s: State, ca: Certificate, server: Certificate, serverSigner: Signer)
    ensures NoSigners(s.handles, ServeOpened(env, s, ca, server, serverSigner).s.handles)
  {
    hide VerifyTrust, ValidSan, PublicKeyMatches, IssuedBy;
    VerifyOpensNoKey(env, s, Raw(ca));
  }

  lemma ServingOpensNoCaKey(env: Env, s: State)
    ensures var r := LoadServingMaterial(env, s);
            forall i :: |s.handles| <= i < |r.s.handles| ==> r.s.handles[i].kind != SignerHandle(CaKey)
  {
    hide ReadCertificate, OpenKey, ServeOpened;
    ReadCertificateEffect(env, s, CaCert);
    var ca := ReadCertificate(env, s, CaCert);
    if ca.Ok? {
      ReadCertificateEffect(env, ca.s, ServerCert);
      var server := ReadCertificate(env, ca.s, ServerCert);
      if server.Ok? {
        OpenKeyEffect(env, server.s, ServerKey);
        var k := OpenKey(env, server.s, ServerKey);
        if k.Ok? {
          ServeOpenedOpensNoKey(env, k.s, ca.value, server.value, k.value);
        }
      }
    }
  }

  lemma LoadServingSettles(env: Env, s: State)
    ensures var r := LoadServingMaterial(env, s);
            && SameMachine(s, r.s) && s.tick <= r.s.tick && Owned(s, r)
            && (r.Ok? ==> Served(env, s, r.value))
  {
    hide ReadCertificate, OpenKey, ServeOpened, Settled, Holding, Release, Trusted, ValidSan, IssuedBy,
         PublicKeyMatches;
    SettledRefl(s.handles);
    ReadCertificateEffect(env, s, CaCert);
    var ca := ReadCertificate(env, s, CaCert);
    if ca.Ok? {
      ReadCertificateEffect(env, ca.s, ServerCert);
      var server := ReadCertificate(env, ca.s, ServerCert);
      if server.Ok? {
        OpenKeyEffect(env, server.s, ServerKey);
        var k := OpenKey(env, server.s, ServerKey);
        if k.Ok? {
          ServeOpenedEffect(env, k.s, ca.value, server.value, k.value);
          OpenedAndPassed(s.handles, SignerHandle(ServerKey));
          OpenedSettled(s.handles, SignerHandle(ServerKey),
                        ServeOpened(env, k.s, ca.value, server.value, k.value).s.handles);
        }
      }
    }
  }

  /** Serving changes nothing on the machine, and the only key handle it ever opens is the server's. */
  lemma LoadServingEffect(env: Env, s: State)
    ensures var r := LoadServingMaterial(env, s);
            && SameMachine(s, r.s) && s.tick <= r.s.tick && Owned(s, r)
            && (r.Ok? ==> Served(env, s, r.value))
            && (forall i :: |s.handles| <= i < |r.s.handles| ==> r.s.handles[i].kind != SignerHandle(CaKey))
  {
    hide LoadServingMaterial, Owned, Served;
    LoadServingSettles(env, s);
    ServingOpensNoCaKey(env, s);
  }

  // ---------- first install ----------

  /** A CA certificate fresh from `generateCAWithSigner`, for the persisted CA key. */
  ghost predicate FreshCa(t: State, der: Option<Der>) {
    && der.Some? && der.value.CertDer? && CaKey in t.keys
    && var ca := der.value.cert;
    && ca == NewCA(t.now, ca.serial, P256(t.keys[CaKey])) && Encodable(ca.window)
  }

  /** A leaf issued at the same clock reading, for the persisted server key. */
  ghost predicate FreshLeaf(t: State, ca: Certificate, der: Option<Der>) {
    && der.Some? && der.value.CertDer? && CaKey in t.keys && ServerKey in t.keys
    && var leaf := der.value.cert;
    && leaf == NewLeaf(t.now, leaf.serial, ca, P256(t.keys[CaKey]), P256(t.keys[ServerKey])) && Encodable(leaf.window)
  }

  /** How far a first install can have got: keys only, the CA file, both files, or also the anchor. */
  datatype Stage = NothingWritten | CaWritten | BothWritten

  ghost predicate FirstStage(env: Env, a: State, b: State, stage: Stage) {
    && KeysGrow(a.keys, b.keys) && b.attempted == a.attempted && a.tick <= b.tick
    && (b.dir || (stage.NothingWritten? && !a.dir))
    && match stage
       case NothingWritten => SameDisk(a, b) && b.root == a.root
       case CaWritten =>
         && FreshCa(b, Disk(b, CaCert)) && ServerKey in b.keys
         && Disk(b, ServerCert) == Disk(a, ServerCert) && b.root == a.root
       case BothWritten =>
         && FreshCa(b, Disk(b, CaCert)) && FreshLeaf(b, Disk(b, CaCert).value.cert, Disk(b, ServerCert))
         && RootGains(env, a.root, b.root, Disk(b, CaCert).value)
  }

  ghost predicate FirstFrame(env: Env, a: State, r: Out<Material>) {
    Owned(a, r) && SomeStage(env, a, r.s) && (r.Ok? ==> FirstDone(env, a, r.s, r.value))
  }

  lemma FirstWithKeysEffect(env: Env, s: State, ca: Certificate, caSigner: Signer, serverSigner: Signer)
    requires CaKey in s.keys && ServerKey in s.keys
    requires caSigner.pub == P256(s.keys[CaKey]) && serverSigner.pub == P256(s.keys[ServerKey])
    requires FreshCa(s, Some(Raw(ca)))
    ensures var r := FirstWithKeys(env, s, s.now, ca, caSigner, serverSigner);
            && SomeStage(env, s, r.s)
            && Settled(s.handles, r.s.handles)
            && (r.Ok? ==> FirstDone(env, s, r.s, r.value) && r.value.signer == serverSigner)
  {
    hide GenerateLeaf, AtomicWrite, InstallTrust, Settled, RootGains, Trusted;
    SettledRefl(s.handles);
    LeafIssued(env, s, s.now, ca, caSigner, serverSigner);
    var g := GenerateLeaf(env, s, s.now, ca, caSigner, serverSigner);
    if g.Ok? {
      WriteIsAtomic(env, g.s, CaCert, Raw(ca));
      var w := AtomicWrite(env, g.s, CaCert, Raw(ca));
      if w.Ok? {
        WriteIsAtomic(env, w.s, ServerCert, Raw(g.value));
        var v := AtomicWrite(env, w.s, ServerCert, Raw(g.value));
        if v.Ok? {
          GainsNothing(env, s.root, Raw(ca));
          InstallSettles(env, v.s, Raw(ca));
        }
      }
    }
  }

  lemma CaIssued(env: Env, s: State, now: Instant, caSigner: Signer)
    ensures var r := GenerateCA(env, s, now, caSigner);
            && OnlyFiles(s, r.s) && r.s.files == s.files
            && (r.Ok? ==> && r.value == NewCA(now, r.value.serial, caSigner.pub)
                          && Encodable(r.value.window) && caSigner.pub.P256?)
  {
    SerialsKept(now, env.serial(s.tick), NewCA(now, 1, caSigner.pub), caSigner.pub, caSigner.pub);
    hide NewCA, NewLeaf, Encodable;
  }

  /** The three places where a first install can stop. */
  ghost predicate SomeStage(env: Env, a: State, b: State) {
    FirstStage(env, a, b, NothingWritten) || FirstStage(env, a, b, CaWritten) || FirstStage(env, a, b, BothWritten)
  }

  lemma SomeStageFrom(env: Env, a: State, a': State, b: State)
    requires KeysGrow(a.keys, a'.keys) && SameDisk(a, a') && a.root == a'.root
    requires a.attempted == a'.attempted && a.tick <= a'.tick && (a.dir ==> a'.dir)
    requires SomeStage(env, a', b)
    ensures SomeStage(env, a, b)
    ensures FirstStage(env, a', b, BothWritten) ==> FirstStage(env, a, b, BothWritten)
  {
  }

  lemma NothingWrittenYet(env: Env, a: State, b: State)
    requires KeysGrow(a.keys, b.keys) && SameDisk(a, b) && a.root == b.root
    requires a.attempted == b.attempted && a.tick <= b.tick && (a.dir ==> b.dir)
    ensures FirstStage(env, a, b, NothingWritten)
  {
  }

  lemma FirstWithCaKeyEffect(env: Env, s: State, caSigner: Signer)
    requires CaKey in s.keys && caSigner.pub == P256(s.keys[CaKey])
    ensures var r := FirstWithCaKey(env, s, s.now, caSigner);
            && SomeStage(env, s, r.s)
            && Owned(s, r)
            && (r.Ok? ==> FirstDone(env, s, r.s, r.value))
  {
    hide GenerateCA, LoadOrCreate, FirstWithKeys, Settled, Holding, Release, RootGains, Trusted, FirstStage;
    SettledRefl(s.handles);
    NothingWrittenYet(env, s, s);
    CaIssued(env, s, s.now, caSigner);
    var g := GenerateCA(env, s, s.now, caSigner);
    if g.Err? {
      NothingWrittenYet(env, s, g.s);
    } else {
      LoadOrCreateEffect(env, g.s, ServerKey);
      var k := LoadOrCreate(env, g.s, ServerKey);
      NothingWrittenYet(env, s, k.s);
      if k.Ok? {
        FirstWithKeysEffect(env, k.s, g.value, caSigner, k.value);
        var r := FirstWithKeys(env, k.s, s.now, g.value, caSigner, k.value);
        SomeStageFrom(env, s, k.s, r.s);
        AfterClose(env, s, r.s, k.value.h);
        OpenedSettled(s.handles, SignerHandle(ServerKey), r.s.handles);
      }
    }
  }

  /** What a successful first install has put in place. */
  ghost predicate FirstDone(env: Env, a: State, b: State, m: Material) {
    && FirstStage(env, a, b, BothWritten)
    && Disk(b, CaCert) == Some(Raw(m.ca)) && Disk(b, ServerCert) == Some(Raw(m.leaf))
    && m.caFingerprint == env.sha(Raw(m.ca)) && ServerKey in b.keys && m.signer.pub == P256(b.keys[ServerKey])
    && Trusted(env, b.root, env.sha(Raw(m.ca)))
  }

  lemma FirstProvisionEffect(env: Env, s: State)
    ensures FirstFrame(env, s, FirstProvision(env, s))
  {
    hide LoadOrCreate, FirstWithCaKey, Settled, Holding, Release, RootGains, Trusted, FirstStage;
    SettledRefl(s.handles);
    NothingWrittenYet(env, s, s);
    var d := MkdirAll(env, s);
    NothingWrittenYet(env, s, d.s);
    if d.Ok? {
      var t := ReadClock(env, d.s).s;
      LoadOrCreateEffect(env, t, CaKey);
      var k := LoadOrCreate(env, t, CaKey);
      NothingWrittenYet(env, s, k.s);
      if k.Ok? {
        FirstWithCaKeyEffect(env, k.s, k.value);
        var r := FirstWithCaKey(env, k.s, t.now, k.value);
        SomeStageFrom(env, s, k.s, r.s);
        AfterClose(env, s, r.s, k.value.h);
        if r.Ok? {
          OpenedHolding(s.handles, SignerHandle(CaKey), r.s.handles, r.value.signer.h);
        } else {
          OpenedSettled(s.handles, SignerHandle(CaKey), r.s.handles);
        }
      }
    }
  }

  lemma AfterClose(env: Env, a: State, b: State, h: nat)
    requires SomeStage(env, a, b)
    ensures SomeStage(env, a, Close(b, h))
    ensures FirstStage(env, a, b, BothWritten) ==> FirstStage(env, a, Close(b, h), BothWritten)
  {
  }

  // ---------- ProvisionMachine ----------

  lemma ProbeEffect(env: Env, s: State, name: KeyName)
    ensures var r := ProbeKey(env, s, name);
            && SameMachine(s, r.s) && s.now == r.s.now && s.tick <= r.s.tick && Settled(s.handles, r.s.handles)
            && (r.Ok? ==> !r.s.dead && !s.dead)
            && (r.Ok? && r.value ==> name in s.keys)
            && (r.Ok? && !r.value && HonestFailures(env) ==> name !in s.keys)
  {
    hide Settled, Release;
    SettledRefl(s.handles);
    OpenedAndPassed(s.handles, SignerHandle(name));
  }

  /** The guard only looks. If it lets a provision through, then with a truthful stat the machine is
      either free of certificates or complete; with honest failures it is also free of keys. */
  lemma GuardEffect(env: Env, s: State)
    ensures var r := CheckInconsistent(env, s);
            && SameMachine(s, r.s) && s.now == r.s.now && s.tick <= r.s.tick && Settled(s.handles, r.s.handles)
            && (r.Ok? && !r.value ==> !r.s.dead)
            && (r.Ok? && !r.value && TruthfulStat(env) ==>
                  && (CaCert in s.files <==> ServerCert in s.files)
                  && (CaCert in s.files ==> CaKey in s.keys && ServerKey in s.keys)
                  && (CaCert !in s.files && HonestFailures(env) ==> CaKey !in s.keys && ServerKey !in s.keys))
  {
    hide ProbeKey, Settled;
    SettledRefl(s.handles);
    var a := FileExists(env, s, CaCert);
    var b := FileExists(env, a.s, ServerCert);
    ProbeEffect(env, b.s, CaKey);
    var k := ProbeKey(env, b.s, CaKey);
    ProbeEffect(env, k.s, ServerKey);
    SettledTwice(b.s.handles, k.s.handles, ProbeKey(env, k.s, ServerKey).s.handles);
  }

  /** A call that was turned away: nothing but the call count has moved. */
  ghost predicate Refused(a: State, r: Out<Material>) {
    r.Err? && SameMachine(a, r.s) && a.tick <= r.s.tick && Settled(a.handles, r.s.handles)
  }

  /** What `ProvisionMachine` may do, by what it finds on disk: reload, install, or refuse. */
  ghost predicate ProvisionFrame(env: Env, a: State, r: Out<Material>) {
    if CaCert in a.files && ServerCert in a.files then
      && ReloadFrame(env, a, r)
      && (r.s.root != a.root ==> RepairGains(env, a.root, r.s.root, a.files[CaCert]))
      && (!(CaKey in a.keys && ServerKey in a.keys) ==> Refused(a, r))
    else if CaCert in a.files || ServerCert in a.files then Refused(a, r)
    else
      && FirstFrame(env, a, r)
      && (HonestFailures(env) && (CaKey in a.keys || ServerKey in a.keys) ==> Refused(a, r))
  }

  lemma RefusedFits(env: Env, a: State, r: Out<Material>)
    requires Refused(a, r)
    ensures ProvisionFrame(env, a, r) && Owned(a, r)
  {
  }

  lemma GuardedReload(env: Env, a: State, a': State, r: Out<Material>)
    requires SameMachine(a, a') && a.tick <= a'.tick && Settled(a.handles, a'.handles)
    requires ReloadFrame(env, a', r)
    ensures ReloadFrame(env, a, r)
  {
  }

  lemma GuardedOwner(a: State, a': State, r: Out<Material>)
    requires Settled(a.handles, a'.handles) && Owned(a', r)
    ensures Owned(a, r)
  {
  }

  lemma GuardedInstall(env: Env, a: State, a': State, r: Out<Material>)
    requires SameMachine(a, a') && a.tick <= a'.tick && Settled(a.handles, a'.handles)
    requires FirstFrame(env, a', r)
    ensures FirstFrame(env, a, r)
  {
  }

  lemma RoutedInstall(env: Env, s: State, t: State)
    requires SameMachine(s, t) && s.handles == t.handles && s.tick <= t.tick
    ensures Owned(s, FirstProvision(env, t)) && FirstFrame(env, s, FirstProvision(env, t))
  {
    hide FirstProvision, SomeStage, FirstDone, Settled, Holding;
    SettledRefl(s.handles);
    FirstProvisionEffect(env, t);
    GuardedInstall(env, s, t, FirstProvision(env, t));
  }

  lemma RoutedReload(env: Env, s: State, t: State, repairTrust: bool)
    requires SameMachine(s, t) && s.handles == t.handles && s.tick <= t.tick
    ensures var r := ReloadWithKeyStore(env, t, repairTrust);
            && Owned(s, r)
            && (CaKey in s.keys && ServerKey in s.keys ==> ReloadFrame(env, s, r))
            && (r.s.root != s.root ==>
                  Disk(s, CaCert).Some? && RepairGains(env, s.root, r.s.root, Disk(s, CaCert).value))
  {
    hide ReloadWithKeyStore, ReloadFrame, RepairGains, Owned, Settled;
    SettledRefl(s.handles);
    ReloadWithKeyStoreEffect(env, t, repairTrust);
    var r := ReloadWithKeyStore(env, t, repairTrust);
    GuardedOwner(s, t, r);
    if CaKey in s.keys && ServerKey in s.keys { GuardedReload(env, s, t, r); }
  }

  /** With a truthful stat a live process sees the files that are there. */
  lemma StatIsTruthful(env: Env, s: State, a: Out<bool>, b: Out<bool>)
    requires a == FileExists(env, s, CaCert) && b == FileExists(env, a.s, ServerCert)
    ensures TruthfulStat(env) && !s.dead ==> (a.value <==> CaCert in s.files) && (b.value <==> ServerCert in s.files)
  {
  }

  lemma ProvisionWithKeyStoreEffect(env: Env, s: State, repairTrust: bool)
    ensures var r := ProvisionWithKeyStore(env, s, repairTrust);
            && Owned(s, r)
            && (TruthfulStat(env) && !(CaCert in s.files && ServerCert in s.files) ==> FirstFrame(env, s, r))
            && (TruthfulStat(env) && CaCert in s.files && ServerCert in s.files
                && CaKey in s.keys && ServerKey in s.keys && !s.dead ==>
                  && ReloadFrame(env, s, r)
                  && (r.s.root != s.root ==> RepairGains(env, s.root, r.s.root, s.files[CaCert])))
  {
    hide FirstProvision, ReloadWithKeyStore, RepairGains, FirstFrame, ReloadFrame, Owned, TruthfulStat;
    var a := FileExists(env, s, CaCert);
    var b := FileExists(env, a.s, ServerCert);
    RoutedInstall(env, s, a.s);
    RoutedInstall(env, s, b.s);
    RoutedReload(env, s, b.s, repairTrust);
    StatIsTruthful(env, s, a, b);
  }

  lemma ProvisionMachineEffect(env: Env, s: State)
    ensures var r := ProvisionMachine(env, s);
            Owned(s, r) && (TruthfulStat(env) ==> ProvisionFrame(env, s, r))
  {
    hide CheckInconsistent, ProvisionWithKeyStore, Settled, Holding, RepairGains, FirstFrame, ReloadFrame,
         TruthfulStat;
    SettledRefl(s.handles);
    GuardEffect(env, s);
    var g := CheckInconsistent(env, s);
    var r := ProvisionMachine(env, s);
    if Setup(env, s).Ok? && g.Ok? && !g.value {
      ProvisionWithKeyStoreEffect(env, g.s, true);
      GuardedOwner(s, g.s, r);
      if ReloadFrame(env, g.s, r) { GuardedReload(env, s, g.s, r); }
      if FirstFrame(env, g.s, r) { GuardedInstall(env, s, g.s, r); }
    } else {
      RefusedFits(env, s, r);
    }
  }

  // ---------- fail closed ----------

  /** An erroring reload leaves both files, the keys and Root as they were. An erroring provision on existing
      material changes at most Root, by adding exactly the CA on disk, and nothing under a trust conflict.
      Loading for serving changes nothing at all, and opens no CA key. */
  lemma FailClosed(env: Env, s: State)
    ensures var r := ReloadMachine(env, s);
            r.s.root == s.root && r.s.keys == s.keys && (r.Err? ==> SameDisk(s, r.s))
    ensures var r := ProvisionMachine(env, s);
            TruthfulStat(env) && CaCert in s.files && ServerCert in s.files ==>
              && r.s.keys == s.keys && Disk(r.s, CaCert) == Disk(s, CaCert)
              && (r.Err? ==> SameDisk(s, r.s))
              && (r.s.root != s.root ==> RootGains(env, s.root, r.s.root, s.files[CaCert]))
              && (HonestFailures(env) && Conflicting(env, s.root, s.files[CaCert]) ==> r.s.root == s.root)
    ensures var r := LoadServingMaterial(env, s);
            && SameMachine(s, r.s)
            && forall i :: |s.handles| <= i < |r.s.handles| ==> r.s.handles[i].kind != SignerHandle(CaKey)
  {
    hide ProvisionMachine, ReloadMachine, LoadServingMaterial, Owned, Reloaded, RootGains, HonestFailures,
         TruthfulStat,
      Conflicting;
    ReloadMachineEffect(env, s);
    ProvisionMachineEffect(env, s);
    LoadServingEffect(env, s);
  }
}
