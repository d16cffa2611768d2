/** What becomes of a failing call: no entry point succeeds past one, and cleanup reports every one. */
module Failures {
  import opened Errors
  import opened Validity
  import opened Certificates
  import opened States
  import opened TrustStore
  import opened TrustStoreProofs
  import opened Provision
  import opened ProvisionProofs
  import opened Cleanup
  import opened CleanupProofs

  // ---------- error trees ----------

  /** `b` is what `a` wraps, or one of the errors it joins. */
  predicate Unwraps(a: Error, b: Error) {
    (a.Wrap? && a.inner == b) || (a.Join? && b in a.errs)
  }

  /** A way down from `e` to `target`. */
  ghost predicate Chain(path: seq<Error>, e: Error, target: Error) {
    && |path| > 0 && path[0] == e && path[|path| - 1] == target
    && forall i :: 0 <= i < |path| - 1 ==> Unwraps(path[i], path[i + 1])
  }

  /** `errors.Is` finds exactly what unwrapping can reach. */
  lemma {:induction false} IsMeansReachable(e: Error, target: Error)
    ensures Is(e, target) <==> exists path :: Chain(path, e, target)
    decreases e
  {
    if Is(e, target) {
      var path := PathTo(e, target);
    }
    forall path | Chain(path, e, target) ensures Is(e, target) {
      PathFinds(path, e, target);
    }
  }

  lemma {:induction false} PathTo(e: Error, target: Error) returns (path: seq<Error>)
    requires Is(e, target)
    ensures Chain(path, e, target)
    decreases e
  {
    if e == target {
      path := [e];
    } else {
      var next := match e
        case Wrap(_, inner) => inner
        case Join(errs) => var i :| 0 <= i < |errs| && Is(errs[i], target); errs[i];
      var rest := PathTo(next, target);
      path := [e] + rest;
    }
  }

  lemma {:induction false} PathFinds(path: seq<Error>, e: Error, target: Error)
    requires Chain(path, e, target)
    ensures Is(e, target)
    decreases |path|
  {
    if |path| > 1 {
      assert Unwraps(path[0], path[1]);
      assert Chain(path[1..], path[1], target);
      PathFinds(path[1..], path[1], target);
      if e.Join? {
        var i :| 0 <= i < |e.errs| && e.errs[i] == path[1];
      }
    }
  }

  lemma {:induction false} IsTransitive(a: Error, b: Error, c: Error)
    requires Is(a, b) && Is(b, c)
    ensures Is(a, c)
    decreases a
  {
    if a != b {
      match a
      case Wrap(_, inner) => IsTransitive(inner, b, c);
      case Join(errs) =>
        var i :| 0 <= i < |errs| && Is(errs[i], b);
        IsTransitive(errs[i], b, c);
    }
  }

  /** The error numbers that can be read as "not there": file or path not found, and every number whose low 16 bits
      are those of CRYPT_E_NOT_FOUND. No other number is. */
  lemma PlainNumber(code: nat)
    ensures PlainFailure(Errno(code)) <==> code % 65536 != 8196 && code != 2 && code != 3
    ensures IsEnumEnd(Errno(code)) <==> code % 65536 == 8196
    ensures IsCertNotFound(Errno(code)) <==> code % 65536 == 8196
    ensures !AlreadyAbsent(Errno(code))
  {
  }

  /** The messages that can be: each is recognised by a part of it. */
  lemma PlainMessage(text: string)
    ensures IsEnumEnd(Text(text)) <==> exists a, b :: text == a + "0x80092004" + b
    ensures IsCertNotFound(Text(text)) <==>
              || (exists a, b :: text == a + "0x80092004" + b)
              || (exists a, b :: text == a + "Cannot find object or property" + b)
    ensures PlainFailure(Text(text)) <==> !IsCertNotFound(Text(text))
    ensures !AlreadyAbsent(Text(text))
  {
    ContainsMeans(text, "0x80092004");
    ContainsMeans(text, "Cannot find object or property");
  }

  lemma ContainsMeans(s: string, sub: string)
    ensures Contains(s, sub) <==> exists a, b :: s == a + sub + b
  {
    if Contains(s, sub) {
      var i: nat, j: nat :| i <= j <= |s| && s[i..j] == sub;
      assert s == s[..i] + sub + s[j..];
    }
    forall a, b | s == a + sub + b ensures Contains(s, sub) {
      assert s[|a|..|a| + |sub|] == sub;
    }
  }

  /** A wrapped or joined error is taken for "already absent" exactly when unwrapping reaches one of the two
      sentinels, and a failing key call additionally by the key library's own. */
  lemma PlainTree(e: Error)
    ensures AlreadyAbsent(e) <==>
              || (exists path :: Chain(path, e, ErrKeyNotFound))
              || (exists path :: Chain(path, e, ErrTrustAnchorNotFound))
    ensures e.Wrap? || e.Join? ==>
              (PlainFailure(e) <==> !AlreadyAbsent(e) && !(exists path :: Chain(path, e, CngKeyNotFound)))
  {
    IsMeansReachable(e, ErrKeyNotFound);
    IsMeansReachable(e, ErrTrustAnchorNotFound);
    IsMeansReachable(e, CngKeyNotFound);
  }

  // ---------- success means that no call failed ----------

  /** Of the calls numbered `from` up to `to`, none died and none failed, unless to say that something is missing. */
  ghost predicate AllWorked(env: Env, from: nat, to: nat) {
    forall t :: from <= t < to ==> WorkedAt(env, t)
  }

  predicate WorkedAt(env: Env, t: nat) {
    match env.fault(t)
    case Fine => true
    case Fail(e) => !PlainFailure(e)
    case Crash => false
  }

  ghost predicate Unfailed<T>(env: Env, a: State, r: Out<T>) {
    a.tick <= r.s.tick && (r.Ok? ==> AllWorked(env, a.tick, r.s.tick))
  }

  lemma SmallCallsUnfailed(env: Env, s: State, f: File, name: KeyName)
    ensures Unfailed(env, s, Gate(env, s)) && Unfailed(env, s, ReadCertificate(env, s, f))
    ensures Unfailed(env, s, LoadOrCreate(env, s, name)) && Unfailed(env, s, OpenKey(env, s, name))
    ensures Unfailed(env, s, MkdirAll(env, s)) && Unfailed(env, s, OpenStore(env, s))
    ensures Unfailed(env, s, Setup(env, s))
  {
    hide PlainFailure;
  }

  /** Also the calls whose failure only leads to the removal of a temporary file. */
  lemma WriteUnfailed(env: Env, s: State, target: File, data: Der)
    ensures Unfailed(env, s, AtomicWrite(env, s, target, data))
  {
    hide Publish, PlainFailure;
    var c := CreateTemp(env, s);
    if c.Ok? {
      var w := WriteTemp(env, c.s, c.value, data);
      PublishUnfailed(env, w.s, c.value, target);
    }
  }

  lemma PublishUnfailed(env: Env, s: State, tmp: nat, target: File)
    ensures Unfailed(env, s, Publish(env, s, tmp, target))
  {
    hide Rename, RemoveTemp, PlainFailure;
    var sync := Gate(env, s);
    var close := Gate(env, sync.s);
    var chmod := Gate(env, close.s);
    var rename := Rename(env, chmod.s, tmp, target);
    RemoveTempOnly(env, sync.s, tmp);
    RemoveTempOnly(env, close.s, tmp);
    RemoveTempOnly(env, chmod.s, tmp);
    RemoveTempOnly(env, rename.s, tmp);
    RenameUnfailed(env, chmod.s, tmp, target);
  }

  lemma RenameUnfailed(env: Env, s: State, tmp: nat, target: File)
    ensures Unfailed(env, s, Rename(env, s, tmp, target))
  {
    hide PlainFailure;
  }

  lemma IssueUnfailed(env: Env, s: State, now: Instant, ca: Certificate, caSigner: Signer, serverSigner: Signer)
    ensures Unfailed(env, s, GenerateCA(env, s, now, caSigner))
    ensures Unfailed(env, s, GenerateLeaf(env, s, now, ca, caSigner, serverSigner))
  {
    hide RandomSerial, Sign, AllWorked, NewCA, NewLeaf;
    DrawUnfailed(env, s);
    var d := RandomSerial(env, s);
    if d.Ok? {
      var ca', leaf := NewCA(now, d.value, caSigner.pub), NewLeaf(now, d.value, ca, caSigner.pub, serverSigner.pub);
      SignUnfailed(env, d.s, ca');
      SignUnfailed(env, d.s, leaf);
      if Sign(env, d.s, ca').Ok? { WorkedOn(env, s.tick, d.s.tick, Sign(env, d.s, ca').s.tick); }
      if Sign(env, d.s, leaf).Ok? { WorkedOn(env, s.tick, d.s.tick, Sign(env, d.s, leaf).s.tick); }
    }
  }

  lemma WorkedOn(env: Env, a: nat, b: nat, c: nat)
    requires AllWorked(env, a, b) && AllWorked(env, b, c)
    ensures AllWorked(env, a, c)
  {
    hide WorkedAt;
  }

  lemma DrawUnfailed(env: Env, s: State)
    ensures Unfailed(env, s, RandomSerial(env, s))
  {
    hide PlainFailure;
  }

  lemma SignUnfailed(env: Env, s: State, cert: Certificate)
    ensures Unfailed(env, s, Sign(env, s, cert))
  {
    hide PlainFailure, Encodable;
  }

  lemma {:induction false} FindUnfailed(env: Env, s: State, fp: Fingerprint, prev: Option<Context>)
    ensures Unfailed(env, s, FindBySHA256(env, s, fp, prev))
    decreases |s.root| - NextIndex(prev)
  {
    var r := EnumNext(env, s, prev);
    if r.Ok? && env.sha(s.root[r.value.index].der) != fp {
      FindUnfailed(env, r.s, fp, Some(r.value));
    }
  }

  lemma VerifyUnfailed(env: Env, s: State, der: Der)
    ensures Unfailed(env, s, VerifyTrust(env, s, der))
  {
    hide Classify, Release, PlainFailure;
    var o := OpenStore(env, s);
    if o.Ok? {
      var c := CreateContext(env, o.s, der);
      if c.Ok? { ClassifyUnfailed(env, c.s, der); }
    }
  }

  lemma ClassifyUnfailed(env: Env, s: State, der: Der)
    ensures Unfailed(env, s, Classify(env, s, der))
  {
    hide FindBySHA256, FirstSubject, Release;
    FindUnfailed(env, s, env.sha(der), None);
  }

  lemma InstallUnfailed(env: Env, s: State, der: Der)
    ensures Unfailed(env, s, InstallTrust(env, s, der))
  {
    hide FindBySHA256, DropFirstSame, Release;
    var o := OpenStore(env, s);
    if o.Ok? { FindUnfailed(env, o.s, env.sha(der), None); }
  }

  lemma EnsureTrustUnfailed(env: Env, s: State, ca: Certificate, repairTrust: bool)
    ensures Unfailed(env, s, EnsureTrust(env, s, ca, repairTrust))
  {
    hide VerifyTrust, InstallTrust, WorkedAt;
    VerifyUnfailed(env, s, Raw(ca));
    var v := VerifyTrust(env, s, Raw(ca));
    if v.Ok? {
      InstallUnfailed(env, v.s, Raw(ca));
      VerifyUnfailed(env, InstallTrust(env, v.s, Raw(ca)).s, Raw(ca));
    }
  }

  lemma RenewalUnfailed(env: Env, s: State, ca: Certificate, caSigner: Signer, leaf: Certificate, serverSigner: Signer)
    ensures Unfailed(env, s, RenewIfDue(env, s, ca, caSigner, leaf, serverSigner))
  {
    hide GenerateLeaf, AtomicWrite, RenewalDue, CurrentlyValid, WorkedAt;
    var now := env.clock(s.tick);
    var t := s.(now := now);
    IssueUnfailed(env, t, now, ca, caSigner, serverSigner);
    var g := GenerateLeaf(env, t, now, ca, caSigner, serverSigner);
    if g.Ok? { WriteUnfailed(env, g.s, ServerCert, Raw(g.value)); }
  }

  lemma ReloadUnfailed(env: Env, s: State, repairTrust: bool)
    ensures Unfailed(env, s, ReloadWithKeyStore(env, s, repairTrust))
  {
    hide ReadCertificate, LoadOrCreate, EnsureTrust, RenewIfDue, ValidSan, IssuedBy, PublicKeyMatches, WorkedAt;
    PairUnfailed(env, s, CaCert, CaKey);
    var ca := LoadPair(env, s, CaCert, CaKey);
    if ca.Ok? {
      PairUnfailed(env, ca.s, ServerCert, ServerKey);
      var server := LoadPair(env, ca.s, ServerCert, ServerKey);
      if server.Ok? {
        EnsureTrustUnfailed(env, server.s, ca.value.cert, repairTrust);
        var t := EnsureTrust(env, server.s, ca.value.cert, repairTrust);
        RenewalUnfailed(env, t.s, ca.value.cert, ca.value.signer, server.value.cert, server.value.signer);
      }
    }
  }

  lemma PairUnfailed(env: Env, s: State, f: File, name: KeyName)
    ensures Unfailed(env, s, LoadPair(env, s, f, name)) && Unfailed(env, s, OpenPair(env, s, f, name))
  {
    hide ReadCertificate, LoadOrCreate, OpenKey, PublicKeyMatches, WorkedAt;
    SmallCallsUnfailed(env, s, f, name);
    SmallCallsUnfailed(env, ReadCertificate(env, s, f).s, f, name);
  }

  lemma ReloadMachineUnfailed(env: Env, s: State)
    ensures Unfailed(env, s, ReloadMachine(env, s))
  {
    hide OpenPair, ReloadOpened, WorkedAt;
    SmallCallsUnfailed(env, s, CaCert, CaKey);
    PairUnfailed(env, s, CaCert, CaKey);
    var ca := OpenPair(env, s, CaCert, CaKey);
    PairUnfailed(env, ca.s, ServerCert, ServerKey);
    var server := OpenPair(env, ca.s, ServerCert, ServerKey);
    if Setup(env, s).Ok? && ca.Ok? && server.Ok? { OpenedUnfailed(env, server.s, ca.value, server.value); }
  }

  lemma OpenedUnfailed(env: Env, s: State, ca: Pair, server: Pair)
    ensures Unfailed(env, s, ReloadOpened(env, s, ca, server))
  {
    hide VerifyTrust, RenewIfDue, ValidSan, IssuedBy, WorkedAt;
    VerifyUnfailed(env, s, Raw(ca.cert));
    RenewalUnfailed(env, VerifyTrust(env, s, Raw(ca.cert)).s, ca.cert, ca.signer, server.cert, server.signer);
  }

  lemma ServingUnfailed(env: Env, s: State)
    ensures Unfailed(env, s, LoadServingMaterial(env, s))
  {
    hide ReadCertificate, OpenKey, ServeOpened, Release, WorkedAt;
    SmallCallsUnfailed(env, s, CaCert, ServerKey);
    var ca := ReadCertificate(env, s, CaCert);
    SmallCallsUnfailed(env, ca.s, ServerCert, ServerKey);
    var leaf := ReadCertificate(env, ca.s, ServerCert);
    SmallCallsUnfailed(env, leaf.s, ServerCert, ServerKey);
    var k := OpenKey(env, leaf.s, ServerKey);
    if ca.Ok? && leaf.Ok? && k.Ok? { ServeOpenedUnfailed(env, k.s, ca.value, leaf.value, k.value); }
  }

  lemma ServeOpenedUnfailed(env: Env, s: State, ca: Certificate, leaf: Certificate, serverSigner: Signer)
    ensures Unfailed(env, s, ServeOpened(env, s, ca, leaf, serverSigner))
  {
    hide VerifyTrust, ValidSan, IssuedBy, PublicKeyMatches, WorkedAt;
    VerifyUnfailed(env, s, Raw(ca));
  }

  lemma FirstUnfailed(env: Env, s: State)
    ensures Unfailed(env, s, FirstProvision(env, s))
  {
    hide MkdirAll, LoadOrCreate, FirstWithCaKey, WorkedAt;
    SmallCallsUnfailed(env, s, CaCert, CaKey);
    var d := MkdirAll(env, s);
    if d.Ok? {
      var t := ReadClock(env, d.s).s;
      SmallCallsUnfailed(env, t, CaCert, CaKey);
      var k := LoadOrCreate(env, t, CaKey);
      if k.Ok? { WithCaKeyUnfailed(env, k.s, t.now, k.value); }
    }
  }

  lemma WithCaKeyUnfailed(env: Env, s: State, now: Instant, caSigner: Signer)
    ensures Unfailed(env, s, FirstWithCaKey(env, s, now, caSigner))
  {
    hide GenerateCA, LoadOrCreate, FirstWithKeys, WorkedAt;
    IssueUnfailed(env, s, now, NewCA(now, 1, caSigner.pub), caSigner, caSigner);
    var g := GenerateCA(env, s, now, caSigner);
    SmallCallsUnfailed(env, g.s, CaCert, ServerKey);
    var k := LoadOrCreate(env, g.s, ServerKey);
    if g.Ok? && k.Ok? { WithKeysUnfailed(env, k.s, now, g.value, caSigner, k.value); }
  }

  lemma WithKeysUnfailed(env: Env, s: State, now: Instant, ca: Certificate, caSigner: Signer, serverSigner: Signer)
    ensures Unfailed(env, s, FirstWithKeys(env, s, now, ca, caSigner, serverSigner))
  {
    hide GenerateLeaf, AtomicWrite, InstallTrust, WorkedAt;
    IssueUnfailed(env, s, now, ca, caSigner, serverSigner);
    var g := GenerateLeaf(env, s, now, ca, caSigner, serverSigner);
    WriteUnfailed(env, g.s, CaCert, Raw(ca));
    var w := AtomicWrite(env, g.s, CaCert, Raw(ca));
    if g.Ok? {
      WriteUnfailed(env, w.s, ServerCert, Raw(g.value));
      InstallUnfailed(env, AtomicWrite(env, w.s, ServerCert, Raw(g.value)).s, Raw(ca));
    }
  }

  /** An entry point that succeeds has met no failing call: a failure is never passed over, except one that says
      something is missing. The stat calls of a provision, which are its first two and the one or two after the key
      probes, have no failure of their own to report. */
  lemma SuccessMeansNothingFailed(env: Env, s: State)
    ensures var r := ReloadMachine(env, s); r.Ok? ==> AllWorked(env, s.tick, r.s.tick)
    ensures var r := LoadServingMaterial(env, s); r.Ok? ==> AllWorked(env, s.tick, r.s.tick)
    ensures var r := ProvisionMachine(env, s);
            r.Ok? ==> AllWorked(env, s.tick + 2, s.tick + 4) && AllWorked(env, s.tick + 6, r.s.tick)
  {
    hide ReloadMachine, LoadServingMaterial, CheckInconsistent, FirstProvision, ReloadWithKeyStore, WorkedAt;
    ReloadMachineUnfailed(env, s);
    ServingUnfailed(env, s);
    GuardUnfailed(env, s);
    var g := CheckInconsistent(env, s);
    if Setup(env, s).Ok? && g.Ok? && !g.value {
      var a := FileExists(env, g.s, CaCert);
      var b := FileExists(env, a.s, ServerCert);
      FirstUnfailed(env, a.s);
      FirstUnfailed(env, b.s);
      ReloadUnfailed(env, b.s, true);
    }
  }

  /** For example an error number: unless it is 2, 3 or ends in 0x2004, the call that met it fails. */
  lemma FailedNumberStops(env: Env, s: State, t: nat, code: nat)
    requires env.fault(t) == Fail(Errno(code)) && code % 65536 != 8196 && code != 2 && code != 3
    requires s.tick <= t
    ensures var r := ReloadMachine(env, s); t < r.s.tick ==> r.Err?
    ensures var r := LoadServingMaterial(env, s); t < r.s.tick ==> r.Err?
    ensures var r := ProvisionMachine(env, s);
            t < r.s.tick && (s.tick + 2 <= t < s.tick + 4 || s.tick + 6 <= t) ==> r.Err?
  {
    hide ReloadMachine, LoadServingMaterial, ProvisionMachine, PlainFailure;
    PlainNumber(code);
    SuccessMeansNothingFailed(env, s);
    assert !WorkedAt(env, t);
  }

  lemma GuardUnfailed(env: Env, s: State)
    ensures var r := CheckInconsistent(env, s);
            r.Ok? && !r.value ==> !r.s.dead && r.s.tick == s.tick + 4 && AllWorked(env, s.tick + 2, s.tick + 4)
  {
    hide ProbeKey, PlainFailure;
    var b := FileExists(env, FileExists(env, s, CaCert).s, ServerCert);
    ProbeUnfailed(env, b.s, CaKey);
    ProbeUnfailed(env, ProbeKey(env, b.s, CaKey).s, ServerKey);
  }

  lemma ProbeUnfailed(env: Env, s: State, name: KeyName)
    ensures Unfailed(env, s, ProbeKey(env, s, name))
    ensures var r := ProbeKey(env, s, name);
            r.Ok? ==> !s.dead && !r.s.dead && r.s.tick == s.tick + 1
  {
  }

  // ---------- cleanup reports every failure ----------

  /** Every plain failure between `a` and the end of `r` is found in its error, which says nothing of absence. */
  ghost predicate Reports<T>(env: Env, a: State, r: Out<T>) {
    && a.tick <= r.s.tick
    && forall t :: a.tick <= t < r.s.tick && env.fault(t).Fail? && PlainFailure(env.fault(t).error) ==>
         r.Err? && Is(r.error, env.fault(t).error) && !AlreadyAbsent(r.error)
  }

  lemma {:induction false} FindReports(env: Env, s: State, fp: Fingerprint, prev: Option<Context>)
    ensures Reports(env, s, FindBySHA256(env, s, fp, prev))
    decreases |s.root| - NextIndex(prev)
  {
    var r := EnumNext(env, s, prev);
    if r.Ok? && env.sha(s.root[r.value.index].der) != fp {
      FindReports(env, r.s, fp, Some(r.value));
    }
  }

  lemma RemoveReports(env: Env, s: State, fp: Fingerprint)
    ensures Reports(env, s, RemoveTrustBySHA256(env, s, fp))
  {
    hide FindBySHA256, Release, PlainFailure;
    PlainIsNotAbsent();
    var o := OpenStore(env, s);
    if o.Ok? { FindReports(env, o.s, fp, None); }
  }

  lemma PlainIsNotAbsent()
    ensures forall e :: PlainFailure(e) ==> !AlreadyAbsent(e) && !IsNotExist(e) && MapCngError(e) == e
  {
  }

  lemma RemoveAnchorReports(env: Env, s: State, removal: Removal)
    ensures Reports(env, s, RemoveAnchor(env, s, removal))
  {
    hide RemoveTrustBySHA256, PlainFailure;
    PlainIsNotAbsent();
    var t := Attempt(s, TrustAnchor);
    match removal {
      case SkipAnchor =>
      case ByFingerprint(fp) => RemoveReports(env, t, fp);
      case ByDiskCertificate =>
        var d := ReadFile(env, t, CaCert);
        if d.Err? { WrapIsThin("read CA certificate", d.error); }
        if d.Ok? { RemoveReports(env, d.s, env.sha(d.value)); }
    }
  }

  lemma DeleteKeyReports(env: Env, s: State, deleteKeys: bool, name: KeyName)
    ensures Reports(env, s, DeletePersistedKey(env, s, deleteKeys, name))
  {
    hide PlainFailure;
    PlainIsNotAbsent();
  }

  lemma RemoveDirReports(env: Env, s: State)
    ensures Reports(env, s, RemoveStateDir(env, s))
  {
    hide PlainFailure, AlreadyAbsent, Is;
    PlainIsNotAbsent();
    var g := Gate(env, Attempt(s, StateDirectory));
    if g.Err? {
      WrapIsThin("stat TLS state directory", g.error);
    } else {
      var r := RemoveAll(env, g.s);
      if r.Err? { WrapIsThin("remove TLS state directory", r.error); }
    }
  }

  lemma WrapIsThin(op: string, e: Error)
    ensures Is(Wrap(op, e), e) && (AlreadyAbsent(Wrap(op, e)) <==> AlreadyAbsent(e))
  {
    assert Is(e, e);
  }

  /** What cleanup returns: nil exactly when the first three steps returned nil or an error that unwraps to one of
      the two sentinels, and the directory step returned nil. Every other error is found in the result, and the
      result finds nothing that no step reported. */
  lemma CleanupReturns(env: Env, s: State, deleteKeys: bool, removal: Removal)
    ensures var r := CleanupLocalTLS(env, s, deleteKeys, removal);
            var t := CleanupSteps(env, s, deleteKeys, removal);
            && (r.Ok? <==> Forgiven(t.anchor) && Forgiven(t.ca) && Forgiven(t.server) && t.dir.Ok?)
            && (!Forgiven(t.anchor) ==> r.Err? && Is(r.error, t.anchor.error))
            && (!Forgiven(t.ca) ==> r.Err? && Is(r.error, t.ca.error))
            && (!Forgiven(t.server) ==> r.Err? && Is(r.error, t.server.error))
            && (t.dir.Err? ==> r.Err? && Is(r.error, t.dir.error))
            && (r.Err? ==> forall e :: Is(r.error, e) ==>
                  || e == r.error || e.Wrap?
                  || (!Forgiven(t.anchor) && Is(t.anchor.error, e)) || (!Forgiven(t.ca) && Is(t.ca.error, e))
                  || (!Forgiven(t.server) && Is(t.server.error, e)) || (t.dir.Err? && Is(t.dir.error, e)))
  {
    hide CleanupSteps;
    var t := CleanupSteps(env, s, deleteKeys, removal);
    AggregateIsFaithful(ErrorOf(t.anchor), ErrorOf(t.ca), ErrorOf(t.server), ErrorOf(t.dir));
    AggregateAddsNothing(t.anchor, t.ca, t.server, t.dir);
  }

  /** Nil, or an error from which unwrapping reaches a sentinel. */
  predicate Forgiven(r: Out<()>) {
    r.Ok? || Is(r.error, ErrKeyNotFound) || Is(r.error, ErrTrustAnchorNotFound)
  }

  lemma AggregateAddsNothing(anchor: Out<()>, ca: Out<()>, server: Out<()>, dir: Out<()>)
    ensures var r := Aggregate(ErrorOf(anchor), ErrorOf(ca), ErrorOf(server), ErrorOf(dir));
            r.Some? ==> forall e :: Is(r.value, e) ==>
              || e == r.value || e.Wrap?
              || (!Forgiven(anchor) && Is(anchor.error, e)) || (!Forgiven(ca) && Is(ca.error, e))
              || (!Forgiven(server) && Is(server.error, e)) || (dir.Err? && Is(dir.error, e))
  {
  }

  /** No failure is swallowed: whatever call of a cleanup failed plainly, in whichever step, is found in what cleanup
      returns. */
  lemma EveryFailureIsReported(env: Env, s: State, deleteKeys: bool, removal: Removal, t: nat)
    requires env.fault(t).Fail? && PlainFailure(env.fault(t).error)
    requires s.tick <= t < CleanupLocalTLS(env, s, deleteKeys, removal).s.tick
    ensures var r := CleanupLocalTLS(env, s, deleteKeys, removal);
            r.Err? && Is(r.error, env.fault(t).error)
  {
    hide CleanupLocalTLS, RemoveAnchor, DeletePersistedKey, RemoveStateDir, PlainFailure, AlreadyAbsent, Is;
    CleanupEffect(env, s, deleteKeys, removal);
    CleanupReturns(env, s, deleteKeys, removal);
    var r, u := CleanupLocalTLS(env, s, deleteKeys, removal), CleanupSteps(env, s, deleteKeys, removal);
    RemoveAnchorReports(env, s, removal);
    DeleteKeyReports(env, u.anchor.s, deleteKeys, CaKey);
    DeleteKeyReports(env, u.ca.s, deleteKeys, ServerKey);
    RemoveDirReports(env, u.server.s);
    ForgivenIsAbsent(u.anchor);
    ForgivenIsAbsent(u.ca);
    ForgivenIsAbsent(u.server);
    var e := env.fault(t).error;
    if t < u.anchor.s.tick { IsTransitive(r.error, u.anchor.error, e); }
    else if t < u.ca.s.tick { IsTransitive(r.error, u.ca.error, e); }
    else if t < u.server.s.tick { IsTransitive(r.error, u.server.error, e); }
    else { IsTransitive(r.error, u.dir.error, e); }
  }

  lemma ForgivenIsAbsent(r: Out<()>)
    ensures Forgiven(r) <==> r.Ok? || AlreadyAbsent(r.error)
  {
  }

  /** For example an error number: unless it is 2, 3 or ends in 0x2004, both cleanups return it. */
  lemma FailedNumberIsReported(env: Env, s: State, fp: Fingerprint, t: nat, code: nat)
    requires env.fault(t) == Fail(Errno(code)) && code % 65536 != 8196 && code != 2 && code != 3 && s.tick <= t
    ensures var r := CleanupMachine(env, s);
            t < r.s.tick && Setup(env, s).Ok? ==> r.Err? && Is(r.error, Errno(code))
    ensures var r := CleanupMachineBySHA256(env, s, fp);
            t < r.s.tick && Setup(env, s).Ok? ==> r.Err? && Is(r.error, Errno(code))
  {
    hide CleanupLocalTLS, Is, PlainFailure;
    PlainNumber(code);
    if Setup(env, s).Ok? {
      if t < CleanupMachine(env, s).s.tick { EveryFailureIsReported(env, s, true, ByDiskCertificate, t); }
      if t < CleanupMachineBySHA256(env, s, fp).s.tick { EveryFailureIsReported(env, s, true, ByFingerprint(fp), t); }
    }
  }
}
