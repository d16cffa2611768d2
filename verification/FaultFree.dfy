/** Removal, queries and cleanup when nothing fails: they do what they are for. */
module FaultFree {
  import opened Errors
  import opened Certificates
  import opened States
  import opened TrustStore
  import opened TrustStoreProofs
  import opened TrustStoreModel
  import opened Provision
  import opened ProvisionProofs
  import opened Cleanup
  import opened CleanupProofs
  import opened Recovery

  // ---------- the store ----------

  /** What is left of Root once the first entry with fingerprint `fp` is taken out. */
  function WithoutFirst(env: Env, root: seq<Anchor>, fp: Fingerprint): seq<Anchor> {
    if root == [] then []
    else if env.sha(root[0].der) == fp then root[1..]
    else [root[0]] + WithoutFirst(env, root[1..], fp)
  }

  lemma {:induction false} WithoutFirstMatch(env: Env, root: seq<Anchor>, fp: Fingerprint, i: nat)
    requires FirstMatch(env, root, fp, 0, i)
    ensures WithoutFirst(env, root, fp) == root[..i] + root[i + 1..]
  {
    if i > 0 {
      assert FirstMatch(env, root[1..], fp, 0, i - 1);
      WithoutFirstMatch(env, root[1..], fp, i - 1);
      assert root[..i] == [root[0]] + root[1..][..i - 1];
    }
  }

  lemma {:induction false} WithoutNone(env: Env, root: seq<Anchor>, fp: Fingerprint)
    requires !Trusted(env, root, fp)
    ensures WithoutFirst(env, root, fp) == root
  {
    if root != [] {
      assert forall i :: 0 <= i < |root| - 1 ==> root[1..][i] == root[i + 1];
      WithoutNone(env, root[1..], fp);
    }
  }

  lemma QuietFind(env: Env, s: State, fp: Fingerprint)
    requires NoFaults(env, s.tick) && !s.dead
    ensures var out := FindBySHA256(env, s, fp, None);
            && out.Ok? && !out.s.dead && (out.value.Some? <==> Trusted(env, s.root, fp))
            && (out.value.Some? ==> FirstMatch(env, s.root, fp, 0, out.value.value.index))
  {
    QuietSearch(env, s, fp, None);
    FindSettles(env, s, fp, None);
  }

  /** A fault-free removal deletes the first entry with the fingerprint, and reports `ErrTrustAnchorNotFound` exactly
      when there is none. */
  lemma QuietRemove(env: Env, s: State, fp: Fingerprint)
    requires NoFaults(env, s.tick) && !s.dead
    ensures var r := RemoveTrustBySHA256(env, s, fp);
            && (r.Ok? <==> Trusted(env, s.root, fp))
            && (r.Err? ==> Is(r.error, ErrTrustAnchorNotFound))
            && r.s.root == WithoutFirst(env, s.root, fp) && !r.s.dead
  {
    hide FindBySHA256, FirstMatch, Trusted, WithoutFirst;
    var o := OpenStore(env, s);
    FindFirst(env, o.s, fp);
    QuietFind(env, o.s, fp);
    var out := FindBySHA256(env, o.s, fp, None);
    if out.value.Some? {
      WithoutFirstMatch(env, s.root, fp, out.value.value.index);
    } else {
      WithoutNone(env, s.root, fp);
      assert Is(ErrTrustAnchorNotFound, ErrTrustAnchorNotFound);
    }
  }

  /** A fault-free query answers, and the answer is membership. */
  lemma QuietIsTrusted(env: Env, s: State, fp: Fingerprint)
    requires NoFaults(env, s.tick) && !s.dead
    ensures var r := IsTrustedSHA256(env, s, fp);
            r.Ok? && (r.value <==> Trusted(env, s.root, fp))
  {
    hide FindBySHA256, Trusted;
    var o := OpenStore(env, s);
    QuietFind(env, o.s, fp);
  }

  /** No operation takes empty bytes for a certificate, and none makes a call before saying so. */
  lemma EmptyIsRefused(env: Env, s: State)
    ensures InstallTrust(env, s, OtherBytes([])).Err? && InstallTrust(env, s, OtherBytes([])).s == s
    ensures RemoveTrust(env, s, OtherBytes([])).Err? && RemoveTrust(env, s, OtherBytes([])).s == s
    ensures VerifyTrust(env, s, OtherBytes([])).Err? && VerifyTrust(env, s, OtherBytes([])).s == s
  {
  }

  /** Bytes that are no certificate have no trust state, and are never added to Root. */
  lemma JunkIsRefused(env: Env, s: State, bytes: seq<byte>)
    ensures VerifyTrust(env, s, OtherBytes(bytes)).Err?
    ensures var r := InstallTrust(env, s, OtherBytes(bytes));
            r.s.root == s.root && (r.Ok? ==> Trusted(env, s.root, env.sha(OtherBytes(bytes))))
  {
    hide FindBySHA256, DropFirstSame;
    var o := OpenStore(env, s);
    if o.Ok? { FindFirst(env, o.s, env.sha(OtherBytes(bytes))); }
  }

  /** The first entry the store takes for the same certificate as `der`. */
  predicate FirstSame(env: Env, root: seq<Anchor>, der: Der, i: nat) {
    && i < |root| && env.sameCert(root[i].der, der)
    && forall j :: 0 <= j < i ==> !env.sameCert(root[j].der, der)
  }

  lemma {:induction false} DroppedIsFirstSame(env: Env, root: seq<Anchor>, der: Der, i: nat)
    requires FirstSame(env, root, der, i)
    ensures DropFirstSame(env, root, der) == root[..i] + root[i + 1..]
  {
    if i > 0 {
      DroppedIsFirstSame(env, root[1..], der, i - 1);
      assert root[..i] == [root[0]] + root[1..][..i - 1];
    }
  }

  lemma {:induction false} DroppedIsNone(env: Env, root: seq<Anchor>, der: Der)
    requires forall j :: 0 <= j < |root| ==> !env.sameCert(root[j].der, der)
    ensures DropFirstSame(env, root, der) == root
  {
    if root != [] {
      DroppedIsNone(env, root[1..], der);
    }
  }

  /** A fault-free install of a certificate succeeds: Root stays as it is when the fingerprint is there, and otherwise
      gets the certificate at its end, in place of the first entry that counts as the same, if there is one. */
  lemma QuietInstallExactly(env: Env, s: State, cert: Certificate)
    requires NoFaults(env, s.tick) && !s.dead
    ensures var r := InstallTrust(env, s, CertDer(cert));
            && r.Ok?
            && (Trusted(env, s.root, env.sha(CertDer(cert))) ==> r.s.root == s.root)
            && (!Trusted(env, s.root, env.sha(CertDer(cert))) ==>
                  && (forall i: nat :: FirstSame(env, s.root, CertDer(cert), i) ==>
                        r.s.root == s.root[..i] + s.root[i + 1..] + [Anchor(CertDer(cert), true)])
                  && ((forall j :: 0 <= j < |s.root| ==> !env.sameCert(s.root[j].der, CertDer(cert))) ==>
                        r.s.root == s.root + [Anchor(CertDer(cert), true)]))
  {
    hide FindBySHA256, DropFirstSame, Trusted;
    forall i: nat | FirstSame(env, s.root, CertDer(cert), i)
      ensures DropFirstSame(env, s.root, CertDer(cert)) == s.root[..i] + s.root[i + 1..]
    {
      DroppedIsFirstSame(env, s.root, CertDer(cert), i);
    }
    if forall j :: 0 <= j < |s.root| ==> !env.sameCert(s.root[j].der, CertDer(cert)) {
      DroppedIsNone(env, s.root, CertDer(cert));
    }
    var o := OpenStore(env, s);
    FindFirst(env, o.s, env.sha(CertDer(cert)));
    QuietFind(env, o.s, env.sha(CertDer(cert)));
  }

  // ---------- keys ----------

  /** A key call that fails says `ErrKeyNotFound` exactly when the key library said that the key is missing, and
      otherwise what the library said; deleting or opening a key that is not there says `ErrKeyNotFound`. */
  lemma KeyErrors(env: Env, s: State, name: KeyName)
    requires !s.dead
    ensures env.fault(s.tick).Fail? ==>
              var e := env.fault(s.tick).error;
              var mapped := if Is(e, CngKeyNotFound) then ErrKeyNotFound else e;
              && OpenKey(env, s, name) == Err(s.(tick := s.tick + 1), mapped)
              && LoadOrCreate(env, s, name) == Err(s.(tick := s.tick + 1), mapped)
              && DeleteKey(env, s, name) == Err(s.(tick := s.tick + 1), mapped)
    ensures env.fault(s.tick).Fine? && name !in s.keys ==>
              && OpenKey(env, s, name) == Err(s.(tick := s.tick + 1), ErrKeyNotFound)
              && DeleteKey(env, s, name) == Err(s.(tick := s.tick + 1), ErrKeyNotFound)
  {
  }

  /** With both certificates readable and nothing failing, loading for serving says `ErrKeyNotFound` when the server key
      is missing, and so does a reload when the CA key is. */
  lemma MissingKeyIsSaid(env: Env, s: State)
    requires NoFaults(env, s.tick) && !s.dead && CaCert in s.files && s.files[CaCert].CertDer?
    ensures ServerCert in s.files && s.files[ServerCert].CertDer? && ServerKey !in s.keys ==>
              LoadServingMaterial(env, s).Err? && Is(LoadServingMaterial(env, s).error, ErrKeyNotFound)
    ensures CaKey !in s.keys ==> ReloadMachine(env, s).Err? && Is(ReloadMachine(env, s).error, ErrKeyNotFound)
  {
  }

  // ---------- cleanup ----------

  /** The anchor step has something to look for: a fingerprint, or a file that is not empty. */
  predicate HasTarget(s: State, removal: Removal) {
    match removal
    case SkipAnchor => true
    case ByFingerprint(_) => true
    case ByDiskCertificate => CaCert in s.files && s.files[CaCert] != OtherBytes([])
  }

  ghost function RootAfter(env: Env, s: State, removal: Removal): seq<Anchor> {
    match removal
    case SkipAnchor => s.root
    case ByFingerprint(fp) => WithoutFirst(env, s.root, fp)
    case ByDiskCertificate =>
      if HasTarget(s, removal) then WithoutFirst(env, s.root, env.sha(s.files[CaCert])) else s.root
  }

  lemma QuietRemoveAnchor(env: Env, s: State, removal: Removal)
    requires NoFaults(env, s.tick) && !s.dead
    ensures var r := RemoveAnchor(env, s, removal);
            && (r.Ok? || Is(r.error, ErrTrustAnchorNotFound) <==> HasTarget(s, removal))
            && (r.Err? ==> !Is(r.error, ErrKeyNotFound))
            && r.s.root == RootAfter(env, s, removal) && !r.s.dead
  {
    hide RemoveTrustBySHA256, WithoutFirst, Trusted;
    var t := Attempt(s, TrustAnchor);
    match removal {
      case SkipAnchor =>
      case ByFingerprint(fp) => QuietRemove(env, t, fp); NotFoundIsNoKey(env, t, fp);
      case ByDiskCertificate =>
        var d := ReadFile(env, t, CaCert);
        if d.Ok? {
          QuietRemove(env, d.s, env.sha(d.value));
          NotFoundIsNoKey(env, d.s, env.sha(d.value));
        }
    }
  }

  lemma NotFoundIsNoKey(env: Env, s: State, fp: Fingerprint)
    requires NoFaults(env, s.tick) && !s.dead
    ensures var r := RemoveTrustBySHA256(env, s, fp);
            r.Err? ==> r.error == Wrap("certificate not found", ErrTrustAnchorNotFound)
                       && !Is(r.error, ErrKeyNotFound)
  {
    hide FindBySHA256, Trusted;
    var o := OpenStore(env, s);
    FindFirst(env, o.s, fp);
    QuietFind(env, o.s, fp);
  }

  lemma QuietDeleteKey(env: Env, s: State, name: KeyName)
    requires NoFaults(env, s.tick) && !s.dead
    ensures var r := DeletePersistedKey(env, s, true, name);
            && (r.Ok? <==> name in s.keys) && (r.Err? ==> r.error == ErrKeyNotFound)
            && r.s.keys == s.keys - {name} && !r.s.dead
  {
  }

  lemma QuietRemoveDir(env: Env, s: State)
    requires NoFaults(env, s.tick) && !s.dead
    ensures var r := RemoveStateDir(env, s);
            && r.Ok? && !r.s.dir && r.s.files == (if s.dir then map[] else s.files) && !r.s.dead
  {
  }

  /** A fault-free cleanup removes the first entry it was asked about, both keys and the directory, whatever it finds
      of them, and returns nil exactly when its anchor step had something to look for. */
  lemma QuietCleanup(env: Env, s: State, removal: Removal)
    requires NoFaults(env, s.tick) && !s.dead && NoStrayFiles(s)
    ensures var r := CleanupLocalTLS(env, s, true, removal);
            && (r.Ok? <==> HasTarget(s, removal))
            && Empty(r.s) && !r.s.dir && r.s.root == RootAfter(env, s, removal) && !r.s.dead
  {
    hide RemoveAnchor, DeletePersistedKey, RemoveStateDir, Aggregate, HasTarget, RootAfter, Is;
    var t := CleanupSteps(env, s, true, removal);
    RemoveAnchorEffect(env, s, removal);
    QuietRemoveAnchor(env, s, removal);
    DeletePersistedKeyEffect(env, t.anchor.s, true, CaKey);
    QuietDeleteKey(env, t.anchor.s, CaKey);
    DeletePersistedKeyEffect(env, t.ca.s, true, ServerKey);
    QuietDeleteKey(env, t.ca.s, ServerKey);
    RemoveStateDirEffect(env, t.server.s);
    QuietRemoveDir(env, t.server.s);
    assert Is(ErrKeyNotFound, ErrKeyNotFound) by { SentinelIsItself(); }
    AggregateIsFaithful(ErrorOf(t.anchor), ErrorOf(t.ca), ErrorOf(t.server), ErrorOf(t.dir));
  }

  lemma SentinelIsItself()
    ensures Is(ErrKeyNotFound, ErrKeyNotFound)
  {
  }

  /** Fault-free, `CleanupMachine` returns nil exactly when the CA file is there and not empty; either way it leaves
      the machine empty, and Root without the first entry of that certificate. */
  lemma QuietCleanupMachine(env: Env, s: State)
    requires NoFaults(env, s.tick) && !s.dead && NoStrayFiles(s)
    ensures var r := CleanupMachine(env, s);
            && (r.Ok? <==> CaCert in s.files && s.files[CaCert] != OtherBytes([]))
            && Empty(r.s) && !r.s.dir
            && r.s.root == if r.Ok? then WithoutFirst(env, s.root, env.sha(s.files[CaCert])) else s.root
  {
    hide CleanupLocalTLS;
    QuietCleanup(env, s, ByDiskCertificate);
  }

  /** Fault-free, the fingerprint form returns nil on any machine, also one that has nothing to remove. */
  lemma QuietCleanupBySHA256(env: Env, s: State, fp: Fingerprint)
    requires NoFaults(env, s.tick) && !s.dead && NoStrayFiles(s)
    ensures var r := CleanupMachineBySHA256(env, s, fp);
            r.Ok? && Empty(r.s) && !r.s.dir && r.s.root == WithoutFirst(env, s.root, fp)
  {
    hide CleanupLocalTLS;
    QuietCleanup(env, s, ByFingerprint(fp));
  }
}
