/** What cleanup removes, what its result means, and what it never does. */
module CleanupProofs {
  import opened Errors
  import opened Certificates
  import opened States
  import opened TrustStore
  import opened TrustStoreProofs
  import opened TrustStoreModel
  import opened Provision
  import opened ProvisionProofs
  import opened Cleanup

  // ---------- error aggregation, for arbitrary error trees ----------

  predicate Suppressed(err: Option<Error>) {
    err.None? || AlreadyAbsent(err.value)
  }

  /** The result is nil exactly when every trust or key error is nil or contains a sentinel and the
      directory is gone; otherwise each failure that was not suppressed is found in it by errors.Is. */
  lemma AggregateIsFaithful(anchor: Option<Error>, ca: Option<Error>, server: Option<Error>, dir: Option<Error>)
    ensures var r := Aggregate(anchor, ca, server, dir);
            && (r.None? <==> Suppressed(anchor) && Suppressed(ca) && Suppressed(server) && dir.None?)
            && (!Suppressed(anchor) ==> Is(r.value, anchor.value))
            && (!Suppressed(ca) ==> Is(r.value, ca.value))
            && (!Suppressed(server) ==> Is(r.value, server.value))
            && (dir.Some? ==> Is(r.value, dir.value))
  {
    hide AlreadyAbsent;
    var a := AppendCleanupError([], "remove CA trust anchor", anchor);
    var b := AppendCleanupError(a, "delete Local-TLS CA key", ca);
    var c := AppendCleanupError(b, "delete Local-TLS server key", server);
    var d := if dir.Some? then c + [dir.value] else c;
    forall e: Error | (exists i :: 0 <= i < |d| && (d[i] == e || (d[i].Wrap? && d[i].inner == e)))
      ensures Is(Join(d), e)
    {
      var i :| 0 <= i < |d| && (d[i] == e || (d[i].Wrap? && d[i].inner == e));
      FoundInJoin(d, i, e);
    }
    assert !Suppressed(anchor) ==> d[0] == Wrap("remove CA trust anchor", anchor.value);
    assert !Suppressed(ca) ==> d[|a|] == Wrap("delete Local-TLS CA key", ca.value);
    assert !Suppressed(server) ==> d[|b|] == Wrap("delete Local-TLS server key", server.value);
    assert dir.Some? ==> d[|c|] == dir.value;
  }

  lemma FoundInJoin(errs: seq<Error>, i: nat, e: Error)
    requires i < |errs| && (errs[i] == e || (errs[i].Wrap? && errs[i].inner == e))
    ensures Is(Join(errs), e)
  {
  }

  // ---------- effects ----------

  ghost predicate SubMap<K, V>(a: map<K, V>, b: map<K, V>) {
    forall k :: k in b ==> k in a && b[k] == a[k]
  }

  /** Cleanup only ever removes: files, keys, and Root entries with the given fingerprint. */
  ghost predicate Shrinks(env: Env, a: State, b: State) {
    && SubMap(a.files, b.files) && SubMap(a.keys, b.keys)
    && (b.dir ==> a.dir) && (a.dir && !b.dir ==> b.files == map[])
    && (forall x :: x in b.root ==> x in a.root)
    && a.tick <= b.tick && Settled(a.handles, b.handles)
  }

  lemma ShrinksTwice(env: Env, a: State, b: State, c: State)
    requires Shrinks(env, a, b) && Shrinks(env, b, c)
    ensures Shrinks(env, a, c)
  {
  }

  lemma LosesMembers(env: Env, a: seq<Anchor>, b: seq<Anchor>, fp: Fingerprint)
    requires RootLoses(env, a, b, fp)
    ensures forall x :: x in b ==> x in a
  {
  }

  function AttemptedAfter(s: State, a: Artifact): seq<Artifact> {
    if s.dead then s.attempted else s.attempted + [a]
  }

  lemma RemoveTrustShrinks(env: Env, s: State, fp: Fingerprint)
    ensures var r := RemoveTrustBySHA256(env, s, fp);
            Shrinks(env, s, r.s) && SameMachine(s.(root := r.s.root), r.s)
  {
    hide RemoveTrustBySHA256, Settled, RootLoses;
    RemoveSettles(env, s, fp);
    LosesMembers(env, s.root, RemoveTrustBySHA256(env, s, fp).s.root, fp);
  }

  lemma RemoveAnchorEffect(env: Env, s: State, removal: Removal)
    ensures var r := RemoveAnchor(env, s, removal);
            && Shrinks(env, s, r.s) && r.s.files == s.files && r.s.keys == s.keys && r.s.dir == s.dir
            && r.s.attempted == (if removal.SkipAnchor? then s.attempted else AttemptedAfter(s, TrustAnchor))
  {
    hide RemoveTrustBySHA256, Shrinks, IsNotExist;
    var t := Attempt(s, TrustAnchor);
    KeepingShrinks(env, s, s);
    KeepingShrinks(env, s, t);
    match removal {
      case SkipAnchor =>
      case ByFingerprint(fp) =>
        RemoveTrustShrinks(env, t, fp);
        ShrinksTwice(env, s, t, RemoveTrustBySHA256(env, t, fp).s);
      case ByDiskCertificate =>
        var d := ReadFile(env, t, CaCert);
        KeepingShrinks(env, s, d.s);
        if d.Ok? && !IsEmpty(d.value) {
          RemoveTrustShrinks(env, d.s, env.sha(d.value));
          ShrinksTwice(env, s, d.s, RemoveTrustBySHA256(env, d.s, env.sha(d.value)).s);
        }
    }
  }

  lemma KeepingShrinks(env: Env, a: State, b: State)
    requires a.files == b.files && a.keys == b.keys && a.root == b.root && a.dir == b.dir
    requires a.handles == b.handles && a.tick <= b.tick
    ensures Shrinks(env, a, b)
  {
  }

  lemma DeletePersistedKeyEffect(env: Env, s: State, deleteKeys: bool, name: KeyName)
    ensures var r := DeletePersistedKey(env, s, deleteKeys, name);
            && Shrinks(env, s, r.s) && r.s.root == s.root && r.s.files == s.files && r.s.dir == s.dir
            && r.s.attempted == (if deleteKeys then AttemptedAfter(s, PersistedKey(name)) else s.attempted)
            && (r.Ok? && deleteKeys ==> r.s.keys == s.keys - {name})
            && (r.Err? ==> r.s.keys == s.keys)
            && (HonestFailures(env) && r.Err? && AlreadyAbsent(r.error) ==> name !in s.keys)
            && (s.dead ==> r.s.dead)
  {
    hide Settled;
    SettledRefl(s.handles);
  }

  lemma RemoveStateDirEffect(env: Env, s: State)
    ensures var r := RemoveStateDir(env, s);
            && Shrinks(env, s, r.s) && r.s.root == s.root && r.s.keys == s.keys
            && r.s.attempted == AttemptedAfter(s, StateDirectory)
            && (HonestFailures(env) && r.Ok? ==> !r.s.dir && r.s.files == if s.dir then map[] else s.files)
            && (r.Ok? ==> !r.s.dead && !s.dead)
  {
    hide Settled;
    SettledRefl(s.handles);
  }

  function StepsBegun(deleteKeys: bool, removal: Removal): seq<Artifact> {
    (if removal.SkipAnchor? then [] else [TrustAnchor])
    + (if deleteKeys then [PersistedKey(CaKey), PersistedKey(ServerKey)] else [])
    + [StateDirectory]
  }

  /** The steps end where the last one ended; each of the four is begun whatever became of the others. */
  lemma CleanupEffect(env: Env, s: State, deleteKeys: bool, removal: Removal)
    ensures var r := CleanupLocalTLS(env, s, deleteKeys, removal);
            var t := CleanupSteps(env, s, deleteKeys, removal);
            && r.s == t.dir.s && Shrinks(env, s, r.s)
            && (r.Ok? ==> !r.s.dead && !t.anchor.s.dead)
            && (!r.s.dead ==> r.s.attempted == s.attempted + StepsBegun(deleteKeys, removal))
  {
    hide RemoveAnchor, DeletePersistedKey, RemoveStateDir, Aggregate, Shrinks;
    var t := CleanupSteps(env, s, deleteKeys, removal);
    RemoveAnchorEffect(env, s, removal);
    DeletePersistedKeyEffect(env, t.anchor.s, deleteKeys, CaKey);
    DeletePersistedKeyEffect(env, t.ca.s, deleteKeys, ServerKey);
    RemoveStateDirEffect(env, t.server.s);
    ShrinksTwice(env, s, t.anchor.s, t.ca.s);
    ShrinksTwice(env, s, t.ca.s, t.server.s);
    ShrinksTwice(env, s, t.server.s, t.dir.s);
    AggregateIsFaithful(ErrorOf(t.anchor), ErrorOf(t.ca), ErrorOf(t.server), ErrorOf(t.dir));
    DeadStaysDead(env, s, deleteKeys, removal);
  }

  lemma DeadStaysDead(env: Env, s: State, deleteKeys: bool, removal: Removal)
    ensures var t := CleanupSteps(env, s, deleteKeys, removal);
            && (s.dead ==> t.anchor.s.dead) && (t.anchor.s.dead ==> t.ca.s.dead)
            && (t.ca.s.dead ==> t.server.s.dead) && (t.server.s.dead ==> t.dir.s.dead)
  {
  }

  lemma CleanupMachineEffect(env: Env, s: State)
    ensures Shrinks(env, s, CleanupMachine(env, s).s)
  {
    hide CleanupLocalTLS, Settled;
    SettledRefl(s.handles);
    CleanupEffect(env, s, true, ByDiskCertificate);
  }

  lemma CleanupMachineBySHA256Effect(env: Env, s: State, fp: Fingerprint)
    ensures Shrinks(env, s, CleanupMachineBySHA256(env, s, fp).s)
  {
    hide CleanupLocalTLS, Settled;
    SettledRefl(s.handles);
    CleanupEffect(env, s, true, ByFingerprint(fp));
  }

  // ---------- what nil means ----------

  /** The fingerprint whose anchor a removal is about. */
  ghost function Target(env: Env, s: State, removal: Removal): Option<Fingerprint> {
    match removal
    case SkipAnchor => None
    case ByFingerprint(fp) => Some(fp)
    case ByDiskCertificate => if CaCert in s.files then Some(env.sha(s.files[CaCert])) else None
  }

  /** The first entry with fingerprint `fp` is gone, or there was none. */
  ghost predicate AnchorGone(env: Env, a: seq<Anchor>, b: seq<Anchor>, fp: Fingerprint) {
    if Trusted(env, a, fp) then
      exists i: nat :: FirstMatch(env, a, fp, 0, i) && b == a[..i] + a[i + 1..]
    else b == a
  }

  lemma RemovalVerdict(env: Env, s: State, fp: Fingerprint)
    requires HonestFailures(env)
    ensures var r := RemoveTrustBySHA256(env, s, fp);
            r.Ok? || AlreadyAbsent(r.error) ==> AnchorGone(env, s.root, r.s.root, fp)
  {
    hide FindBySHA256, Trusted;
    var o := OpenStore(env, s);
    if o.Ok? {
      FindFirst(env, o.s, fp);
      SearchIsExact(env, o.s, fp);
      SearchErrorIsPlain(env, o.s, fp, None);
    }
  }

  lemma RemoveAnchorVerdict(env: Env, s: State, removal: Removal)
    requires HonestFailures(env) && !removal.SkipAnchor?
    ensures var r := RemoveAnchor(env, s, removal);
            r.Ok? || AlreadyAbsent(r.error) ==>
              Target(env, s, removal).Some? && AnchorGone(env, s.root, r.s.root, Target(env, s, removal).value)
  {
    hide RemoveTrustBySHA256, AnchorGone;
    var t := Attempt(s, TrustAnchor);
    match removal {
      case ByFingerprint(fp) => RemovalVerdict(env, t, fp);
      case ByDiskCertificate =>
        var d := ReadFile(env, t, CaCert);
        if d.Ok? { RemovalVerdict(env, d.s, env.sha(d.value)); }
    }
  }

  /** No certificate file outside the directory. */
  predicate NoStrayFiles(s: State) {
    s.dir || (CaCert !in s.files && ServerCert !in s.files)
  }

  /** With honest failures, nil from either cleanup means that the anchor it was about, both keys and
      the directory are gone: for `CleanupMachine` that also needs the CA file to have been there. */
  lemma NilCleanup(env: Env, s: State, removal: Removal)
    requires HonestFailures(env) && !removal.SkipAnchor?
    requires NoStrayFiles(s)
    ensures var r := CleanupLocalTLS(env, s, true, removal);
            r.Ok? ==>
              && CaKey !in r.s.keys && ServerKey !in r.s.keys
              && !r.s.dir && CaCert !in r.s.files && ServerCert !in r.s.files
              && Target(env, s, removal).Some? && AnchorGone(env, s.root, r.s.root, Target(env, s, removal).value)
  {
    hide RemoveAnchor, DeletePersistedKey, RemoveStateDir, Aggregate, AlreadyAbsent, AnchorGone, Settled,
         HonestFailures;
    var t := CleanupSteps(env, s, true, removal);
    RemoveAnchorEffect(env, s, removal);
    RemoveAnchorVerdict(env, s, removal);
    DeletePersistedKeyEffect(env, t.anchor.s, true, CaKey);
    DeletePersistedKeyEffect(env, t.ca.s, true, ServerKey);
    RemoveStateDirEffect(env, t.server.s);
    AggregateIsFaithful(ErrorOf(t.anchor), ErrorOf(t.ca), ErrorOf(t.server), ErrorOf(t.dir));
  }
}
