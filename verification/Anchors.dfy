/** Trust-anchor accounting over runs that include cleanups. */
module Anchors {
  import opened Errors
  import opened Certificates
  import opened States
  import opened TrustStore
  import opened TrustStoreProofs
  import opened TrustStoreModel
  import opened Provision
  import opened ProvisionProofs
  import opened Cleanup
  import opened CleanupProofs
  import opened Runs
  import opened Lifecycle
  import opened Recovery

  /** Every anchor the module has added and not removed is the CA now on disk. */
  ghost predicate OnlyDiskCa(s: State) {
    forall x :: x in s.root && x.added ==> CaCert in s.files && x.der == s.files[CaCert]
  }

  ghost predicate Accounted(env: Env, s: State) {
    NoDuplicates(env, s.root) && OnlyDiskCa(s)
  }

  /** Root holds at most one anchor added by the module. */
  ghost predicate AtMostOneAdded(root: seq<Anchor>) {
    forall i, j :: 0 <= i < j < |root| ==> !(root[i].added && root[j].added)
  }

  lemma AccountedIsSingle(env: Env, s: State)
    requires Accounted(env, s)
    ensures AtMostOneAdded(s.root)
  {
  }

  lemma GainAccounted(env: Env, a: State, b: State)
    requires HonestFailures(env) && ReplacesOnlyItself(env) && Accounted(env, a)
    requires CaCert in b.files && RootGains(env, a.root, b.root, b.files[CaCert])
    requires OnlyDiskCa(a) && AnchorsAreOurs(a, b) && IdentityKept(a, b)
    ensures Accounted(env, b)
  {
    hide NoDuplicates, Fingerprints, Trusted, HonestFailures, ReplacesOnlyItself, DropFirstSame;
    var der := b.files[CaCert];
    if b.root != a.root {
      NothingDropped(env, a.root, der);
      TrustedIsMember(env, a.root, env.sha(der));
      AddedToSet(env, a.root, Anchor(der, true));
    }
  }

  lemma SameAccounted(env: Env, a: State, b: State)
    requires Accounted(env, a) && b.root == a.root && IdentityKept(a, b)
    ensures Accounted(env, b)
  {
  }

  lemma ProvisionAccounted(env: Env, s: State)
    requires TruthfulStat(env) && HonestFailures(env) && ReplacesOnlyItself(env) && Accounted(env, s)
    ensures Accounted(env, ProvisionMachine(env, s).s)
  {
    hide ProvisionMachine, Owned, Reloaded, RootGains, FreshLeaf, NewCA, FirstDone, Accounted, HonestFailures,
      TruthfulStat, AnchorsAreOurs, Settled;
    ProvisionMachineEffect(env, s);
    ProvisionKeepsIdentity(env, s);
    var t := ProvisionMachine(env, s).s;
    OnlyDisk(env, s);
    if CaCert in t.files && RootGains(env, s.root, t.root, t.files[CaCert]) {
      GainAccounted(env, s, t);
    } else {
      SameAccounted(env, s, t);
    }
  }

  lemma OnlyDisk(env: Env, s: State)
    requires Accounted(env, s)
    ensures OnlyDiskCa(s)
  {
  }

  /** What a cleanup that returned nil leaves: exactly what the guard takes for a first install, and no anchor
      of the module's. */
  lemma NilCleanupResets(env: Env, s: State, removal: Removal)
    requires HonestFailures(env) && Accounted(env, s) && NoStrayFiles(s) && !removal.SkipAnchor?
    requires CleanupLocalTLS(env, s, true, removal).Ok?
    requires removal.ByFingerprint? && CaCert in s.files ==> removal.fp == env.sha(s.files[CaCert])
    ensures var t := CleanupLocalTLS(env, s, true, removal).s;
            && Empty(t) && Accounted(env, t)
            && (forall x :: x in t.root ==> !x.added && x in s.root)
  {
    hide CleanupLocalTLS, HonestFailures;
    NilCleanup(env, s, removal);
    CleanupEffect(env, s, true, removal);
    var t := CleanupLocalTLS(env, s, true, removal).s;
    GoneFromAccounts(env, s, t.root, Target(env, s, removal).value);
  }

  lemma GoneFromAccounts(env: Env, s: State, root: seq<Anchor>, fp: Fingerprint)
    requires Accounted(env, s) && AnchorGone(env, s.root, root, fp)
    requires CaCert in s.files ==> fp == env.sha(s.files[CaCert])
    ensures NoDuplicates(env, root)
    ensures forall x :: x in root ==> !x.added && x in s.root
  {
  }

  // ---------- over runs ----------

  /** If the call is a cleanup, it returns nil, and the fingerprint form is given the on-disk CA's fingerprint. */
  ghost predicate NilIfCleanup(env: Env, sys: System, op: Op) {
    match op
    case CallCleanup => CleanupMachine(env, sys.s).Ok?
    case CallCleanupBy(fp) =>
      CleanupMachineBySHA256(env, sys.s, fp).Ok? && (CaCert in sys.s.files ==> fp == env.sha(sys.s.files[CaCert]))
    case _ => true
  }

  ghost predicate CleanupsReturnNil(env: Env, sys: System, ops: seq<Op>)
    decreases |ops|
  {
    ops != [] ==> NilIfCleanup(env, sys, ops[0]) && CleanupsReturnNil(env, Step(env, sys, ops[0]), ops[1..])
  }

  lemma StepAccounted(env: Env, sys: System, op: Op)
    requires TruthfulStat(env) && HonestFailures(env) && ReplacesOnlyItself(env)
    requires Accounted(env, sys.s) && Genuine(sys.s) && NilIfCleanup(env, sys, op)
    ensures Accounted(env, Step(env, sys, op).s)
    ensures op.CallCleanup? || op.CallCleanupBy? ==> Empty(Step(env, sys, op).s)
  {
    hide ProvisionMachine, ReloadMachine, LoadServingMaterial, CleanupLocalTLS, Owned, Reloaded, HonestFailures,
      TruthfulStat, GenuineFiles, NoDuplicates, ReplacesOnlyItself, Settled;
    match op {
      case CallProvision => ProvisionAccounted(env, sys.s);
      case CallReload => ReloadMachineEffect(env, sys.s);
      case CallServe => LoadServingEffect(env, sys.s);
      case CallClose(i) =>
      case CallCleanup => NilCleanupResets(env, sys.s, ByDiskCertificate);
      case CallCleanupBy(fp) => NilCleanupResets(env, sys.s, ByFingerprint(fp));
      case Exit =>
    }
  }

  /** Over any run in which every cleanup returned nil, Root never holds more than one anchor added by the
      module, and that one is the CA on disk. */
  lemma {:induction false} SingleAnchorOverRuns(env: Env, sys: System, ops: seq<Op>)
    requires TruthfulStat(env) && HonestFailures(env) && ReplacesOnlyItself(env)
    requires Accounted(env, sys.s) && Genuine(sys.s) && CleanupsReturnNil(env, sys, ops)
    ensures Accounted(env, Run(env, sys, ops).s) && AtMostOneAdded(Run(env, sys, ops).s.root)
    decreases |ops|
  {
    hide Step, TruthfulStat, HonestFailures, ReplacesOnlyItself, Accounted, AtMostOneAdded, Genuine, NilIfCleanup;
    AccountedIsSingle(env, sys.s);
    if ops != [] {
      StepKeepsGenuine(env, sys, ops[0]);
      StepAccounted(env, sys, ops[0]);
      SingleAnchorOverRuns(env, Step(env, sys, ops[0]), ops[1..]);
    }
  }
}
