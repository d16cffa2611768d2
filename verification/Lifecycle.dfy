/** What every run keeps: one CA identity, anchors of that CA only, a leaf window nested in the CA's, and a
    NotAfter that never goes back. */
module Lifecycle {
  import opened Errors
  import opened Validity
  import opened Certificates
  import opened States
  import opened TrustStore
  import opened TrustStoreProofs
  import opened Provision
  import opened ProvisionProofs
  import opened Cleanup
  import opened CleanupProofs
  import opened Runs

  // ---------- the run invariant ----------

  /** A CA file as first install writes it; whatever CA key is persisted is its key. */
  ghost predicate GenuineCa(s: State, ca: Certificate) {
    && CaShape(ca.window) && Encodable(ca.window) && ca.isCA && ca.certSign && ca.pub.P256?
    && ca.issuer == ca.subject && ca.signedBy == ca.pub
    && (CaKey in s.keys ==> ca.pub == P256(s.keys[CaKey]))
  }

  /** A leaf file this CA has issued, for whatever server key is persisted. */
  ghost predicate GenuineLeaf(s: State, ca: Certificate, leaf: Certificate) {
    && LeafShape(leaf.window, ca.window) && IssuedBy(leaf, ca) && ChainsTo(leaf, ca) && ValidSan(leaf)
    && leaf.pub.P256?
    && (ServerKey in s.keys ==> leaf.pub == P256(s.keys[ServerKey]))
  }

  /** The certificates on disk are this module's own work, and no file is outside the directory. */
  ghost predicate Genuine(s: State) {
    && NoStrayFiles(s)
    && (CaCert in s.files ==> GenuineFiles(s))
  }

  ghost predicate GenuineFiles(s: State)
    requires CaCert in s.files
  {
    && s.files[CaCert].CertDer? && GenuineCa(s, s.files[CaCert].cert)
    && (ServerCert in s.files ==>
          s.files[ServerCert].CertDer? && GenuineLeaf(s, s.files[CaCert].cert, s.files[ServerCert].cert))
  }

  /** The leaf's window on disk, when there is one. */
  function LeafWindow(s: State): Option<Window> {
    if ServerCert in s.files && s.files[ServerCert].CertDer? then Some(s.files[ServerCert].cert.window) else None
  }

  lemma GenuineLeafKept(a: State, b: State, ca: Certificate, leaf: Certificate, next: Certificate)
    requires GenuineCa(a, ca) && GenuineLeaf(a, ca, leaf)
    requires CaKey in a.keys && ServerKey in a.keys && b.keys == a.keys
    requires LeafKept(a, b, ca, P256(a.keys[CaKey]), leaf, P256(a.keys[ServerKey]), next)
    ensures GenuineLeaf(b, ca, next)
    ensures b.now < next.window.notAfter
    ensures b.now < ca.window.notAfter
    ensures leaf.window.notAfter <= next.window.notAfter
    ensures next.window == leaf.window
            || next.window.notAfter == ca.window.notAfter
            || next.window.notAfter >= leaf.window.notAfter + 60 * DAY
    ensures next.window.notAfter > leaf.window.notAfter ==>
              RenewalsLeft(next.window.notAfter, ca.window.notAfter) + 1
              <= RenewalsLeft(leaf.window.notAfter, ca.window.notAfter)
  {
    hide LeafShape, CaShape, ValidSan, RenewalsLeft, Encoded, LeafTemplate, CurrentlyValid;
    RenewalDueExact(leaf.window.notAfter, b.now);
    ShapeBounds(leaf.window, ca.window);
    if RenewalDue(leaf.window.notAfter, b.now) {
      RenewalShapes(leaf.window, ca.window, b.now);
      ExtendingRenewalSpends(leaf.window, ca.window, b.now);
      ValidNow(ca.window, b.now);
      NewLeafPassesChecks(b.now, next.serial, ca, P256(a.keys[CaKey]), P256(a.keys[ServerKey]));
    }
  }

  lemma ShapeBounds(leaf: Window, ca: Window)
    requires LeafShape(leaf, ca)
    ensures leaf.notAfter <= ca.notAfter
  {
  }

  lemma ValidNow(ca: Window, now: Instant)
    requires CurrentlyValid(ca, now)
    ensures now < ca.notAfter
  {
  }

  /** A reload from a genuine state, successful or not. */
  lemma ReloadKeepsGenuine(env: Env, s: State, r: Out<Material>)
    requires Genuine(s) && ReloadFrame(env, s, r)
    ensures Genuine(r.s)
    ensures r.Ok? ==> CaCert in s.files && ServerCert in s.files
    ensures r.Ok? ==> r.s.now < r.value.leaf.window.notAfter && r.s.now < r.value.ca.window.notAfter
    ensures r.Ok? ==> Disk(r.s, ServerCert) == Some(Raw(r.value.leaf)) && Disk(r.s, CaCert) == Some(Raw(r.value.ca))
  {
    hide ValidSan, LeafShape, CaShape, IssuedBy, RenewalDue, CurrentlyValid, NewLeaf, Trusted, Holding, Settled,
         Encodable;
    if r.Ok? {
      var ca, leaf := r.value.ca, s.files[ServerCert].cert;
      GenuineLeafKept(s, r.s, ca, leaf, r.value.leaf);
    }
  }

  lemma FirstKeepsGenuine(env: Env, a: State, b: State, stage: Stage)
    requires CaCert !in a.files && ServerCert !in a.files && FirstStage(env, a, b, stage)
    ensures Genuine(b)
    ensures stage == BothWritten ==>
              && b.now < b.files[ServerCert].cert.window.notAfter && b.now < b.files[CaCert].cert.window.notAfter
              && b.files[CaCert].cert.window.notBefore <= b.now
  {
    hide ValidSan, LeafShape, CaShape, RootGains, Encoded, CaTemplate, LeafTemplate, Encodable;
    FirstIssueShapes(b.now);
    if stage == BothWritten {
      var ca := b.files[CaCert].cert;
      NewLeafPassesChecks(b.now, b.files[ServerCert].cert.serial, ca, P256(b.keys[CaKey]), P256(b.keys[ServerKey]));
    }
  }

  lemma ProvisionKeepsGenuine(env: Env, s: State)
    requires TruthfulStat(env) && Genuine(s)
    ensures var r := ProvisionMachine(env, s);
            && Genuine(r.s)
            && (r.Ok? ==> && r.s.now < r.value.leaf.window.notAfter && r.s.now < r.value.ca.window.notAfter
                          && Disk(r.s, ServerCert) == Some(Raw(r.value.leaf))
                          && Disk(r.s, CaCert) == Some(Raw(r.value.ca)))
  {
    hide ProvisionMachine, ReloadFrame, FirstStage, Owned, RootGains, GenuineCa, GenuineLeaf, Trusted;
    ProvisionMachineEffect(env, s);
    var r := ProvisionMachine(env, s);
    if CaCert in s.files && ServerCert in s.files {
      ReloadKeepsGenuine(env, s, r);
    } else if CaCert !in s.files && ServerCert !in s.files {
      if FirstStage(env, s, r.s, NothingWritten) { FirstKeepsGenuine(env, s, r.s, NothingWritten); }
      if FirstStage(env, s, r.s, CaWritten) { FirstKeepsGenuine(env, s, r.s, CaWritten); }
      if FirstStage(env, s, r.s, BothWritten) { FirstKeepsGenuine(env, s, r.s, BothWritten); }
    } else {
      SameCertificates(s, r.s);
    }
  }

  lemma ShrinkKeepsGenuine(env: Env, a: State, b: State)
    requires Genuine(a) && Shrinks(env, a, b)
    ensures Genuine(b)
  {
  }

  lemma StepKeepsGenuine(env: Env, sys: System, op: Op)
    requires TruthfulStat(env) && Genuine(sys.s)
    ensures Genuine(Step(env, sys, op).s)
  {
    hide ProvisionMachine, ReloadMachine, LoadServingMaterial, CleanupMachine, CleanupMachineBySHA256;
    hide GenuineCa, GenuineLeaf, TruthfulStat, ReloadFrame, Shrinks, Owned;
    SameCertificates(sys.s, Restart(sys.s).s);
    match op {
      case CallProvision =>
        ProvisionKeepsGenuine(env, sys.s);
        LandGenuine(sys.held, ProvisionMachine(env, sys.s));
      case CallReload =>
        ReloadMachineEffect(env, sys.s);
        ReloadKeepsGenuine(env, sys.s, ReloadMachine(env, sys.s));
        LandGenuine(sys.held, ReloadMachine(env, sys.s));
      case CallServe =>
        LoadServingEffect(env, sys.s);
        SameCertificates(sys.s, LoadServingMaterial(env, sys.s).s);
        LandGenuine(sys.held, LoadServingMaterial(env, sys.s));
      case CallClose(i) =>
        if i < |sys.held| { SameCertificates(sys.s, CloseMaterial(sys.s, sys.held[i])); }
      case CallCleanup =>
        CleanupMachineEffect(env, sys.s);
        ShrinkKeepsGenuine(env, sys.s, CleanupMachine(env, sys.s).s);
        SettleGenuine(sys.held, CleanupMachine(env, sys.s));
      case CallCleanupBy(fp) =>
        CleanupMachineBySHA256Effect(env, sys.s, fp);
        ShrinkKeepsGenuine(env, sys.s, CleanupMachineBySHA256(env, sys.s, fp).s);
        SettleGenuine(sys.held, CleanupMachineBySHA256(env, sys.s, fp));
      case Exit =>
    }
  }

  lemma SameCertificates(a: State, b: State)
    requires a.files == b.files && a.keys == b.keys && a.dir == b.dir
    ensures Genuine(a) ==> Genuine(b)
  {
  }

  lemma LandGenuine(held: seq<Material>, r: Out<Material>)
    requires Genuine(r.s)
    ensures Genuine(Land(held, r).s)
  {
  }

  lemma SettleGenuine(held: seq<Material>, r: Out<()>)
    requires Genuine(r.s)
    ensures Genuine(Settle(held, r).s)
  {
  }

  /** In every state a run reaches, cleanups and crashes included, and under any clock, the leaf's window
      lies inside the CA's on both ends. Only the NotAfter end is ever compared by the code. */
  lemma {:induction false} WindowsStayNested(env: Env, sys: System, ops: seq<Op>)
    requires TruthfulStat(env) && Genuine(sys.s)
    ensures var s := Run(env, sys, ops).s;
            && Genuine(s)
            && (CaCert in s.files && ServerCert in s.files ==>
                  Nested(s.files[ServerCert].cert.window, s.files[CaCert].cert.window))
    decreases |ops|
  {
    hide Step, TruthfulStat, GenuineCa, ValidSan, IssuedBy;
    if ops != [] {
      StepKeepsGenuine(env, sys, ops[0]);
      WindowsStayNested(env, Step(env, sys, ops[0]), ops[1..]);
    }
  }

  // ---------- one identity ----------

  /** Root holds no module-added anchor that was not there before, except for the CA now on disk. */
  ghost predicate AnchorsAreOurs(a: State, b: State) {
    forall x :: x in b.root && x.added ==> x in a.root || (CaCert in b.files && x.der == b.files[CaCert])
  }

  /** Once the CA file exists its bytes stay. */
  ghost predicate IdentityKept(a: State, b: State) {
    CaCert in a.files ==> CaCert in b.files && b.files[CaCert] == a.files[CaCert]
  }

  lemma {:induction false} DroppedIsSubset(env: Env, root: seq<Anchor>, der: Der)
    ensures forall x :: x in DropFirstSame(env, root, der) ==> x in root
  {
    if root != [] {
      DroppedIsSubset(env, root[1..], der);
    }
  }

  lemma GainsOnly(env: Env, a: seq<Anchor>, b: seq<Anchor>, der: Der)
    requires RootGains(env, a, b, der)
    ensures forall x :: x in b ==> x in a || x == Anchor(der, true)
  {
    DroppedIsSubset(env, a, der);
  }

  lemma ProvisionKeepsIdentity(env: Env, s: State)
    requires TruthfulStat(env)
    ensures var r := ProvisionMachine(env, s);
            IdentityKept(s, r.s) && AnchorsAreOurs(s, r.s)
  {
    hide ProvisionMachine, Owned, Reloaded, RootGains, FreshLeaf, NewCA, Encodable, DropFirstSame, FirstDone;
    ProvisionMachineEffect(env, s);
    var r := ProvisionMachine(env, s);
    if CaCert in r.s.files && RootGains(env, s.root, r.s.root, r.s.files[CaCert]) {
      GainsOnly(env, s.root, r.s.root, r.s.files[CaCert]);
    }
  }

  lemma StepKeepsIdentity(env: Env, sys: System, op: Op)
    requires TruthfulStat(env) && NoCleanup([op])
    ensures var b := Step(env, sys, op).s;
            IdentityKept(sys.s, b) && AnchorsAreOurs(sys.s, b)
  {
    hide ProvisionMachine, ReloadMachine, LoadServingMaterial, TruthfulStat, Owned, Reloaded;
    assert op in [op];
    match op {
      case CallProvision => ProvisionKeepsIdentity(env, sys.s);
      case CallReload => ReloadMachineEffect(env, sys.s);
      case CallServe => LoadServingEffect(env, sys.s);
      case CallClose(i) =>
      case Exit =>
    }
  }

  /** Over every run without cleanup, with calls failing and processes dying anywhere: the CA file keeps its
      bytes, and every anchor the run adds to Root is that file. */
  lemma {:induction false} IdentityOverRuns(env: Env, sys: System, ops: seq<Op>)
    requires TruthfulStat(env) && NoCleanup(ops)
    ensures var b := Run(env, sys, ops).s;
            IdentityKept(sys.s, b) && AnchorsAreOurs(sys.s, b)
    decreases |ops|
  {
    hide Step, TruthfulStat;
    if ops != [] {
      StepKeepsIdentity(env, sys, ops[0]);
      IdentityOverRuns(env, Step(env, sys, ops[0]), ops[1..]);
    }
  }

  // ---------- NotAfter never decreases ----------

  /** How one call moves a leaf that is there: it keeps its NotAfter or is extended, by 60 days at least
      unless the CA's own NotAfter is reached. Without its CA the leaf is left alone. */
  ghost predicate LeafAdvances(a: State, b: State) {
    ServerCert in a.files ==>
      if CaCert in a.files then
        && LeafWindow(a).Some? && LeafWindow(b).Some? && a.files[CaCert].CertDer?
        && var before, after, end :=
             LeafWindow(a).value.notAfter, LeafWindow(b).value.notAfter, a.files[CaCert].cert.window.notAfter;
        && before <= after <= end
        && (after == before || after == end || after >= before + 60 * DAY)
        && (after > before ==> RenewalsLeft(after, end) + 1 <= RenewalsLeft(before, end))
      else Disk(b, ServerCert) == Disk(a, ServerCert)
  }

  lemma ReloadAdvances(env: Env, s: State, r: Out<Material>)
    requires Genuine(s) && ReloadFrame(env, s, r)
    ensures LeafAdvances(s, r.s)
  {
    hide ValidSan, LeafShape, CaShape, IssuedBy, RenewalDue, CurrentlyValid, NewLeaf, Trusted, Holding, Settled,
         Encodable, RenewalsLeft;
    if ServerCert in s.files && CaCert in s.files {
      ShapeBounds(s.files[ServerCert].cert.window, s.files[CaCert].cert.window);
      if r.Ok? {
        GenuineLeafKept(s, r.s, r.value.ca, s.files[ServerCert].cert, r.value.leaf);
        ShapeBounds(r.value.leaf.window, r.value.ca.window);
      }
    }
  }

  lemma StillAdvances(a: State, b: State)
    requires Genuine(a) && SameDisk(a, b)
    ensures LeafAdvances(a, b)
  {
  }

  lemma StepAdvances(env: Env, sys: System, op: Op)
    requires TruthfulStat(env) && Genuine(sys.s) && NoCleanup([op])
    ensures LeafAdvances(sys.s, Step(env, sys, op).s)
  {
    hide ProvisionMachine, ReloadMachine, LoadServingMaterial, TruthfulStat, ReloadFrame, FirstFrame, Genuine,
         Owned, LeafAdvances;
    assert op in [op];
    match op {
      case CallProvision =>
        ProvisionMachineEffect(env, sys.s);
        var r := ProvisionMachine(env, sys.s);
        if CaCert in sys.s.files && ServerCert in sys.s.files { ReloadAdvances(env, sys.s, r); }
        else if ServerCert in sys.s.files { StillAdvances(sys.s, r.s); }
        else { NoLeafYet(sys.s, r.s); }
        LandAdvances(sys, r);
      case CallReload =>
        ReloadMachineEffect(env, sys.s);
        ReloadAdvances(env, sys.s, ReloadMachine(env, sys.s));
        LandAdvances(sys, ReloadMachine(env, sys.s));
      case CallServe => LoadServingEffect(env, sys.s); StillAdvances(sys.s, Step(env, sys, op).s);
      case CallClose(i) => StillAdvances(sys.s, Step(env, sys, op).s);
      case Exit => StillAdvances(sys.s, Step(env, sys, op).s);
    }
  }

  lemma NoLeafYet(a: State, b: State)
    requires ServerCert !in a.files
    ensures LeafAdvances(a, b)
  {
  }

  lemma LandAdvances(sys: System, r: Out<Material>)
    ensures LeafAdvances(sys.s, r.s) ==> LeafAdvances(sys.s, Land(sys.held, r).s)
  {
  }

  /** The number of calls of a run that strictly extend the leaf they find. */
  function Extensions(env: Env, sys: System, ops: seq<Op>): nat
    decreases |ops|
  {
    if ops == [] then 0
    else
      var next := Step(env, sys, ops[0]);
      var a, b := LeafWindow(sys.s), LeafWindow(next.s);
      (if a.Some? && b.Some? && b.value.notAfter > a.value.notAfter then 1 else 0) + Extensions(env, next, ops[1..])
  }

  /** How many extensions the state still has in it. */
  ghost function Budget(s: State): nat
    requires Genuine(s)
  {
    if CaCert in s.files && ServerCert in s.files then
      ShapeBounds(s.files[ServerCert].cert.window, s.files[CaCert].cert.window);
      RenewalsLeft(s.files[ServerCert].cert.window.notAfter, s.files[CaCert].cert.window.notAfter)
    else 29
  }

  lemma BudgetBound(s: State)
    requires Genuine(s)
    ensures Budget(s) <= 29
  {
  }

  /** One CA sees at most 29 strictly extending renewals, and no run ever moves a NotAfter back. */
  lemma {:induction false} ExtensionsAreBounded(env: Env, sys: System, ops: seq<Op>)
    requires TruthfulStat(env) && Genuine(sys.s) && NoCleanup(ops)
    ensures Extensions(env, sys, ops) <= Budget(sys.s) <= 29
    ensures var b := LeafWindow(Run(env, sys, ops).s);
            LeafWindow(sys.s).Some? ==> b.Some? && LeafWindow(sys.s).value.notAfter <= b.value.notAfter
    decreases |ops|
  {
    hide Step, TruthfulStat, Genuine, RenewalsLeft;
    BudgetBound(sys.s);
    if ops != [] {
      var next := Step(env, sys, ops[0]);
      assert NoCleanup([ops[0]]);
      StepKeepsGenuine(env, sys, ops[0]);
      StepAdvances(env, sys, ops[0]);
      StepKeepsIdentity(env, sys, ops[0]);
      ExtensionsAreBounded(env, next, ops[1..]);
      BudgetSpent(sys.s, next.s);
    }
  }

  lemma BudgetSpent(a: State, b: State)
    requires Genuine(a) && Genuine(b) && LeafAdvances(a, b) && IdentityKept(a, b)
    ensures var extended := LeafWindow(a).Some? && LeafWindow(b).Some?
                            && LeafWindow(b).value.notAfter > LeafWindow(a).value.notAfter;
            Budget(b) + (if extended then 1 else 0) <= Budget(a)
  {
  }

  // ---------- success means unexpired ----------

  /** On any disk, genuine or not, the leaf is only replaced inside the CA's window. */
  lemma RenewalNeedsValidCa(env: Env, s: State, r: Out<Material>)
    requires r == ReloadMachine(env, s)
             || (TruthfulStat(env) && CaCert in s.files && r == ProvisionMachine(env, s))
    requires Disk(r.s, ServerCert) != Disk(s, ServerCert)
    ensures r.Ok? && r.value.ca.window.notBefore <= r.s.now < r.value.ca.window.notAfter
    ensures Disk(s, CaCert) == Some(Raw(r.value.ca)) && Disk(r.s, ServerCert) == Some(Raw(r.value.leaf))
  {
    hide ReloadMachine, ProvisionMachine, RenewalDue, ValidSan, IssuedBy, NewLeaf, Encodable, Trusted, Owned, SomeStage;
    if r == ReloadMachine(env, s) { ReloadMachineEffect(env, s); } else { ProvisionMachineEffect(env, s); }
  }

  /** From any state a run reaches, a reload or provision that succeeds at clock reading `now` returns a leaf
      and a CA that are both unexpired at `now`, though the CA is only checked when renewal is due. */
  lemma SuccessMeansUnexpired(env: Env, sys: System, ops: seq<Op>)
    requires TruthfulStat(env) && Genuine(sys.s)
    ensures var s := Run(env, sys, ops).s;
            forall r :: r == ReloadMachine(env, s) || r == ProvisionMachine(env, s) ==>
              r.Ok? ==> r.s.now < r.value.leaf.window.notAfter && r.s.now < r.value.ca.window.notAfter
  {
    hide ReloadMachine, ProvisionMachine, Genuine, TruthfulStat, ReloadFrame;
    WindowsStayNested(env, sys, ops);
    var s := Run(env, sys, ops).s;
    ReloadMachineEffect(env, s);
    ReloadKeepsGenuine(env, s, ReloadMachine(env, s));
    ProvisionKeepsGenuine(env, s);
  }

  /** A second reload at the clock reading of the first rewrites the leaf exactly when the CA has at most 30
      days left, and then with the same NotAfter. */
  lemma SecondReload(env: Env, s: State, first: Out<Material>, second: Out<Material>)
    requires Genuine(s)
    requires first == ReloadMachine(env, s) && second == ReloadMachine(env, first.s)
    requires first.Ok? && second.Ok? && second.s.now == first.s.now
    ensures second.value.leaf.window.notAfter == first.value.leaf.window.notAfter
    ensures CaKey in s.keys && ServerKey in s.keys
    ensures if first.value.ca.window.notAfter - first.s.now <= RENEWAL_THRESHOLD then
              && second.value.leaf == NewLeaf(second.s.now, second.value.leaf.serial, first.value.ca,
                                              P256(s.keys[CaKey]), P256(s.keys[ServerKey]))
              && Disk(second.s, ServerCert) == Some(Raw(second.value.leaf))
            else
              second.value.leaf == first.value.leaf && Disk(second.s, ServerCert) == Disk(first.s, ServerCert)
  {
    hide ReloadMachine, ValidSan, LeafShape, CaShape, IssuedBy, RenewalDue, CurrentlyValid, Encoded, LeafTemplate;
    hide Trusted, Holding, Settled, Encodable, PublicKeyMatches;
    ReloadMachineEffect(env, s);
    ReloadKeepsGenuine(env, s, first);
    ReloadMachineEffect(env, first.s);
    var ca, leaf := first.value.ca, s.files[ServerCert].cert;
    SecondRenewal(leaf.window, ca.window, first.s.now);
    assert first.s.files[ServerCert] == Raw(first.value.leaf);
  }
}
