/** The Root adapter as operations on a set of fingerprints, and the one way it can misread the store. */
module TrustStoreModel {
  import opened Errors
  import opened Certificates
  import opened States
  import opened TrustStore
  import opened TrustStoreProofs

  /** With nothing failing, a search is exact and returns. */
  lemma {:induction false} QuietSearch(env: Env, s: State, fp: Fingerprint, prev: Option<Context>)
    requires NoFaults(env, s.tick) && !s.dead
    ensures var out := FindBySHA256(env, s, fp, prev);
            && out.Ok? && !out.s.dead
            && (out.value.None? ==> forall j :: NextIndex(prev) <= j < |s.root| ==> env.sha(s.root[j].der) != fp)
    decreases |s.root| - NextIndex(prev)
  {
    var r := EnumNext(env, s, prev);
    if r.Ok? && env.sha(s.root[r.value.index].der) != fp {
      QuietSearch(env, r.s, fp, Some(r.value));
    }
  }

  // ---------- the store as a set ----------

  ghost function Fingerprints(env: Env, root: seq<Anchor>): set<Fingerprint> {
    set a | a in root :: env.sha(a.der)
  }

  ghost predicate NoDuplicates(env: Env, root: seq<Anchor>) {
    forall i, j :: 0 <= i < j < |root| ==> env.sha(root[i].der) != env.sha(root[j].der)
  }

  /** Replace-existing never takes another certificate for the one being added. */
  ghost predicate ReplacesOnlyItself(env: Env) {
    forall a, b :: env.sameCert(a, b) ==> env.sha(a) == env.sha(b)
  }

  lemma TrustedIsMember(env: Env, root: seq<Anchor>, fp: Fingerprint)
    ensures Trusted(env, root, fp) <==> fp in Fingerprints(env, root)
  {
  }

  lemma {:induction false} NothingDropped(env: Env, root: seq<Anchor>, der: Der)
    requires ReplacesOnlyItself(env) && !Trusted(env, root, env.sha(der))
    ensures DropFirstSame(env, root, der) == root
  {
    if root != [] {
      assert forall i :: 0 <= i < |root| - 1 ==> root[1..][i] == root[i + 1];
      NothingDropped(env, root[1..], der);
    }
  }

  lemma AddedToSet(env: Env, root: seq<Anchor>, a: Anchor)
    requires NoDuplicates(env, root) && env.sha(a.der) !in Fingerprints(env, root)
    ensures NoDuplicates(env, root + [a])
    ensures Fingerprints(env, root + [a]) == Fingerprints(env, root) + {env.sha(a.der)}
  {
  }

  lemma RemovedFromSet(env: Env, root: seq<Anchor>, i: nat)
    requires NoDuplicates(env, root) && i < |root|
    ensures var rest := root[..i] + root[i + 1..];
            && NoDuplicates(env, rest)
            && Fingerprints(env, rest) == Fingerprints(env, root) - {env.sha(root[i].der)}
  {
  }

  /** InstallTrust adds at most one entry, at no other entry's expense. */
  lemma InstallRefines(env: Env, s: State, der: Der)
    requires HonestFailures(env) && ReplacesOnlyItself(env) && NoDuplicates(env, s.root)
    ensures var r := InstallTrust(env, s, der);
            && NoDuplicates(env, r.s.root)
            && (r.Err? ==> r.s.root == s.root)
            && (r.Ok? ==> Fingerprints(env, r.s.root) == Fingerprints(env, s.root) + {env.sha(der)})
            && r.s.root == (if r.Err? || env.sha(der) in Fingerprints(env, s.root) then s.root
                            else s.root + [Anchor(der, true)])
  {
    hide InstallTrust, Fingerprints, NoDuplicates, Trusted, DropFirstSame, HonestFailures, ReplacesOnlyItself, Settled;
    var fp, r := env.sha(der), InstallTrust(env, s, der);
    InstallSettles(env, s, der);
    InstallFails(env, s, der);
    TrustedIsMember(env, s.root, fp);
    TrustedIsMember(env, r.s.root, fp);
    if fp in Fingerprints(env, s.root) {
      assert Fingerprints(env, s.root) + {fp} == Fingerprints(env, s.root);
    } else {
      NothingDropped(env, s.root, der);
      AddedToSet(env, s.root, Anchor(der, true));
    }
  }

  /** The add is the last call that can fail. */
  lemma InstallFails(env: Env, s: State, der: Der)
    ensures InstallTrust(env, s, der).Err? ==> InstallTrust(env, s, der).s.root == s.root
  {
    hide FindBySHA256, DropFirstSame, Release;
    var o := OpenStore(env, s);
    if o.Ok? { FindFirst(env, o.s, env.sha(der)); }
  }

  /** RemoveTrust deletes exactly the matching entry and keeps all others in order; "not found" is only
      reported when it is true. */
  lemma RemoveRefines(env: Env, s: State, fp: Fingerprint)
    requires HonestFailures(env) && NoDuplicates(env, s.root)
    ensures var r := RemoveTrustBySHA256(env, s, fp);
            && NoDuplicates(env, r.s.root)
            && (r.Err? ==> r.s.root == s.root)
            && (r.Err? && Is(r.error, ErrTrustAnchorNotFound) ==> fp !in Fingerprints(env, s.root))
            && (r.Ok? ==> && fp in Fingerprints(env, s.root)
                          && Fingerprints(env, r.s.root) == Fingerprints(env, s.root) - {fp}
                          && exists i :: 0 <= i < |s.root| && r.s.root == s.root[..i] + s.root[i + 1..])
  {
    hide FindBySHA256, Fingerprints, NoDuplicates, Trusted;
    var o := OpenStore(env, s);
    if o.Ok? {
      FindFirst(env, o.s, fp);
      SearchIsExact(env, o.s, fp);
      TrustedIsMember(env, s.root, fp);
      var out := FindBySHA256(env, o.s, fp, None);
      if out.Ok? && out.value.Some? {
        RemovedFromSet(env, s.root, out.value.value.index);
      } else {
        SearchErrorIsPlain(env, o.s, fp, None);
      }
    }
  }

  lemma {:induction false} SearchErrorIsPlain(env: Env, s: State, fp: Fingerprint, prev: Option<Context>)
    requires HonestFailures(env)
    ensures var out := FindBySHA256(env, s, fp, prev);
            out.Err? ==> PlainFailure(out.error)
    decreases |s.root| - NextIndex(prev)
  {
    var r := EnumNext(env, s, prev);
    if r.Ok? && env.sha(s.root[r.value.index].der) != fp {
      SearchErrorIsPlain(env, r.s, fp, Some(r.value));
    }
  }

  /** IsTrustedSHA256 is membership. */
  lemma IsTrustedRefines(env: Env, s: State, fp: Fingerprint)
    requires HonestFailures(env)
    ensures var q := IsTrustedSHA256(env, s, fp);
            q.Ok? ==> (q.value <==> fp in Fingerprints(env, s.root))
  {
    hide FindBySHA256, Fingerprints, Trusted, HonestFailures;
    TrustedIsMember(env, s.root, fp);
    var o := OpenStore(env, s);
    if o.Ok? {
      FindFirst(env, o.s, fp);
      SearchIsExact(env, o.s, fp);
    }
  }

  /** VerifyTrust is Healthy exactly for a member, and Conflict only for a non-member with a
      subject-string match. */
  lemma VerifyRefines(env: Env, s: State, der: Der)
    requires HonestFailures(env)
    ensures var v := VerifyTrust(env, s, der);
            v.Ok? ==>
              && (v.value == TrustHealthy <==> env.sha(der) in Fingerprints(env, s.root))
              && (v.value == TrustConflict <==>
                    env.sha(der) !in Fingerprints(env, s.root) && Conflicting(env, s.root, der))
  {
    hide Fingerprints, Trusted, Conflicting, HonestFailures, Classify;
    TrustedIsMember(env, s.root, env.sha(der));
    var o := OpenStore(env, s);
    if o.Ok? {
      var c := CreateContext(env, o.s, der);
      if c.Ok? {
        ClassifyIsExact(env, c.s, der);
      }
    }
  }

  ghost predicate Conflicting(env: Env, root: seq<Anchor>, der: Der) {
    env.displayName(der) != "" && exists i :: 0 <= i < |root| && env.subjectHas(root[i].der, env.displayName(der))
  }

  lemma ClassifyIsExact(env: Env, s: State, der: Der)
    requires HonestFailures(env)
    ensures var v := Classify(env, s, der);
            v.Ok? ==>
              && (v.value == TrustHealthy <==> Trusted(env, s.root, env.sha(der)))
              && (v.value == TrustConflict <==>
                    !Trusted(env, s.root, env.sha(der)) && Conflicting(env, s.root, der))
  {
    hide FindBySHA256, FirstSubject;
    FindFirst(env, s, env.sha(der));
    SearchIsExact(env, s, env.sha(der));
  }

  // ---------- runs of the adapter ----------

  datatype TrustOp = Install(der: Der) | RemoveBy(fp: Fingerprint) | Verify(der: Der) | Ask(fp: Fingerprint)

  function TrustStep(env: Env, s: State, op: TrustOp): (State, bool) {
    match op
    case Install(der) => var r := InstallTrust(env, s, der); (r.s, r.Ok?)
    case RemoveBy(fp) => var r := RemoveTrustBySHA256(env, s, fp); (r.s, r.Ok?)
    case Verify(der) => var r := VerifyTrust(env, s, der); (r.s, r.Ok?)
    case Ask(fp) => var r := IsTrustedSHA256(env, s, fp); (r.s, r.Ok?)
  }

  function TrustRun(env: Env, s: State, ops: seq<TrustOp>): State
    decreases |ops|
  {
    if ops == [] then s else TrustRun(env, TrustStep(env, s, ops[0]).0, ops[1..])
  }

  /** The set the calls describe: an operation that returned nil has happened, any other has not. */
  ghost function SetRun(env: Env, s: State, ops: seq<TrustOp>, fps: set<Fingerprint>): set<Fingerprint>
    decreases |ops|
  {
    if ops == [] then fps
    else
      var (next, ok) := TrustStep(env, s, ops[0]);
      SetRun(env, next, ops[1..],
             match ops[0]
             case Install(der) => if ok then fps + {env.sha(der)} else fps
             case RemoveBy(fp) => if ok then fps - {fp} else fps
             case _ => fps)
  }

  /** Over any sequence of operations from a duplicate-free store, Root holds the described set and
      stays duplicate-free. */
  lemma {:induction false} AdapterRefinesSet(env: Env, s: State, ops: seq<TrustOp>)
    requires HonestFailures(env) && ReplacesOnlyItself(env) && NoDuplicates(env, s.root)
    ensures NoDuplicates(env, TrustRun(env, s, ops).root)
    ensures Fingerprints(env, TrustRun(env, s, ops).root) == SetRun(env, s, ops, Fingerprints(env, s.root))
    decreases |ops|
  {
    hide InstallTrust, RemoveTrustBySHA256, VerifyTrust, IsTrustedSHA256, Fingerprints, NoDuplicates, Trusted;
    hide HonestFailures, ReplacesOnlyItself;
    if ops != [] {
      match ops[0] {
        case Install(der) => InstallRefines(env, s, der);
        case RemoveBy(fp) => RemoveRefines(env, s, fp);
        case Verify(der) => VerifySettles(env, s, der);
        case Ask(fp) => IsTrustedSettles(env, s, fp);
      }
      AdapterRefinesSet(env, TrustStep(env, s, ops[0]).0, ops[1..]);
    }
  }
}
