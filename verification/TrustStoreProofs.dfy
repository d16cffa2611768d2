/** What the Root adapter guarantees, under every pattern of failures and crashes. */
module TrustStoreProofs {
  import opened Errors
  import opened Certificates
  import opened States
  import opened TrustStore

  function Released(s: State, prev: Option<Context>): seq<Handle> {
    if prev.Some? then Release(s.handles, prev.value.h) else s.handles
  }

  ghost predicate Trusted(env: Env, root: seq<Anchor>, fp: Fingerprint) {
    exists i :: 0 <= i < |root| && env.sha(root[i].der) == fp
  }

  /** A search leaves at most the context it returns open, and that one is on the first matching entry. */
  ghost predicate FoundOrNone(env: Env, s: State, fp: Fingerprint, prev: Option<Context>, out: Out<Option<Context>>) {
    if out.Ok? && out.value.Some? then
      var c := out.value.value;
      && NextIndex(prev) <= c.index < |s.root| && env.sha(s.root[c.index].der) == fp
      && (forall j :: NextIndex(prev) <= j < c.index ==> env.sha(s.root[j].der) != fp)
      && Holding(Released(s, prev), out.s.handles, c.h)
      && out.s.handles[c.h].kind == ContextHandle
    else
      Settled(Released(s, prev), out.s.handles)
  }

  lemma EnumNextOpens(env: Env, s: State, prev: Option<Context>)
    ensures var r := EnumNext(env, s, prev);
            && SameMachine(s, r.s) && s.now == r.s.now && s.tick <= r.s.tick
            && (r.Err? ==> r.s.handles == Released(s, prev))
            && (r.Ok? ==> && r.s.handles == Released(s, prev) + [Handle(ContextHandle, 0)]
                          && r.value == Context(|Released(s, prev)|, NextIndex(prev))
                          && NextIndex(prev) < |s.root|)
  {
  }

  /** `findCertBySHA256`, for stores of any length and an enumeration error at any position: each context
      handed out is released exactly once, except the one returned. */
  lemma {:induction false} FindSettles(env: Env, s: State, fp: Fingerprint, prev: Option<Context>)
    ensures var out := FindBySHA256(env, s, fp, prev);
            && SameMachine(s, out.s) && s.now == out.s.now && s.tick <= out.s.tick
            && FoundOrNone(env, s, fp, prev, out)
    decreases |s.root| - NextIndex(prev)
  {
    hide EnumNext;
    EnumNextOpens(env, s, prev);
    var r := EnumNext(env, s, prev);
    if r.Ok? && env.sha(r.s.root[r.value.index].der) != fp {
      FindSettles(env, r.s, fp, Some(r.value));
      SearchGoesOn(env, s, fp, prev, r.s, r.value, FindBySHA256(env, r.s, fp, Some(r.value)));
    }
  }

  lemma SearchGoesOn(env: Env, s: State, fp: Fingerprint, prev: Option<Context>, t: State, c: Context,
                     out: Out<Option<Context>>)
    requires t.handles == Released(s, prev) + [Handle(ContextHandle, 0)] && t.root == s.root
    requires c == Context(|Released(s, prev)|, NextIndex(prev)) && c.index < |s.root|
    requires env.sha(s.root[c.index].der) != fp
    requires FoundOrNone(env, t, fp, Some(c), out)
    ensures FoundOrNone(env, s, fp, prev, out)
  {
  }

  /** A search from the start of the store, as the five operations use it. */
  lemma FindFirst(env: Env, s: State, fp: Fingerprint)
    ensures var out := FindBySHA256(env, s, fp, None);
            && SameMachine(s, out.s) && s.now == out.s.now && s.tick <= out.s.tick
            && (out.Ok? && out.value.Some? ==>
                  && out.value.value.index < |s.root|
                  && env.sha(s.root[out.value.value.index].der) == fp
                  && Trusted(env, s.root, fp)
                  && Settled(s.handles, Release(out.s.handles, out.value.value.h)))
            && (!(out.Ok? && out.value.Some?) ==> Settled(s.handles, out.s.handles))
  {
    hide Settled, Holding, Release, FindBySHA256;
    FindSettles(env, s, fp, None);
    var out := FindBySHA256(env, s, fp, None);
    if out.Ok? && out.value.Some? {
      HoldingReleased(s.handles, out.s.handles, out.value.value.h);
    }
  }

  // ---------- what a search can miss ----------

  predicate FirstMatch(env: Env, root: seq<Anchor>, fp: Fingerprint, from: nat, i: nat) {
    && from <= i < |root| && env.sha(root[i].der) == fp
    && forall j :: from <= j < i ==> env.sha(root[j].der) != fp
  }

  /** Among the `calls` enumeration calls from `tick` on, the first that does not work reports an error
      which `isEnumEnd` takes for the end of the store. */
  predicate FalseEnd(env: Env, tick: nat, calls: nat) {
    exists k: nat :: k < calls && FalseEndAt(env, tick, k)
  }

  predicate FalseEndAt(env: Env, tick: nat, k: nat) {
    && (forall j :: tick <= j < tick + k ==> env.fault(j).Fine?)
    && env.fault(tick + k).Fail? && IsEnumEnd(env.fault(tick + k).error)
  }

  /** A search misses a certificate that is in the store exactly when the enumeration up to it is cut
      short by an error that looks like the end. */
  lemma {:induction false} SearchMisses(env: Env, s: State, fp: Fingerprint, prev: Option<Context>, i: nat)
    requires !s.dead && FirstMatch(env, s.root, fp, NextIndex(prev), i)
    ensures var out := FindBySHA256(env, s, fp, prev);
            && (out.Ok? && out.value.None? <==> FalseEnd(env, s.tick, i + 1 - NextIndex(prev)))
            && (out.Ok? && out.value.Some? ==> out.value.value.index == i)
    decreases i - NextIndex(prev)
  {
    var calls := i + 1 - NextIndex(prev);
    var r := EnumNext(env, s, prev);
    if !env.fault(s.tick).Fine? {
      assert FalseEndAt(env, s.tick, 0) <==> env.fault(s.tick).Fail? && IsEnumEnd(env.fault(s.tick).error);
      assert forall k: nat :: FalseEndAt(env, s.tick, k) ==> k == 0;
    } else {
      FalseEndLater(env, s.tick, calls);
      if NextIndex(prev) < i {
        SearchMisses(env, r.s, fp, Some(r.value), i);
      }
    }
  }

  lemma FalseEndLater(env: Env, tick: nat, calls: nat)
    requires env.fault(tick).Fine? && calls > 0
    ensures FalseEnd(env, tick, calls) <==> FalseEnd(env, tick + 1, calls - 1)
  {
    if FalseEnd(env, tick, calls) {
      var k: nat :| k < calls && FalseEndAt(env, tick, k);
      assert k > 0 && FalseEndAt(env, tick + 1, k - 1);
    }
    if FalseEnd(env, tick + 1, calls - 1) {
      var k: nat :| k < calls - 1 && FalseEndAt(env, tick + 1, k);
      assert FalseEndAt(env, tick, k + 1);
    }
  }

  lemma {:induction false} HasFirstMatch(env: Env, root: seq<Anchor>, fp: Fingerprint, n: nat) returns (i: nat)
    requires n < |root| && env.sha(root[n].der) == fp
    ensures FirstMatch(env, root, fp, 0, i) && i <= n
  {
    i := 0;
    while env.sha(root[i].der) != fp
      invariant i <= n && forall j :: 0 <= j < i ==> env.sha(root[j].der) != fp
      decreases n - i
    {
      i := i + 1;
    }
  }

  /** When failures are honest, a search that finds nothing means there is nothing. */
  lemma SearchIsExact(env: Env, s: State, fp: Fingerprint)
    requires HonestFailures(env)
    ensures var out := FindBySHA256(env, s, fp, None);
            && (out.Ok? && out.value.None? ==> !Trusted(env, s.root, fp))
            && (out.Ok? && out.value.Some? ==> FirstMatch(env, s.root, fp, 0, out.value.value.index))
            && (s.dead ==> out.Err?)
  {
    if Trusted(env, s.root, fp) && !s.dead {
      var n: nat :| n < |s.root| && env.sha(s.root[n].der) == fp;
      var i := HasFirstMatch(env, s.root, fp, n);
      SearchMisses(env, s, fp, None, i);
    }
    FindSettles(env, s, fp, None);
  }

  // ---------- VerifyTrust ----------

  lemma ClassifySettles(env: Env, s: State, der: Der)
    ensures var r := Classify(env, s, der);
            && SameMachine(s, r.s) && s.now == r.s.now && s.tick <= r.s.tick
            && Settled(s.handles, r.s.handles)
            && (r.Ok? && r.value == TrustHealthy ==> Trusted(env, s.root, env.sha(der)))
  {
    hide Settled, Holding, Release, FindBySHA256, FirstSubject;
    FindFirst(env, s, env.sha(der));
    var out := FindBySHA256(env, s, env.sha(der), None);
    if out.Ok? && out.value.None? {
      var cn := env.displayName(der);
      var r := FindByCN(env, out.s, cn);
      if r.Ok? && r.value.Some? {
        OpenedAndPassed(out.s.handles, ContextHandle);
        SettledTwice(s.handles, out.s.handles, Release(r.s.handles, r.value.value.h));
      }
    }
  }

  lemma VerifyInSettles(env: Env, s: State, der: Der)
    ensures var r := VerifyIn(env, s, der);
            && SameMachine(s, r.s) && s.now == r.s.now && s.tick <= r.s.tick
            && Settled(s.handles, r.s.handles)
            && (r.Ok? && r.value == TrustHealthy ==> Trusted(env, s.root, env.sha(der)))
  {
    hide Settled, Holding, Release, Classify, Trusted;
    SettledRefl(s.handles);
    var c := CreateContext(env, s, der);
    if c.Ok? {
      ClassifySettles(env, c.s, der);
      OpenedSettled(s.handles, ContextHandle, Classify(env, c.s, der).s.handles);
    }
  }

  /** VerifyTrust only reads, releases all it opens, and finds healthy only what is there. */
  lemma VerifySettles(env: Env, s: State, der: Der)
    ensures var r := VerifyTrust(env, s, der);
            && SameMachine(s, r.s) && s.now == r.s.now && s.tick <= r.s.tick
            && Settled(s.handles, r.s.handles)
            && (r.Ok? && r.value == TrustHealthy ==> Trusted(env, s.root, env.sha(der)))
  {
    hide Settled, Holding, Release, VerifyIn, Trusted;
    SettledRefl(s.handles);
    var o := OpenStore(env, s);
    if o.Ok? {
      VerifyInSettles(env, o.s, der);
      OpenedSettled(s.handles, StoreHandle, VerifyIn(env, o.s, der).s.handles);
    }
  }

  /** A call that returned was made by a live process. */
  lemma {:induction false} SearchIsAlive(env: Env, s: State, fp: Fingerprint, prev: Option<Context>)
    ensures var out := FindBySHA256(env, s, fp, prev);
            out.Ok? ==> !out.s.dead
    decreases |s.root| - NextIndex(prev)
  {
    var r := EnumNext(env, s, prev);
    if r.Ok? && env.sha(s.root[r.value.index].der) != fp {
      SearchIsAlive(env, r.s, fp, Some(r.value));
    }
  }

  lemma VerifyIsAlive(env: Env, s: State, der: Der)
    ensures var r := VerifyTrust(env, s, der);
            r.Ok? ==> !r.s.dead
  {
    hide FindBySHA256, FirstSubject, Release;
    var o := OpenStore(env, s);
    if o.Ok? {
      var c := CreateContext(env, o.s, der);
      if c.Ok? { SearchIsAlive(env, c.s, env.sha(der), None); }
    }
  }

  // ---------- InstallTrust ----------

  /** Installing leaves Root alone, or adds exactly `der`; with honest failures only if it was not there. */
  ghost predicate RootGains(env: Env, a: seq<Anchor>, b: seq<Anchor>, der: Der) {
    || b == a
    || (b == DropFirstSame(env, a, der) + [Anchor(der, true)]
        && (HonestFailures(env) ==> !Trusted(env, a, env.sha(der))))
  }

  /** All but the store is as before, and no handle opened in between is left. */
  ghost predicate OnlyRoot(a: State, b: State) {
    && SameMachine(a.(root := b.root), b)
    && a.now == b.now && a.tick <= b.tick
    && Settled(a.handles, b.handles)
  }

  lemma InstallInSettles(env: Env, s: State, der: Der)
    ensures var r := InstallIn(env, s, der);
            && OnlyRoot(s, r.s) && RootGains(env, s.root, r.s.root, der)
            && (r.Ok? ==> Trusted(env, r.s.root, env.sha(der)))
  {
    hide Settled, Holding, Release, FindBySHA256, DropFirstSame, HonestFailures;
    FindFirst(env, s, env.sha(der));
    if HonestFailures(env) { SearchIsExact(env, s, env.sha(der)); }
    var out := FindBySHA256(env, s, env.sha(der), None);
    if out.Ok? && out.value.None? {
      OpenedAndPassed(out.s.handles, ContextHandle);
      var c := CreateContext(env, out.s, der);
      if c.Ok? {
        SettledTwice(s.handles, out.s.handles, Release(c.s.handles, c.value));
        var r := AddToStore(env, c.s, der);
        assert r.Ok? ==> r.s.root[|r.s.root| - 1] == Anchor(der, true);
      }
    }
  }

  lemma InstallSettles(env: Env, s: State, der: Der)
    ensures var r := InstallTrust(env, s, der);
            && OnlyRoot(s, r.s) && RootGains(env, s.root, r.s.root, der)
            && (r.Ok? ==> Trusted(env, r.s.root, env.sha(der)))
  {
    hide Settled, Holding, Release, InstallIn;
    SettledRefl(s.handles);
    var o := OpenStore(env, s);
    if o.Ok? {
      InstallInSettles(env, o.s, der);
      OpenedSettled(s.handles, StoreHandle, InstallIn(env, o.s, der).s.handles);
    }
  }

  // ---------- RemoveTrust ----------

  /** Removing leaves Root alone, or deletes one entry with the fingerprint and keeps the rest in order. */
  ghost predicate RootLoses(env: Env, a: seq<Anchor>, b: seq<Anchor>, fp: Fingerprint) {
    b == a || exists i :: 0 <= i < |a| && env.sha(a[i].der) == fp && b == a[..i] + a[i + 1..]
  }

  lemma RemoveSettles(env: Env, s: State, fp: Fingerprint)
    ensures var r := RemoveTrustBySHA256(env, s, fp);
            && OnlyRoot(s, r.s) && RootLoses(env, s.root, r.s.root, fp)
  {
    hide Settled, Holding, Release, FindBySHA256;
    SettledRefl(s.handles);
    var o := OpenStore(env, s);
    if o.Ok? {
      FindFirst(env, o.s, fp);
      var out := FindBySHA256(env, o.s, fp, None);
      if out.Ok? && out.value.Some? {
        var r := DeleteFromStore(env, out.s, out.value.value);
        assert r.s.handles == Release(out.s.handles, out.value.value.h);
      }
      OpenedSettled(s.handles, StoreHandle, RemoveIn(env, o.s, fp).s.handles);
    }
  }

  lemma IsTrustedSettles(env: Env, s: State, fp: Fingerprint)
    ensures var r := IsTrustedSHA256(env, s, fp);
            && SameMachine(s, r.s) && Settled(s.handles, r.s.handles)
            && (r.Ok? && r.value ==> Trusted(env, s.root, fp))
  {
    hide Settled, Holding, Release, FindBySHA256;
    SettledRefl(s.handles);
    var o := OpenStore(env, s);
    if o.Ok? {
      FindFirst(env, o.s, fp);
      OpenedSettled(s.handles, StoreHandle, IsTrustedIn(env, o.s, fp).s.handles);
    }
  }

  lemma SettledRefl(a: seq<Handle>)
    ensures Settled(a, a)
  {
  }

  // ---------- the trust adapter opens no key ----------

  ghost predicate NoSigners(a: seq<Handle>, b: seq<Handle>) {
    && |a| <= |b|
    && (forall i :: 0 <= i < |a| ==> b[i].kind == a[i].kind)
    && (forall i :: |a| <= i < |b| ==> !b[i].kind.SignerHandle?)
  }

  lemma {:induction false} FindOpensNoKey(env: Env, s: State, fp: Fingerprint, prev: Option<Context>)
    ensures NoSigners(s.handles, FindBySHA256(env, s, fp, prev).s.handles)
    decreases |s.root| - NextIndex(prev)
  {
    hide EnumNext;
    EnumNextOpens(env, s, prev);
    var r := EnumNext(env, s, prev);
    if r.Ok? && env.sha(r.s.root[r.value.index].der) != fp {
      FindOpensNoKey(env, r.s, fp, Some(r.value));
    }
  }

  lemma ClassifyOpensNoKey(env: Env, s: State, der: Der)
    ensures NoSigners(s.handles, Classify(env, s, der).s.handles)
  {
    hide FindBySHA256, FirstSubject;
    FindOpensNoKey(env, s, env.sha(der), None);
  }

  lemma ReleaseKeepsKinds(a: seq<Handle>, kind: HandleKind, b: seq<Handle>, h: nat)
    requires NoSigners(a + [Handle(kind, 0)], b) && !kind.SignerHandle?
    ensures NoSigners(a, Release(b, h))
  {
  }

  lemma VerifyOpensNoKey(env: Env, s: State, der: Der)
    ensures NoSigners(s.handles, VerifyTrust(env, s, der).s.handles)
  {
    hide Classify, NoSigners, Release;
    NoSignersRefl(s.handles);
    var o := OpenStore(env, s);
    if o.Ok? {
      var c := CreateContext(env, o.s, der);
      NoSignersRefl(o.s.handles);
      if c.Ok? {
        ClassifyOpensNoKey(env, c.s, der);
        ReleaseKeepsKinds(o.s.handles, ContextHandle, Classify(env, c.s, der).s.handles, c.value);
      }
      ReleaseKeepsKinds(s.handles, StoreHandle, VerifyIn(env, o.s, der).s.handles, o.value);
    }
  }

  lemma NoSignersRefl(a: seq<Handle>)
    ensures NoSigners(a, a)
  {
  }
}
