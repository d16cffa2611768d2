/** The LocalMachine\Root adapter, call by call. */
module TrustStore {
  import opened Errors
  import opened Certificates
  import opened States

  datatype TrustState = TrustHealthy | TrustAbsent | TrustConflict

  /** A certificate context: a handle on one entry of the store. */
  datatype Context = Context(h: nat, index: nat)

  function OpenStore(env: Env, s: State): Out<nat> {
    var (s, _) :- Gate(env, s);
    Ok(NewHandle(s, StoreHandle), |s.handles|)
  }

  /** `CertCreateCertificateContext`: a context on bytes in memory. */
  function CreateContext(env: Env, s: State, der: Der): Out<nat> {
    var (s, _) :- Gate(env, s);
    var (s, _) :- Check(s, der.CertDer?, "ASN.1 decode");
    Ok(NewHandle(s, ContextHandle), |s.handles|)
  }

  function ContextAt(s: State, i: nat): Out<Context> {
    Ok(NewHandle(s, ContextHandle), Context(|s.handles|, i))
  }

  function NextIndex(prev: Option<Context>): nat {
    if prev.None? then 0 else prev.value.index + 1
  }

  /** `CertEnumCertificatesInStore`: releases `prev` whatever happens; the end is reported as an error. */
  function EnumNext(env: Env, s: State, prev: Option<Context>): Out<Context> {
    var s := if prev.Some? then Close(s, prev.value.h) else s;
    var (s, _) :- Gate(env, s);
    if NextIndex(prev) < |s.root| then ContextAt(s, NextIndex(prev)) else Err(s, Errno(CRYPT_E_NOT_FOUND))
  }

  /** `findCertBySHA256`, from the context `prev` on. */
  function FindBySHA256(env: Env, s: State, fp: Fingerprint, prev: Option<Context>): Out<Option<Context>>
    decreases |s.root| - NextIndex(prev)
  {
    var r := EnumNext(env, s, prev);
    if r.Err? then
      if IsEnumEnd(r.error) then Ok(r.s, None) else Err(r.s, r.error)
    else if env.sha(r.s.root[r.value.index].der) == fp then Ok(r.s, Some(r.value))
    else FindBySHA256(env, r.s, fp, Some(r.value))
  }

  function FirstSubject(env: Env, root: seq<Anchor>, cn: string, from: nat): (i: Option<nat>)
    requires from <= |root|
    ensures i.Some? ==> from <= i.value < |root| && env.subjectHas(root[i.value].der, cn)
    ensures i.None? <==> forall j :: from <= j < |root| ==> !env.subjectHas(root[j].der, cn)
    decreases |root| - from
  {
    if from == |root| then None
    else if env.subjectHas(root[from].der, cn) then Some(from)
    else FirstSubject(env, root, cn, from + 1)
  }

  /** `findCertByCN`. */
  function FindByCN(env: Env, s: State, cn: string): Out<Option<Context>> {
    var g := Gate(env, s);
    if g.Err? then
      if IsCertNotFound(g.error) then Ok(g.s, None) else Err(g.s, g.error)
    else
      var i := FirstSubject(env, g.s.root, cn, 0);
      if i.None? then Ok(g.s, None)
      else Ok(NewHandle(g.s, ContextHandle), Some(Context(|g.s.handles|, i.value)))
  }

  // ---------- InstallTrust ----------

  /** CERT_STORE_ADD_REPLACE_EXISTING: the first entry counted as the same certificate goes. */
  function DropFirstSame(env: Env, root: seq<Anchor>, der: Der): seq<Anchor> {
    if root == [] then []
    else if env.sameCert(root[0].der, der) then root[1..]
    else [root[0]] + DropFirstSame(env, root[1..], der)
  }

  function AddToStore(env: Env, s: State, der: Der): Out<()> {
    var (s, _) :- Gate(env, s);
    Ok(s.(root := DropFirstSame(env, s.root, der) + [Anchor(der, true)]), ())
  }

  function InstallIn(env: Env, s: State, der: Der): Out<()> {
    var (s, existing) :- FindBySHA256(env, s, env.sha(der), None);
    if existing.Some? then Ok(Close(s, existing.value.h), ())
    else
      var (s, ctx) :- CreateContext(env, s, der);
      Closing(AddToStore(env, s, der), ctx)
  }

  function InstallTrust(env: Env, s: State, der: Der): Out<()> {
    var (s, _) :- Check(s, !IsEmpty(der), "empty certificate DER");
    var (s, store) :- OpenStore(env, s);
    Closing(InstallIn(env, s, der), store)
  }

  // ---------- RemoveTrust ----------

  /** `CertDeleteCertificateFromStore`: frees the context even when it fails. */
  function DeleteFromStore(env: Env, s: State, ctx: Context): Out<()> {
    var (s, _) :- Gate(env, Close(s, ctx.h));
    if ctx.index < |s.root| then Ok(s.(root := s.root[..ctx.index] + s.root[ctx.index + 1..]), ())
    else Err(s, Errno(CRYPT_E_NOT_FOUND))
  }

  function RemoveIn(env: Env, s: State, fp: Fingerprint): Out<()> {
    var (s, existing) :- FindBySHA256(env, s, fp, None);
    if existing.None? then Err(s, Wrap("certificate not found", ErrTrustAnchorNotFound))
    else DeleteFromStore(env, s, existing.value)
  }

  function RemoveTrustBySHA256(env: Env, s: State, fp: Fingerprint): Out<()> {
    var (s, store) :- OpenStore(env, s);
    Closing(RemoveIn(env, s, fp), store)
  }

  function RemoveTrust(env: Env, s: State, der: Der): Out<()> {
    var (s, _) :- Check(s, !IsEmpty(der), "empty certificate DER");
    RemoveTrustBySHA256(env, s, env.sha(der))
  }

  // ---------- VerifyTrust ----------

  function Classify(env: Env, s: State, der: Der): Out<TrustState> {
    var cn := env.displayName(der);
    var (s, existing) :- FindBySHA256(env, s, env.sha(der), None);
    if existing.Some? then Ok(Close(s, existing.value.h), TrustHealthy)
    else if cn == "" then Ok(s, TrustAbsent)
    else
      var (s, conflict) :- FindByCN(env, s, cn);
      if conflict.Some? then Ok(Close(s, conflict.value.h), TrustConflict) else Ok(s, TrustAbsent)
  }

  function VerifyIn(env: Env, s: State, der: Der): Out<TrustState> {
    var (s, ctx) :- CreateContext(env, s, der);
    Closing(Classify(env, s, der), ctx)
  }

  function VerifyTrust(env: Env, s: State, der: Der): Out<TrustState> {
    var (s, _) :- Check(s, !IsEmpty(der), "empty certificate DER");
    var (s, store) :- OpenStore(env, s);
    Closing(VerifyIn(env, s, der), store)
  }

  function IsTrustedIn(env: Env, s: State, fp: Fingerprint): Out<bool> {
    var (s, existing) :- FindBySHA256(env, s, fp, None);
    if existing.Some? then Ok(Close(s, existing.value.h), true) else Ok(s, false)
  }

  function IsTrustedSHA256(env: Env, s: State, fp: Fingerprint): Out<bool> {
    var (s, store) :- OpenStore(env, s);
    Closing(IsTrustedIn(env, s, fp), store)
  }
}
