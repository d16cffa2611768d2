/** The Root adapter as it runs: an enumeration loop, explicit frees, deferred closes. */
module WindowsTrustStore {
  import opened Errors
  import opened Certificates
  import opened States
  import opened Machines
  import Spec = TrustStore

  method FindCertBySHA256(m: Machine, fp: Fingerprint) returns (r: Result<Option<Spec.Context>>)
    modifies m
    ensures Did(m.s, r) == Spec.FindBySHA256(m.env, old(m.s), fp, None)
  {
    var prev: Option<Spec.Context> := None;
    while true
      invariant Spec.FindBySHA256(m.env, old(m.s), fp, None) == Spec.FindBySHA256(m.env, m.s, fp, prev)
      decreases |m.s.root| - Spec.NextIndex(prev)
    {
      var cert := m.Call(Spec.EnumNext(m.env, m.s, prev));
      if cert.Failure? {
        if IsEnumEnd(cert.error) {
          return Success(None);
        }
        return Failure(cert.error);
      }
      // prev has been released by the enumeration call.
      if m.env.sha(m.s.root[cert.value.index].der) == fp {
        return Success(Some(cert.value));
      }
      prev := Some(cert.value);
    }
  }

  method InstallTrust(m: Machine, der: Der) returns (r: Result<()>)
    modifies m
    ensures Did(m.s, r) == Spec.InstallTrust(m.env, old(m.s), der)
  {
    if IsEmpty(der) {
      return Failure(Text("empty certificate DER"));
    }
    var store :- m.Call(Spec.OpenStore(m.env, m.s));
    r := InstallInStore(m, der);
    m.Close(store);
  }

  method InstallInStore(m: Machine, der: Der) returns (r: Result<()>)
    modifies m
    ensures Did(m.s, r) == Spec.InstallIn(m.env, old(m.s), der)
  {
    hide Spec.FindBySHA256;
    var existing :- FindCertBySHA256(m, m.env.sha(der));
    if existing.Some? {
      m.Close(existing.value.h);
      return Success(());
    }
    var ctx :- m.Call(Spec.CreateContext(m.env, m.s, der));
    r := m.Call(Spec.AddToStore(m.env, m.s, der));
    m.Close(ctx);
  }

  method RemoveTrust(m: Machine, der: Der) returns (r: Result<()>)
    modifies m
    ensures Did(m.s, r) == Spec.RemoveTrust(m.env, old(m.s), der)
  {
    if IsEmpty(der) {
      return Failure(Text("empty certificate DER"));
    }
    r := RemoveTrustBySHA256(m, m.env.sha(der));
  }

  method RemoveTrustBySHA256(m: Machine, fp: Fingerprint) returns (r: Result<()>)
    modifies m
    ensures Did(m.s, r) == Spec.RemoveTrustBySHA256(m.env, old(m.s), fp)
  {
    var store :- m.Call(Spec.OpenStore(m.env, m.s));
    r := RemoveFromStore(m, fp);
    m.Close(store);
  }

  method RemoveFromStore(m: Machine, fp: Fingerprint) returns (r: Result<()>)
    modifies m
    ensures Did(m.s, r) == Spec.RemoveIn(m.env, old(m.s), fp)
  {
    hide Spec.FindBySHA256;
    var existing :- FindCertBySHA256(m, fp);
    if existing.None? {
      return Failure(Wrap("certificate not found", ErrTrustAnchorNotFound));
    }
    // Deletion takes ownership of the context: it is not closed again.
    r := m.Call(Spec.DeleteFromStore(m.env, m.s, existing.value));
  }

  method VerifyTrust(m: Machine, der: Der) returns (r: Result<Spec.TrustState>)
    modifies m
    ensures Did(m.s, r) == Spec.VerifyTrust(m.env, old(m.s), der)
  {
    hide Spec.Classify;
    if IsEmpty(der) {
      return Failure(Text("empty certificate DER"));
    }
    var store :- m.Call(Spec.OpenStore(m.env, m.s));
    var cert := m.Call(Spec.CreateContext(m.env, m.s, der));
    if cert.Failure? {
      m.Close(store);
      return Failure(cert.error);
    }
    r := Classify(m, der);
    m.Close(cert.value);
    m.Close(store);
  }

  method Classify(m: Machine, der: Der) returns (r: Result<Spec.TrustState>)
    modifies m
    ensures Did(m.s, r) == Spec.Classify(m.env, old(m.s), der)
  {
    hide Spec.FindBySHA256, Spec.FindByCN;
    var cn := m.env.displayName(der);
    var existing :- FindCertBySHA256(m, m.env.sha(der));
    if existing.Some? {
      m.Close(existing.value.h);
      return Success(Spec.TrustHealthy);
    }
    if cn != "" {
      var conflict :- m.Call(Spec.FindByCN(m.env, m.s, cn));
      if conflict.Some? {
        m.Close(conflict.value.h);
        return Success(Spec.TrustConflict);
      }
    }
    return Success(Spec.TrustAbsent);
  }

  method IsTrustedSHA256(m: Machine, fp: Fingerprint) returns (r: Result<bool>)
    modifies m
    ensures Did(m.s, r) == Spec.IsTrustedSHA256(m.env, old(m.s), fp)
  {
    hide Spec.FindBySHA256;
    var store :- m.Call(Spec.OpenStore(m.env, m.s));
    var existing := FindCertBySHA256(m, fp);
    if existing.Failure? {
      m.Close(store);
      return Failure(existing.error);
    }
    if existing.value.Some? {
      m.Close(existing.value.value.h);
    }
    m.Close(store);
    return Success(existing.value.Some?);
  }
}
