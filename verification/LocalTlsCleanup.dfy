/** Cleanup as it runs: four steps in order, with a growing list of errors. */
module LocalTlsCleanup {
  import opened Errors
  import opened Certificates
  import opened States
  import opened Machines
  import Trust = TrustStore
  import Root = WindowsTrustStore
  import Spec = Cleanup

  function ErrorIn<T>(r: Result<T>): Option<Error> {
    if r.Failure? then Some(r.error) else None
  }

  method RemoveAnchor(m: Machine, removal: Spec.Removal) returns (r: Result<()>)
    modifies m
    ensures Did(m.s, r) == Spec.RemoveAnchor(m.env, old(m.s), removal)
  {
    hide Trust.RemoveTrustBySHA256, IsNotExist;
    match removal {
      case SkipAnchor =>
        return Success(());
      case ByFingerprint(fp) =>
        m.s := Spec.Attempt(m.s, TrustAnchor);
        r := Root.RemoveTrustBySHA256(m, fp);
      case ByDiskCertificate =>
        m.s := Spec.Attempt(m.s, TrustAnchor);
        var der := m.Call(ReadFile(m.env, m.s, CaCert));
        if der.Failure? {
          if IsNotExist(der.error) {
            return Failure(Text("CA certificate DER is missing"));
          }
          return Failure(Wrap("read CA certificate", der.error));
        }
        r := Root.RemoveTrust(m, der.value);
    }
  }

  method RemoveStateDir(m: Machine) returns (r: Result<()>)
    modifies m
    ensures Did(m.s, r) == Spec.RemoveStateDir(m.env, old(m.s))
  {
    hide IsNotExist, Spec.RemoveAll;
    m.s := Spec.Attempt(m.s, StateDirectory);
    var stat := m.Call(Gate(m.env, m.s));
    if stat.Failure? {
      if IsNotExist(stat.error) {
        return Success(());
      }
      return Failure(Wrap("stat TLS state directory", stat.error));
    }
    if !m.s.dir {
      return Success(());
    }
    r := m.Call(Spec.RemoveAll(m.env, m.s));
    if r.Failure? {
      return Failure(Wrap("remove TLS state directory", r.error));
    }
  }

  method CleanupLocalTLS(m: Machine, deleteKeys: bool, removal: Spec.Removal) returns (r: Result<()>)
    modifies m
    ensures Did(m.s, r) == Spec.CleanupLocalTLS(m.env, old(m.s), deleteKeys, removal)
  {
    hide Spec.RemoveAnchor, Spec.DeletePersistedKey, Spec.RemoveStateDir, AlreadyAbsent;
    var errs := [];

    var anchor := RemoveAnchor(m, removal);
    errs := Spec.AppendCleanupError(errs, "remove CA trust anchor", ErrorIn(anchor));

    var ca := m.Call(Spec.DeletePersistedKey(m.env, m.s, deleteKeys, CaKey));
    errs := Spec.AppendCleanupError(errs, "delete Local-TLS CA key", ErrorIn(ca));
    var server := m.Call(Spec.DeletePersistedKey(m.env, m.s, deleteKeys, ServerKey));
    errs := Spec.AppendCleanupError(errs, "delete Local-TLS server key", ErrorIn(server));

    var dir := RemoveStateDir(m);
    if dir.Failure? {
      errs := errs + [dir.error];
    }

    var joined := JoinAll(errs);
    r := if joined.Some? then Failure(joined.value) else Success(());
  }

  method CleanupMachine(m: Machine) returns (r: Result<()>)
    modifies m
    ensures Did(m.s, r) == Spec.CleanupMachine(m.env, old(m.s))
  {
    hide Spec.CleanupLocalTLS;
    var _ :- m.Call(Setup(m.env, m.s));
    r := CleanupLocalTLS(m, true, Spec.ByDiskCertificate);
  }

  method CleanupMachineBySHA256(m: Machine, fp: Fingerprint) returns (r: Result<()>)
    modifies m
    ensures Did(m.s, r) == Spec.CleanupMachineBySHA256(m.env, old(m.s), fp)
  {
    hide Spec.CleanupLocalTLS;
    var _ :- m.Call(Setup(m.env, m.s));
    r := CleanupLocalTLS(m, true, Spec.ByFingerprint(fp));
  }
}
