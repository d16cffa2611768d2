/** Provisioning, reload and serving as they run: calls in sequence, handles closed on every path. */
module LocalTls {
  import opened Errors
  import opened Validity
  import opened Certificates
  import opened States
  import opened Machines
  import Trust = TrustStore
  import Root = WindowsTrustStore
  import Spec = Provision

  // ---------- certificate.go ----------

  method GenerateCA(m: Machine, now: Instant, caSigner: Signer) returns (r: Result<Certificate>)
    modifies m
    ensures Did(m.s, r) == States.GenerateCA(m.env, old(m.s), now, caSigner)
  {
    hide NewCA, Encodable;
    if !caSigner.pub.P256? {
      return Failure(Text("CA signer must have an ECDSA P-256 public key"));
    }
    var serial :- m.Call(RandomSerial(m.env, m.s));
    r := m.Call(Sign(m.env, m.s, NewCA(now, serial, caSigner.pub)));
  }

  method GenerateLeaf(m: Machine, now: Instant, ca: Certificate, caSigner: Signer, serverSigner: Signer)
    returns (r: Result<Certificate>)
    modifies m
    ensures Did(m.s, r) == States.GenerateLeaf(m.env, old(m.s), now, ca, caSigner, serverSigner)
  {
    hide NewLeaf, Encodable;
    if !serverSigner.pub.P256? {
      return Failure(Text("server signer must have an ECDSA P-256 public key"));
    }
    var serial :- m.Call(RandomSerial(m.env, m.s));
    r := m.Call(Sign(m.env, m.s, NewLeaf(now, serial, ca, caSigner.pub, serverSigner.pub)));
  }

  // ---------- atomicWrite ----------

  method RemoveTemp(m: Machine, tmp: nat)
    modifies m
    ensures m.s == States.RemoveTemp(m.env, old(m.s), tmp)
  {
    m.s := States.RemoveTemp(m.env, m.s, tmp);
  }

  method AtomicWrite(m: Machine, target: File, data: Der) returns (r: Result<()>)
    modifies m
    ensures Did(m.s, r) == States.AtomicWrite(m.env, old(m.s), target, data)
  {
    hide States.Publish, States.RemoveTemp;
    var tmp :- m.Call(CreateTemp(m.env, m.s));
    r := m.Call(WriteTemp(m.env, m.s, tmp, data));
    if r.Failure? {
      RemoveTemp(m, tmp);
      return;
    }
    r := Publish(m, tmp, target);
  }

  method Publish(m: Machine, tmp: nat, target: File) returns (r: Result<()>)
    modifies m
    ensures Did(m.s, r) == States.Publish(m.env, old(m.s), tmp, target)
  {
    hide Rename, States.RemoveTemp;
    r := m.Call(Gate(m.env, m.s)); // sync
    if r.Failure? {
      RemoveTemp(m, tmp);
      return;
    }
    r := m.Call(Gate(m.env, m.s)); // close
    if r.Failure? {
      RemoveTemp(m, tmp);
      return;
    }
    r := m.Call(Gate(m.env, m.s)); // chmod
    if r.Failure? {
      RemoveTemp(m, tmp);
      return;
    }
    r := m.Call(Rename(m.env, m.s, tmp, target));
    if r.Failure? {
      RemoveTemp(m, tmp);
    }
  }

  // ---------- first install ----------

  method FirstProvision(m: Machine) returns (r: Result<Spec.Material>)
    modifies m
    ensures Did(m.s, r) == Spec.FirstProvision(m.env, old(m.s))
  {
    hide Spec.FirstWithCaKey, LoadOrCreate;
    var _ :- m.Call(MkdirAll(m.env, m.s));
    var clock := m.Call(ReadClock(m.env, m.s));
    var now := clock.value;
    var caSigner :- m.Call(LoadOrCreate(m.env, m.s, CaKey));
    r := FirstWithCaKey(m, now, caSigner);
    m.Close(caSigner.h);
  }

  method FirstWithCaKey(m: Machine, now: Instant, caSigner: Signer) returns (r: Result<Spec.Material>)
    modifies m
    ensures Did(m.s, r) == Spec.FirstWithCaKey(m.env, old(m.s), now, caSigner)
  {
    hide Spec.FirstWithKeys, States.GenerateCA, LoadOrCreate;
    var ca :- GenerateCA(m, now, caSigner);
    var serverSigner :- m.Call(LoadOrCreate(m.env, m.s, ServerKey));
    r := FirstWithKeys(m, now, ca, caSigner, serverSigner);
    var keepServerSigner := r.Success?;
    if !keepServerSigner {
      m.Close(serverSigner.h);
    }
  }

  method FirstWithKeys(m: Machine, now: Instant, ca: Certificate, caSigner: Signer, serverSigner: Signer)
    returns (r: Result<Spec.Material>)
    modifies m
    ensures Did(m.s, r) == Spec.FirstWithKeys(m.env, old(m.s), now, ca, caSigner, serverSigner)
  {
    hide States.GenerateLeaf, States.AtomicWrite, Trust.InstallTrust;
    var leaf :- GenerateLeaf(m, now, ca, caSigner, serverSigner);
    var _ :- AtomicWrite(m, CaCert, Raw(ca));
    var _ :- AtomicWrite(m, ServerCert, Raw(leaf));
    var _ :- Root.InstallTrust(m, Raw(ca));
    return Success(Spec.MaterialFrom(m.env, ca, leaf, serverSigner));
  }

  // ---------- reload through a key store ----------

  /** `loadCASigner` and `loadServerSigner`. */
  method LoadPair(m: Machine, f: File, name: KeyName) returns (r: Result<Spec.Pair>)
    modifies m
    ensures Did(m.s, r) == Spec.LoadPair(m.env, old(m.s), f, name)
  {
    hide LoadOrCreate, PublicKeyMatches;
    var der :- m.Call(ReadFile(m.env, m.s, f));
    var cert :- m.Call(ParseCertificate(m.s, der));
    var signer :- m.Call(LoadOrCreate(m.env, m.s, name));
    if !PublicKeyMatches(cert, signer.pub) {
      m.Close(signer.h);
      return Failure(Text("cert/key mismatch"));
    }
    return Success(Spec.Pair(cert, signer));
  }

  method EnsureTrust(m: Machine, ca: Certificate, repairTrust: bool) returns (r: Result<()>)
    modifies m
    ensures Did(m.s, r) == Spec.EnsureTrust(m.env, old(m.s), ca, repairTrust)
  {
    hide Trust.VerifyTrust, Trust.InstallTrust;
    var state :- Root.VerifyTrust(m, Raw(ca));
    match state {
      case TrustHealthy =>
        return Success(());
      case TrustAbsent =>
        if !repairTrust {
          return Failure(Text("CA not trusted"));
        }
        var _ :- Root.InstallTrust(m, Raw(ca));
        var reinstalled :- Root.VerifyTrust(m, Raw(ca));
        if reinstalled != Trust.TrustHealthy {
          return Failure(Text("CA trust reinstall did not restore trust"));
        }
        return Success(());
      case TrustConflict =>
        return Failure(Text("CA not trusted"));
    }
  }

  method RenewIfDue(m: Machine, ca: Certificate, caSigner: Signer, leaf: Certificate, serverSigner: Signer)
    returns (r: Result<Certificate>)
    modifies m
    ensures Did(m.s, r) == Spec.RenewIfDue(m.env, old(m.s), ca, caSigner, leaf, serverSigner)
  {
    hide States.GenerateLeaf, States.AtomicWrite, CurrentlyValid;
    var needsRenewal, serverCert := false, leaf;
    var clock := m.Call(ReadClock(m.env, m.s));
    var now := clock.value;
    if now > serverCert.window.notAfter || Sub(serverCert.window.notAfter, now) <= RENEWAL_THRESHOLD {
      needsRenewal := true;
    }
    if needsRenewal {
      if !CurrentlyValid(ca.window, now) {
        return Failure(Text("CA recovery/reprovisioning required"));
      }
      var next :- GenerateLeaf(m, now, ca, caSigner, serverSigner);
      var _ :- AtomicWrite(m, ServerCert, Raw(next));
      serverCert := next;
    }
    return Success(serverCert);
  }

  method ReloadWithKeyStore(m: Machine, repairTrust: bool) returns (r: Result<Spec.Material>)
    modifies m
    ensures Did(m.s, r) == Spec.ReloadWithKeyStore(m.env, old(m.s), repairTrust)
  {
    hide Spec.LoadPair, Spec.ReloadWithCa;
    var ca :- LoadPair(m, CaCert, CaKey);
    r := ReloadWithCa(m, ca, repairTrust);
    m.Close(ca.signer.h);
  }

  method ReloadWithCa(m: Machine, ca: Spec.Pair, repairTrust: bool) returns (r: Result<Spec.Material>)
    modifies m
    ensures Did(m.s, r) == Spec.ReloadWithCa(m.env, old(m.s), ca, repairTrust)
  {
    hide Spec.LoadPair, Spec.ReloadWithPairs;
    var server :- LoadPair(m, ServerCert, ServerKey);
    r := ReloadWithPairs(m, ca, server, repairTrust);
    var keepServerSigner := r.Success?;
    if !keepServerSigner {
      m.Close(server.signer.h);
    }
  }

  method ReloadWithPairs(m: Machine, ca: Spec.Pair, server: Spec.Pair, repairTrust: bool)
    returns (r: Result<Spec.Material>)
    modifies m
    ensures Did(m.s, r) == Spec.ReloadWithPairs(m.env, old(m.s), ca, server, repairTrust)
  {
    hide Spec.EnsureTrust, Spec.RenewIfDue, ValidSan, IssuedBy;
    if !IssuedBy(server.cert, ca.cert) {
      return Failure(Text("server certificate was not issued by our CA"));
    }
    var san := ValidateSAN(server.cert);
    if !san {
      return Failure(Text("server certificate SAN"));
    }
    var _ :- EnsureTrust(m, ca.cert, repairTrust);
    var leaf :- RenewIfDue(m, ca.cert, ca.signer, server.cert, server.signer);
    return Success(Spec.MaterialFrom(m.env, ca.cert, leaf, server.signer));
  }

  method ProvisionWithKeyStore(m: Machine, repairTrust: bool) returns (r: Result<Spec.Material>)
    modifies m
    ensures Did(m.s, r) == Spec.ProvisionWithKeyStore(m.env, old(m.s), repairTrust)
  {
    hide Spec.FirstProvision, Spec.ReloadWithKeyStore;
    var caDer := m.Call(FileExists(m.env, m.s, CaCert));
    if !caDer.value {
      r := FirstProvision(m);
      return;
    }
    var serverDer := m.Call(FileExists(m.env, m.s, ServerCert));
    if !serverDer.value {
      r := FirstProvision(m);
      return;
    }
    r := ReloadWithKeyStore(m, repairTrust);
  }

  // ---------- ProvisionMachine ----------

  method ProbeKey(m: Machine, name: KeyName) returns (r: Result<bool>)
    modifies m
    ensures Did(m.s, r) == Spec.ProbeKey(m.env, old(m.s), name)
  {
    hide OpenKey, Is;
    var signer := m.Call(OpenKey(m.env, m.s, name));
    if signer.Failure? {
      if Is(signer.error, ErrKeyNotFound) {
        return Success(false);
      }
      return Failure(signer.error);
    }
    m.Close(signer.value.h);
    return Success(true);
  }

  method CheckInconsistentMachineState(m: Machine) returns (r: Result<bool>)
    modifies m
    ensures Did(m.s, r) == Spec.CheckInconsistent(m.env, old(m.s))
  {
    hide Spec.ProbeKey;
    var caDer := m.Call(FileExists(m.env, m.s, CaCert));
    var serverDer := m.Call(FileExists(m.env, m.s, ServerCert));
    if caDer.value != serverDer.value {
      return Success(true);
    }
    var caKey :- ProbeKey(m, CaKey);
    var serverKey :- ProbeKey(m, ServerKey);
    return Success(Spec.Inconsistent(caDer.value, serverDer.value, caKey, serverKey));
  }

  method ProvisionMachine(m: Machine) returns (r: Result<Spec.Material>)
    modifies m
    ensures Did(m.s, r) == Spec.ProvisionMachine(m.env, old(m.s))
  {
    hide Spec.CheckInconsistent, Spec.ProvisionWithKeyStore;
    var _ :- m.Call(Setup(m.env, m.s));
    var inconsistent :- CheckInconsistentMachineState(m);
    if inconsistent {
      return Failure(Text("inconsistent machine state"));
    }
    r := ProvisionWithKeyStore(m, true);
  }

  // ---------- ReloadMachine ----------

  method ReloadMachine(m: Machine) returns (r: Result<Spec.Material>)
    modifies m
    ensures Did(m.s, r) == Spec.ReloadMachine(m.env, old(m.s))
  {
    hide Trust.VerifyTrust, Spec.RenewIfDue, OpenKey, ValidSan, IssuedBy, PublicKeyMatches;
    var _ :- m.Call(Setup(m.env, m.s));
    var caDer :- m.Call(ReadFile(m.env, m.s, CaCert));
    var ca :- m.Call(ParseCertificate(m.s, caDer));
    var caSigner :- m.Call(OpenKey(m.env, m.s, CaKey));
    if !PublicKeyMatches(ca, caSigner.pub) {
      m.Close(caSigner.h);
      return Failure(Text("cert/key mismatch"));
    }

    var serverDer := m.Call(ReadFile(m.env, m.s, ServerCert));
    if serverDer.Failure? {
      m.Close(caSigner.h);
      return Failure(serverDer.error);
    }
    var server := m.Call(ParseCertificate(m.s, serverDer.value));
    if server.Failure? {
      m.Close(caSigner.h);
      return Failure(server.error);
    }
    var serverSigner := m.Call(OpenKey(m.env, m.s, ServerKey));
    if serverSigner.Failure? {
      m.Close(caSigner.h);
      return Failure(serverSigner.error);
    }
    if !PublicKeyMatches(server.value, serverSigner.value.pub) {
      ReleasesCommute(m.s.handles, caSigner.h, serverSigner.value.h);
      m.Close(caSigner.h);
      m.Close(serverSigner.value.h);
      return Failure(Text("cert/key mismatch"));
    }
    r := FinishReload(m, Spec.Pair(ca, caSigner), Spec.Pair(server.value, serverSigner.value));
  }

  method CloseBoth(m: Machine, ca: Signer, server: Signer)
    modifies m
    ensures m.s == States.Close(States.Close(old(m.s), ca.h), server.h)
  {
    m.Close(ca.h);
    m.Close(server.h);
  }

  method FinishReload(m: Machine, ca: Spec.Pair, server: Spec.Pair) returns (r: Result<Spec.Material>)
    modifies m
    ensures Did(m.s, r) == Spec.FinishReload(m.env, old(m.s), ca, server)
  {
    hide Trust.VerifyTrust, Spec.RenewIfDue, ValidSan, IssuedBy, Release;
    if !IssuedBy(server.cert, ca.cert) {
      CloseBoth(m, ca.signer, server.signer);
      return Failure(Text("server certificate was not issued by our CA"));
    }
    var san := ValidateSAN(server.cert);
    if !san {
      CloseBoth(m, ca.signer, server.signer);
      return Failure(Text("server certificate SAN"));
    }
    var platform := m.Call(Setup(m.env, m.s));
    if platform.Failure? {
      CloseBoth(m, ca.signer, server.signer);
      return Failure(platform.error);
    }
    var state := Root.VerifyTrust(m, Raw(ca.cert));
    if state.Failure? {
      CloseBoth(m, ca.signer, server.signer);
      return Failure(state.error);
    }
    if state.value != Trust.TrustHealthy {
      CloseBoth(m, ca.signer, server.signer);
      return Failure(Text("CA not trusted"));
    }
    var leaf := RenewIfDue(m, ca.cert, ca.signer, server.cert, server.signer);
    if leaf.Failure? {
      CloseBoth(m, ca.signer, server.signer);
      return Failure(leaf.error);
    }
    m.Close(ca.signer.h);
    return Success(Spec.MaterialFrom(m.env, ca.cert, leaf.value, server.signer));
  }

  // ---------- LoadServingMaterial ----------

  method LoadServingMaterial(m: Machine) returns (r: Result<Spec.Material>)
    modifies m
    ensures Did(m.s, r) == Spec.LoadServingMaterial(m.env, old(m.s))
  {
    hide Spec.ServeOpened, OpenKey;
    var _ :- m.Call(Setup(m.env, m.s));
    var caDer :- m.Call(ReadFile(m.env, m.s, CaCert));
    var ca :- m.Call(ParseCertificate(m.s, caDer));
    var serverDer :- m.Call(ReadFile(m.env, m.s, ServerCert));
    var server :- m.Call(ParseCertificate(m.s, serverDer));
    var serverSigner :- m.Call(OpenKey(m.env, m.s, ServerKey));
    var platform := m.Call(Setup(m.env, m.s));
    if platform.Failure? {
      m.Close(serverSigner.h);
      return Failure(platform.error);
    }
    r := ServeOpened(m, ca, server, serverSigner);
  }

  method ServeOpened(m: Machine, ca: Certificate, server: Certificate, serverSigner: Signer)
    returns (r: Result<Spec.Material>)
    modifies m
    ensures Did(m.s, r) == ClosingOnError(Spec.ServeOpened(m.env, old(m.s), ca, server, serverSigner), serverSigner.h)
  {
    hide Trust.VerifyTrust, ValidSan, IssuedBy, PublicKeyMatches, Release;
    if !PublicKeyMatches(server, serverSigner.pub) {
      m.Close(serverSigner.h);
      return Failure(Text("server cert/key mismatch"));
    }
    if !IssuedBy(server, ca) {
      m.Close(serverSigner.h);
      return Failure(Text("server certificate was not issued by our CA"));
    }
    var san := ValidateSAN(server);
    if !san {
      m.Close(serverSigner.h);
      return Failure(Text("server certificate SAN"));
    }
    var state := Root.VerifyTrust(m, Raw(ca));
    if state.Failure? {
      m.Close(serverSigner.h);
      return Failure(state.error);
    }
    if state.value != Trust.TrustHealthy {
      m.Close(serverSigner.h);
      return Failure(Text("CA not trusted"));
    }
    return Success(Spec.MaterialFrom(m.env, ca, server, serverSigner));
  }

  method CloseMaterial(m: Machine, material: Spec.Material)
    modifies m
    ensures m.s == Spec.CloseMaterial(old(m.s), material)
  {
    m.Close(material.signer.h);
  }
}
