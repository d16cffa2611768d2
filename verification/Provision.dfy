/** Provisioning, reload and serving, as functions from a state to an outcome. */
module Provision {
  import opened Errors
  import opened Validity
  import opened Certificates
  import opened States
  import opened TrustStore

  /** `signer` is the handle behind the serving certificate's private key. */
  datatype Material = Material(ca: Certificate, leaf: Certificate, caFingerprint: Fingerprint, signer: Signer)

  datatype Pair = Pair(cert: Certificate, signer: Signer)

  function MaterialFrom(env: Env, ca: Certificate, leaf: Certificate, signer: Signer): Material {
    Material(ca, leaf, env.sha(Raw(ca)), signer)
  }

  /** `provisionStateInconsistent`. */
  predicate Inconsistent(caDer: bool, serverDer: bool, caKey: bool, serverKey: bool) {
    if caDer != serverDer then true
    else if !caDer then caKey || serverKey
    else !(caKey && serverKey)
  }

  // ---------- first install ----------

  function FirstProvision(env: Env, s: State): Out<Material> {
    var (s, _) :- MkdirAll(env, s);
    var (s, now) :- ReadClock(env, s);
    var (s, caSigner) :- LoadOrCreate(env, s, CaKey);
    Closing(FirstWithCaKey(env, s, now, caSigner), caSigner.h)
  }

  function FirstWithCaKey(env: Env, s: State, now: Instant, caSigner: Signer): Out<Material> {
    var (s, ca) :- GenerateCA(env, s, now, caSigner);
    var (s, serverSigner) :- LoadOrCreate(env, s, ServerKey);
    ClosingOnError(FirstWithKeys(env, s, now, ca, caSigner, serverSigner), serverSigner.h)
  }

  function FirstWithKeys(env: Env, s: State, now: Instant, ca: Certificate, caSigner: Signer, serverSigner: Signer)
    : Out<Material>
  {
    var (s, leaf) :- GenerateLeaf(env, s, now, ca, caSigner, serverSigner);
    var (s, _) :- AtomicWrite(env, s, CaCert, Raw(ca));
    var (s, _) :- AtomicWrite(env, s, ServerCert, Raw(leaf));
    var (s, _) :- InstallTrust(env, s, Raw(ca));
    Ok(s, MaterialFrom(env, ca, leaf, serverSigner))
  }

  // ---------- reload through a key store ----------

  /** Read a certificate file and parse it. */
  function ReadCertificate(env: Env, s: State, f: File): Out<Certificate> {
    var (s, der) :- ReadFile(env, s, f);
    ParseCertificate(s, der)
  }

  /** `loadCASigner` and `loadServerSigner`. */
  function LoadPair(env: Env, s: State, f: File, name: KeyName): Out<Pair> {
    var (s, cert) :- ReadCertificate(env, s, f);
    var (s, signer) :- LoadOrCreate(env, s, name);
    ClosingOnError(
      if PublicKeyMatches(cert, signer.pub) then Ok(s, Pair(cert, signer)) else Err(s, Text("cert/key mismatch")),
      signer.h)
  }

  /** The trust switch of `reloadWithKeyStore`. */
  function EnsureTrust(env: Env, s: State, ca: Certificate, repairTrust: bool): Out<()> {
    var (s, state) :- VerifyTrust(env, s, Raw(ca));
    match state
    case TrustHealthy => Ok(s, ())
    case TrustAbsent =>
      var (s, _) :- Check(s, repairTrust, "CA not trusted");
      var (s, _) :- InstallTrust(env, s, Raw(ca));
      var (s, reinstalled) :- VerifyTrust(env, s, Raw(ca));
      Check(s, reinstalled == TrustHealthy, "CA trust reinstall did not restore trust")
    case TrustConflict => Err(s, Text("CA not trusted"))
  }

  /** Issue a leaf for the same server key and put it in place of the old one. */
  function ReplaceLeaf(env: Env, s: State, now: Instant, ca: Certificate, caSigner: Signer, serverSigner: Signer)
    : Out<Certificate>
  {
    var (s, next) :- GenerateLeaf(env, s, now, ca, caSigner, serverSigner);
    var (s, _) :- AtomicWrite(env, s, ServerCert, Raw(next));
    Ok(s, next)
  }

  function RenewIfDue(env: Env, s: State, ca: Certificate, caSigner: Signer, leaf: Certificate, serverSigner: Signer)
    : Out<Certificate>
  {
    var (s, now) :- ReadClock(env, s);
    if !RenewalDue(leaf.window.notAfter, now) then Ok(s, leaf)
    else
      var (s, _) :- Check(s, CurrentlyValid(ca.window, now), "CA recovery/reprovisioning required");
      ReplaceLeaf(env, s, now, ca, caSigner, serverSigner)
  }

  function ReloadWithKeyStore(env: Env, s: State, repairTrust: bool): Out<Material> {
    var (s, ca) :- LoadPair(env, s, CaCert, CaKey);
    Closing(ReloadWithCa(env, s, ca, repairTrust), ca.signer.h)
  }

  function ReloadWithCa(env: Env, s: State, ca: Pair, repairTrust: bool): Out<Material> {
    var (s, server) :- LoadPair(env, s, ServerCert, ServerKey);
    ClosingOnError(ReloadWithPairs(env, s, ca, server, repairTrust), server.signer.h)
  }

  function ReloadWithPairs(env: Env, s: State, ca: Pair, server: Pair, repairTrust: bool): Out<Material> {
    var (s, _) :- Check(s, IssuedBy(server.cert, ca.cert), "server certificate was not issued by our CA");
    var (s, _) :- Check(s, ValidSan(server.cert), "server certificate SAN");
    var (s, _) :- EnsureTrust(env, s, ca.cert, repairTrust);
    var (s, leaf) :- RenewIfDue(env, s, ca.cert, ca.signer, server.cert, server.signer);
    Ok(s, MaterialFrom(env, ca.cert, leaf, server.signer))
  }

  /** `provisionWithKeyStore`. */
  function ProvisionWithKeyStore(env: Env, s: State, repairTrust: bool): Out<Material> {
    var (s, caDer) :- FileExists(env, s, CaCert);
    if !caDer then FirstProvision(env, s)
    else
      var (s, serverDer) :- FileExists(env, s, ServerCert);
      if !serverDer then FirstProvision(env, s)
      else ReloadWithKeyStore(env, s, repairTrust)
  }

  // ---------- ProvisionMachine ----------

  /** `probeKey`: open-only; absent is an answer, any other failure is an error. */
  function ProbeKey(env: Env, s: State, name: KeyName): Out<bool> {
    var r := OpenKey(env, s, name);
    if r.Ok? then Ok(Close(r.s, r.value.h), true)
    else if Is(r.error, ErrKeyNotFound) then Ok(r.s, false)
    else Err(r.s, r.error)
  }

  /** `checkInconsistentMachineState`. */
  function CheckInconsistent(env: Env, s: State): Out<bool> {
    var (s, caDer) :- FileExists(env, s, CaCert);
    var (s, serverDer) :- FileExists(env, s, ServerCert);
    if caDer != serverDer then Ok(s, true)
    else
      var (s, caKey) :- ProbeKey(env, s, CaKey);
      var (s, serverKey) :- ProbeKey(env, s, ServerKey);
      Ok(s, Inconsistent(caDer, serverDer, caKey, serverKey))
  }

  function ProvisionMachine(env: Env, s: State): Out<Material> {
    var (s, _) :- Setup(env, s);
    var (s, inconsistent) :- CheckInconsistent(env, s);
    var (s, _) :- Check(s, !inconsistent, "inconsistent machine state");
    ProvisionWithKeyStore(env, s, true)
  }

  // ---------- ReloadMachine ----------

  /** Read a certificate, open (never create) its key, and compare the two. */
  function OpenPair(env: Env, s: State, f: File, name: KeyName): Out<Pair> {
    var (s, cert) :- ReadCertificate(env, s, f);
    var (s, signer) :- OpenKey(env, s, name);
    ClosingOnError(
      if PublicKeyMatches(cert, signer.pub) then Ok(s, Pair(cert, signer)) else Err(s, Text("cert/key mismatch")),
      signer.h)
  }

  function ReloadMachine(env: Env, s: State): Out<Material> {
    var (s, _) :- Setup(env, s);
    var (s, ca) :- OpenPair(env, s, CaCert, CaKey);
    var (s, server) :- ClosingOnError(OpenPair(env, s, ServerCert, ServerKey), ca.signer.h);
    FinishReload(env, s, ca, server)
  }

  /** `ReloadMachine` once both keys are open: every error closes both, success closes the CA's. */
  function FinishReload(env: Env, s: State, ca: Pair, server: Pair): Out<Material> {
    var (s, leaf) :- ClosingOnError(ClosingOnError(ReloadOpened(env, s, ca, server), ca.signer.h), server.signer.h);
    Ok(Close(s, ca.signer.h), MaterialFrom(env, ca.cert, leaf, server.signer))
  }

  function ReloadOpened(env: Env, s: State, ca: Pair, server: Pair): Out<Certificate> {
    var (s, _) :- Check(s, IssuedBy(server.cert, ca.cert), "server certificate was not issued by our CA");
    var (s, _) :- Check(s, ValidSan(server.cert), "server certificate SAN");
    var (s, _) :- Setup(env, s);
    var (s, state) :- VerifyTrust(env, s, Raw(ca.cert));
    var (s, _) :- Check(s, state == TrustHealthy, "CA not trusted");
    RenewIfDue(env, s, ca.cert, ca.signer, server.cert, server.signer)
  }

  // ---------- LoadServingMaterial ----------

  function LoadServingMaterial(env: Env, s: State): Out<Material> {
    var (s, _) :- Setup(env, s);
    var (s, ca) :- ReadCertificate(env, s, CaCert);
    var (s, server) :- ReadCertificate(env, s, ServerCert);
    var (s, serverSigner) :- OpenKey(env, s, ServerKey);
    var (s, _) :- ClosingOnError(Setup(env, s), serverSigner.h);
    ClosingOnError(ServeOpened(env, s, ca, server, serverSigner), serverSigner.h)
  }

  /** The checks of `loadServingMaterial`. */
  function ServeOpened(env: Env, s: State, ca: Certificate, server: Certificate, serverSigner: Signer): Out<Material> {
    var (s, _) :- Check(s, PublicKeyMatches(server, serverSigner.pub), "server cert/key mismatch");
    var (s, _) :- Check(s, IssuedBy(server, ca), "server certificate was not issued by our CA");
    var (s, _) :- Check(s, ValidSan(server), "server certificate SAN");
    var (s, state) :- VerifyTrust(env, s, Raw(ca));
    var (s, _) :- Check(s, state == TrustHealthy, "CA not trusted");
    Ok(s, MaterialFrom(env, ca, server, serverSigner))
  }

  /** `Material.Close`. */
  function CloseMaterial(s: State, m: Material): State {
    Close(s, m.signer.h)
  }
}
