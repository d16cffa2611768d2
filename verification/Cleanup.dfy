/** Best-effort cleanup with error aggregation. */
module Cleanup {
  import opened Errors
  import opened Certificates
  import opened States
  import opened TrustStore

  /** Which trust-anchor removal a caller passes to `cleanupLocalTLS`. */
  datatype Removal = SkipAnchor | ByDiskCertificate | ByFingerprint(fp: Fingerprint)

  /** `appendCleanupError`: "already absent" is not an error. */
  function AppendCleanupError(errs: seq<Error>, op: string, err: Option<Error>): seq<Error> {
    if err.None? || AlreadyAbsent(err.value) then errs else errs + [Wrap(op, err.value)]
  }

  function ErrorOf<T>(r: Out<T>): Option<Error> {
    if r.Err? then Some(r.error) else None
  }

  function Attempt(s: State, a: Artifact): State {
    if s.dead then s else s.(attempted := s.attempted + [a])
  }

  /** The `removeTrust` closures of `CleanupMachine` and `CleanupMachineBySHA256`. */
  function RemoveAnchor(env: Env, s: State, removal: Removal): Out<()> {
    match removal
    case SkipAnchor => Ok(s, ())
    case ByFingerprint(fp) => RemoveTrustBySHA256(env, Attempt(s, TrustAnchor), fp)
    case ByDiskCertificate =>
      var r := ReadFile(env, Attempt(s, TrustAnchor), CaCert);
      if r.Err? then
        if IsNotExist(r.error) then Err(r.s, Text("CA certificate DER is missing"))
        else Err(r.s, Wrap("read CA certificate", r.error))
      else RemoveTrust(env, r.s, r.value)
  }

  function DeletePersistedKey(env: Env, s: State, deleteKeys: bool, name: KeyName): Out<()> {
    if deleteKeys then DeleteKey(env, Attempt(s, PersistedKey(name)), name) else Ok(s, ())
  }

  /** `os.RemoveAll`: a failure or a crash may leave part of the directory. */
  function RemoveAll(env: Env, s: State): Out<()> {
    var g := Gate(env, s);
    if g.Ok? then Ok(g.s.(files := map[], temps := [], dir := false), ())
    else if s.dead then Err(s, Terminated)
    else Err(g.s.(files := map f | f in g.s.files && !env.swept(s.tick, f) :: g.s.files[f]), g.error)
  }

  /** `removeStateDir`. */
  function RemoveStateDir(env: Env, s: State): Out<()> {
    var g := Gate(env, Attempt(s, StateDirectory));
    if g.Err? then
      if IsNotExist(g.error) then Ok(g.s, ()) else Err(g.s, Wrap("stat TLS state directory", g.error))
    else if !g.s.dir then Ok(g.s, ())
    else
      var r := RemoveAll(env, g.s);
      if r.Err? then Err(r.s, Wrap("remove TLS state directory", r.error)) else r
  }

  /** What `cleanupLocalTLS` returns for the outcomes of its four steps. */
  function Aggregate(anchor: Option<Error>, ca: Option<Error>, server: Option<Error>, dir: Option<Error>)
    : Option<Error>
  {
    var errs := AppendCleanupError([], "remove CA trust anchor", anchor);
    var errs := AppendCleanupError(errs, "delete Local-TLS CA key", ca);
    var errs := AppendCleanupError(errs, "delete Local-TLS server key", server);
    JoinAll(if dir.Some? then errs + [dir.value] else errs)
  }

  datatype Steps = Steps(anchor: Out<()>, ca: Out<()>, server: Out<()>, dir: Out<()>)

  /** The four steps, each on the state the one before left, whether or not that one failed. */
  function CleanupSteps(env: Env, s: State, deleteKeys: bool, removal: Removal): Steps {
    var anchor := RemoveAnchor(env, s, removal);
    var ca := DeletePersistedKey(env, anchor.s, deleteKeys, CaKey);
    var server := DeletePersistedKey(env, ca.s, deleteKeys, ServerKey);
    Steps(anchor, ca, server, RemoveStateDir(env, server.s))
  }

  /** `cleanupLocalTLS`. */
  function CleanupLocalTLS(env: Env, s: State, deleteKeys: bool, removal: Removal): Out<()> {
    var t := CleanupSteps(env, s, deleteKeys, removal);
    var err := Aggregate(ErrorOf(t.anchor), ErrorOf(t.ca), ErrorOf(t.server), ErrorOf(t.dir));
    if err.Some? then Err(t.dir.s, err.value) else Ok(t.dir.s, ())
  }

  function CleanupMachine(env: Env, s: State): Out<()> {
    var (s, _) :- Setup(env, s);
    CleanupLocalTLS(env, s, true, ByDiskCertificate)
  }

  function CleanupMachineBySHA256(env: Env, s: State, fp: Fingerprint): Out<()> {
    var (s, _) :- Setup(env, s);
    CleanupLocalTLS(env, s, true, ByFingerprint(fp))
  }
}
