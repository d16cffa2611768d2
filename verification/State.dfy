/** One machine, and the calls the module makes on it.

    `State` is everything a call can read or change. `Env` decides, for every call, whether it works,
    fails, or never returns because the process dies; it also supplies the clock and random draws.
    Calls are numbered by `tick`. A dead process makes no more effects, so the state left by a run that
    died in the middle is the state at the point of death. */
module States {
  import opened Errors
  import opened Validity
  import opened Certificates

  datatype File = CaCert | ServerCert
  datatype KeyName = CaKey | ServerKey

  /** An entry of LocalMachine\Root; `added` marks the ones put there by this module. */
  datatype Anchor = Anchor(der: Der, added: bool)

  datatype HandleKind = SignerHandle(name: KeyName) | StoreHandle | ContextHandle

  /** A native handle and how often it has been released. */
  datatype Handle = Handle(kind: HandleKind, releases: nat)

  datatype Artifact = TrustAnchor | PersistedKey(name: KeyName) | StateDirectory

  datatype State = State(
    dir: bool,
    files: map<File, Der>,
    temps: seq<Option<Der>>,       // temporary files by name, None once renamed or removed
    keys: map<KeyName, nat>,
    root: seq<Anchor>,
    handles: seq<Handle>,
    now: Instant,                  // the last clock reading
    attempted: seq<Artifact>,      // cleanup steps begun
    tick: nat,
    dead: bool)

  datatype Fault = Fine | Fail(error: Error) | Crash

  datatype Env = Env(
    fault: nat -> Fault,
    statFails: nat -> bool,
    setupFails: nat -> bool,             // resolving the data path or a platform seam
    clock: nat -> Instant,
    serial: nat -> Serial,
    newKey: nat -> nat,
    torn: nat -> Der,                    // what an unfinished write leaves in the temporary file
    swept: (nat, File) -> bool,          // what an unfinished directory removal has removed
    sha: Der -> Fingerprint,
    displayName: Der -> string,
    subjectHas: (Der, string) -> bool,   // CERT_FIND_SUBJECT_STR
    sameCert: (Der, Der) -> bool)        // CERT_STORE_ADD_REPLACE_EXISTING's idea of "existing"

  /** The outcome of a call: the state after it, and a value or an error. */
  datatype Out<+T> = Ok(s: State, value: T) | Err(s: State, error: Error) {
    predicate IsFailure() { Err? }
    function PropagateFailure<U>(): Out<U>
      requires Err?
    {
      Err(s, error)
    }
    function Extract(): (State, T)
      requires Ok?
    {
      (s, value)
    }
  }

  /** Stat tells the truth: a failed stat is the only way a present file is reported absent. */
  ghost predicate TruthfulStat(env: Env) {
    forall t :: !env.statFails(t)
  }

  /** A failing system call says that it failed, not that what it looked for is missing. */
  ghost predicate HonestFailures(env: Env) {
    forall t :: env.fault(t).Fail? ==> PlainFailure(env.fault(t).error)
  }

  /** No call fails or dies from call number `from` on. */
  ghost predicate NoFaults(env: Env, from: nat) {
    forall t :: t >= from ==> env.fault(t).Fine? && !env.setupFails(t)
  }

  /** Nothing at all goes wrong from call number `from` on. */
  ghost predicate Quiet(env: Env, from: nat) {
    NoFaults(env, from) && forall t :: t >= from ==> !env.statFails(t)
  }

  // ---------- every call ----------

  function Gate(env: Env, s: State): Out<()> {
    if s.dead then Err(s, Terminated)
    else
      match env.fault(s.tick)
      case Fine => Ok(s.(tick := s.tick + 1), ())
      case Fail(e) => Err(s.(tick := s.tick + 1), e)
      case Crash => Err(s.(tick := s.tick + 1, dead := true), Terminated)
  }

  /** Numbered only when it fails, so that a later attempt can succeed. */
  function Setup(env: Env, s: State): Out<()> {
    if s.dead then Err(s, Terminated)
    else if env.setupFails(s.tick) then Err(s.(tick := s.tick + 1), Text("resolve platform"))
    else Ok(s, ())
  }

  function Check(s: State, ok: bool, message: string): Out<()> {
    if ok then Ok(s, ()) else Err(s, Text(message))
  }

  function ReadClock(env: Env, s: State): Out<Instant> {
    Ok(s.(now := env.clock(s.tick)), env.clock(s.tick))
  }

  // ---------- handles ----------

  function NewHandle(s: State, kind: HandleKind): State {
    s.(handles := s.handles + [Handle(kind, 0)])
  }

  function Release(hs: seq<Handle>, h: nat): seq<Handle> {
    if h < |hs| then hs[h := hs[h].(releases := hs[h].releases + 1)] else hs
  }

  function Close(s: State, h: nat): State {
    s.(handles := Release(s.handles, h))
  }

  /** A deferred close. */
  function Closing<T>(r: Out<T>, h: nat): Out<T> {
    r.(s := Close(r.s, h))
  }

  /** A close on the error paths only. */
  function ClosingOnError<T>(r: Out<T>, h: nat): Out<T> {
    if r.Err? then r.(s := Close(r.s, h)) else r
  }

  /** Every handle opened between `a` and `b` has been released exactly once, and no other was touched. */
  ghost predicate Settled(a: seq<Handle>, b: seq<Handle>) {
    && |a| <= |b|
    && (forall i :: 0 <= i < |a| ==> b[i] == a[i])
    && (forall i :: |a| <= i < |b| ==> b[i].releases == 1)
  }

  /** The same, except for handle `h`, which was opened in between and has not been released. */
  ghost predicate Holding(a: seq<Handle>, b: seq<Handle>, h: nat) {
    && |a| <= h < |b|
    && b[h].releases == 0
    && (forall i :: 0 <= i < |a| ==> b[i] == a[i])
    && (forall i :: |a| <= i < |b| && i != h ==> b[i].releases == 1)
  }

  lemma SettledTwice(a: seq<Handle>, b: seq<Handle>, c: seq<Handle>)
    requires Settled(a, b) && Settled(b, c)
    ensures Settled(a, c)
  {
  }

  lemma HoldingReleased(a: seq<Handle>, b: seq<Handle>, h: nat)
    requires Holding(a, b, h)
    ensures Settled(a, Release(b, h))
  {
  }

  /** Open a handle, do something settled, and keep it or release it. */
  lemma OpenedSettled(a: seq<Handle>, kind: HandleKind, c: seq<Handle>)
    requires Settled(a + [Handle(kind, 0)], c)
    ensures Holding(a, c, |a|) && Settled(a, Release(c, |a|))
    ensures c[|a|].kind == kind
  {
  }

  /** Open a handle, open and keep another, and release the first. */
  lemma OpenedHolding(a: seq<Handle>, kind: HandleKind, c: seq<Handle>, h: nat)
    requires Holding(a + [Handle(kind, 0)], c, h)
    ensures Holding(a, Release(c, |a|), h)
    ensures Release(c, |a|)[h] == c[h]
  {
  }

  /** Open a handle, release it, and go on. */
  lemma OpenedAndPassed(a: seq<Handle>, kind: HandleKind)
    ensures Settled(a, Release(a + [Handle(kind, 0)], |a|))
  {
  }

  lemma ReleasesCommute(hs: seq<Handle>, a: nat, b: nat)
    ensures Release(Release(hs, a), b) == Release(Release(hs, b), a)
  {
  }

  /** Nothing but handles, the clock and the call count has changed. */
  ghost predicate SameMachine(a: State, b: State) {
    && a.dir == b.dir && a.files == b.files && a.temps == b.temps && a.keys == b.keys && a.root == b.root
    && a.attempted == b.attempted
  }

  // ---------- files ----------

  function ReadFile(env: Env, s: State, f: File): Out<Der> {
    var (s, _) :- Gate(env, s);
    if f in s.files then Ok(s, s.files[f]) else Err(s, Errno(ERROR_FILE_NOT_FOUND))
  }

  /** `fileExists`: any stat failure reads as absent. */
  function FileExists(env: Env, s: State, f: File): Out<bool> {
    if s.dead then Ok(s, false)
    else Ok(s.(tick := s.tick + 1), f in s.files && !env.statFails(s.tick))
  }

  function MkdirAll(env: Env, s: State): Out<()> {
    var (s, _) :- Gate(env, s);
    Ok(s.(dir := true), ())
  }

  /** A name no other temporary file has. */
  function CreateTemp(env: Env, s: State): Out<nat> {
    var (s, _) :- Gate(env, s);
    if !s.dir then Err(s, Errno(ERROR_PATH_NOT_FOUND))
    else Ok(s.(temps := s.temps + [Some(OtherBytes([]))]), |s.temps|)
  }

  function SetTemp(s: State, tmp: nat, contents: Option<Der>): State {
    if tmp < |s.temps| then s.(temps := s.temps[tmp := contents]) else s
  }

  /** A write that fails or is cut off leaves arbitrary contents behind. */
  function WriteTemp(env: Env, s: State, tmp: nat, data: Der): Out<()> {
    var g := Gate(env, s);
    if g.Ok? then Ok(SetTemp(g.s, tmp, Some(data)), ())
    else if s.dead then Err(s, Terminated)
    else Err(SetTemp(g.s, tmp, Some(env.torn(s.tick))), g.error)
  }

  function RemoveTemp(env: Env, s: State, tmp: nat): State {
    var g := Gate(env, s);
    if g.Ok? then SetTemp(g.s, tmp, None) else g.s
  }

  /** The target gets whatever the temporary file holds, in one step. */
  function Rename(env: Env, s: State, tmp: nat, target: File): Out<()> {
    var (s, _) :- Gate(env, s);
    if tmp < |s.temps| && s.temps[tmp].Some? then
      Ok(SetTemp(s.(files := s.files[target := s.temps[tmp].value]), tmp, None), ())
    else Err(s, Errno(ERROR_FILE_NOT_FOUND))
  }

  function RemovingOnError<T>(env: Env, r: Out<T>, tmp: nat): Out<T> {
    if r.Err? then r.(s := RemoveTemp(env, r.s, tmp)) else r
  }

  /** Sync, close, chmod, rename. */
  function Publish(env: Env, s: State, tmp: nat, target: File): Out<()> {
    var (s, _) :- RemovingOnError(env, Gate(env, s), tmp);
    var (s, _) :- RemovingOnError(env, Gate(env, s), tmp);
    var (s, _) :- RemovingOnError(env, Gate(env, s), tmp);
    RemovingOnError(env, Rename(env, s, tmp, target), tmp)
  }

  /** `atomicWrite`. */
  function AtomicWrite(env: Env, s: State, target: File, data: Der): Out<()> {
    var (s, tmp) :- CreateTemp(env, s);
    var (s, _) :- RemovingOnError(env, WriteTemp(env, s, tmp, data), tmp);
    Publish(env, s, tmp, target)
  }

  // ---------- persisted keys ----------

  datatype Signer = Signer(h: nat, pub: PublicKey)

  function OpenExisting(s: State, name: KeyName): Out<Signer>
    requires name in s.keys
  {
    Ok(NewHandle(s, SignerHandle(name)), Signer(|s.handles|, P256(s.keys[name])))
  }

  /** The calls into the key library, with `mapCNGError` applied to their failures. */
  function KeyGate(env: Env, s: State): Out<()> {
    var g := Gate(env, s);
    if g.Err? then Err(g.s, MapCngError(g.error)) else g
  }

  /** `openProductionKey`: never creates. */
  function OpenKey(env: Env, s: State, name: KeyName): Out<Signer> {
    var (s, _) :- KeyGate(env, s);
    if name in s.keys then OpenExisting(s, name) else Err(s, MapCngError(CngKeyNotFound))
  }

  /** `loadOrCreateKey`. */
  function LoadOrCreate(env: Env, s: State, name: KeyName): Out<Signer> {
    var point := env.newKey(s.tick);
    var (s, _) :- KeyGate(env, s);
    var s := if name in s.keys then s else s.(keys := s.keys[name := point]);
    OpenExisting(s, name)
  }

  /** `deleteProductionKey`. */
  function DeleteKey(env: Env, s: State, name: KeyName): Out<()> {
    var (s, _) :- KeyGate(env, s);
    if name in s.keys then Ok(s.(keys := s.keys - {name}), ())
    else Err(s, MapCngError(CngKeyNotFound))
  }

  // ---------- certificates ----------

  function ParseCertificate(s: State, der: Der): Out<Certificate> {
    var cert := Parse(der);
    if cert.Some? then Ok(s, cert.value) else Err(s, Text("parse certificate"))
  }

  function RandomSerial(env: Env, s: State): Out<Serial> {
    var serial := env.serial(s.tick);
    var (s, _) :- Gate(env, s);
    Ok(s, serial)
  }

  /** `x509.CreateCertificate` and parsing its result back. */
  function Sign(env: Env, s: State, cert: Certificate): Out<Certificate> {
    var (s, _) :- Gate(env, s);
    var (s, _) :- Check(s, Encodable(cert.window), "cannot represent time");
    ParseCertificate(s, Raw(cert))
  }

  /** `generateCAWithSigner`. */
  function GenerateCA(env: Env, s: State, now: Instant, caSigner: Signer): Out<Certificate> {
    var (s, _) :- Check(s, caSigner.pub.P256?, "CA signer must have an ECDSA P-256 public key");
    var (s, serial) :- RandomSerial(env, s);
    Sign(env, s, NewCA(now, serial, caSigner.pub))
  }

  /** `generateServerCertWithSigner`. */
  function GenerateLeaf(env: Env, s: State, now: Instant, ca: Certificate, caSigner: Signer, serverSigner: Signer)
    : Out<Certificate>
  {
    var (s, _) :- Check(s, serverSigner.pub.P256?, "server signer must have an ECDSA P-256 public key");
    var (s, serial) :- RandomSerial(env, s);
    Sign(env, s, NewLeaf(now, serial, ca, caSigner.pub, serverSigner.pub))
  }
}
