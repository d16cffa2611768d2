/** Runs: sequences of entry-point calls on one machine, with process deaths in between, and the
    ownership of signer handles over them. */
module Runs {
  import opened Errors
  import opened Certificates
  import opened States
  import opened TrustStoreProofs
  import opened Provision
  import opened ProvisionProofs
  import opened Cleanup
  import opened CleanupProofs

  datatype Op =
    | CallProvision
    | CallReload
    | CallServe
    | CallClose(i: nat)                  // Close on the i-th Material still held
    | CallCleanup
    | CallCleanupBy(fp: Fingerprint)
    | Exit                               // the process ends; handles go with it

  /** A machine, and the Materials its current process holds and has not closed. */
  datatype System = System(s: State, held: seq<Material>)

  /** A dead process takes its handles with it; the next call is made by a new one. */
  function Restart(s: State): System {
    System(s.(dead := false, handles := []), [])
  }

  function Land(held: seq<Material>, r: Out<Material>): System {
    if r.s.dead then Restart(r.s)
    else if r.Ok? then System(r.s, held + [r.value])
    else System(r.s, held)
  }

  function Settle(held: seq<Material>, r: Out<()>): System {
    if r.s.dead then Restart(r.s) else System(r.s, held)
  }

  function Without(held: seq<Material>, i: nat): seq<Material>
    requires i < |held|
  {
    held[..i] + held[i + 1..]
  }

  function Step(env: Env, sys: System, op: Op): System {
    match op
    case CallProvision => Land(sys.held, ProvisionMachine(env, sys.s))
    case CallReload => Land(sys.held, ReloadMachine(env, sys.s))
    case CallServe => Land(sys.held, LoadServingMaterial(env, sys.s))
    case CallClose(i) =>
      if i < |sys.held| then System(CloseMaterial(sys.s, sys.held[i]), Without(sys.held, i)) else sys
    case CallCleanup => Settle(sys.held, CleanupMachine(env, sys.s))
    case CallCleanupBy(fp) => Settle(sys.held, CleanupMachineBySHA256(env, sys.s, fp))
    case Exit => Restart(sys.s)
  }

  function Run(env: Env, sys: System, ops: seq<Op>): System
    decreases |ops|
  {
    if ops == [] then sys else Run(env, Step(env, sys, ops[0]), ops[1..])
  }

  predicate NoCleanup(ops: seq<Op>) {
    forall op :: op in ops ==> !op.CallCleanup? && !op.CallCleanupBy?
  }

  // ---------- linear ownership ----------

  /** The open handles are exactly the signers of the Materials still held, each once, and every other
      handle has been released exactly once. */
  ghost predicate Balanced(sys: System) {
    && HeldOpen(sys.s.handles, sys.held)
    && HeldApart(sys.held)
    && RestReleased(sys.s.handles, sys.held)
  }

  ghost predicate HeldOpen(hs: seq<Handle>, held: seq<Material>) {
    forall m :: m in held ==> m.signer.h < |hs| && hs[m.signer.h] == Handle(SignerHandle(ServerKey), 0)
  }

  ghost predicate HeldApart(held: seq<Material>) {
    forall j, k :: 0 <= j < k < |held| ==> held[j].signer.h != held[k].signer.h
  }

  ghost predicate Holds(held: seq<Material>, h: nat) {
    exists m :: m in held && m.signer.h == h
  }

  ghost predicate RestReleased(hs: seq<Handle>, held: seq<Material>) {
    forall h :: 0 <= h < |hs| ==> hs[h].releases == 1 || Holds(held, h)
  }

  lemma LandBalanced(sys: System, r: Out<Material>)
    requires Balanced(sys) && Owned(sys.s, r)
    ensures Balanced(Land(sys.held, r))
  {
  }

  lemma CloseBalanced(sys: System, i: nat)
    requires Balanced(sys) && i < |sys.held|
    ensures Balanced(System(CloseMaterial(sys.s, sys.held[i]), Without(sys.held, i)))
  {
  }

  lemma SettleBalanced(sys: System, r: Out<()>)
    requires Balanced(sys) && Settled(sys.s.handles, r.s.handles)
    ensures Balanced(Settle(sys.held, r))
  {
  }

  lemma StepBalanced(env: Env, sys: System, op: Op)
    requires Balanced(sys)
    ensures Balanced(Step(env, sys, op))
  {
    hide ProvisionMachine, ReloadMachine, LoadServingMaterial, CleanupMachine, CleanupMachineBySHA256, Balanced,
         Owned, Settled;
    match op {
      case CallProvision => ProvisionMachineEffect(env, sys.s); LandBalanced(sys, ProvisionMachine(env, sys.s));
      case CallReload => ReloadMachineEffect(env, sys.s); LandBalanced(sys, ReloadMachine(env, sys.s));
      case CallServe => LoadServingEffect(env, sys.s); LandBalanced(sys, LoadServingMaterial(env, sys.s));
      case CallClose(i) => if i < |sys.held| { CloseBalanced(sys, i); }
      case CallCleanup => CleanupMachineEffect(env, sys.s); SettleBalanced(sys, CleanupMachine(env, sys.s));
      case CallCleanupBy(fp) =>
        CleanupMachineBySHA256Effect(env, sys.s, fp);
        SettleBalanced(sys, CleanupMachineBySHA256(env, sys.s, fp));
      case Exit => NothingHeld(sys.s);
    }
  }

  lemma NothingHeld(s: State)
    ensures Balanced(Restart(s))
  {
  }

  /** Over every run, under every failure pattern: live handles are the Materials not yet closed. */
  lemma {:induction false} OwnershipOverRuns(env: Env, sys: System, ops: seq<Op>)
    requires Balanced(sys)
    ensures Balanced(Run(env, sys, ops))
    decreases |ops|
  {
    hide Balanced, Step;
    if ops != [] {
      StepBalanced(env, sys, ops[0]);
      OwnershipOverRuns(env, Step(env, sys, ops[0]), ops[1..]);
    }
  }
}
