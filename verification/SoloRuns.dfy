/** The step machine of `Interleaving` and the sequential `ReloadMachine` and `LoadServingMaterial` agree: run
    alone, a process can do whatever its function does, with the same effect on the files. */
module SoloRuns {
  import opened Errors
  import opened Validity
  import opened Certificates
  import opened States
  import opened TrustStore
  import opened TrustStoreProofs
  import opened Provision
  import opened ProvisionProofs
  import opened Lifecycle
  import opened Recovery
  import opened Interleaving

  function View(s: State): Shared {
    Shared(s.files, s.temps, s.keys)
  }

  function RunSolo(sh: Shared, p: Process, cs: seq<Choice>): (Shared, Process)
    decreases |cs|
  {
    if cs == [] then (sh, p)
    else
      var (sh, p) := StepProcess(sh, p, cs[0]);
      RunSolo(sh, p, cs[1..])
  }

  lemma SoloCons(sh: Shared, p: Process, c: Choice, cs: seq<Choice>)
    ensures RunSolo(sh, p, [c] + cs) == RunSolo(StepProcess(sh, p, c).0, StepProcess(sh, p, c).1, cs)
  {
  }

  /** The choice that matches call number `s.tick`. */
  function Matching(env: Env, s: State): Choice {
    var outcome := match env.fault(s.tick) case Fine => Works case Fail(_) => Fails case Crash => Dies;
    Choice(outcome, false, 0, env.serial(s.tick), env.torn(s.tick))
  }

  const Failing: Choice := Choice(Fails, false, 0, 1, OtherBytes([]))

  // ---------- atomicWrite ----------

  lemma SoloDiscard(env: Env, s: State, tmp: nat) returns (cs: seq<Choice>)
    ensures RunSolo(View(s), Discarding(tmp), cs) == (View(RemoveTemp(env, s, tmp)), Gone)
  {
    cs := [if s.dead then Failing else Matching(env, s)];
    SoloCons(View(s), Discarding(tmp), cs[0], []);
    assert cs == [cs[0]] + [];
  }

  lemma SoloRename(env: Env, s: State, ca: Certificate, next: Certificate, tmp: nat) returns (cs: seq<Choice>)
    requires !s.dead
    ensures var r := RemovingOnError(env, Rename(env, s, tmp, ServerCert), tmp);
            RunSolo(View(s), Renaming(ca, next, tmp), cs) == (View(r.s), if r.Ok? then Returned(ca, next) else Gone)
  {
    hide RemoveTemp;
    var n := Rename(env, s, tmp, ServerCert);
    var c := Matching(env, s);
    var rest := SoloDiscard(env, n.s, tmp);
    if n.Ok? || n.s.dead {
      rest := [];
      DeadRemove(env, n.s, tmp);
    }
    cs := [c] + rest;
    SoloCons(View(s), Renaming(ca, next, tmp), c, rest);
  }

  lemma SoloDone(sh: Shared, p: Process)
    ensures RunSolo(sh, p, []) == (sh, p)
  {
  }

  lemma DeadRemove(env: Env, s: State, tmp: nat)
    ensures s.dead ==> RemoveTemp(env, s, tmp) == s
  {
  }

  /** `Publish` with `left` of its three calls before the rename still to come. */
  function PublishFrom(env: Env, s: State, tmp: nat, left: nat): Out<()>
    decreases left
  {
    if left == 0 then RemovingOnError(env, Rename(env, s, tmp, ServerCert), tmp)
    else
      var (s, _) :- RemovingOnError(env, Gate(env, s), tmp);
      PublishFrom(env, s, tmp, left - 1)
  }

  lemma PublishUnrolled(env: Env, s: State, tmp: nat)
    ensures Publish(env, s, tmp, ServerCert) == PublishFrom(env, s, tmp, 3)
  {
  }

  lemma {:induction false} SoloFlush(env: Env, s: State, ca: Certificate, next: Certificate, tmp: nat, left: nat)
    returns (cs: seq<Choice>)
    requires !s.dead
    ensures var r := PublishFrom(env, s, tmp, left + 1);
            RunSolo(View(s), Flushing(ca, next, tmp, left), cs)
            == (View(r.s), if r.Ok? then Returned(ca, next) else Gone)
    decreases left
  {
    hide Rename, RemoveTemp, RunSolo;
    var g := Gate(env, s);
    var c := Matching(env, s);
    var rest;
    if g.Ok? {
      if left == 0 {
        rest := SoloRename(env, g.s, ca, next, tmp);
      } else {
        rest := SoloFlush(env, g.s, ca, next, tmp, left - 1);
      }
    } else if g.s.dead {
      rest := [];
      DeadRemove(env, g.s, tmp);
      SoloDone(View(g.s), Gone);
    } else {
      rest := SoloDiscard(env, g.s, tmp);
    }
    cs := [c] + rest;
    SoloCons(View(s), Flushing(ca, next, tmp, left), c, rest);
  }

  lemma SoloWrite(env: Env, s: State, ca: Certificate, next: Certificate) returns (cs: seq<Choice>)
    requires !s.dead
    ensures var r := AtomicWrite(env, s, ServerCert, Raw(next));
            RunSolo(View(s), Creating(ca, next), cs) == (View(r.s), if r.Ok? then Returned(ca, next) else Gone)
  {
    hide Publish, PublishFrom, RemoveTemp;
    var t := CreateTemp(env, s);
    if t.Err? {
      cs := [Failing];
      SoloCons(View(s), Creating(ca, next), Failing, []);
      assert cs == [Failing] + [];
    } else {
      var rest := SoloTempWritten(env, t.s, ca, next, t.value);
      var c := Matching(env, s);
      cs := [c] + rest;
      SoloCons(View(s), Creating(ca, next), c, rest);
    }
  }

  lemma SoloTempWritten(env: Env, s: State, ca: Certificate, next: Certificate, tmp: nat) returns (cs: seq<Choice>)
    requires !s.dead
    ensures var w := RemovingOnError(env, WriteTemp(env, s, tmp, Raw(next)), tmp);
            var r := if w.Err? then w else Publish(env, w.s, tmp, ServerCert);
            RunSolo(View(s), Writing(ca, next, tmp), cs) == (View(r.s), if r.Ok? then Returned(ca, next) else Gone)
  {
    hide Publish, PublishFrom, RemoveTemp, RunSolo;
    var w := WriteTemp(env, s, tmp, Raw(next));
    var c := Matching(env, s);
    var rest;
    if w.Ok? {
      PublishUnrolled(env, w.s, tmp);
      rest := SoloFlush(env, w.s, ca, next, tmp, 2);
    } else if w.s.dead {
      rest := [];
      DeadRemove(env, w.s, tmp);
      SoloDone(View(w.s), Gone);
    } else {
      rest := SoloDiscard(env, w.s, tmp);
    }
    cs := [c] + rest;
    SoloCons(View(s), Writing(ca, next, tmp), c, rest);
  }

  // ---------- the rest of the reload ----------

  /** Process `p` run alone from `s` ends as the call that returned `r` did. */
  ghost predicate Agrees(s: State, p: Process, cs: seq<Choice>, ca: Certificate, r: Out<Certificate>) {
    RunSolo(View(s), p, cs) == (View(r.s), if r.Ok? then Returned(ca, r.value) else Gone)
  }

  lemma AgreesFrom(s: State, p: Process, c: Choice, t: State, q: Process, cs: seq<Choice>, ca: Certificate,
                   r: Out<Certificate>)
    requires StepProcess(View(s), p, c) == (View(t), q) && Agrees(t, q, cs, ca, r)
    ensures Agrees(s, p, [c] + cs, ca, r)
  {
  }

  /** One failing step ends a process that holds no temporary file. */
  lemma AgreesOnError(s: State, p: Process, ca: Certificate, r: Out<Certificate>)
    requires Temporary(p).None? && !p.Returned? && View(s) == View(r.s) && r.Err?
    ensures Agrees(s, p, [Failing], ca, r)
  {
  }

  lemma SoloIssue(env: Env, s: State, ca: Certificate, caSigner: Signer, serverSigner: Signer, now: Instant)
    returns (cs: seq<Choice>)
    requires !s.dead && CaKey in s.keys && ServerKey in s.keys
    requires caSigner.pub == P256(s.keys[CaKey]) && serverSigner.pub == P256(s.keys[ServerKey])
    ensures Agrees(s, Drawing(ca, now), cs, ca, ReplaceLeaf(env, s, now, ca, caSigner, serverSigner))
  {
    hide AtomicWrite, Encodable, NewLeaf, Agrees;
    var g := GenerateLeaf(env, s, now, ca, caSigner, serverSigner);
    var r := ReplaceLeaf(env, s, now, ca, caSigner, serverSigner);
    if g.Err? {
      cs := [Failing];
      AgreesOnError(s, Drawing(ca, now), ca, r);
    } else {
      var next := g.value;
      var rest := SoloWrite(env, g.s, ca, next);
      var t := RandomSerial(env, s);
      var sign := Matching(env, t.s);
      WrittenAgrees(env, g.s, ca, next, rest, r);
      AgreesFrom(t.s, Signing(ca, now, t.value), sign, g.s, Creating(ca, next), rest, ca, r);
      var draw := Matching(env, s);
      AgreesFrom(s, Drawing(ca, now), draw, t.s, Signing(ca, now, t.value), [sign] + rest, ca, r);
      cs := [draw] + ([sign] + rest);
    }
  }

  lemma WrittenAgrees(env: Env, s: State, ca: Certificate, next: Certificate, cs: seq<Choice>, r: Out<Certificate>)
    requires var w := AtomicWrite(env, s, ServerCert, Raw(next));
             && RunSolo(View(s), Creating(ca, next), cs) == (View(w.s), if w.Ok? then Returned(ca, next) else Gone)
             && r.s == w.s && (r.Ok? <==> w.Ok?) && (r.Ok? ==> r.value == next)
    ensures Agrees(s, Creating(ca, next), cs, ca, r)
  {
  }

  lemma AgreesAtOnce(s: State, ca: Certificate, leaf: Certificate, r: Out<Certificate>)
    requires r.Ok? && View(r.s) == View(s) && r.value == leaf
    ensures Agrees(s, Returned(ca, leaf), [], ca, r)
  {
  }

  lemma SoloOpened(env: Env, s: State, ca: Pair, server: Pair) returns (cs: seq<Choice>)
    requires !s.dead && CaKey in s.keys && ServerKey in s.keys
    requires ca.signer.pub == P256(s.keys[CaKey]) && server.signer.pub == P256(s.keys[ServerKey])
    requires IssuedBy(server.cert, ca.cert) && ValidSan(server.cert)
    ensures Agrees(s, Verifying(Reload, ca.cert, server.cert), cs, ca.cert, ReloadOpened(env, s, ca, server))
  {
    hide ReloadOpened, VerifyTrust, ReplaceLeaf, ValidSan, IssuedBy, Settled, Trusted, Agrees, RenewalDue,
         CurrentlyValid;
    ReloadOpenedSteps(env, s, ca, server);
    VerifySettles(env, s, Raw(ca.cert));
    VerifyIsAlive(env, s, Raw(ca.cert));
    var r := ReloadOpened(env, s, ca, server);
    var v := VerifyTrust(env, s, Raw(ca.cert));
    var here := Verifying(Reload, ca.cert, server.cert);
    var now := env.clock(v.s.tick);
    var c := Choice(Works, true, now, 1, OtherBytes([]));
    var t := v.s.(now := now);
    if r.Err? && View(r.s) == View(s) {
      cs := [Failing];
      AgreesOnError(s, here, ca.cert, r);
    } else if RenewalDue(server.cert.window.notAfter, now) {
      var rest := SoloIssue(env, t, ca.cert, ca.signer, server.signer, now);
      AgreesFrom(s, here, c, t, Drawing(ca.cert, now), rest, ca.cert, r);
      cs := [c] + rest;
    } else {
      AgreesAtOnce(t, ca.cert, server.cert, r);
      AgreesFrom(s, here, c, t, Returned(ca.cert, server.cert), [], ca.cert, r);
      cs := [c] + [];
    }
  }

  const Working: Choice := Choice(Works, false, 0, 1, OtherBytes([]))

  /** The four steps up to verification, when they find what they need. */
  lemma SoloOpening(sh: Shared, ca: Certificate, leaf: Certificate, cs: seq<Choice>)
    requires ParsedFile(sh, CaCert) == Some(ca) && ParsedFile(sh, ServerCert) == Some(leaf)
    requires CaKey in sh.keys && PublicKeyMatches(ca, P256(sh.keys[CaKey]))
    requires ServerKey in sh.keys && PublicKeyMatches(leaf, P256(sh.keys[ServerKey]))
    requires IssuedBy(leaf, ca) && ValidSan(leaf)
    ensures RunSolo(sh, ReadingCa(Reload), [Working] + ([Working] + ([Working] + ([Working] + cs))))
         == RunSolo(sh, Verifying(Reload, ca, leaf), cs)
  {
    hide RunSolo, PublicKeyMatches, IssuedBy, ValidSan, ParsedFile;
    SoloCons(sh, ReadingCa(Reload), Working, [Working] + ([Working] + ([Working] + cs)));
    SoloCons(sh, OpeningCaKey(ca), Working, [Working] + ([Working] + cs));
    SoloCons(sh, ReadingLeaf(Reload, ca), Working, [Working] + cs);
    SoloCons(sh, OpeningServerKey(Reload, ca, leaf), Working, cs);
  }

  /** Whatever `ReloadMachine` does in one environment, a reload process run alone does under some schedule:
      same files, keys and temporary files after it, and the same certificates returned. */
  lemma SoloReload(env: Env, s: State) returns (cs: seq<Choice>)
    requires !s.dead
    ensures var r := ReloadMachine(env, s);
            RunSolo(View(s), ReadingCa(Reload), cs)
            == (View(r.s), if r.Ok? then Returned(r.value.ca, r.value.leaf) else Gone)
  {
    hide OpenPair, ReloadOpened, PublicKeyMatches, IssuedBy, ValidSan, Settled, RunSolo, Trusted, LeafKept;
    var r := ReloadMachine(env, s);
    if r.Err? && View(r.s) == View(s) {
      cs := [Failing];
      var e: Out<Certificate> := Err(r.s, r.error);
      AgreesOnError(s, ReadingCa(Reload), NewCA(0, 1, P256(0)), e);
    } else {
      OpenPairEffect(env, s, CaCert, CaKey);
      var ca := OpenPair(env, s, CaCert, CaKey);
      OpenPairEffect(env, ca.s, ServerCert, ServerKey);
      var server := OpenPair(env, ca.s, ServerCert, ServerKey);
      ReloadOpenedSteps(env, server.s, ca.value, server.value);
      ReloadOpenedEffect(env, server.s, ca.value, server.value);
      AliveAfterOpen(env, s, CaCert, CaKey);
      AliveAfterOpen(env, ca.s, ServerCert, ServerKey);
      var rest := SoloOpened(env, server.s, ca.value, server.value);
      SoloOpening(View(s), ca.value.cert, server.value.cert, rest);
      cs := [Working] + ([Working] + ([Working] + ([Working] + rest)));
    }
  }

  lemma AliveAfterOpen(env: Env, s: State, f: File, name: KeyName)
    ensures OpenPair(env, s, f, name).Ok? ==> !OpenPair(env, s, f, name).s.dead
  {
  }

  /** The same for `LoadServingMaterial` and a serving process. */
  lemma SoloServe(env: Env, s: State) returns (cs: seq<Choice>)
    ensures var r := LoadServingMaterial(env, s);
            RunSolo(View(s), ReadingCa(Serve), cs)
            == (View(r.s), if r.Ok? then Returned(r.value.ca, r.value.leaf) else Gone)
  {
    hide LoadServingMaterial, PublicKeyMatches, IssuedBy, ValidSan, Owned, RunSolo, Trusted;
    LoadServingEffect(env, s);
    var r := LoadServingMaterial(env, s);
    if r.Err? {
      cs := [Failing];
      var e: Out<Certificate> := Err(r.s, r.error);
      AgreesOnError(s, ReadingCa(Serve), NewCA(0, 1, P256(0)), e);
    } else {
      var ca, leaf, verified := r.value.ca, r.value.leaf, Working.(trusted := true);
      var rest := [verified] + [];
      cs := [Working] + ([Working] + ([Working] + rest));
      SoloCons(View(s), ReadingCa(Serve), Working, [Working] + ([Working] + rest));
      SoloCons(View(s), ReadingLeaf(Serve, ca), Working, [Working] + rest);
      SoloCons(View(s), OpeningServerKey(Serve, ca, leaf), Working, rest);
      SoloCons(View(s), Verifying(Serve, ca, leaf), verified, []);
      SoloDone(View(s), Returned(ca, leaf));
    }
  }

  /** A reachable complete machine is where the interleaving theorem starts from. */
  lemma ReachableIsSound(s: State)
    requires Genuine(s) && Complete(s)
    ensures Sound(Group(View(s), []))
  {
  }
}
