/** Any number of `ReloadMachine` and `LoadServingMaterial` processes on one machine, interleaved at the
    granularity of single system calls, any call failing and any process dying anywhere. */
module Interleaving {
  import opened Errors
  import opened Validity
  import opened Certificates
  import opened States
  import opened Acceptance

  /** What the processes share. None of them writes the keys or Root. */
  datatype Shared = Shared(files: map<File, Der>, temps: seq<Option<Der>>, keys: map<KeyName, nat>)

  datatype Kind = Reload | Serve

  /** Where a process is, with its local variables. */
  datatype Process =
    | ReadingCa(kind: Kind)
    | OpeningCaKey(ca: Certificate)
    | ReadingLeaf(kind: Kind, ca: Certificate)
    | OpeningServerKey(kind: Kind, ca: Certificate, leaf: Certificate)
    | Verifying(kind: Kind, ca: Certificate, leaf: Certificate)
    | Drawing(ca: Certificate, now: Instant)
    | Signing(ca: Certificate, now: Instant, serial: Serial)
    | Creating(ca: Certificate, next: Certificate)
    | Writing(ca: Certificate, next: Certificate, tmp: nat)
    | Flushing(ca: Certificate, next: Certificate, tmp: nat, left: nat)   // sync, close, chmod
    | Renaming(ca: Certificate, next: Certificate, tmp: nat)
    | Discarding(tmp: nat)
    | Returned(ca: Certificate, leaf: Certificate)
    | Gone

  datatype Outcome = Works | Fails | Dies

  /** What the world decides at one step. */
  datatype Choice = Choice(outcome: Outcome, trusted: bool, now: Instant, serial: Serial, torn: Der)

  function Temporary(p: Process): Option<nat> {
    match p
    case Writing(_, _, tmp) => Some(tmp)
    case Flushing(_, _, tmp, _) => Some(tmp)
    case Renaming(_, _, tmp) => Some(tmp)
    case Discarding(tmp) => Some(tmp)
    case _ => None
  }

  function PutTemp(sh: Shared, tmp: nat, contents: Option<Der>): Shared {
    if tmp < |sh.temps| then sh.(temps := sh.temps[tmp := contents]) else sh
  }

  /** A call that failed or never returned. */
  function Unfinished(sh: Shared, p: Process, c: Choice): (Shared, Process) {
    var sh := if p.Writing? then PutTemp(sh, p.tmp, Some(c.torn)) else sh;
    (sh, if c.outcome == Fails && Temporary(p).Some? && !p.Discarding? then Discarding(Temporary(p).value) else Gone)
  }

  function ParsedFile(sh: Shared, f: File): Option<Certificate> {
    if f in sh.files then Parse(sh.files[f]) else None
  }

  /** `ReloadMachine` after verification: the renewal decision. */
  function Decide(ca: Certificate, leaf: Certificate, now: Instant): Process {
    if !RenewalDue(leaf.window.notAfter, now) then Returned(ca, leaf)
    else if !CurrentlyValid(ca.window, now) then Gone
    else Drawing(ca, now)
  }

  function Finished(sh: Shared, p: Process, c: Choice): (Shared, Process) {
    match p
    case ReadingCa(kind) =>
      var ca := ParsedFile(sh, CaCert);
      (sh, if ca.None? then Gone else if kind == Reload then OpeningCaKey(ca.value) else ReadingLeaf(kind, ca.value))
    case OpeningCaKey(ca) =>
      (sh, if CaKey in sh.keys && PublicKeyMatches(ca, P256(sh.keys[CaKey])) then ReadingLeaf(Reload, ca) else Gone)
    case ReadingLeaf(kind, ca) =>
      var leaf := ParsedFile(sh, ServerCert);
      (sh, if leaf.None? then Gone else OpeningServerKey(kind, ca, leaf.value))
    case OpeningServerKey(kind, ca, leaf) =>
      (sh, if && ServerKey in sh.keys && PublicKeyMatches(leaf, P256(sh.keys[ServerKey]))
              && IssuedBy(leaf, ca) && ValidSan(leaf)
           then Verifying(kind, ca, leaf) else Gone)
    case Verifying(kind, ca, leaf) =>
      (sh, if !c.trusted then Gone else if kind == Serve then Returned(ca, leaf) else Decide(ca, leaf, c.now))
    case Drawing(ca, now) => (sh, Signing(ca, now, c.serial))
    case Signing(ca, now, serial) =>
      if CaKey in sh.keys && ServerKey in sh.keys then
        var next := NewLeaf(now, serial, ca, P256(sh.keys[CaKey]), P256(sh.keys[ServerKey]));
        (sh, if Encodable(next.window) then Creating(ca, next) else Gone)
      else (sh, Gone)
    case Creating(ca, next) =>
      (sh.(temps := sh.temps + [Some(OtherBytes([]))]), Writing(ca, next, |sh.temps|))
    case Writing(ca, next, tmp) => (PutTemp(sh, tmp, Some(Raw(next))), Flushing(ca, next, tmp, 2))
    case Flushing(ca, next, tmp, left) =>
      (sh, if left == 0 then Renaming(ca, next, tmp) else Flushing(ca, next, tmp, left - 1))
    case Renaming(ca, next, tmp) =>
      if tmp < |sh.temps| && sh.temps[tmp].Some? then
        (PutTemp(sh.(files := sh.files[ServerCert := sh.temps[tmp].value]), tmp, None), Returned(ca, next))
      else (sh, Discarding(tmp))
    case Discarding(tmp) => (PutTemp(sh, tmp, None), Gone)
    case Returned(_, _) => (sh, p)
    case Gone => (sh, p)
  }

  function StepProcess(sh: Shared, p: Process, c: Choice): (Shared, Process) {
    if p.Returned? || p.Gone? then (sh, p)
    else if c.outcome == Works then Finished(sh, p, c)
    else Unfinished(sh, p, c)
  }

  // ---------- schedules ----------

  datatype Group = Group(sh: Shared, processes: seq<Process>)

  datatype Move = Start(kind: Kind) | Advance(i: nat, c: Choice)

  function MoveOne(g: Group, m: Move): Group {
    match m
    case Start(kind) => g.(processes := g.processes + [ReadingCa(kind)])
    case Advance(i, c) =>
      if i < |g.processes| then
        var (sh, p) := StepProcess(g.sh, g.processes[i], c);
        Group(sh, g.processes[i := p])
      else g
  }

  function RunSchedule(g: Group, moves: seq<Move>): Group
    decreases |moves|
  {
    if moves == [] then g else RunSchedule(MoveOne(g, moves[0]), moves[1..])
  }

  // ---------- the invariant ----------

  /** A leaf the module would serve: signed by the on-disk CA, inside its window, for the persisted server key,
      valid SANs. */
  ghost predicate GoodLeaf(sh: Shared, leaf: Certificate) {
    && ParsedFile(sh, CaCert).Some? && IssuedBy(leaf, ParsedFile(sh, CaCert).value)
    && LeafShape(leaf.window, ParsedFile(sh, CaCert).value.window)
    && ValidSan(leaf)
    && ServerKey in sh.keys && PublicKeyMatches(leaf, P256(sh.keys[ServerKey]))
  }

  ghost predicate GoodFiles(sh: Shared) {
    && ParsedFile(sh, CaCert).Some? && CaShape(ParsedFile(sh, CaCert).value.window) && CaKey in sh.keys
    && PublicKeyMatches(ParsedFile(sh, CaCert).value, P256(sh.keys[CaKey]))
    && ParsedFile(sh, ServerCert).Some? && GoodLeaf(sh, ParsedFile(sh, ServerCert).value)
  }

  /** What each process knows, and keeps knowing whatever the others do. */
  ghost predicate Knows(sh: Shared, p: Process) {
    && (!(p.ReadingCa? || p.Discarding? || p.Gone?) ==> ParsedFile(sh, CaCert) == Some(p.ca))
    && ((p.OpeningServerKey? || p.Verifying? || p.Returned?) ==> GoodLeaf(sh, p.leaf))
    && ((p.Drawing? || p.Signing?) ==> LeafShape(Encoded(LeafTemplate(p.now, p.ca.window)), p.ca.window))
    && ((p.Creating? || p.Writing? || p.Flushing? || p.Renaming?) ==> GoodLeaf(sh, p.next))
    && ((p.Flushing? || p.Renaming?) ==> p.tmp < |sh.temps| && sh.temps[p.tmp] == Some(Raw(p.next)))
    && (Temporary(p).Some? ==> Temporary(p).value < |sh.temps|)
  }

  /** No two processes work on the same temporary file. */
  ghost predicate Apart(processes: seq<Process>) {
    forall i, j :: 0 <= i < j < |processes| && Temporary(processes[i]).Some? ==>
      Temporary(processes[i]) != Temporary(processes[j])
  }

  ghost predicate Sound(g: Group) {
    && GoodFiles(g.sh)
    && (forall i :: 0 <= i < |g.processes| ==> Knows(g.sh, g.processes[i]))
    && Apart(g.processes)
  }

  /** One step of process `p` with temporary file `tmp`: the keys and the CA file stay, the leaf file stays or
      becomes another good leaf, and no other temporary file changes. */
  ghost predicate Guarantee(a: Shared, b: Shared, p: Process) {
    && b.keys == a.keys && ParsedFile(b, CaCert) == ParsedFile(a, CaCert)
    && GoodFiles(b)
    && |a.temps| <= |b.temps|
    && (forall t :: 0 <= t < |a.temps| && Temporary(p) != Some(t) ==> b.temps[t] == a.temps[t])
  }

  lemma IssuedLeafIsGood(sh: Shared, ca: Certificate, now: Instant, serial: Serial)
    requires GoodFiles(sh) && ParsedFile(sh, CaCert) == Some(ca)
    requires LeafShape(Encoded(LeafTemplate(now, ca.window)), ca.window)
    ensures GoodLeaf(sh, NewLeaf(now, serial, ca, P256(sh.keys[CaKey]), P256(sh.keys[ServerKey])))
  {
  }

  /** What a step owes the others, and what its own process knows after it. */
  ghost predicate StepIsSound(sh: Shared, p: Process, sh': Shared, p': Process) {
    && Guarantee(sh, sh', p) && Knows(sh', p')
    && (Temporary(p').Some? ==> Temporary(p') == Temporary(p) || Temporary(p').value >= |sh.temps|)
  }

  lemma UnfinishedIsSound(sh: Shared, p: Process, c: Choice)
    requires GoodFiles(sh) && Knows(sh, p)
    ensures StepIsSound(sh, p, Unfinished(sh, p, c).0, Unfinished(sh, p, c).1)
  {
    hide ValidSan, IssuedBy, PublicKeyMatches;
  }

  lemma FinishedIsSound(sh: Shared, p: Process, c: Choice)
    requires GoodFiles(sh) && Knows(sh, p)
    ensures StepIsSound(sh, p, Finished(sh, p, c).0, Finished(sh, p, c).1)
  {
    hide ValidSan, IssuedBy, NewLeaf, PublicKeyMatches, RenewalDue, CurrentlyValid, Encodable;
    hide CaShape, LeafShape, Encoded, LeafTemplate;
    if p.Verifying? && RenewalDue(p.leaf.window.notAfter, c.now) && CurrentlyValid(p.ca.window, c.now) {
      RenewalShapes(p.leaf.window, p.ca.window, c.now);
    }
    if p.Signing? {
      IssuedLeafIsGood(sh, p.ca, p.now, p.serial);
    }
  }

  lemma StepGuarantees(sh: Shared, p: Process, c: Choice)
    requires GoodFiles(sh) && Knows(sh, p)
    ensures StepIsSound(sh, p, StepProcess(sh, p, c).0, StepProcess(sh, p, c).1)
  {
    hide Finished, Unfinished, GoodFiles, Knows;
    UnfinishedIsSound(sh, p, c);
    FinishedIsSound(sh, p, c);
  }

  /** What a process knows is stable under every step of another. */
  lemma KnowledgeIsStable(a: Shared, b: Shared, p: Process, other: Process)
    requires Guarantee(a, b, p) && Knows(a, other)
    requires Temporary(other).Some? ==> Temporary(other) != Temporary(p)
    ensures Knows(b, other)
  {
  }

  lemma MoveKeepsSound(g: Group, m: Move)
    requires Sound(g)
    ensures Sound(MoveOne(g, m)) && ParsedFile(MoveOne(g, m).sh, CaCert) == ParsedFile(g.sh, CaCert)
    ensures MoveOne(g, m).sh.keys == g.sh.keys
  {
    hide GoodFiles, Knows, StepProcess;
    var h := MoveOne(g, m);
    match m {
      case Start(kind) =>
        StartKnows(g.sh, kind);
      case Advance(i, c) =>
        if i < |g.processes| {
          StepGuarantees(g.sh, g.processes[i], c);
          forall j | 0 <= j < |h.processes| ensures Knows(h.sh, h.processes[j]) {
            if j != i {
              KnowledgeIsStable(g.sh, h.sh, g.processes[i], g.processes[j]);
            }
          }
          forall j | 0 <= j < |g.processes| && Temporary(g.processes[j]).Some?
            ensures Temporary(g.processes[j]).value < |g.sh.temps|
          {
            TempInRange(g.sh, g.processes[j]);
          }
        }
    }
  }

  lemma StartKnows(sh: Shared, kind: Kind)
    ensures Knows(sh, ReadingCa(kind))
  {
  }

  lemma TempInRange(sh: Shared, p: Process)
    requires Knows(sh, p) && Temporary(p).Some?
    ensures Temporary(p).value < |sh.temps|
  {
  }

  /** Under every schedule: server-cert.der is always a whole certificate, signed by the CA on disk, for the
      persisted server key, with valid SANs and a window inside the CA's on both ends; the CA file never changes;
      and so is every leaf returned. */
  lemma {:induction false} SchedulesKeepGoodFiles(g: Group, moves: seq<Move>)
    requires Sound(g)
    ensures var h := RunSchedule(g, moves);
            && Sound(h) && GoodFiles(h.sh)
            && ParsedFile(h.sh, CaCert) == ParsedFile(g.sh, CaCert)
            && h.sh.keys == g.sh.keys && ServerKey in h.sh.keys
            && var ca, leaf := ParsedFile(h.sh, CaCert).value, ParsedFile(h.sh, ServerCert).value;
            var key := h.sh.keys[ServerKey];
            && Vouched(leaf, ca, key)
            && ca.window.notBefore <= leaf.window.notBefore && leaf.window.notAfter <= ca.window.notAfter
            && (forall i :: 0 <= i < |h.processes| && h.processes[i].Returned? ==>
                  Vouched(h.processes[i].leaf, ca, key))
    decreases |moves|
  {
    hide MoveOne, Vouched, ValidSan, IssuedBy, PublicKeyMatches, Apart;
    if moves == [] {
      var ca, key := ParsedFile(g.sh, CaCert).value, g.sh.keys[ServerKey];
      VouchedMeans(ParsedFile(g.sh, ServerCert).value, ca, key);
      forall i | 0 <= i < |g.processes| && g.processes[i].Returned? ensures Vouched(g.processes[i].leaf, ca, key) {
        assert Knows(g.sh, g.processes[i]);
        VouchedMeans(g.processes[i].leaf, ca, key);
      }
    } else {
      MoveKeepsSound(g, moves[0]);
      SchedulesKeepGoodFiles(MoveOne(g, moves[0]), moves[1..]);
    }
  }

  // ---------- on any disk ----------

  /** What a process has made sure of, whatever was on disk and whatever the others did to it. */
  ghost predicate Checked(keys: map<KeyName, nat>, p: Process) {
    && (((p.ReadingLeaf? || p.OpeningServerKey? || p.Verifying?) && p.kind == Reload) || p.Drawing? || p.Signing? ==>
          CaKey in keys && p.ca.pub == P256(keys[CaKey]))
    && (p.Drawing? || p.Signing? ==> p.ca.isCA && p.ca.certSign)
    && (p.Verifying? || p.Returned? ==> ServerKey in keys && Vouched(p.leaf, p.ca, keys[ServerKey]))
    && (p.Creating? || p.Writing? || p.Flushing? || p.Renaming? ==>
          ServerKey in keys && Vouched(p.next, p.ca, keys[ServerKey]))
  }

  lemma StepChecks(sh: Shared, p: Process, c: Choice)
    requires Checked(sh.keys, p)
    ensures var (sh', p') := StepProcess(sh, p, c);
            sh'.keys == sh.keys && Checked(sh.keys, p')
  {
    hide Vouched, ValidSan, IssuedBy, PublicKeyMatches, NewLeaf, RenewalDue, CurrentlyValid, Encodable;
    match p {
      case OpeningCaKey(ca) => if CaKey in sh.keys { KeyMatchMeans(ca, P256(sh.keys[CaKey])); }
      case OpeningServerKey(kind, ca, leaf) => if ServerKey in sh.keys { VouchedMeans(leaf, ca, sh.keys[ServerKey]); }
      case Verifying(kind, ca, leaf) => CanSign(leaf, ca, sh.keys[ServerKey]);
      case Signing(ca, now, serial) =>
        if CaKey in sh.keys && ServerKey in sh.keys {
          KeyMatchMeans(ca, P256(sh.keys[CaKey]));
          NewLeafPassesChecks(now, serial, ca, P256(sh.keys[CaKey]), P256(sh.keys[ServerKey]));
          VouchedMeans(NewLeaf(now, serial, ca, P256(sh.keys[CaKey]), P256(sh.keys[ServerKey])), ca,
                       sh.keys[ServerKey]);
        }
      case _ =>
    }
  }

  /** Without trust no process gets past verification. */
  lemma UntrustedStops(sh: Shared, kind: Kind, ca: Certificate, leaf: Certificate, c: Choice)
    requires !c.trusted
    ensures StepProcess(sh, Verifying(kind, ca, leaf), c) == (sh, Gone)
  {
  }

  lemma CanSign(leaf: Certificate, ca: Certificate, key: nat)
    requires Vouched(leaf, ca, key)
    ensures ca.isCA && ca.certSign
  {
  }

  /** Under every schedule, from any files whatsoever: a process returns only a leaf that its CA vouches for, for the
      persisted server key. */
  lemma {:induction false} SchedulesCheckLeaves(g: Group, moves: seq<Move>)
    requires forall i :: 0 <= i < |g.processes| ==> Checked(g.sh.keys, g.processes[i])
    ensures var h := RunSchedule(g, moves);
            && h.sh.keys == g.sh.keys
            && forall i :: 0 <= i < |h.processes| && h.processes[i].Returned? ==>
                 ServerKey in h.sh.keys && Vouched(h.processes[i].leaf, h.processes[i].ca, h.sh.keys[ServerKey])
    decreases |moves|
  {
    hide StepProcess, Vouched;
    if moves != [] {
      match moves[0] {
        case Start(kind) =>
        case Advance(i, c) => if i < |g.processes| { StepChecks(g.sh, g.processes[i], c); }
      }
      SchedulesCheckLeaves(MoveOne(g, moves[0]), moves[1..]);
    }
  }
}
