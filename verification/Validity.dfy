/** Instants and validity windows. An instant is a count of nanoseconds; what X.509 stores is the
    whole second at or before it (section 4.1.2.5 of RFC 5280). */
module Validity {
  type Instant = int
  type Duration = int

  const SECOND: Duration := 1_000_000_000
  const MINUTE: Duration := 60 * SECOND
  const DAY: Duration := 24 * 60 * MINUTE

  const CA_VALIDITY: Duration := 5 * 365 * DAY
  const SERVER_VALIDITY: Duration := 90 * DAY
  const RENEWAL_THRESHOLD: Duration := 30 * DAY
  const BACKDATE: Duration := 5 * MINUTE

  const MAX_DURATION: Duration := 0x7fff_ffff_ffff_ffff
  const MIN_DURATION: Duration := -0x8000_0000_0000_0000

  // Midnight of 1 January of year 0 and of year 10000: X.509 can only write instants in between.
  const FIRST_ENCODABLE: Instant := -62_167_219_200 * SECOND
  const FIRST_UNENCODABLE: Instant := 253_402_300_800 * SECOND

  datatype Window = Window(notBefore: Instant, notAfter: Instant)

  predicate Encodable(w: Window) {
    && FIRST_ENCODABLE <= w.notBefore < FIRST_UNENCODABLE
    && FIRST_ENCODABLE <= w.notAfter < FIRST_UNENCODABLE
  }

  function WholeSecond(t: Instant): Instant {
    t - t % SECOND
  }

  /** What a certificate holds once the instants of `w` have been encoded. */
  function Encoded(w: Window): Window {
    Window(WholeSecond(w.notBefore), WholeSecond(w.notAfter))
  }

  /** `time.Sub`: saturates at the ends of the 64-bit duration range. */
  function Sub(a: Instant, b: Instant): Duration {
    if a - b > MAX_DURATION then MAX_DURATION
    else if a - b < MIN_DURATION then MIN_DURATION
    else a - b
  }

  /** The renewal test of the reload paths, disjunct by disjunct. */
  predicate RenewalDue(notAfter: Instant, now: Instant) {
    now > notAfter || Sub(notAfter, now) <= RENEWAL_THRESHOLD
  }

  /** `cappedServerNotAfter`. */
  function CappedServerNotAfter(now: Instant, ca: Window): Instant {
    var notAfter := now + SERVER_VALIDITY;
    if notAfter > ca.notAfter then ca.notAfter else notAfter
  }

  /** `validateCALifetime`. */
  predicate CurrentlyValid(ca: Window, now: Instant) {
    !(now < ca.notBefore) && now < ca.notAfter
  }

  function CaTemplate(now: Instant): Window {
    Window(now - BACKDATE, now + CA_VALIDITY)
  }

  function LeafTemplate(now: Instant, ca: Window): Window {
    Window(now - BACKDATE, CappedServerNotAfter(now, ca))
  }

  predicate Nested(leaf: Window, ca: Window) {
    ca.notBefore <= leaf.notBefore && leaf.notAfter <= ca.notAfter
  }

  /** A CA window as `createCACertSelfSigned` produces it, at some unknown instant. */
  predicate CaShape(ca: Window) {
    && ca.notBefore % SECOND == 0
    && ca.notAfter == ca.notBefore + BACKDATE + CA_VALIDITY
  }

  /** What every leaf of a run keeps: nested, whole-second, and at least as late as the first leaf. */
  predicate LeafShape(leaf: Window, ca: Window) {
    && Nested(leaf, ca)
    && leaf.notAfter % SECOND == 0
    && ca.notBefore + BACKDATE + SERVER_VALIDITY <= leaf.notAfter
  }

  lemma WholeSecondShift(t: Instant, days: int)
    ensures WholeSecond(t + days * DAY) == WholeSecond(t) + days * DAY
    ensures WholeSecond(t - BACKDATE) == WholeSecond(t) - BACKDATE
    ensures WholeSecond(t) <= t < WholeSecond(t) + SECOND && WholeSecond(t) % SECOND == 0
  {
    ModShift(t, days * 86400);
    ModShift(t, -300);
    ModShift(0, t / SECOND);
  }

  lemma ModShift(t: int, k: int)
    ensures (t + k * SECOND) % SECOND == t % SECOND
  {
    assert t + k * SECOND == (t / SECOND + k) * SECOND + t % SECOND;
  }

  /** First install: both windows come from one clock reading, and the five years are never the cap. */
  lemma FirstIssueShapes(now: Instant)
    ensures var ca := Encoded(CaTemplate(now)); var leaf := Encoded(LeafTemplate(now, ca));
            && CaShape(ca) && LeafShape(leaf, ca)
            && leaf.notBefore == ca.notBefore
            && leaf.notAfter == ca.notBefore + BACKDATE + SERVER_VALIDITY
            && now < leaf.notAfter && now < ca.notAfter && ca.notBefore <= now
  {
    WholeSecondShift(now, 0);
    WholeSecondShift(now, 90);
    WholeSecondShift(now, 5 * 365);
  }

  /** Where a run keeps its leaf, a renewal is only due inside the CA's window or after it: the check for a CA that
      is not yet valid never refuses one. */
  lemma DueRenewalIsNotEarly(leaf: Window, ca: Window, now: Instant)
    requires LeafShape(leaf, ca) && RenewalDue(leaf.notAfter, now)
    ensures ca.notBefore + 60 * DAY <= now
    ensures CurrentlyValid(ca, now) <==> now < ca.notAfter
  {
    RenewalDueExact(leaf.notAfter, now);
  }

  /** Renewal: the NotBefore bound needs no check of its own, it follows from the 90/30-day arithmetic;
      the NotAfter bound grows by 60 days, or reaches the cap. */
  lemma RenewalShapes(leaf: Window, ca: Window, now: Instant)
    requires CaShape(ca) && LeafShape(leaf, ca)
    requires RenewalDue(leaf.notAfter, now) && CurrentlyValid(ca, now)
    ensures var next := Encoded(LeafTemplate(now, ca));
            && LeafShape(next, ca)
            && (next.notAfter == ca.notAfter || next.notAfter >= leaf.notAfter + 60 * DAY)
            && leaf.notAfter <= next.notAfter
            && now < next.notAfter
  {
    RenewalDueExact(leaf.notAfter, now);
    CaEndIsWhole(ca);
    WholeSecondShift(leaf.notAfter, 60);
    WholeSecondShift(now, 0);
    WholeMonotone(leaf.notAfter + 60 * DAY, now + SERVER_VALIDITY);
    WholeMonotone(ca.notBefore, now - BACKDATE);
    if now + SERVER_VALIDITY <= ca.notAfter { WholeMonotone(now + SERVER_VALIDITY, ca.notAfter); }
    WholeSecondShift(now + SERVER_VALIDITY, 0);
    hide WholeSecond, RenewalDue, Sub;
  }

  lemma CaEndIsWhole(ca: Window)
    requires CaShape(ca)
    ensures WholeSecond(ca.notAfter) == ca.notAfter && WholeSecond(ca.notBefore) == ca.notBefore
    ensures ca.notAfter % SECOND == 0
  {
    ModShift(ca.notBefore, 300 + 5 * 365 * 86400);
  }

  /** For a CA that was not issued by this module the NotBefore end can fail: `validateCALifetime` admits a
      clock within five minutes of the CA's NotBefore, and the leaf is backdated past it. */
  lemma NotBeforeNesting(ca: Window, now: Instant)
    requires ca.notBefore % SECOND == 0 && CurrentlyValid(ca, now)
    ensures Encoded(LeafTemplate(now, ca)).notBefore >= ca.notBefore <==> now >= ca.notBefore + BACKDATE
  {
    WholeSecondShift(now, 0);
    if now >= ca.notBefore + BACKDATE {
      WholeMonotone(ca.notBefore, now - BACKDATE);
    }
  }

  lemma WholeMonotone(a: Instant, b: Instant)
    requires a <= b
    ensures WholeSecond(a) <= WholeSecond(b)
  {
    assert WholeSecond(a) == a / SECOND * SECOND && WholeSecond(b) == b / SECOND * SECOND;
  }

  /** With saturating subtraction the two disjuncts together are the exact integer test, and the
      second alone already is. */
  lemma RenewalDueExact(notAfter: Instant, now: Instant)
    ensures RenewalDue(notAfter, now) <==> notAfter - now <= RENEWAL_THRESHOLD
    ensures RenewalDue(notAfter, now) <==> Sub(notAfter, now) <= RENEWAL_THRESHOLD
  {
  }

  /** A second renewal test at the clock reading that just renewed the leaf, or left it alone, asks for
      another leaf exactly when the CA itself is within the threshold; the leaf it asks for ends where
      the first one did. */
  lemma SecondRenewal(leaf: Window, ca: Window, now: Instant)
    requires CaShape(ca) && LeafShape(leaf, ca)
    requires RenewalDue(leaf.notAfter, now) ==> CurrentlyValid(ca, now)
    ensures var after := if RenewalDue(leaf.notAfter, now) then Encoded(LeafTemplate(now, ca)) else leaf;
            && (RenewalDue(after.notAfter, now) <==> ca.notAfter - now <= RENEWAL_THRESHOLD)
            && (RenewalDue(after.notAfter, now) ==> Encoded(LeafTemplate(now, ca)).notAfter == after.notAfter)
  {
    RenewalDueExact(leaf.notAfter, now);
    if RenewalDue(leaf.notAfter, now) {
      RenewalShapes(leaf, ca, now);
      RenewalDueExact(Encoded(LeafTemplate(now, ca)).notAfter, now);
      WholeSecondShift(now, 90);
      CaEndIsWhole(ca);
    }
  }

  /** How many strictly extending renewals a leaf can still see: 60-day steps up to the cap. */
  function RenewalsLeft(leafNotAfter: Instant, caNotAfter: Instant): nat
    requires leafNotAfter <= caNotAfter
  {
    Steps(caNotAfter - leafNotAfter)
  }

  function Steps(gap: nat): nat {
    (gap + 60 * DAY - 1) / (60 * DAY)
  }

  lemma StepsSpend(gap: nat, rest: nat)
    requires rest + 60 * DAY <= gap || rest == 0 < gap
    ensures Steps(rest) + 1 <= Steps(gap)
  {
    if rest + 60 * DAY <= gap {
      StepsMonotone(rest + 60 * DAY, gap);
      assert rest + 60 * DAY + 60 * DAY - 1 == (rest + 60 * DAY - 1) + 60 * DAY;
    } else {
      StepsMonotone(1, gap);
    }
  }

  lemma StepsMonotone(a: nat, b: nat)
    requires a <= b
    ensures Steps(a) <= Steps(b)
  {
  }

  lemma ExtendingRenewalSpends(leaf: Window, ca: Window, now: Instant)
    requires CaShape(ca) && LeafShape(leaf, ca)
    requires RenewalDue(leaf.notAfter, now) && CurrentlyValid(ca, now)
    ensures var next := Encoded(LeafTemplate(now, ca));
            && next.notAfter <= ca.notAfter
            && (next.notAfter > leaf.notAfter ==>
                  RenewalsLeft(next.notAfter, ca.notAfter) + 1 <= RenewalsLeft(leaf.notAfter, ca.notAfter))
  {
    hide Steps;
    RenewalShapes(leaf, ca, now);
    var next := Encoded(LeafTemplate(now, ca));
    if next.notAfter > leaf.notAfter {
      StepsSpend(ca.notAfter - leaf.notAfter, ca.notAfter - next.notAfter);
    }
  }

  /** The bound is met: renew every leaf at the first instant the threshold allows. */
  function EagerLeaf(ca: Window, renewals: nat): Window {
    if renewals == 0 then Encoded(LeafTemplate(ca.notBefore + BACKDATE, ca))
    else Encoded(LeafTemplate(EagerLeaf(ca, renewals - 1).notAfter - RENEWAL_THRESHOLD, ca))
  }

  /** A leaf issued a whole number of days after the CA ends 90 days later, or with the CA. */
  lemma LeafEnd(ca: Window, days: int)
    requires CaShape(ca)
    ensures Encoded(LeafTemplate(ca.notBefore + BACKDATE + (days - 90) * DAY, ca)).notAfter
         == if days <= 5 * 365 then ca.notBefore + BACKDATE + days * DAY else ca.notAfter
  {
    CaEndIsWhole(ca);
    WholeSecondShift(ca.notBefore, 0);
    ModShift(ca.notBefore, 300 + days * 86400);
  }

  lemma {:induction false} EagerLeafAt(ca: Window, renewals: nat)
    requires CaShape(ca) && renewals <= 29
    ensures EagerLeaf(ca, renewals).notAfter
         == ca.notBefore + BACKDATE + (if renewals == 29 then CA_VALIDITY else (90 + 60 * renewals) * DAY)
  {
    hide Encoded, LeafTemplate;
    LeafEnd(ca, 90 + 60 * renewals);
    if renewals > 0 {
      EagerLeafAt(ca, renewals - 1);
    }
  }

  lemma TwentyNineRenewals(ca: Window, k: nat)
    requires CaShape(ca) && k < 29
    ensures var leaf, next := EagerLeaf(ca, k), EagerLeaf(ca, k + 1);
            && RenewalDue(leaf.notAfter, leaf.notAfter - RENEWAL_THRESHOLD)
            && CurrentlyValid(ca, leaf.notAfter - RENEWAL_THRESHOLD)
            && leaf.notAfter < next.notAfter
  {
    hide EagerLeaf;
    EagerLeafAt(ca, k);
    EagerLeafAt(ca, k + 1);
  }
}
