/** Abstract X.509: what a certificate says, which key signed it, and the checks the module makes. */
module Certificates {
  import opened Errors
  import opened Validity

  newtype byte = b: int | 0 <= b < 256
  type Fingerprint = s: seq<byte> | |s| == 32 witness seq(32, _ => 0)
  type Serial = n: int | 0 < n witness 1

  datatype PublicKey = P256(point: nat) | OtherEcdsa(point: nat) | NonEcdsa(id: nat)

  datatype Name = Name(commonName: string, organization: string)

  const CA_NAME := Name("Keppin Local Root CA", "Keppin")
  const SERVER_NAME := Name("localhost", "Keppin")

  type IP = seq<byte>

  datatype Certificate = Certificate(
    serial: Serial,
    subject: Name,
    issuer: Name,
    window: Window,
    dnsNames: seq<string>,
    ipAddresses: seq<IP>,
    isCA: bool,
    certSign: bool,
    pub: PublicKey,
    signedBy: PublicKey)

  /** File contents and store entries: one encoded certificate, or bytes that are none. */
  datatype Der = CertDer(cert: Certificate) | OtherBytes(bytes: seq<byte>)

  predicate IsEmpty(der: Der) {
    der == OtherBytes([])
  }

  function Raw(cert: Certificate): Der {
    CertDer(cert)
  }

  function Parse(der: Der): (cert: Option<Certificate>)
    ensures cert.Some? ==> Raw(cert.value) == der
  {
    if der.CertDer? then Some(der.cert) else None
  }

  /** `verifyPublicKeyMatch`: both keys are ECDSA and have the same coordinates; points of different
      curves have different coordinates. */
  predicate PublicKeyMatches(cert: Certificate, pub: PublicKey) {
    match cert.pub
    case NonEcdsa(_) => false
    case _ => !pub.NonEcdsa? && cert.pub == pub
  }

  /** `CheckSignatureFrom`: the parent may sign certificates, and its key signed this one. */
  predicate IssuedBy(cert: Certificate, parent: Certificate) {
    parent.isCA && parent.certSign && cert.signedBy == parent.pub
  }

  /** A path-building verifier's view of the same relation: names link up, and the leaf is no CA. */
  predicate ChainsTo(leaf: Certificate, ca: Certificate) {
    && leaf.issuer == ca.subject && !leaf.isCA && !leaf.certSign
    && ca.issuer == ca.subject && ca.signedBy == ca.pub
  }

  const V4_IN_V6: IP := [0, 0, 0, 0, 0, 0, 0, 0, 0, 0, 0xff, 0xff]
  const IPV4_LOOPBACK: IP := [127, 0, 0, 1]
  const IPV6_LOOPBACK: IP := [0, 0, 0, 0, 0, 0, 0, 0, 0, 0, 0, 0, 0, 0, 0, 1]

  /** `net.IP.Equal`: an IPv4 address equals its IPv4-mapped IPv6 form. */
  predicate SameIP(a: IP, b: IP) {
    if |a| == |b| then a == b
    else if |a| == 4 && |b| == 16 then b[..12] == V4_IN_V6 && b[12..] == a
    else if |a| == 16 && |b| == 4 then a[..12] == V4_IN_V6 && a[12..] == b
    else false
  }

  /** What `validateSAN` promises: localhost, and the two loopback addresses in either order. */
  predicate ValidSan(cert: Certificate) {
    && cert.dnsNames == ["localhost"]
    && |cert.ipAddresses| == 2
    && ((SameIP(cert.ipAddresses[0], V4_IN_V6 + IPV4_LOOPBACK) && SameIP(cert.ipAddresses[1], IPV6_LOOPBACK))
        || (SameIP(cert.ipAddresses[0], IPV6_LOOPBACK) && SameIP(cert.ipAddresses[1], V4_IN_V6 + IPV4_LOOPBACK)))
  }

  /** The loop sets two flags; that it accepts exactly the two orders needs that no address is both. */
  method ValidateSAN(cert: Certificate) returns (ok: bool)
    ensures ok <==> ValidSan(cert)
  {
    if |cert.dnsNames| != 1 || cert.dnsNames[0] != "localhost" {
      return false;
    }
    if |cert.ipAddresses| != 2 {
      return false;
    }
    var found4, found6 := false, false;
    var ips := cert.ipAddresses;
    var i := 0;
    while i < |ips|
      invariant 0 <= i <= |ips|
      invariant found4 <==> exists j :: 0 <= j < i && SameIP(ips[j], V4_IN_V6 + IPV4_LOOPBACK)
      invariant found6 <==> exists j :: 0 <= j < i && SameIP(ips[j], IPV6_LOOPBACK)
    {
      if SameIP(ips[i], V4_IN_V6 + IPV4_LOOPBACK) {
        found4 := true;
      }
      if SameIP(ips[i], IPV6_LOOPBACK) {
        found6 := true;
      }
      i := i + 1;
    }
    LoopbacksDiffer(ips[0]);
    LoopbacksDiffer(ips[1]);
    ok := found4 && found6;
  }

  lemma LoopbacksDiffer(ip: IP)
    ensures !(SameIP(ip, V4_IN_V6 + IPV4_LOOPBACK) && SameIP(ip, IPV6_LOOPBACK))
  {
    assert (V4_IN_V6 + IPV4_LOOPBACK)[10] == 0xff;
    assert IPV6_LOOPBACK[10] == 0;
    if |ip| == 4 {
      assert IPV6_LOOPBACK[..12][10] == 0 && V4_IN_V6[10] == 0xff;
    }
  }

  /** `createCACertSelfSigned`, as parsed back: self-signed, allowed to sign certificates. */
  function NewCA(now: Instant, serial: Serial, caKey: PublicKey): Certificate {
    Certificate(serial, CA_NAME, CA_NAME, Encoded(CaTemplate(now)), [], [], true, true, caKey, caKey)
  }

  /** `createServerCertWithPub`, as parsed back: IPv4 addresses come back in their four-byte form. */
  function NewLeaf(now: Instant, serial: Serial, ca: Certificate, caKey: PublicKey, serverKey: PublicKey)
    : Certificate
  {
    Certificate(serial, SERVER_NAME, ca.subject, Encoded(LeafTemplate(now, ca.window)), ["localhost"],
                [IPV4_LOOPBACK, IPV6_LOOPBACK], false, false, serverKey, caKey)
  }

  lemma SerialsKept(now: Instant, serial: Serial, ca: Certificate, caKey: PublicKey, serverKey: PublicKey)
    ensures NewCA(now, serial, caKey).serial == serial
    ensures NewLeaf(now, serial, ca, caKey, serverKey).serial == serial
  {
  }

  /** What the issuing code builds passes every check the loading code makes. */
  lemma NewLeafPassesChecks(now: Instant, serial: Serial, ca: Certificate, caKey: PublicKey, serverKey: PublicKey)
    requires ca.isCA && ca.certSign && PublicKeyMatches(ca, caKey)
    requires !serverKey.NonEcdsa?
    ensures var leaf := NewLeaf(now, serial, ca, caKey, serverKey);
            && ValidSan(leaf) && IssuedBy(leaf, ca) && PublicKeyMatches(leaf, serverKey)
            && (ca.issuer == ca.subject && ca.signedBy == ca.pub ==> ChainsTo(leaf, ca))
  {
  }
}
