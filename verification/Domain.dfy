/** The value types shared by the modules: identifiers, instants, TLS and probe evidence. */
module Domain {

  datatype Option<+T> = None | Some(value: T)

  /** UUIDs matter only up to equality; 0 stands for the nil UUID. */
  type Uuid = nat
  const NIL: Uuid := 0

  /** Instants and durations, in nanoseconds. */
  type Time = int
  const SECOND: Time := 1_000_000_000

  newtype byte = i: int | 0 <= i < 256

  datatype EmailProtocol = Smtp | Imap | Pop3 | UnknownProtocol

  datatype TlsVersion = Tls10 | Tls11 | Tls12 | Tls13 | UnknownTls(text: string)
  {
    predicate IsLegacy() { Tls10? || Tls11? }

    predicate IsModern() { Tls12? || Tls13? }

    function Display(): string {
      match this
      case Tls10 => "TLSv1.0"
      case Tls11 => "TLSv1.1"
      case Tls12 => "TLSv1.2"
      case Tls13 => "TLSv1.3"
      case UnknownTls(v) => v
    }
  }

  /** How a version arrives: the four known spellings are the known versions, any other text is kept. */
  function DecodeVersion(text: string): TlsVersion {
    if text == "TLSv1.0" then Tls10
    else if text == "TLSv1.1" then Tls11
    else if text == "TLSv1.2" then Tls12
    else if text == "TLSv1.3" then Tls13
    else UnknownTls(text)
  }

  /** A version some text decodes to: an unknown one is not spelled like a known one. */
  predicate Canonical(v: TlsVersion) { v.UnknownTls? ==> v.text !in {"TLSv1.0", "TLSv1.1", "TLSv1.2", "TLSv1.3"} }

  lemma DecodesCanonically(text: string)
    ensures Canonical(DecodeVersion(text)) && DecodeVersion(text).Display() == text
  {}

  /** Exactly the canonical versions survive being written as text and decoded again. */
  lemma CanonicalExactly(v: TlsVersion)
    ensures Canonical(v) <==> DecodeVersion(v.Display()) == v
  {}

  lemma CanonicalTextsDiffer(v: TlsVersion, w: TlsVersion)
    requires Canonical(v) && Canonical(w) && v.Display() == w.Display()
    ensures v == w
  {
    CanonicalExactly(v);
    CanonicalExactly(w);
  }

  datatype KeyExchange = Ecdhe | Dhe | RsaStatic | HybridPqc(pqc: string) | UnknownKx(text: string)

  datatype StartTlsResult =
    | AdvertisedAndAccepted | AdvertisedAndRejected | NotAdvertised
    | NotReached | ImplicitTls | AcceptedHandshakeFailed

  datatype ChallengeOutcome = ChallengeAccepted | ChallengeRejected | ChallengeUnavailable

  datatype TlsChallenge = TlsChallenge(version: TlsVersion, outcome: ChallengeOutcome)

  datatype Validity = Validity(notBefore: Time, notAfter: Time)

  /** Evidence collected by one active verification run. Text lines are kept as bytes. */
  datatype ProbeResult = ProbeResult(
    resolvedIp: Option<string>,
    smtpGreeting: Option<seq<byte>>,
    ehloCapabilities: seq<seq<byte>>,
    starttls: StartTlsResult,
    tlsVersion: Option<TlsVersion>,
    cipherSuite: Option<string>,
    certificate: Option<Validity>,
    certificateHostnameValid: Option<bool>,
    certificateTrusted: Option<bool>,
    tlsChallenges: seq<TlsChallenge>,
    error: Option<string>,
    /** Derived context has been attached to the evidence. */
    verification: bool)

  function Unavailable(error: Option<string>): ProbeResult {
    ProbeResult(None, None, [], NotReached, None, None, None, None, None, [], error, false)
  }

  datatype ProbeOutcome = Success | Timeout | ConnectionRefused | HandshakeError | ScopeRejected | InternalError

  datatype RemediationCondition = LegacyTlsDisabled | StartTlsAvailable | CertificateValid | ForwardSecrecyOnly

  datatype ProbeRun = ProbeRun(
    id: Uuid,
    remediationId: Option<Uuid>,
    condition: Option<RemediationCondition>,
    assetId: Uuid,
    target: string,
    protocol: EmailProtocol,
    port: nat,
    startedAt: Time,
    finishedAt: Option<Time>,
    outcome: ProbeOutcome,
    result: Option<ProbeResult>)
  {
    /** What the run was asked to do, whatever came of it. */
    function Asked(): ProbeRun { this.(finishedAt := None, outcome := InternalError, result := None) }

    function Finish(at: Time, outcome: ProbeOutcome, result: Option<ProbeResult>): ProbeRun {
      this.(finishedAt := Some(at), outcome := outcome, result := result)
    }
  }

  /** `text.contains(part)`. */
  predicate Contains(text: string, part: string) {
    exists i | 0 <= i <= |text| :: PartAt(text, part, i)
  }

  predicate PartAt(text: string, part: string, i: nat)
    requires i <= |text|
  {
    i + |part| <= |text| && text[i..i + |part|] == part
  }

  /** A text contains another exactly when it is that one with something before and something after it. */
  lemma ContainsExactly(text: string, part: string)
    ensures Contains(text, part) <==> exists before, after: string :: text == before + part + after
  {
    if i :| 0 <= i <= |text| && PartAt(text, part, i) {
      assert text == text[..i] + part + text[i + |part|..];
    }
    if before: string, after: string :| text == before + part + after {
      assert text[|before|..|before| + |part|] == part;
      assert PartAt(text, part, |before|);
    }
  }

  /** No element occurs twice. */
  ghost predicate Distinct<T>(s: seq<T>) {
    forall i, j | 0 <= i < j < |s| :: s[i] != s[j]
  }
}
