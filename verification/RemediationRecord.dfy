/**
  The remediation record, its atomic transitions, and what a serial run of transitions keeps.
  A record is only ever replaced as a whole, by compare-and-swap on its revision.
 */
module RemediationRecord {
  import opened Domain

  datatype State = InProgress | Applied | Verifying | VerifiedFixed | StillPresent | Inconclusive

  predicate IsVerdict(s: State) { s.VerifiedFixed? || s.StillPresent? || s.Inconclusive? }

  /** The immutable part of a record that a verification is compared with. */
  datatype Subject = Subject(assetId: Uuid, protocol: EmailProtocol, port: nat, dstIp: string,
                             condition: RemediationCondition)

  datatype Attempt = Attempt(
    requestId: Uuid,
    probeId: Uuid,
    requestedAt: Time,
    completedAt: Option<Time>,
    outcome: Option<State>,
    after: Option<ProbeRun>)
  {
    predicate Open() { completedAt.None? }
  }

  datatype Record = Record(
    id: Uuid,
    subject: Subject,
    state: State,
    revision: nat,
    appliedAt: Option<Time>,
    note: Option<string>,
    attempts: seq<Attempt>)

  // ---------- the pure comparison of evidence with the condition ----------

  predicate CertificateIssue(error: string) {
    || Contains(error, "certificate")
    || Contains(error, "unknown issuer")
    || Contains(error, "self-signed")
    || Contains(error, "expired")
  }

  predicate ExplicitlyRejected(challenges: seq<TlsChallenge>, version: TlsVersion) {
    exists i | 0 <= i < |challenges| ::
      challenges[i].version == version && challenges[i].outcome.ChallengeRejected?
  }

  predicate SomeAccepted(challenges: seq<TlsChallenge>) {
    exists i | 0 <= i < |challenges| :: challenges[i].outcome.ChallengeAccepted?
  }

  /** The run checks the record's own connection, for the record's own condition. */
  predicate OfEndpoint(subject: Subject, run: ProbeRun) {
    && run.assetId == subject.assetId && run.protocol == subject.protocol && run.port == subject.port
    && run.condition == Some(subject.condition)
  }

  function VerifyRemediation(subject: Subject, probe: ProbeRun): State {
    if probe.assetId != subject.assetId || probe.protocol != subject.protocol || probe.port != subject.port then
      Inconclusive
    else if probe.outcome != Success || probe.finishedAt.None? || probe.result.None? then
      Inconclusive
    else
      var result := probe.result.value;
      if result.error.Some? && (!CertificateIssue(result.error.value) || subject.condition.CertificateValid?) then
        Inconclusive
      else if result.resolvedIp != Some(subject.dstIp) then
        Inconclusive
      else
        match subject.condition
        case LegacyTlsDisabled =>
          if (result.tlsVersion.Some? && result.tlsVersion.value.IsLegacy()) || SomeAccepted(result.tlsChallenges) then
            StillPresent
          else if result.tlsVersion.None? || !result.tlsVersion.value.IsModern() then
            Inconclusive
          else if ExplicitlyRejected(result.tlsChallenges, Tls10)
               && ExplicitlyRejected(result.tlsChallenges, Tls11) then
            VerifiedFixed
          else
            Inconclusive
        case StartTlsAvailable =>
          if result.starttls.NotAdvertised? || result.starttls.AdvertisedAndRejected? then
            StillPresent
          else if result.starttls.AdvertisedAndAccepted? && result.tlsVersion.Some? then
            VerifiedFixed
          else
            Inconclusive
        case CertificateValid =>
          if result.certificate.None? then
            Inconclusive
          else
            var cert := result.certificate.value;
            var at := probe.finishedAt.value;
            if at > cert.notAfter || at < cert.notBefore
               || result.certificateHostnameValid == Some(false) || result.certificateTrusted == Some(false) then
              StillPresent
            else if result.certificateHostnameValid != Some(true) || result.certificateTrusted != Some(true) then
              Inconclusive
            else
              VerifiedFixed
        case ForwardSecrecyOnly => Inconclusive
  }

  // ---------- atomic transitions ----------

  datatype Transition =
    | Apply(at: Time, note: Option<string>)
    | OpenAttempt(requestId: Uuid, probeId: Uuid, at: Time)
    | CloseLast(verdict: State, at: Time, after: Option<ProbeRun>)

  predicate HasRequest(r: Record, requestId: Uuid) {
    exists i | 0 <= i < |r.attempts| :: r.attempts[i].requestId == requestId
  }

  predicate HasProbe(r: Record, probeId: Uuid) {
    exists i | 0 <= i < |r.attempts| :: r.attempts[i].probeId == probeId
  }

  function AppliedRecord(r: Record, at: Time, note: Option<string>): Record {
    r.(revision := r.revision + 1, state := Applied, appliedAt := Some(at), note := note)
  }

  function OpenedRecord(r: Record, requestId: Uuid, probeId: Uuid, at: Time): Record {
    r.(revision := r.revision + 1, state := Verifying,
       attempts := r.attempts + [Attempt(requestId, probeId, at, None, None, None)])
  }

  /** Closing writes the attempt at `index` and moves the whole record to the verdict. */
  function ClosedRecord(r: Record, index: nat, verdict: State, at: Option<Time>, after: Option<ProbeRun>): Record
    requires index < |r.attempts|
  {
    var a := r.attempts[index];
    r.(revision := r.revision + 1, state := verdict,
       attempts := r.attempts[index := a.(completedAt := at, outcome := Some(verdict), after := after)])
  }

  /**
    The verdict an attempt may be closed with: the comparison of the finished probe's evidence,
    or Inconclusive when no probe ever started.
   */
  predicate BackedVerdict(subject: Subject, probeId: Uuid, verdict: State, at: Time, after: Option<ProbeRun>) {
    match after
    case None => verdict.Inconclusive?
    case Some(p) =>
      && p.id == probeId && p.finishedAt == Some(at) && OfEndpoint(subject, p)
      && verdict == VerifyRemediation(subject, p)
  }

  predicate Enabled(r: Record, t: Transition) {
    match t
    case Apply(at, note) => !r.state.Verifying?
    case OpenAttempt(requestId, probeId, at) =>
      && requestId != NIL && !HasRequest(r, requestId) && !HasProbe(r, probeId)
      && r.appliedAt.Some? && !r.state.Verifying?
    case CloseLast(verdict, at, after) =>
      && r.state.Verifying? && |r.attempts| > 0
      && BackedVerdict(r.subject, r.attempts[|r.attempts| - 1].probeId, verdict, at, after)
  }

  function Fire(r: Record, t: Transition): Record
    requires Enabled(r, t)
  {
    match t
    case Apply(at, note) => AppliedRecord(r, at, note)
    case OpenAttempt(requestId, probeId, at) => OpenedRecord(r, requestId, probeId, at)
    case CloseLast(verdict, at, after) => ClosedRecord(r, |r.attempts| - 1, verdict, Some(at), after)
  }

  predicate Initial(r: Record) {
    r.state.InProgress? && r.revision == 0 && r.appliedAt.None? && r.note.None? && r.attempts == []
  }

  // ---------- the lifecycle invariant ----------

  ghost predicate AttemptShape(subject: Subject, a: Attempt) {
    && a.requestId != NIL
    && (a.Open() ==> a.outcome.None? && a.after.None?)
    && (!a.Open() ==>
          a.outcome.Some? && BackedVerdict(subject, a.probeId, a.outcome.value, a.completedAt.value, a.after))
  }

  ghost predicate Lifecycle(r: Record) {
    && (forall i | 0 <= i < |r.attempts| :: AttemptShape(r.subject, r.attempts[i]))
    && (forall i | 0 <= i < |r.attempts| - 1 :: !r.attempts[i].Open())
    && (r.state.Verifying? <==> r.attempts != [] && r.attempts[|r.attempts| - 1].Open())
    && (IsVerdict(r.state) ==> r.attempts != [] && r.attempts[|r.attempts| - 1].outcome == Some(r.state))
    && (r.state.InProgress? <==> r.revision == 0)
    && (r.appliedAt.Some? <==> r.revision > 0)
    && (forall i, j | 0 <= i < j < |r.attempts| :: r.attempts[i].requestId != r.attempts[j].requestId)
    && (forall i, j | 0 <= i < j < |r.attempts| :: r.attempts[i].probeId != r.attempts[j].probeId)
  }

  lemma VerdictsOnly(subject: Subject, probe: ProbeRun)
    ensures IsVerdict(VerifyRemediation(subject, probe))
  {}

  lemma InitialLifecycle(r: Record)
    requires Initial(r)
    ensures Lifecycle(r)
  {}

  lemma FireKeepsLifecycle(r: Record, t: Transition)
    requires Lifecycle(r) && Enabled(r, t)
    ensures Lifecycle(Fire(r, t))
  {}

  // ---------- history ----------

  /** `b` keeps everything `a` recorded about an attempt; a closed attempt is frozen. */
  ghost predicate Extends(a: Attempt, b: Attempt) {
    && a.requestId == b.requestId && a.probeId == b.probeId && a.requestedAt == b.requestedAt
    && (!a.Open() ==> a == b)
  }

  /** `b` is `a` or a later version of it. */
  ghost predicate Later(a: Record, b: Record) {
    && a.id == b.id && a.subject == b.subject
    && a.revision <= b.revision
    && (a.revision == b.revision ==> a == b)
    && |a.attempts| <= |b.attempts|
    && (forall i | 0 <= i < |a.attempts| :: Extends(a.attempts[i], b.attempts[i]))
    && (a.state.Verifying? && a.revision < b.revision && a.attempts != [] ==>
          !b.attempts[|a.attempts| - 1].Open())
  }

  lemma FireIsLater(r: Record, t: Transition)
    requires Lifecycle(r) && Enabled(r, t)
    ensures Later(r, Fire(r, t)) && Fire(r, t).revision == r.revision + 1
  {}

  lemma LaterTransitive(a: Record, b: Record, c: Record)
    requires Later(a, b) && Later(b, c)
    ensures Later(a, c)
  {}

  // ---------- serial runs ----------

  /** The record after a sequence of transitions, or None when one of them was not enabled. */
  ghost function Serial(r: Record, ts: seq<Transition>): Option<Record> {
    if ts == [] then Some(r)
    else
      match Serial(r, ts[..|ts| - 1])
      case None => None
      case Some(mid) =>
        var t := ts[|ts| - 1];
        if Enabled(mid, t) then Some(Fire(mid, t)) else None
  }

  function Count(ts: seq<Transition>, p: Transition -> bool): nat {
    if ts == [] then 0 else Count(ts[..|ts| - 1], p) + if p(ts[|ts| - 1]) then 1 else 0
  }

  function ClosedCount(attempts: seq<Attempt>): nat {
    if attempts == [] then 0
    else ClosedCount(attempts[..|attempts| - 1]) + if attempts[|attempts| - 1].Open() then 0 else 1
  }

  const IsApply: Transition -> bool := (t: Transition) => t.Apply?
  const IsOpen: Transition -> bool := (t: Transition) => t.OpenAttempt?
  const IsClose: Transition -> bool := (t: Transition) => t.CloseLast?

  /** What one transition adds: one revision, and one attempt opened or one closed or neither. */
  lemma FireCounts(r: Record, t: Transition)
    requires Lifecycle(r) && Enabled(r, t)
    ensures var last := Fire(r, t);
      && last.revision == r.revision + 1
      && |last.attempts| == |r.attempts| + (if t.OpenAttempt? then 1 else 0)
      && ClosedCount(last.attempts) == ClosedCount(r.attempts) + (if t.CloseLast? then 1 else 0)
  {}

  /**
    The lifecycle of every record a serial run reaches, the history it keeps, and the revision law:
    a revision is the number of applies plus attempts opened plus attempts closed.
   */
  lemma {:induction false} SerialLifecycle(r: Record, ts: seq<Transition>)
    requires Initial(r) && Serial(r, ts).Some?
    ensures var last := Serial(r, ts).value;
      && Lifecycle(last) && Later(r, last)
      && Count(ts, IsOpen) == |last.attempts|
      && Count(ts, IsClose) == ClosedCount(last.attempts)
      && last.revision == Count(ts, IsApply) + |last.attempts| + ClosedCount(last.attempts)
  {
    if ts == [] {
      InitialLifecycle(r);
    } else {
      var front, t := ts[..|ts| - 1], ts[|ts| - 1];
      SerialLifecycle(r, front);
      var mid := Serial(r, front).value;
      FireKeepsLifecycle(mid, t);
      FireIsLater(mid, t);
      FireCounts(mid, t);
      hide Lifecycle, Enabled, Fire, Later, ClosedCount, Initial;
      LaterTransitive(r, mid, Fire(mid, t));
    }
  }

  /** Versions of one record along a serial run are ordered by `Later`: history is append-only. */
  lemma {:induction false} SerialHistory(r: Record, ts: seq<Transition>, n: nat)
    requires Initial(r) && Serial(r, ts).Some? && n <= |ts|
    ensures Serial(r, ts[..n]).Some? && Later(Serial(r, ts[..n]).value, Serial(r, ts).value)
    decreases |ts|
  {
    if n == |ts| {
      assert ts[..n] == ts;
    } else {
      var front := ts[..|ts| - 1];
      SerialHistory(r, front, n);
      assert front[..n] == ts[..n];
      SerialLifecycle(r, front);
      var mid := Serial(r, front).value;
      FireIsLater(mid, ts[|ts| - 1]);
      LaterTransitive(Serial(r, ts[..n]).value, mid, Serial(r, ts).value);
    }
  }

  /** Two attempts opened anywhere in one run carry different request ids and different probes. */
  lemma {:induction false} OpensAreUnique(r: Record, ts: seq<Transition>, i: nat, j: nat)
    requires Initial(r) && Serial(r, ts).Some?
    requires i < j < |ts| && ts[i].OpenAttempt? && ts[j].OpenAttempt?
    ensures ts[i].requestId != ts[j].requestId && ts[i].probeId != ts[j].probeId
  {
    assert ts[..j][..i + 1] == ts[..i + 1];
    SerialHistory(r, ts, j);
    SerialHistory(r, ts[..j], i + 1);
    SerialHistory(r, ts, i + 1);
    OpenIsRecorded(r, ts, i);
    SerialHistory(r, ts, j + 1);
    SerialLifecycle(r, ts[..j]);
    OpenIsEnabled(r, ts, j);
    hide Serial, Lifecycle, Fire;
    var first, before := Serial(r, ts[..i + 1]).value, Serial(r, ts[..j]).value;
    var k := |first.attempts| - 1;
    assert Extends(first.attempts[k], before.attempts[k]);
  }

  lemma OpenIsEnabled(r: Record, ts: seq<Transition>, j: nat)
    requires j < |ts| && Serial(r, ts[..j + 1]).Some?
    ensures Serial(r, ts[..j]).Some? && Enabled(Serial(r, ts[..j]).value, ts[j])
  {
    assert ts[..j + 1][..j] == ts[..j];
  }

  lemma OpenIsRecorded(r: Record, ts: seq<Transition>, i: nat)
    requires i < |ts| && ts[i].OpenAttempt? && Serial(r, ts[..i + 1]).Some?
    ensures var last := Serial(r, ts[..i + 1]).value;
      && |last.attempts| > 0
      && last.attempts[|last.attempts| - 1].requestId == ts[i].requestId
      && last.attempts[|last.attempts| - 1].probeId == ts[i].probeId
  {}

  // ---------- what a verdict means ----------

  /** The error is about the certificate, which only a check of the certificate holds against the server. */
  ghost predicate OfCertificate(error: string) {
    exists word :: word in {"certificate", "unknown issuer", "self-signed", "expired"} && Contains(error, word)
  }

  lemma CertificateIssueExactly(error: string)
    ensures CertificateIssue(error) <==> OfCertificate(error)
  {
    hide Contains;
    assert OfCertificate(error) <==>
      Contains(error, "certificate") || Contains(error, "unknown issuer") || Contains(error, "self-signed")
      || Contains(error, "expired");
  }

  /** The run reached the original connection and came to a successful end. */
  ghost predicate Comparable(subject: Subject, p: ProbeRun) {
    && p.assetId == subject.assetId && p.protocol == subject.protocol && p.port == subject.port
    && p.outcome == Success && p.finishedAt.Some? && p.result.Some?
    && p.result.value.resolvedIp == Some(subject.dstIp)
  }

  /** What the documentation requires before a fix may be called verified. */
  ghost predicate FixEvidence(subject: Subject, p: ProbeRun) {
    && Comparable(subject, p)
    && var e := p.result.value;
    && match subject.condition
       case LegacyTlsDisabled =>
         && (e.error.Some? ==> OfCertificate(e.error.value))
         && (e.tlsVersion == Some(Tls12) || e.tlsVersion == Some(Tls13))
         && (forall v | v == Tls10 || v == Tls11 :: TlsChallenge(v, ChallengeRejected) in e.tlsChallenges)
         && (forall c | c in e.tlsChallenges :: !c.outcome.ChallengeAccepted?)
       case StartTlsAvailable =>
         && (e.error.Some? ==> OfCertificate(e.error.value))
         && e.starttls == AdvertisedAndAccepted && e.tlsVersion.Some?
       case CertificateValid =>
         && e.error.None? && e.certificate.Some?
         && e.certificate.value.notBefore <= p.finishedAt.value <= e.certificate.value.notAfter
         && e.certificateHostnameValid == Some(true) && e.certificateTrusted == Some(true)
       case ForwardSecrecyOnly => false
  }

  /** What the documentation takes as proof that the problem is still there. */
  ghost predicate ProblemEvidence(subject: Subject, p: ProbeRun) {
    && Comparable(subject, p)
    && var e := p.result.value;
    && match subject.condition
       case LegacyTlsDisabled =>
         && (e.error.Some? ==> OfCertificate(e.error.value))
         && (e.tlsVersion == Some(Tls10) || e.tlsVersion == Some(Tls11)
             || exists c :: c in e.tlsChallenges && c.outcome == ChallengeAccepted)
       case StartTlsAvailable =>
         && (e.error.Some? ==> OfCertificate(e.error.value))
         && (e.starttls == NotAdvertised || e.starttls == AdvertisedAndRejected)
       case CertificateValid =>
         && e.error.None? && e.certificate.Some?
         && (!(e.certificate.value.notBefore <= p.finishedAt.value <= e.certificate.value.notAfter)
             || e.certificateHostnameValid == Some(false) || e.certificateTrusted == Some(false))
       case ForwardSecrecyOnly => false
  }

  /** Each verdict exactly: verified by the evidence of a fix, still present by that of the problem, else undecided. */
  lemma VerifiedExactly(subject: Subject, p: ProbeRun)
    ensures VerifyRemediation(subject, p) == VerifiedFixed <==> FixEvidence(subject, p)
    ensures VerifyRemediation(subject, p) == StillPresent <==> ProblemEvidence(subject, p)
    ensures VerifyRemediation(subject, p) == Inconclusive <==> !FixEvidence(subject, p) && !ProblemEvidence(subject, p)
  {
    if p.result.Some? {
      ChallengesAsMembers(p.result.value.tlsChallenges);
      if p.result.value.error.Some? { CertificateIssueExactly(p.result.value.error.value); }
    }
    hide Contains, CertificateIssue, OfCertificate, ExplicitlyRejected, SomeAccepted;
  }

  lemma ChallengesAsMembers(cs: seq<TlsChallenge>)
    ensures forall v :: ExplicitlyRejected(cs, v) <==> TlsChallenge(v, ChallengeRejected) in cs
    ensures SomeAccepted(cs) <==> exists c :: c in cs && c.outcome.ChallengeAccepted?
  {
    forall v ensures ExplicitlyRejected(cs, v) <==> TlsChallenge(v, ChallengeRejected) in cs {
      if ExplicitlyRejected(cs, v) {
        var i :| 0 <= i < |cs| && cs[i].version == v && cs[i].outcome.ChallengeRejected?;
        assert cs[i] == TlsChallenge(v, ChallengeRejected);
      }
      if TlsChallenge(v, ChallengeRejected) in cs {
        var i :| 0 <= i < |cs| && cs[i] == TlsChallenge(v, ChallengeRejected);
        assert cs[i].version == v;
      }
    }
  }

  /** What a record says of its fix is what the evidence in its last attempt shows, taken at its own endpoint. */
  lemma VerdictIsBacked(r: Record)
    requires Lifecycle(r) && IsVerdict(r.state)
    ensures r.attempts != []
    ensures var a := r.attempts[|r.attempts| - 1];
      && (a.after.Some? ==>
            && a.after.value.id == a.probeId && a.completedAt == a.after.value.finishedAt
            && OfEndpoint(r.subject, a.after.value))
      && (r.state == VerifiedFixed <==> a.after.Some? && FixEvidence(r.subject, a.after.value))
      && (r.state == StillPresent <==> a.after.Some? && ProblemEvidence(r.subject, a.after.value))
  {
    var a := r.attempts[|r.attempts| - 1];
    assert AttemptShape(r.subject, a);
    if a.after.Some? { VerifiedExactly(r.subject, a.after.value); }
  }
}
