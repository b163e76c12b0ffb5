/** One probe job: at most three bounded exchanges, their classification, and the deadline recovery relies on. */
module ProbeExecution {
  import opened Domain
  import opened RemediationRecord
  import opened RemediationProtocol
  import opened RemediationSafety
  import opened RemediationRuns
  import opened RemediationRecovery
  import opened RemediationService
  import opened RemediationRefinement

  datatype ProbeError = ScopeError | TimeoutError | RefusedError | TlsError | ProtocolError | IoError

  /** What an exchange hands back; `Partial` carries the evidence collected before the failure. */
  datatype Response =
    | Delivered(evidence: ProbeResult)
    | Partial(error: ProbeError, evidence: ProbeResult)
    | Rejected(error: ProbeError)
  {
    predicate HasEvidence() { !Rejected? }
  }

  datatype Route = SmtpStartTls | ImapStartTls | Pop3Stls | ImplicitTlsProbe

  function RouteOf(protocol: EmailProtocol, port: nat): Route {
    if protocol == Smtp && port != 465 then SmtpStartTls
    else if protocol == Imap && (port == 143 || port != 993) then ImapStartTls
    else if protocol == Pop3 && (port == 110 || port != 995) then Pop3Stls
    else ImplicitTlsProbe
  }

  /** The port of the protocol that is encrypted from the first byte. */
  function ImplicitPort(protocol: EmailProtocol): Option<nat> {
    match protocol case Smtp => Some(465) case Imap => Some(993) case Pop3 => Some(995) case UnknownProtocol => None
  }

  /** A connection is upgraded in its own protocol's way unless it is encrypted from the start. */
  lemma RouteIsByPort(protocol: EmailProtocol, port: nat)
    ensures RouteOf(protocol, port) == ImplicitTlsProbe
      <==> protocol.UnknownProtocol? || ImplicitPort(protocol) == Some(port)
    ensures RouteOf(protocol, port) == SmtpStartTls ==> protocol == Smtp
    ensures RouteOf(protocol, port) == ImapStartTls ==> protocol == Imap
    ensures RouteOf(protocol, port) == Pop3Stls ==> protocol == Pop3
  {}

  function OutcomeOf(response: Response): ProbeOutcome {
    match response
    case Delivered(evidence) => if evidence.error.Some? then HandshakeError else Success
    case Partial(error, _) => OutcomeOfError(error)
    case Rejected(error) => OutcomeOfError(error)
  }

  function OutcomeOfError(error: ProbeError): ProbeOutcome {
    match error
    case ScopeError => ScopeRejected
    case TimeoutError => Timeout
    case RefusedError => ConnectionRefused
    case TlsError => HandshakeError
    case _ => InternalError
  }

  function EvidenceOf(response: Response): ProbeResult {
    match response
    case Delivered(evidence) => evidence
    case Partial(_, evidence) => evidence
    case Rejected(_) => Unavailable(Some("rejected"))
  }

  predicate ProtocolVersionAlert(error: string) {
    Contains(error, "alert protocol version") || Contains(error, "alert number 70")
  }

  /** Only an explicit protocol-version alert from the same address establishes refusal. */
  function Classify(version: TlsVersion, response: Response, expectedIp: Option<string>): TlsChallenge {
    if !response.HasEvidence() then TlsChallenge(version, ChallengeUnavailable)
    else
      var evidence := response.evidence;
      if evidence.resolvedIp != expectedIp || expectedIp.None? then TlsChallenge(version, ChallengeUnavailable)
      else if evidence.tlsVersion == Some(version) then TlsChallenge(version, ChallengeAccepted)
      else if evidence.error.Some? && ProtocolVersionAlert(evidence.error.value) then
        TlsChallenge(version, ChallengeRejected)
      else TlsChallenge(version, ChallengeUnavailable)
  }

  /** One exchange asked of the network: how, with whom, and with which version forced. */
  datatype Request = Request(route: Route, target: string, port: nat, forced: Option<TlsVersion>)

  /** An exchange under its overall deadline: any response, and at most `timeout` of elapsed time. */
  method TimedExchange(request: Request, timeout: Time) returns (response: Response, elapsed: Time)
    requires timeout >= 0
    ensures 0 <= elapsed <= timeout
    ensures response.HasEvidence() ==> response.evidence.tlsChallenges == []
  {
    elapsed :| 0 <= elapsed <= timeout;
    assert !Rejected(ProtocolError).HasEvidence();
    response :| response.HasEvidence() ==> response.evidence.tlsChallenges == [];
  }

  const CHALLENGES: seq<TlsVersion> := [Tls10, Tls11]

  predicate NeedsChallenges(run: ProbeRun, first: Response) {
    run.condition == Some(LegacyTlsDisabled) && OutcomeOf(first) == Success
  }

  /** The evidence a finished run carries, as a function of the responses it received. */
  function Gathered(run: ProbeRun, responses: seq<Response>): ProbeResult
    requires |responses| == if responses != [] && NeedsChallenges(run, responses[0]) then 3 else 1
  {
    var base := EvidenceOf(responses[0]);
    if NeedsChallenges(run, responses[0]) then
      base.(tlsChallenges :=
        [Classify(Tls10, responses[1], base.resolvedIp), Classify(Tls11, responses[2], base.resolvedIp)])
    else base
  }

  /**
    A job made these exchanges, spending `network` on them, and ends as `done`; it spends `overhead` outside the
    network, on storage calls and on waiting to be scheduled. `enriched` says whether the stored expectations could be
    read; if not, the run stays unfinished.
   */
  ghost predicate Executes(run: ProbeRun, timeout: Time, overhead: Time, enriched: bool, done: Option<ProbeRun>,
                           responses: seq<Response>, network: Time)
  {
    && responses != [] && 0 <= network <= |responses| * timeout
    && (forall i | 0 <= i < |responses| && responses[i].HasEvidence() :: responses[i].evidence.tlsChallenges == [])
    && (done.None? <==> responses[0].Delivered? && !enriched)
    && (done.None? ==> |responses| == 1)
    && (done.Some? ==>
          && |responses| == (if NeedsChallenges(run, responses[0]) then 3 else 1)
          && done.value
             == run.Finish(run.startedAt + network + overhead, OutcomeOf(responses[0]), Some(Gathered(run, responses))))
  }

  /** The job's exchanges: with its target and port, the first one free, the others with an old version forced. */
  ghost predicate Asks(run: ProbeRun, requests: seq<Request>) {
    && (forall i | 0 <= i < |requests| ::
          && requests[i].target == run.target && requests[i].port == run.port
          && requests[i].route == RouteOf(run.protocol, run.port))
    && (requests != [] ==> requests[0].forced.None?)
    && (|requests| > 1 ==> requests[1].forced == Some(Tls10))
    && (|requests| > 2 ==> requests[2].forced == Some(Tls11))
  }

  ghost function Total(times: seq<Time>): Time {
    if times == [] then 0 else Total(times[..|times| - 1]) + times[|times| - 1]
  }

  lemma TotalMore(times: seq<Time>, t: Time)
    ensures Total(times + [t]) == Total(times) + t
  {}

  /** Runs the job. `times` is what each exchange took. */
  method Execute(run: ProbeRun, timeout: Time, overhead: Time, enriched: bool)
      returns (done: Option<ProbeRun>, responses: seq<Response>, network: Time, ghost requests: seq<Request>,
               ghost times: seq<Time>)
    requires timeout >= 0 && overhead >= 0
    ensures Executes(run, timeout, overhead, enriched, done, responses, network)
    ensures |requests| == |responses| && Asks(run, requests)
    ensures |times| == |responses| && network == Total(times)
  {
    var request := Request(RouteOf(run.protocol, run.port), run.target, run.port, None);
    var first, elapsed := TimedExchange(request, timeout);
    network := elapsed;
    responses, requests, times := [first], [request], [elapsed];
    TotalMore([], elapsed);
    if first.Delivered? && !enriched {
      return None, responses, network, requests, times;
    }
    var outcome, result := OutcomeOf(first), EvidenceOf(first);
    if run.condition == Some(LegacyTlsDisabled) && outcome == Success {
      for i := 0 to |CHALLENGES|
        invariant |responses| == |requests| == i + 1 && responses[0] == first && Asks(run, requests)
        invariant forall j | 0 <= j < |responses| && responses[j].HasEvidence() ::
          responses[j].evidence.tlsChallenges == []
        invariant 0 <= network <= (i + 1) * timeout && |times| == i + 1 && network == Total(times)
        invariant result == EvidenceOf(first).(tlsChallenges := result.tlsChallenges)
        invariant |result.tlsChallenges| == i
        invariant forall j | 0 <= j < i ::
          result.tlsChallenges[j] == Classify(CHALLENGES[j], responses[j + 1], EvidenceOf(first).resolvedIp)
      {
        var challenged := request.(forced := Some(CHALLENGES[i]));
        var response, spent := TimedExchange(challenged, timeout);
        network := network + spent;
        TotalMore(times, spent);
        times := times + [spent];
        responses, requests := responses + [response], requests + [challenged];
        var challenge := Classify(CHALLENGES[i], response, result.resolvedIp);
        result := result.(tlsChallenges := result.tlsChallenges + [challenge]);
      }
      assert result.tlsChallenges == [Classify(Tls10, responses[1], EvidenceOf(first).resolvedIp),
                                      Classify(Tls11, responses[2], EvidenceOf(first).resolvedIp)];
    }
    done := Some(run.Finish(run.startedAt + network + overhead, outcome, Some(result)));
  }

  /** The exchange came to its end, without an error, at this address. */
  ghost predicate Succeeded(response: Response, address: string) {
    response.Delivered? && response.evidence.error.None? && response.evidence.resolvedIp == Some(address)
  }

  /** The peer at this address took the old version. */
  ghost predicate Took(response: Response, address: string, version: TlsVersion) {
    response.HasEvidence() && response.evidence.resolvedIp == Some(address)
    && response.evidence.tlsVersion == Some(version)
  }

  /** The peer at this address refused the old version in so many words. */
  ghost predicate Refused(response: Response, address: string, version: TlsVersion) {
    && response.HasEvidence() && response.evidence.resolvedIp == Some(address)
    && response.evidence.tlsVersion != Some(version)
    && response.evidence.error.Some?
    && (Contains(response.evidence.error.value, "alert protocol version")
        || Contains(response.evidence.error.value, "alert number 70"))
  }

  ghost predicate FailedWith(response: Response, error: ProbeError) {
    (response.Partial? || response.Rejected?) && response.error == error
  }

  /** A finished run is called after how its first exchange ended. */
  lemma OutcomeExactly(run: ProbeRun, timeout: Time, overhead: Time, enriched: bool, done: ProbeRun,
                       responses: seq<Response>, network: Time)
    requires Executes(run, timeout, overhead, enriched, Some(done), responses, network)
    ensures done.outcome == Success <==> responses[0].Delivered? && responses[0].evidence.error.None?
    ensures done.outcome == HandshakeError <==>
      (responses[0].Delivered? && responses[0].evidence.error.Some?) || FailedWith(responses[0], TlsError)
    ensures done.outcome == Timeout <==> FailedWith(responses[0], TimeoutError)
    ensures done.outcome == ConnectionRefused <==> FailedWith(responses[0], RefusedError)
    ensures done.outcome == ScopeRejected <==> FailedWith(responses[0], ScopeError)
    ensures done.outcome == InternalError <==>
      FailedWith(responses[0], ProtocolError) || FailedWith(responses[0], IoError)
    ensures done.finishedAt == Some(run.startedAt + network + overhead) && done.Asked() == run.Asked()
  {}

  /**
    The verdict on a legacy-TLS fix, from the three exchanges: verified exactly when a modern handshake and explicit
    refusals of both old versions were all had from the original address; still present exactly when an old version was
    negotiated or taken there.
   */
  lemma LegacyVerdictIsEndToEnd(subject: Subject, run: ProbeRun, timeout: Time, overhead: Time, enriched: bool,
                                done: ProbeRun, responses: seq<Response>, network: Time)
    requires subject.condition == LegacyTlsDisabled && OfEndpoint(subject, run)
    requires Executes(run, timeout, overhead, enriched, Some(done), responses, network)
    ensures Succeeded(responses[0], subject.dstIp) ==> |responses| == 3
    ensures VerifyRemediation(subject, done) == VerifiedFixed <==>
      && Succeeded(responses[0], subject.dstIp) && responses[0].evidence.tlsVersion in {Some(Tls12), Some(Tls13)}
      && Refused(responses[1], subject.dstIp, Tls10) && Refused(responses[2], subject.dstIp, Tls11)
    ensures VerifyRemediation(subject, done) == StillPresent <==>
      && Succeeded(responses[0], subject.dstIp)
      && (responses[0].evidence.tlsVersion in {Some(Tls10), Some(Tls11)}
          || Took(responses[1], subject.dstIp, Tls10) || Took(responses[2], subject.dstIp, Tls11))
  {
    hide Contains;
    VerifiedExactly(subject, done);
    hide VerifyRemediation;
    if Succeeded(responses[0], subject.dstIp) {
      var cs := done.result.value.tlsChallenges;
      assert cs == [Classify(Tls10, responses[1], Some(subject.dstIp)),
        Classify(Tls11, responses[2], Some(subject.dstIp))];
      assert TlsChallenge(Tls10, ChallengeRejected) in cs <==> cs[0].outcome.ChallengeRejected?;
      assert TlsChallenge(Tls11, ChallengeRejected) in cs <==> cs[1].outcome.ChallengeRejected?;
      assert cs[0] in cs && cs[1] in cs;
    }
  }

  /** For any other condition the run's evidence is its one exchange's, and without an end there is no verdict. */
  lemma OtherVerdictIsEndToEnd(subject: Subject, run: ProbeRun, timeout: Time, overhead: Time, enriched: bool,
                               done: ProbeRun, responses: seq<Response>, network: Time)
    requires subject.condition != LegacyTlsDisabled && OfEndpoint(subject, run)
    requires Executes(run, timeout, overhead, enriched, Some(done), responses, network)
    ensures |responses| == 1
    ensures !Succeeded(responses[0], subject.dstIp) ==> VerifyRemediation(subject, done) == Inconclusive
    ensures Succeeded(responses[0], subject.dstIp) ==> done.result == Some(responses[0].evidence)
  {}

  // ---------- the threshold of recovery ----------

  /** The most exchanges a job makes: only a legacy-TLS check challenges the old versions. */
  function MostExchanges(run: ProbeRun): nat { if run.condition == Some(LegacyTlsDisabled) then 3 else 1 }

  /** The time a job may spend outside its exchanges without being called interrupted. */
  function Slack(config: Config, run: ProbeRun): Time { (3 - MostExchanges(run)) * config.timeout + 30 * SECOND }

  /** The job has not yet reached its end at the present moment. */
  ghost predicate Working(s: System, run: ProbeRun, overhead: Time) {
    exists enriched, done, responses, network ::
      && Executes(run, s.config.timeout, overhead, enriched, done, responses, network)
      && s.now <= run.startedAt + network + overhead
  }

  lemma ExchangesAreBounded(run: ProbeRun, timeout: Time, overhead: Time, enriched: bool, done: Option<ProbeRun>,
                            responses: seq<Response>, network: Time)
    requires timeout >= 0 && Executes(run, timeout, overhead, enriched, done, responses, network)
    ensures |responses| <= MostExchanges(run) && network <= MostExchanges(run) * timeout
  {}

  /** A job can take all the time it is allowed. */
  lemma LongestJob(run: ProbeRun, timeout: Time, overhead: Time)
    requires timeout >= 0 && overhead >= 0
    ensures exists enriched, done, responses ::
      Executes(run, timeout, overhead, enriched, done, responses, MostExchanges(run) * timeout)
  {
    var success := Delivered(Unavailable(None));
    var responses := if run.condition == Some(LegacyTlsDisabled) then [success, success, success] else [success];
    var network := MostExchanges(run) * timeout;
    var done := run.Finish(run.startedAt + network + overhead, Success, Some(Gathered(run, responses)));
    assert Executes(run, timeout, overhead, true, Some(done), responses, network);
  }

  /**
    No job is called interrupted while it works if and only if it spends no more outside its exchanges than the slack:
    the 30 s of the threshold, and the timeouts of the exchanges it does not make.
   */
  lemma SlackIsExact(config: Config, run: ProbeRun, overhead: Time)
    requires config.timeout >= 0 && overhead >= 0 && run.finishedAt.None?
    ensures (forall s: System | s.config == config && Working(s, run, overhead) :: !Overdue(s, run))
      <==> overhead <= Slack(config, run)
  {
    var timeout := config.timeout;
    forall s: System | s.config == config && Working(s, run, overhead) && overhead <= Slack(config, run)
      ensures !Overdue(s, run)
    {
      var enriched, done, responses, network :|
        && Executes(run, timeout, overhead, enriched, done, responses, network)
        && s.now <= run.startedAt + network + overhead;
      ExchangesAreBounded(run, timeout, overhead, enriched, done, responses, network);
    }
    if overhead > Slack(config, run) {
      LongestJob(run, timeout, overhead);
      var late := Start(config, run.startedAt + MostExchanges(run) * timeout + overhead);
      assert Working(late, run, overhead) && Overdue(late, run);
    }
  }

  /** The run stored for the attempt of `OpenedStore`. */
  function RequestedRun(subject: Subject, target: string): ProbeRun {
    NewRun(Some(RequestedRecord(subject)), PROBE, Surroundings(NIL, None, None, true, NoReview, target), 0)
  }

  /** `OpenedStore` once the run is stored and the threshold has just passed. */
  function WorkingStore(config: Config, subject: Subject, target: string): System
    requires config.timeout >= 0 && config.slots > 0
  {
    var run := RequestedRun(subject, target);
    OpenedStore(config, subject).(clients := map[0 := Executing(run)], probes := map[PROBE := run],
                                  free := config.slots - 1, now := InterruptedAfter(config) + 1)
  }

  lemma RunIsStored(config: Config, subject: Subject, target: string)
    requires config.timeout >= 0 && config.slots > 0
    ensures Steps(OpenedStore(config, subject), [Acquire(0), Reserve(0, RequestedRun(subject, target))])
      == Some(WorkingStore(config, subject, target).(now := 0))
  {
    hide Steps;
    var s, run := OpenedStore(config, subject), RequestedRun(subject, target);
    assert !Blocked(Do(s, Acquire(0)), run);
    TwoSteps(s, Acquire(0), Reserve(0, run));
    var t := Do(Do(s, Acquire(0)), Reserve(0, run));
    assert t.clients == map[0 := Executing(run)] && t.probes == map[PROBE := run];
  }

  lemma JobIsWorking(config: Config, subject: Subject, target: string) returns (actions: seq<Action>)
    requires config.timeout >= 0 && config.slots > 0
    ensures Run(config, 0, actions) == Some(WorkingStore(config, subject, target))
  {
    actions := AttemptIsOpened(config, subject);
    RunIsStored(config, subject, target);
    hide Steps, OpenedStore;
    var more := [Acquire(0), Reserve(0, RequestedRun(subject, target))];
    StepsConcat(Start(config, 0), actions, more);
    actions := actions + more;
    OneMoreStep(Start(config, 0), actions, Tick(InterruptedAfter(config) + 1));
    actions := actions + [Tick(InterruptedAfter(config) + 1)];
  }

  /**
    Beyond the slack a run of the protocol reaches a moment at which one client works on the job and recovery, which
    may then call it interrupted, ends the verification without a verdict, whatever the job goes on to find.
   */
  lemma WorkingJobIsInterrupted(config: Config, subject: Subject, target: string, overhead: Time)
      returns (actions: seq<Action>)
    requires config.timeout >= 0 && config.slots > 0 && overhead > Slack(config, RequestedRun(subject, target))
    ensures Run(config, 0, actions).Some?
    ensures var s, run := Run(config, 0, actions).value, RequestedRun(subject, target);
      && 0 in s.clients && s.clients[0] == Executing(run) && Working(s, run, overhead)
      && CanDo(s, RecoverStale(1, PROBE))
      && exists t ::
           && Alone(s, 1, t) && 0 in t.clients && t.clients[0] == Executing(run)
           && REMEDIATION in t.records && t.records[REMEDIATION].state.Inconclusive?
           && |t.records[REMEDIATION].attempts| == 1 && !t.records[REMEDIATION].attempts[0].Open()
  {
    actions := JobIsWorking(config, subject, target);
    var s, run := WorkingStore(config, subject, target), RequestedRun(subject, target);
    hide *;
    WorkingStoreIs(config, subject, target);
    StillWorking(config, subject, target, overhead);
    RunInv(config, 0, actions);
    PassInterrupts(s, run);
  }

  lemma StillWorking(config: Config, subject: Subject, target: string, overhead: Time)
    requires config.timeout >= 0 && config.slots > 0 && overhead > Slack(config, RequestedRun(subject, target))
    ensures Working(WorkingStore(config, subject, target), RequestedRun(subject, target), overhead)
  {
    hide Executes;
    LongestJob(RequestedRun(subject, target), config.timeout, overhead);
  }

  lemma WorkingStoreIs(config: Config, subject: Subject, target: string)
    requires config.timeout >= 0 && config.slots > 0
    ensures var s, run := WorkingStore(config, subject, target), RequestedRun(subject, target);
      && Idle(s, 1) && 0 in s.clients && s.clients[0] == Executing(run) && CanDo(s, RecoverStale(1, PROBE))
      && PROBE in s.probes && s.probes[PROBE] == run && run.id == PROBE && Overdue(s, run)
      && REMEDIATION in s.records && s.records[REMEDIATION].state.Verifying?
      && |s.records[REMEDIATION].attempts| == 1 && s.records[REMEDIATION].attempts[0].probeId == PROBE
  {}

  /** A pass on a store with one overdue run, on which its client still works. */
  lemma PassInterrupts(s: System, run: ProbeRun)
    requires Inv(s) && Idle(s, 1) && 0 in s.clients && s.clients[0] == Executing(run)
    requires PROBE in s.probes && s.probes[PROBE] == run && run.id == PROBE && Overdue(s, run)
    requires REMEDIATION in s.records && s.records[REMEDIATION].state.Verifying?
    requires |s.records[REMEDIATION].attempts| == 1 && s.records[REMEDIATION].attempts[0].probeId == PROBE
    ensures exists t ::
      && Alone(s, 1, t) && 0 in t.clients && t.clients[0] == Executing(run)
      && REMEDIATION in t.records && t.records[REMEDIATION].state.Inconclusive?
      && |t.records[REMEDIATION].attempts| == 1 && !t.records[REMEDIATION].attempts[0].Open()
  {
    hide *;
    var t := Pass(s, []).1;
    InvParts(s);
    SelectsNothing(s);
    PassIsARun(s, 1, []);
    PassRecord(s, [], REMEDIATION);
    PassKeys(s, []);
    InterruptionCloses(s, s.records[REMEDIATION], run);
  }

  lemma SelectsNothing(s: System)
    ensures Selected(MarkOverdue(s), [])
    ensures Sound(s) ==> RecordsOk(s) && ProbesOk(s)
  {}

  /** The evidence of an interruption verifies nothing. */
  lemma InterruptionCloses(s: System, r: Record, run: ProbeRun)
    requires r.state.Verifying? && |r.attempts| == 1 && r.attempts[0].probeId == PROBE
    requires PROBE in s.probes && s.probes[PROBE] == run && run.id == PROBE && Overdue(s, run)
    ensures Stuck(s, r) && Reaches(s, [], r)
    ensures Enabled(r, Closing(s, [], r)) ==>
      var r' := Fire(r, Closing(s, [], r));
      r'.state.Inconclusive? && |r'.attempts| == 1 && !r'.attempts[0].Open()
  {
    hide Contains;
  }
}
