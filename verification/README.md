# Mailent: verification and evidence, proved

Mailent watches mail servers' transport security. This project models the parts of it whose correctness depends
on interleavings, on untrusted bytes, or on folds over mutable state, and proves what they promise:

- **Remediation** (`RemediationRecord`, `RemediationProtocol`, `RemediationSafety`, `RemediationRuns`,
  `RemediationRecovery`, `RemediationSync`, `RemediationService`, `RemediationRefinement`). A fix is applied, a probe is
  asked for, and the probe's evidence closes the attempt. Handlers, spawned probes and the recovery pass share one stored
  record and write it back by compare-and-swap on its revision. `RemediationProtocol` is the state machine: one action
  per storage call, any number of clients, crashes between any two calls, a clock. `RemediationSafety` shows what every
  action keeps, `RemediationRuns` what holds over whole runs, `RemediationRecovery` what a recovery pass achieves and when
  it gives up, `RemediationSync` what the sync endpoint may store without breaking any of it. `RemediationService` has the
  handlers as they are written, changing a copy in place and writing it back while others interfere before every storage
  call; undisturbed (`quiet`), each equals its specification. `RemediationRefinement` makes the two one model: the
  interference the handlers allow for is what the other clients' actions do, and each specification, the whole recovery
  pass included, is a sequence of its own client's actions.
- **Probes** (`ProbeExecution`, `SmtpReply`, `SmtpConnection`, `StartTlsExchange`). The multiline reply language of
  section 4.2.1 of RFC 5321 with a parser and a printer, the buffered reader that implements the parser over arbitrary
  chunks, and the STARTTLS exchange of section 4 of RFC 3207 that leaves partial evidence wherever it is cut off.
- **Evidence folds** (`AssetDrift`, `ZeekRecord`, `ZeekConnection`, `Normalize`, `Baseline`, `Simulation`,
  `FindingMerge`). An asset and its drift log, the Zeek log normaliser, the session baseline and its anomaly detector,
  the policy simulation, and the correlation and merging of findings.
- **The sensor's spool** (`Spool`): a bounded queue with an unreliable sender.

`Domain`, `SessionState`, `Orders` and `Sums` hold the shared vocabulary. `dafny verify dfyconfig.toml` checks everything.

## Findings

Properties that turned out false of the code, each with its input and its exact condition:

- **A recovery pass can give up.** A finished run without derived evidence whose asset is not in the store ends the whole
  pass (`apps/core/src/probes.rs:418-420`, `:581-600`) before the loop over the verifying records, and so does the next
  pass. The protocol itself never stores such a run (`EvidenceNeverFails`, `RecoveryIsComplete`), but the sync endpoint
  does: `mailent fix --sync` posts a finished run whose asset id is derived from the host name
  (`apps/cli/src/fix/verify.rs:224`, `apps/core/src/api/remediation.rs:121-124`). `PostedRunJamsRecovery` gives the run of
  the protocol, the posted run and the attempt that then stays open however often recovery runs while the run is among
  the 200 it takes up. Exactly: a pass comes to its end if and only if every selected run that needs evidence is of a
  known asset, and a stuck record is ended if and only if the pass reaches it (`PassResolvesExactly`); so, when the probe
  of some stuck record was never stored, all of them are ended if and only if those assets are known
  (`RecoveryNeedsEveryAsset`). Overdue runs are marked interrupted in any case (`PassProbe`).
- **The sync endpoint can lose an update** (`apps/core/src/api/remediation.rs:92-119`): it replaces the stored record with
  whatever the client sent, under the revision it has just read. `SyncCanLoseAnUpdate` is a run of the protocol after
  which that replacement loses an analyst's note and lets a stale write succeed. The protocol's invariant survives,
  whoever holds the current record, if and only if the incoming record is a well-formed later version of the stored one
  whose probe ids were drawn for it (`SyncIsSafeExactly`); for a record that is new to the store, if and only if it is
  well-formed and owns its probe ids (`SyncCreatesSafelyExactly`). No update is lost if and only if the incoming record
  `Follows` the stored one, a condition on the two records alone (`NothingLostExactly`). The record the command line sends
  for a new fix, one closed attempt at revision 1, follows no initial record (`ClientRecordBreaksTheLaw`). The whole-run
  theorems therefore speak of the handlers and recovery, without that endpoint.
- **A working probe can be called interrupted.** The threshold of recovery, three timeouts and 30 s, covers a job that
  makes at most k exchanges, and k is 3 for a legacy-TLS check and 1 for any other, if and only if the job spends at most
  3 - k timeouts and 30 s outside them (`SlackIsExact`); the code does not bound that time. Beyond it,
  `WorkingJobIsInterrupted` is a run of the protocol in which recovery ends the verification without a verdict while the
  job's client still works.

Documentation and code disagree in one place, and the model follows the code. `docs/remediation.md:41-47` says that
recovery applies persisted results and ends interrupted work; `recover_stale_probes` (`apps/core/src/probes.rs:571-603`)
does so, but nothing in this commit calls it, so the recovery theorems say what a pass achieves when one is run.

## Model

| member | source | states |
|---|---|---|
| RemediationRecord.VerifiedExactly | crates/domain/src/remediation.rs:106-211 | each verdict exactly, for every record and probe: "verified fixed" if and only if the probe carries the evidence the documentation asks for, "still present" if and only if it carries proof of the problem (a legacy handshake negotiated or accepted, STARTTLS omitted or refused, a certificate out of its time, of another host or untrusted), "inconclusive" otherwise |
| Domain.ContainsExactly | crates/domain/src/remediation.rs:124-128 | an error mentions a phrase exactly when it is that phrase with something before and after it |
| RemediationRecord.VerdictIsBacked | docs/remediation.md:16-34 | what a record says of its fix is what the evidence in its last attempt shows, and that evidence was taken at the record's own endpoint for its own condition |
| RemediationRecord.FireKeepsLifecycle | apps/core/src/remediation.rs:139-257 | apply, open and close each keep the lifecycle: only the last attempt may be open, "verifying" exactly when it is, a verdict is the last attempt's outcome, "in progress" exactly at revision 0, ids distinct |
| RemediationRecord.SerialLifecycle | apps/core/src/remediation.rs:115-257 | after any serial run of transitions the lifecycle holds and revision = applies + attempts opened + attempts closed |
| RemediationRecord.SerialHistory | apps/core/src/remediation.rs:184-257 | along a serial run attempts are only appended and a closed attempt never changes again |
| RemediationRecord.OpensAreUnique | apps/core/src/remediation.rs:166-194 | two attempts opened anywhere in a serial run differ in request id and in probe id |
| RemediationProtocol.Position | apps/core/src/remediation.rs:242-246 | the first attempt of a probe id |
| RemediationSafety.CasSeesCurrent | crates/storage/src/in_memory.rs:1014-1028 | when an update's expected revision matches, the copy it was made from is the stored record |
| RemediationSafety.OvertakenIsSettled | apps/core/src/remediation.rs:247-259 | when a completion's update is refused, somebody else has already closed that attempt |
| RemediationSafety.CasIsTransition | apps/core/src/remediation.rs:139-151 | writing back a copy either changes nothing or is one enabled transition of the current record |
| RemediationSafety.StepKeeps | apps/core/src/probes.rs:106-146 | every action of every client, crashes included, keeps the invariant over records, probes, clients, slots and assets, has exactly the effect of its committed transition, and changes only what others may see change |
| RemediationRuns.RunInv | apps/core/src/remediation.rs:124-341 | the invariant holds after every run from an empty store |
| RemediationRuns.NoLostUpdates | apps/core/src/remediation.rs:139-151 | in every interleaving the stored record is what its committed transitions yield one after the other from its creation |
| RemediationRuns.SnapshotsAreCoherent | apps/core/src/remediation.rs:195-228 | every copy in flight has at most the stored revision, and equals the stored record at equal revisions |
| RemediationRuns.CompletionNeverFails | apps/core/src/remediation.rs:238-315 | "remediation update contention", "not linked to a fix" and a missing record are unreachable, and a completion suffers at most one refused update |
| RemediationRuns.EvidenceNeverFails | apps/core/src/probes.rs:418-420 | in every run of the protocol "probe asset disappeared" is unreachable, for tasks and for recovery |
| RemediationRuns.ReachableRecord | apps/core/src/remediation.rs:169-256 | every record of every run has the lifecycle and obeys the revision law |
| RemediationRuns.HistoryIsAppendOnly | apps/core/src/remediation.rs:242-259 | between any two moments of a run history only grows and the first close of an attempt wins |
| RemediationRuns.ResendOpensNothing | apps/core/src/remediation.rs:166-168 | resending a request id, even concurrently, opens no second attempt in any run |
| RemediationRuns.OneProbePerRequest | docs/remediation.md:6-8 | the stored probes of one request are one probe |
| RemediationRuns.SchedulersAreAlone | apps/core/src/probes.rs:121-146 | a probe id is being scheduled by one handler at most, and only before its run is stored |
| RemediationRuns.RunsCheckTheirRecord | apps/core/src/probes.rs:33-49 | in every run of the protocol a stored probe of a record checks that record's asset, protocol, port and condition |
| RemediationRuns.EvidenceIsOwn | crates/domain/src/remediation.rs:111-116 | so no attempt is ever closed on evidence of another connection |
| RemediationRuns.RunsKeepTheirPurpose | apps/core/src/probes.rs:106-120 | what a probe was asked to do never changes, and a finished one stays finished |
| RemediationRuns.SlotsBalance | apps/core/src/probes.rs:106-146 | free permits plus their holders equal the configured number at every moment of every run, refused reservations and crashes included |
| RemediationRuns.TargetsAreExclusive | crates/storage/src/in_memory.rs:797-808 | two unfinished probes never share a target |
| RemediationRuns.TargetsRest | crates/storage/src/in_memory.rs:797-808 | a probe is stored only while its target is idle and has rested for the cooldown |
| RemediationRecovery.StuckExactly | apps/core/src/remediation.rs:318-341 | recovery takes over a verification exactly when its probe has finished, has run for more than three timeouts and 30 s, or was not stored within 30 s |
| RemediationRecovery.PassRecord | apps/core/src/probes.rs:571-603 | a pass closes a stuck record it reaches by exactly one enabled transition, and leaves every other record alone: fresh attempts, running probes inside their threshold, and what it did not reach before giving up |
| RemediationRecovery.PassProbe | apps/core/src/probes.rs:572-590 | a pass, given up or not, finishes a probe exactly when it is past its threshold, and derives evidence exactly for the runs it takes up |
| RemediationRecovery.PassKeepsInv | apps/core/src/probes.rs:571-603 | a pass, given up or not, keeps the invariant whatever clients are in flight |
| RemediationRecovery.PassShrinks | apps/core/src/probes.rs:571-603 | the open records left after a pass are exactly those that were not stuck or not reached, the unfinished probes exactly those that were not overdue |
| RemediationRecovery.PassDecreasesWork | apps/core/src/probes.rs:571-603 | open attempts plus unfinished probes never grow, strictly decrease while anything stuck is reached or overdue, and after a pass that came to its end a second one changes nothing |
| RemediationRecovery.RecoveryIsComplete | apps/core/src/probes.rs:571-603 | from any crash point of any run of the protocol, one pass after the thresholds comes to its end and leaves no record verifying and no probe unfinished |
| RemediationRecovery.PassResolvesExactly | apps/core/src/probes.rs:581-602 | a pass comes to its end if and only if no selected run needs evidence of an unknown asset; it ends all stuck records if and only if it reaches each of them |
| RemediationRecovery.RecoveryNeedsEveryAsset | apps/core/src/probes.rs:418-420 | with a stuck record whose probe was never stored, all stuck records are ended if and only if each selected run that needs evidence is of a known asset |
| RemediationRecovery.JamIsPermanent | apps/core/src/probes.rs:581-602 | such an unfinishable pass leaves that record and that run as they were, after any number of passes at any times that select the run |
| RemediationSync.SyncIsSafeExactly | apps/core/src/api/remediation.rs:100-113 | while a client holds the current record, replacing it keeps the invariant if and only if the incoming record is a well-formed later version whose probe ids were drawn for it |
| RemediationSync.ReadingIsAStep | apps/core/src/remediation.rs:124-130 | at any moment an idle client may take the copy of a record that this condition is about |
| RemediationSync.SyncCreatesSafelyExactly | apps/core/src/api/remediation.rs:113-119 | creating a record keeps the invariant if and only if it is well-formed and its probe ids were drawn for it |
| RemediationSync.NothingLostExactly | apps/core/src/api/remediation.rs:100-113 | some serial run of applies, opens and closes leads from the stored record to the incoming one if and only if it follows it, a condition on attempts, revision, note and state |
| RemediationSync.SyncCanLoseAnUpdate | apps/core/src/api/remediation.rs:100-113 | a run of the protocol after which the replacement loses an analyst's note, a write that would have been refused succeeds, and the result is no transition of the noted record |
| RemediationSync.ClientRecordBreaksTheLaw | apps/cli/src/fix/verify.rs:303-331 | a record with one closed attempt at revision 1 is the result of no serial run from an initial record |
| RemediationSync.PostedRunJamsRecovery | apps/core/src/api/remediation.rs:121-124 | a run of the protocol, a posted run of an unknown asset and a crash, after which an attempt past its threshold stays open whatever number of passes take that run up |
| RemediationService.Service.Update | crates/storage/src/in_memory.rs:1014-1028 | compare-and-swap on the revision |
| RemediationService.Service.Commit | apps/core/src/remediation.rs:143-151 | a write-back amid interference succeeds as one transition or reports a changed revision |
| RemediationService.Service.MarkApplied | apps/core/src/remediation.rs:124-153 | equals its specification when undisturbed; disturbed, the store only evolves, an accepted reply is what is stored, and each refusal has its reason |
| RemediationService.Service.Reserve | apps/core/src/probes.rs:121-146 | under interference after the slot was taken, the run is stored exactly when every other run of its target has finished at least the cooldown before |
| RemediationService.Service.Schedule | apps/core/src/probes.rs:27-147 | slot and reservation, with every refusal in its order and others interfering before each; a refused reservation gives the slot back; a stored run checks the record's own endpoint and condition, or without a record what was asked for, by default SMTP on port 25 |
| RemediationService.Service.Compensate | apps/core/src/remediation.rs:216-230 | a verification that could not start never stays open |
| RemediationService.Service.StartProbe | apps/core/src/remediation.rs:195-232 | a stored attempt gets its probe, of the record's own endpoint and condition, or is closed again for the reason it was refused |
| RemediationService.Service.RequestVerification | apps/core/src/remediation.rs:154-232 | equals its specification when undisturbed; a refusal leaves no open attempt and no probe and has its reason, an acceptance leaves the attempt, and a stored probe is one of the record's own endpoint |
| RemediationService.Service.CompleteProbe | apps/core/src/remediation.rs:234-316 | the bounded retry loop always ends with the attempt closed, under any interference |
| RemediationService.Service.RecoverOne | apps/core/src/remediation.rs:319-338 | one record of the recovery loop: its specification, and a ripe attempt is resolved under interference |
| RemediationService.Service.Recover | apps/core/src/remediation.rs:318-341 | the loop over verifying records: undisturbed it is the specified pass, disturbed it still resolves every ripe record |
| RemediationService.Service.RecoverStaleProbes | apps/core/src/probes.rs:571-603 | the whole recovery: undisturbed it is exactly the pass and reports whether it gave up; disturbed, every overdue run ends finished, and a pass that came to its end has resolved every stuck record |
| RemediationService.Service.MarkInterrupted | apps/core/src/probes.rs:572-580 | every overdue probe ends finished |
| RemediationService.Service.CompleteRecent | apps/core/src/probes.rs:581-600 | stops exactly at the first run that needs evidence of an unknown asset; otherwise every selected run's attempt is closed, under any interference |
| RemediationRefinement.OthersOnlyInterfere | apps/core/src/remediation.rs:124-341 | whatever sequence of actions the other clients take between two storage calls of a handler, the handler sees only the changes its contract allows for |
| RemediationRefinement.ApplyIsARun | apps/core/src/remediation.rs:124-153 | marking a record applied, undisturbed, is a sequence of that client's actions |
| RemediationRefinement.ManualCheckIsARun | apps/core/src/probes.rs:52-147 | so is scheduling a manual check, accepted or refused |
| RemediationRefinement.RequestIsARun | apps/core/src/remediation.rs:154-232 | so is a verification request: accepted, refused before or after the attempt was opened, or sent again |
| RemediationRefinement.CompletionIsARun | apps/core/src/remediation.rs:234-316 | so is completing a finished run |
| RemediationRefinement.PassIsARun | apps/core/src/probes.rs:571-603 | so is a whole recovery pass, over all overdue runs, selected runs and verifying records |
| ProbeExecution.Execute | apps/core/src/probes.rs:150-240 | one exchange, or three for a legacy-TLS check that first succeeds, all with the run's target and port, the later ones with TLS 1.0 and 1.1 forced; the network time is the sum of theirs, at most one timeout each |
| ProbeExecution.RouteIsByPort | apps/core/src/probes.rs:157-168 | a connection is upgraded in its own protocol's way unless its port is the protocol's implicit-TLS port |
| ProbeExecution.OutcomeExactly | apps/core/src/probes.rs:169-200 | each outcome of a finished run, exactly, by how its first exchange ended |
| ProbeExecution.LegacyVerdictIsEndToEnd | apps/core/src/probes.rs:187-320 | over the three responses: verified if and only if a modern handshake and a protocol-version alert against each of TLS 1.0 and 1.1 were had from the original address, still present if and only if an old version was negotiated or taken there |
| ProbeExecution.OtherVerdictIsEndToEnd | apps/core/src/probes.rs:170-200 | for other conditions the evidence is the one exchange's, and without its success there is no verdict |
| ProbeExecution.SlackIsExact | apps/core/src/probes.rs:572-575 | no job is overdue while it works if and only if it spends at most 30 s and the timeouts of the exchanges it may not make outside the network |
| ProbeExecution.WorkingJobIsInterrupted | apps/core/src/probes.rs:571-603 | beyond that, a run of the protocol in which one client works on the job, recovery may call it interrupted, and then closes the attempt as inconclusive |
| SmtpReply.Parse | apps/probe/src/smtp.rs:477-515 | takes no more bytes than there are, and an accepted reply has between one and the allowed number of lines, each with its code |
| SmtpReply.ReadsAreBounded | apps/probe/src/smtp.rs:483-488 | whatever the peer sends, at most `max_exchange_lines * (max_line_bytes + 1)` bytes are taken |
| SmtpReply.PrintedParses | apps/probe/src/smtp.rs:477-515 | printing a code and texts within the limits and parsing the result returns those lines up to trailing white space and consumes exactly the reply |
| SmtpReply.ParsedIsPrinted | apps/probe/src/smtp.rs:477-515 | every accepted input starts with such a printing: one shared code, only the last line space-separated |
| SmtpReply.AcceptedExactly | apps/probe/src/smtp.rs:477-515 | the accepted streams are exactly those that start with a printed reply |
| SmtpReply.PrintIsInjective | apps/probe/src/smtp.rs:489-511 | different replies print differently, even with bytes following them |
| SmtpReply.PrintedBytes | apps/probe/src/smtp.rs:489-511 | the printed bytes: a space after the code on the last line, a dash on the others, CR LF at every end |
| SmtpReply.DigitExactly | apps/probe/src/smtp.rs:496-503 | the bytes a code is made of are the ten decimal digits |
| SmtpReply.VerdictIsFinal | apps/probe/src/smtp.rs:477-515 | only data that runs dry leaves a reply undecided: any other verdict stands whatever follows and however the stream ends |
| SmtpReply.Utf8Exactly | apps/probe/src/smtp.rs:494-495 | the bytes accepted as text are exactly the encodings of sequences of Unicode scalar values |
| SmtpReply.TrailingSpaceExactly | apps/probe/src/smtp.rs:507 | what is trimmed from a line's end is exactly encoded Unicode white space |
| SmtpConnection.Connection.FillBuf | apps/probe/src/smtp.rs:483-488 | a buffered read changes nothing about the bytes still to come |
| SmtpConnection.Connection.ReadUntil | apps/probe/src/smtp.rs:484-488 | the bounded line read yields the specified raw line whatever the chunking |
| SmtpConnection.Connection.ReadReply | apps/probe/src/smtp.rs:477-515 | reading a reply is parsing the plain byte stream, bytes left over included |
| StartTlsExchange.Client.PerformHandshake | apps/probe/src/smtp.rs:233-335 | the handshake as an oracle: it fails before or after recording the session's facts, is refused with an error noted, or is established |
| StartTlsExchange.Client.Hello | apps/probe/src/smtp.rs:178-203 | greeting and EHLO against any peer: the evidence matches the bytes delivered; unless a write fails, greeting and capabilities are recorded whenever the peer gives them, and STARTTLS comes next exactly when it is advertised |
| StartTlsExchange.Client.Negotiate | apps/probe/src/smtp.rs:178-212 | the plaintext dialogue: an acceptance is recorded only for a 220 reply of the peer |
| StartTlsExchange.Client.Exchange | apps/probe/src/smtp.rs:169-231 | for every byte stream, failure and cut-off the commands are a prefix of an allowed trace, the handshake starts with an empty plaintext buffer, and the evidence is consistent; when connection and writes complete, the peer's bytes and the handshake alone decide how far it gets, what it records and how it ends |
| StartTlsExchange.Client.TimedProbe | apps/probe/src/smtp.rs:98-122 | whatever happens the evidence collected so far is handed back, consistent with the bytes and commands, with an error unless delivered; it is delivered, failed or timed out exactly as the exchange ended |
| StartTlsExchange.CapabilitiesExactly | apps/probe/src/smtp.rs:189-193 | the capabilities are the texts of the lines that have any, in their order |
| StartTlsExchange.JoinExactly | apps/probe/src/smtp.rs:182 | the greeting is kept as its lines with a space between them |
| StartTlsExchange.UpgradeIsAccepted | apps/probe/src/smtp.rs:178-212 | a server that greets with 220, answers 250 with a STARTTLS line in any letter case and then says 220 is one whose upgrade is accepted, whatever else it says |
| StartTlsExchange.StartTlsVerdictIsBacked | apps/probe/src/smtp.rs:193-229 | "fixed" only after a complete upgrade, "still present" only after a complete answer that omitted or refused STARTTLS |
| AssetDrift.LogReplaysVersions | apps/core/src/pipeline.rs:101-120 | for any versions at all the list, as text, is the creation-time list followed by the new values of its drift events, each citing the element before it |
| AssetDrift.LogRebuildsVersions | apps/core/src/pipeline.rs:101-120 | for versions as they are received the list itself is the creation-time list followed by what the logged new values decode to, and no text occurs twice |
| Domain.DecodesCanonically | crates/events/src/wire.rs:164-170 | the version a text decodes to is written as that text, and an unknown one is never spelled like a known one |
| Domain.CanonicalExactly | crates/domain/src/tls.rs:28-38 | exactly such versions survive being written and decoded |
| ZeekConnection.VersionIsCanonical | apps/sensor/src/normalize.rs:332-339 | both spellings of a known TLS version are that version, any other text is kept |
| ZeekRecord.RoundIsNearest | apps/sensor/src/normalize.rs:69-76 | a timestamp is rounded to the nearest nanosecond, a tie away from zero |
| ZeekConnection.CipherIdExactly | apps/sensor/src/normalize.rs:297-304 | the cipher number is an integer of 16 bits; what is no integer of 64 bits counts as absent |
| ZeekConnection.ChainExactly | apps/sensor/src/normalize.rs:425-431 | a chain is verified exactly when its status is "ok" in any letter case, failed for any other text |
| AssetDrift.LogReplaysCiphers | apps/core/src/pipeline.rs:123-141 | the same for the cipher list |
| AssetDrift.LogReplaysFingerprints | apps/core/src/pipeline.rs:174-193 | the same for the certificate fingerprints |
| AssetDrift.HistoryAgrees | apps/core/src/pipeline.rs:213-276 | in every reachable asset the lists are duplicate-free, endpoints are unique, the sets are the unions over the endpoints, and NewEndpoint events number endpoints minus one |
| AssetDrift.HistoryOnlyGrows | apps/core/src/pipeline.rs:99-279 | between any two moments of a history every list of the asset, every endpoint's lists and the log only grow at the end |
| AssetDrift.ReplayIsSilent | apps/core/src/pipeline.rs:99-279 | replaying any observation already folded in changes nothing but times and logs at most a forward-secrecy loss |
| AssetDrift.LossesAreCounted | apps/core/src/pipeline.rs:143-171 | the log has one loss of forward secrecy for each session with static RSA on an asset that had shown a forward-secret cipher by then |
| AssetDrift.IssuersAccompany | apps/core/src/pipeline.rs:174-210 | every change of certificate is logged with one event for its issuer, both of a certificate that some session showed |
| AssetDrift.EndpointNameTells | apps/core/src/pipeline.rs:213-228 | the name in an endpoint event determines protocol and port |
| AssetDrift.TouchEffect | apps/core/src/pipeline.rs:213-260 | exactly the first endpoint of the session's protocol and port is updated, or one is appended |
| AssetDrift.TrackedAsset.Discover | apps/core/src/pipeline.rs:280-322 | a discovered asset holds exactly what its first session showed |
| AssetDrift.TrackedAsset.Observe | apps/core/src/pipeline.rs:99-279 | the in-place update and its drift list equal the specified asset and events |
| ZeekConnection.ProtocolIsEvidence | apps/sensor/src/normalize.rs:208-255 | an observation carries a protocol if and only if the evidence names that one and no other; the port has no say |
| ZeekConnection.ObservationIsBacked | apps/sensor/src/normalize.rs:208-495 | identity, place, time, version, cipher, key exchange, certificate, timeline and STARTTLS verdict of an observation are those its lines give, each gap is reported exactly when something is missing, and the named sources are the connection's own lines and at most its certificate's |
| ZeekConnection.VerdictIsHighest | apps/sensor/src/normalize.rs:537-576 | the STARTTLS verdict is the highest rung of the ladder that the capture shows |
| ZeekConnection.RungsDiffer | apps/sensor/src/normalize.rs:537-576 | no two verdicts that a capture can show together share a rung |
| ZeekConnection.ObservedExactly | apps/sensor/src/normalize.rs:260-530 | an observation is made if and only if its fields are there where they must be and of the right kind where they are, there is at most one TLS line, and addresses, names and certificate are in order |
| ZeekConnection.SkippedExactly | apps/sensor/src/normalize.rs:208-246 | a readable connection is passed over if and only if it is not TCP, or nothing names a mail protocol and no TLS was seen on an implicit-TLS port |
| ZeekConnection.SortIsStable | apps/sensor/src/normalize.rs:318 | the timeline is chronological and keeps the events of each instant in their order |
| ZeekConnection.EvidenceOnlyClimbs | apps/sensor/src/normalize.rs:537-576 | more events, an upgrade or an established session never move the STARTTLS verdict down its ladder |
| Normalize.Regroup | apps/sensor/src/normalize.rs:145-184 | the tables built line by line are the groups, the last certificate of each key and the last hash of each file; reading fails exactly on an unreadable line or a conflicting certificate |
| Normalize.ConflictGrows | apps/sensor/src/normalize.rs:155-168 | comparing with the previous line of a key alone finds every conflict between any two |
| Normalize.CertificatesExactly | apps/sensor/src/normalize.rs:149-155 | the certificate of a key is the last line that goes by it, by its fingerprint or else its id |
| Normalize.HashesExactly | apps/sensor/src/normalize.rs:170-174 | the hash of a file is the one on the last line that gives it one |
| Normalize.SameIdentityExactly | apps/sensor/src/normalize.rs:156-167 | two lines of one key conflict exactly when subject, issuer or an end of the validity differs |
| Normalize.VisitAll | apps/sensor/src/normalize.rs:190-530 | connections are visited in the order of their uids, and the walk fails exactly when one of them does |
| Normalize.Run | apps/sensor/src/normalize.rs:139-535 | the run succeeds exactly on acceptable captures and returns their observations in the order of time, identity and uid |
| Normalize.StableSortOrders | apps/sensor/src/normalize.rs:533-534 | the stable sort of uid-ordered observations is strictly ordered and keeps its members |
| Normalize.OrderedIsUnique | apps/sensor/src/normalize.rs:533-534 | a set of observations has one such ordering, so a capture has one result |
| Normalize.PerConnection | apps/sensor/src/normalize.rs:185-472 | for any split of the connections, the capture is accepted if and only if it is not too large and both parts are accepted |
| Normalize.ResultsMerge | apps/sensor/src/normalize.rs:190-534 | the result of the whole is the ordered merge of the results of the parts |
| Normalize.ResultIsBacked | apps/sensor/src/normalize.rs:190-531 | every observation of a run says what its connection's lines say |
| Normalize.OnePerUid | apps/sensor/src/normalize.rs:190-531 | at most one observation per uid |
| Baseline.Calculate | crates/baseline/src/lib.rs:52-194 | the one-pass counters and maps give the baseline defined by counting |
| Baseline.Detect | crates/baseline/src/lib.rs:197-346 | the pushed signals, in order, are those of the five rules |
| Baseline.SignalsExactly | crates/baseline/src/lib.rs:205-343 | for any list and any session, exactly when each signal is raised, in terms of the sessions |
| Baseline.InListSignals | crates/baseline/src/lib.rs:71-343 | a session of the list is never unseen, unexpected or new, and is rare exactly when the list has at least 5 sessions and 20 times its cipher's count is below their number, hence never for 20 or fewer |
| Baseline.RatesAreRates | crates/baseline/src/lib.rs:114-168 | successes + failures <= attempts <= samples, and every rate and share lies in [0, 1] |
| Baseline.SharesAddUp | crates/baseline/src/lib.rs:140-156 | the shares of a distribution sum to the fraction of sessions that carry the field |
| Baseline.PerHourExactly | crates/baseline/src/lib.rs:166-172 | the hourly rate times the window's hours, counted in whole seconds and at least one, is the sample count |
| Baseline.OrderDoesNotMatter | crates/baseline/src/lib.rs:71-194 | permuting the sessions changes no rate, no distribution and no member of a list |
| Spool.Conservation | apps/sensor/src/spool.rs:78-134 | submitted = acknowledged + dropped + waiting, as multisets of observations and as counts |
| Spool.OrderIsKept | apps/sensor/src/spool.rs:102-113 | what was acknowledged or dropped is older than what waits, and each submission is in exactly one place |
| Spool.FreshExactly | apps/sensor/src/live.rs:151-156 | exactly the identifiers not met before are submitted, each once |
| Spool.BoundedSpooler.constructor | apps/sensor/src/spool.rs:44-59 | an empty spool of capacity at least 10 |
| Spool.BoundedSpooler.Submit | apps/sensor/src/spool.rs:78-113 | one send is tried exactly when nothing waits; otherwise or on failure the observation is queued last and the oldest is dropped exactly when the queue is full |
| Spool.BoundedSpooler.DrainPending | apps/sensor/src/spool.rs:115-134 | acknowledges a prefix of the queue in order, stops at the first failed send, and ends |
| Spool.BoundedSpooler.GetStats | apps/sensor/src/spool.rs:61-76 | processed = acknowledged + spooled + dropped, unless the queue is locked, when spooled reads 0 |
| Spool.BoundedSpooler.Poll | apps/sensor/src/live.rs:145-160 | a poll submits the fresh observations in order and then drains: nothing waits afterwards, or the last send tried was of the oldest waiting observation |
| Simulation.Dedupe | apps/core/src/simulation.rs:156-160 | one session per id, the first one fetched |
| Simulation.UniqueIsFirst | apps/core/src/simulation.rs:156-165 | the earliest fetched session of an id is the one that is kept and whose age is judged |
| Simulation.RetainedExactly | apps/core/src/simulation.rs:149-166 | the judged sessions are the first fetched of each id that are not older than the cutoff |
| Simulation.CutoffIsMonotone | apps/core/src/simulation.rs:163-166 | a later cutoff brings no session in and leaves out only sessions before it |
| Simulation.Replay | apps/core/src/simulation.rs:196-251 | in whatever order the sessions come, each rule's count is its number of violations over all of them |
| Simulation.BreaksIffViolated | apps/core/src/simulation.rs:253-293 | an asset has breakages if and only if some retained session violates a rule |
| Simulation.Judge | apps/core/src/simulation.rs:147-306 | an asset's verdict, session count and breakages are those of its retained sessions |
| Simulation.RunSimulation | apps/core/src/simulation.rs:102-351 | the counters, summaries and sorted results of a run are those of the per-asset judgements |
| Simulation.RankedOrder | apps/core/src/simulation.rs:329-334 | results come out as the failing, then the insufficient, then the compatible assets, each in their original order |
| Simulation.TotalsBalance | apps/core/src/simulation.rs:141-145 | the three counts add up to the results and to the assets, and total sessions is the sum of distinct retained sessions |
| Simulation.SummariesMatchResults | apps/core/src/simulation.rs:255-324 | each rule's summary is the number of asset results containing it and the sum of their counts, whatever the map order |
| FindingMerge.CorrelateSession | crates/correlation/src/lib.rs:17-70 | one finding per policy, version and rule in the order of these keys, made from its whole group; it spans its session's interval and speaks in the words of the first candidate |
| FindingMerge.CorrelationConserves | crates/correlation/src/lib.rs:38-66 | no evidence is lost or duplicated, as multisets |
| FindingMerge.MergeFindings | apps/cli/src/engine.rs:381-403 | the in-place loop computes the specified merge |
| FindingMerge.MergeSummarises | apps/cli/src/engine.rs:381-403 | one finding per rule and title, with the first one's texts, the sum of counts, the minimum first seen, the maximum last seen and the union of the evidence |
| FindingMerge.MergedExactly | apps/cli/src/engine.rs:381-403 | findings are merged if and only if they share rule and title, and each is covered by the one that stands for it |
| FindingMerge.TotalIsConserved | apps/cli/src/engine.rs:387 | merging changes no total of affected sessions |
| FindingMerge.MergeOfMerged | apps/cli/src/engine.rs:381-403 | merging a batch that was merged before is merging the batch, into any accumulator |
| FindingMerge.MergeIsBatchIndependent | apps/cli/src/engine.rs:381-403 | the merge is idempotent and merge(xs + ys) = merge(merge(xs) + merge(ys)), order included |

## Left out

- The sync endpoint as a step of the protocol: it may break the protocol's invariant, see Findings.
- RemediationRefinement.PassIsARun: covers the stores the protocol leads to, on which a pass comes to its end; a pass that gives up is treated in `RemediationRecovery`.
- Creating a remediation from a finding: the checks of `start` on session, review and guidance; records enter the protocol in their initial state.
- What `apply_evidence` and `enrich_expectations` derive; the model has whether they fail and that evidence was attached.
- Storage failures inside a handler or a recovery pass other than a crash at that point, and the Postgres backend; the in-memory one is modelled.
- The order in which `list_recent(200)` selects runs: any 200 finished runs are allowed.
- Which of two results a probe keeps when recovery calls it interrupted just as it finishes: the last write wins in the code and in the model, and no theorem says more.
- IMAP and POP3 exchanges, DNS, OpenSSL and X.509 parsing; the handshake is an oracle.
- Explanation and guidance texts, notifications, training labels, posture, investigations.
- The 4096 limit on notes counts characters here and bytes in the code.
- Integer widths: revisions and counters are unbounded, and rates are exact rationals where the code rounds to 32-bit floats.
- UUIDs and their hashes: drawn identifiers are fresh, and an observation's identity is any function of its start time and flow.
- Elapsed time inside one exchange: the deadline may fall at any point, and latencies are not recorded.
- AssetDrift.TrackedAsset.Observe: does not model how the existing asset is looked up by address or host name, nor host-name extraction from the certificate subject, drift titles and identifiers, or storage.
- Reading log files: size limits, JSON syntax and blank lines; the model starts from parsed records.
- Normalize.Run: does not model which of several errors is reported; every error refuses the capture.
- Baseline texts such as the dominant version, which depend on hash order, and the DANE, MTA-STS and TLS-RPT anomalies.
- Spool.BoundedSpooler.Poll: does not model two tasks using one spool at once; the sensor uses it from one.
- Policy packs, their rules and lookup by name; `Simulation` takes the rule engine and its texts as functions, and the list of assets as given.
- Investigation correlation, scope checks, authentication, configuration, the command line, the bridge and the user interface.
