/**
  The sync endpoint stores a record and a run that a client made up elsewhere. When it keeps the protocol's invariant,
  when it continues the history of the stored record, and what it costs when it does not.
 */
module RemediationSync {
  import opened Domain
  import opened RemediationRecord
  import opened RemediationProtocol
  import opened RemediationSafety
  import opened RemediationRuns
  import opened RemediationRecovery

  // ---------- storing a record ----------

  /** Creates the record, or replaces the stored one under the revision just read. */
  function Synced(s: System, incoming: Record): System { s.(records := s.records[incoming.id := incoming]) }

  /** Every attempt's probe id was drawn for this record. */
  ghost predicate Owned(s: System, r: Record) {
    forall i | 0 <= i < |r.attempts| ::
      r.attempts[i].probeId in s.issued && s.issued[r.attempts[i].probeId] == Some(r.id)
  }

  /** The incoming record is a well-formed later version of the stored one. */
  ghost predicate Continues(s: System, incoming: Record)
    requires incoming.id in s.records
  {
    Later(s.records[incoming.id], incoming) && Lifecycle(incoming) && Owned(s, incoming)
  }

  /** A client takes a copy of a record: recovery when it is verifying, an analyst otherwise. */
  function Reader(r: Record): Client { if r.state.Verifying? then LookingUp(r) else Applying(r, None) }

  function Reading(s: System, c: nat, id: Uuid): System
    requires id in s.records
  {
    Put(s, c, Reader(s.records[id]))
  }

  /** Any idle client can do so at any time. */
  lemma ReadingIsAStep(s: System, c: nat, id: Uuid)
    requires Idle(s, c) && id in s.records
    ensures var a := if s.records[id].state.Verifying? then RecoverVerifying(c, id) else BeginApply(c, id, None);
      CanDo(s, a) && Do(s, a) == Reading(s, c, id)
  {}

  /** While somebody holds the current record, replacing it keeps the invariant if and only if it is continued. */
  lemma SyncIsSafeExactly(s: System, c: nat, incoming: Record)
    requires Inv(s) && Idle(s, c) && incoming.id in s.records
    ensures Inv(Synced(Reading(s, c, incoming.id), incoming)) <==> Continues(s, incoming)
  {
    hide Inv, Lifecycle, Later, Held;
    var s', snap := Reading(s, c, incoming.id), s.records[incoming.id];
    var t := Synced(s', incoming);
    assert t.records[incoming.id] == incoming && t.issued == s.issued && t.clients[c] == Reader(snap);
    InvRecord(s, incoming.id);
    KnownRecord(s, incoming.id);
    ReaderMayJoin(s, c, snap);
    if Continues(s, incoming) { SyncKeepsInv(s', incoming); }
    if Inv(t) {
      ReaderHolds(t, c, snap);
      InvRecord(t, incoming.id);
      HeldIsEarlier(t, snap);
    }
  }

  lemma ReaderMayJoin(s: System, c: nat, snap: Record)
    requires Inv(s) && Idle(s, c) && Held(s, snap)
    ensures Inv(Put(s, c, Reader(snap)))
  {
    JoinKeeps(s, c, Reader(snap));
    hide Inv, Lifecycle, Later, Held, Grows, Effect;
  }

  lemma HeldIsEarlier(s: System, snap: Record)
    requires Held(s, snap)
    ensures Later(snap, s.records[snap.id])
  {}

  lemma ReaderHolds(s: System, c: nat, snap: Record)
    requires Inv(s) && c in s.clients && s.clients[c] == Reader(snap)
    ensures Held(s, snap)
  {
    KnownClient(s, c);
    hide Inv, Lifecycle, Later;
  }

  lemma InvRecord(s: System, id: Uuid)
    requires Inv(s) && id in s.records
    ensures s.records[id].id == id && Lifecycle(s.records[id]) && Owned(s, s.records[id])
  {
    hide Lifecycle;
  }

  /** Replacing a record by one that continues it, or adding one. */
  lemma SyncKeepsInv(s: System, incoming: Record)
    requires Inv(s) && Lifecycle(incoming) && Owned(s, incoming)
    requires incoming.id in s.records ==> Later(s.records[incoming.id], incoming)
    ensures Inv(Synced(s, incoming))
  {
    hide Lifecycle, Later, Linked, ClientOk;
    var t := Synced(s, incoming);
    assert RecordsOk(t);
    forall id | id in s.records ensures Later(s.records[id], t.records[id]) { LaterReflexive(s.records[id]); }
    assert Grows(s, t);
    hide Grows, RecordsOk, Owned;
    SchedulersUnstored(s);
    GrowthKeepsClients(s, t);
    GrowthKeepsProbes(s, t);
    assert Holders(t) == Holders(s);
  }

  /** A record that is new to the store keeps the invariant if and only if it is well-formed and owns its probe ids. */
  lemma SyncCreatesSafelyExactly(s: System, incoming: Record)
    requires Inv(s) && incoming.id !in s.records
    ensures Inv(Synced(s, incoming)) <==> Lifecycle(incoming) && Owned(s, incoming)
  {
    if Lifecycle(incoming) && Owned(s, incoming) {
      SyncKeepsInv(s, incoming);
    } else {
      hide Lifecycle, ProbesOk, ClientsOk, SlotsOk, AssetsOk;
      assert Synced(s, incoming).records[incoming.id] == incoming;
    }
  }

  // ---------- a lost update ----------

  /** Two analysts have read the same new record, and the first has stored a note. */
  function NotedStore(config: Config, subject: Subject): System {
    var r := AppliedRecord(FreshRecord(subject), 0, Some("deployed"));
    Start(config, 0).(records := map[REMEDIATION := r], clients := map[1 := Applying(FreshRecord(subject), None)])
  }

  lemma NoteIsStored(config: Config, subject: Subject) returns (actions: seq<Action>)
    ensures Run(config, 0, actions) == Some(NotedStore(config, subject))
  {
    var r, s := FreshRecord(subject), Start(config, 0);
    var note: Option<string> := Some("deployed");
    hide Steps;
    TwoSteps(s, Create(r), BeginApply(0, REMEDIATION, note));
    var t := Do(Do(s, Create(r)), BeginApply(0, REMEDIATION, note));
    TwoSteps(t, BeginApply(1, REMEDIATION, None), CommitApply(0, 0));
    var first := [Create(r), BeginApply(0, REMEDIATION, note)];
    var second := [BeginApply(1, REMEDIATION, None), CommitApply(0, 0)];
    StepsConcat(s, first, second);
    actions := first + second;
    var u := Do(Do(t, BeginApply(1, REMEDIATION, None)), CommitApply(0, 0));
    assert u.clients == NotedStore(config, subject).clients && u.records == NotedStore(config, subject).records;
  }

  /**
    The second analyst's write would then be refused; after a sync of the record as it was, the note is gone and that
    stale write succeeds.
   */
  lemma SyncCanLoseAnUpdate(config: Config, subject: Subject) returns (actions: seq<Action>)
    ensures Run(config, 0, actions).Some? && REMEDIATION in Run(config, 0, actions).value.records
    ensures var s := Run(config, 0, actions).value;
      var t := Synced(s, FreshRecord(subject));
      && s.records[REMEDIATION].note == Some("deployed")
      && CanDo(s, CommitApply(1, 0)) && Do(s, CommitApply(1, 0)).records == s.records
      && t.records[REMEDIATION].note == None && CanDo(t, CommitApply(1, 0))
      && Do(t, CommitApply(1, 0)).records[REMEDIATION] == AppliedRecord(FreshRecord(subject), 0, None)
      && (forall tr | Enabled(s.records[REMEDIATION], tr) ::
            Fire(s.records[REMEDIATION], tr) != Do(t, CommitApply(1, 0)).records[REMEDIATION])
  {
    actions := NoteIsStored(config, subject);
    hide Run;
    AnyFireRaises(NotedStore(config, subject).records[REMEDIATION]);
    hide Enabled, Fire;
  }

  lemma AnyFireRaises(r: Record)
    ensures forall tr | Enabled(r, tr) :: Fire(r, tr).revision == r.revision + 1
  {}

  // ---------- storing a run ----------

  /** `reserve` without a cooldown, then `update`; the run's id was drawn by the client. */
  function Posted(s: System, run: ProbeRun): System {
    var reserved := if TargetBusy(s.probes, 0, run) then s else s.(probes := s.probes[run.id := run]);
    WriteProbe(reserved.(issued := reserved.issued[run.id := run.remediationId]), run)
  }

  /** A finished run of the client's own keeps the store well-formed, whatever asset it names. */
  lemma PostedKeepsStore(s: System, run: ProbeRun)
    requires RecordsOk(s) && ProbesOk(s) && run.id !in s.issued && run.remediationId.None? && run.finishedAt.Some?
    ensures RecordsOk(Posted(s, run)) && ProbesOk(Posted(s, run))
  {
    PostedChanges(s, run);
    hide RecordsOk, Linked, Posted;
    var t := Posted(s, run);
    SameRecordsOk(s, t);
    forall p | p in t.probes ensures t.probes[p].id == p && Linked(t, t.probes[p]) {
      if p == run.id { DrawnIsLinked(t, run); } else { SameLink(s, t, s.probes[p]); }
    }
  }

  lemma PostedChanges(s: System, run: ProbeRun)
    requires ProbesOk(s) && run.id !in s.issued
    ensures var t := Posted(s, run);
      && t.records == s.records && (t.probes == s.probes || t.probes == s.probes[run.id := run])
      && run.id !in s.probes && t.issued == s.issued[run.id := run.remediationId]
  {
    hide TargetBusy;
    assert forall p | p in s.probes :: Linked(s, s.probes[p]);
  }

  lemma DrawnIsLinked(s: System, run: ProbeRun)
    requires run.remediationId.None? && run.id in s.issued && s.issued[run.id].None?
    ensures Linked(s, run)
  {}

  lemma SameLink(s: System, t: System, run: ProbeRun)
    requires Linked(s, run) && t.records == s.records
    requires forall p | p in s.issued :: p in t.issued && t.issued[p] == s.issued[p]
    ensures Linked(t, run)
  {}

  lemma SameRecordsOk(s: System, t: System)
    requires RecordsOk(s) && t.records == s.records
    requires forall p | p in s.issued :: p in t.issued && t.issued[p] == s.issued[p]
    ensures RecordsOk(t)
  {
    hide Lifecycle;
  }

  lemma RestartKeepsStore(s: System, d: nat)
    requires RecordsOk(s) && ProbesOk(s)
    ensures RecordsOk(Restart(s, d)) && ProbesOk(Restart(s, d))
  {
    hide Lifecycle;
    forall p | p in s.probes ensures Linked(Restart(s, d), s.probes[p]) { assert Linked(s, s.probes[p]); }
  }

  const POSTED: Uuid := 8

  /** A run the command line made: finished, without derived evidence, of an asset id derived from the host name. */
  function ClientRun(asset: Uuid): ProbeRun {
    ProbeRun(POSTED, None, Some(LegacyTlsDisabled), asset, "mail.example.com", Smtp, 25, 0, Some(0), Success,
             Some(Unavailable(None)))
  }

  function JammedStore(config: Config, subject: Subject, asset: Uuid): System {
    Restart(Posted(OpenedStore(config, subject), ClientRun(asset)), 31 * SECOND)
  }

  lemma JammedStoreIsSound(config: Config, subject: Subject, asset: Uuid)
    ensures var s := JammedStore(config, subject, asset); RecordsOk(s) && ProbesOk(s)
  {
    var actions := AttemptIsOpened(config, subject);
    RunInv(config, 0, actions);
    InvParts(OpenedStore(config, subject));
    hide Inv, Run, Lifecycle, OpenedRecord, AppliedRecord, Restart, Posted, RecordsOk, ProbesOk;
    PostedKeepsStore(OpenedStore(config, subject), ClientRun(asset));
    RestartKeepsStore(Posted(OpenedStore(config, subject), ClientRun(asset)), 31 * SECOND);
  }

  lemma JammedStoreIsJammed(config: Config, subject: Subject, asset: Uuid)
    requires asset != subject.assetId
    ensures var s := JammedStore(config, subject, asset);
      Jammed(s, POSTED, REMEDIATION) && Stuck(s, s.records[REMEDIATION]) && Selected(MarkOverdue(s), [POSTED])
  {
    JammedStoreIsSound(config, subject, asset);
    hide RecordsOk, ProbesOk;
  }

  lemma NotResolved(s: System, list: seq<Uuid>, id: Uuid)
    requires id in s.records && s.records[id].state.Verifying? && Stuck(s, s.records[id])
    requires id in Pass(s, list).1.records && Pass(s, list).1.records[id] == s.records[id]
    ensures !AllResolved(s, list)
  {
    hide Pass, Stuck;
  }

  /**
    Recovery is not complete once a client has posted such a run: after a crash between storing an attempt and
    scheduling its probe, the attempt is past its threshold, and no pass that takes up the posted run ever ends it.
   */
  lemma PostedRunJamsRecovery(config: Config, subject: Subject, asset: Uuid) returns (actions: seq<Action>)
    requires asset != subject.assetId
    ensures Run(config, 0, actions).Some?
    ensures var s := Restart(Posted(Run(config, 0, actions).value, ClientRun(asset)), 31 * SECOND);
      && Jammed(s, POSTED, REMEDIATION) && Stuck(s, s.records[REMEDIATION])
      && Selected(MarkOverdue(s), [POSTED]) && !AllResolved(s, [POSTED])
      && (forall rounds | Selects(s, rounds, POSTED) ::
            REMEDIATION in Passes(s, rounds).records && Passes(s, rounds).records[REMEDIATION].state.Verifying?)
  {
    actions := AttemptIsOpened(config, subject);
    JammedStoreIsJammed(config, subject, asset);
    var s := JammedStore(config, subject, asset);
    JamKeepsRecord(s, [POSTED], POSTED, REMEDIATION);
    assert s.records[REMEDIATION].state.Verifying? by { hide RecordsOk, ProbesOk, Pass; }
    hide Pass, AllResolved, Stuck, Selected, Run, OpenedStore, Restart, Posted;
    NotResolved(s, [POSTED], REMEDIATION);
    forall rounds | Selects(s, rounds, POSTED)
      ensures REMEDIATION in Passes(s, rounds).records && Passes(s, rounds).records[REMEDIATION].state.Verifying?
    {
      JamIsPermanent(s, rounds, POSTED, REMEDIATION);
    }
  }

  // ---------- which records a serial run can lead to ----------

  function Opens(a: Record, b: Record): int { |b.attempts| - |a.attempts| }

  function Closes(a: Record, b: Record): int { ClosedCount(b.attempts) - ClosedCount(a.attempts) }

  function Applies(a: Record, b: Record): int { b.revision - a.revision - Opens(a, b) - Closes(a, b) }

  /** The attempts of the earlier record are continued: closed ones as they were, open ones kept or closed. */
  ghost predicate Extended(a: Record, b: Record) {
    && a.id == b.id && a.subject == b.subject && |a.attempts| <= |b.attempts|
    && forall i | 0 <= i < |a.attempts| :: Extends(a.attempts[i], b.attempts[i])
  }

  /**
    Whether a record can follow another, checked without searching for the transitions between them: the attempts are
    continued, the revision accounts for every attempt opened and closed, and what it leaves over are applies that
    explain the note and the state.
   */
  ghost predicate Follows(a: Record, b: Record) {
    b == a ||
    (&& Lifecycle(b) && Extended(a, b) && Applies(a, b) >= 0
     && (Applies(a, b) == 0 ==> b.appliedAt == a.appliedAt && b.note == a.note)
     && (b.state.Applied? ==> Applies(a, b) > 0)
     && (!b.state.Applied? ==> Opens(a, b) + Closes(a, b) > 0 && (Applies(a, b) > 0 ==> Opens(a, b) > 0))
     && (a.appliedAt.None? && Opens(a, b) > 0 ==> Applies(a, b) > if b.state.Applied? then 1 else 0))
  }

  lemma FollowsOneMore(a: Record, mid: Record, t: Transition)
    requires Lifecycle(a) && Lifecycle(mid) && Follows(a, mid) && Enabled(mid, t)
    ensures Follows(a, Fire(mid, t))
  {
    var b := Fire(mid, t);
    FireKeepsLifecycle(mid, t);
    FireCounts(mid, t);
    FireExtends(a, mid, t);
    if t.CloseLast? && t.after.Some? { VerdictsOnly(mid.subject, t.after.value); }
    assert |a.attempts| <= |mid.attempts|;
    MoreClosed(a.attempts, mid.attempts);
    hide Lifecycle, ClosedCount, VerifyRemediation, HasRequest, HasProbe, Extended;
    assert Applies(a, b) == Applies(a, mid) + if t.Apply? then 1 else 0;
    assert b.state.Applied? <==> t.Apply?;
    assert Opens(a, b) == Opens(a, mid) + if t.OpenAttempt? then 1 else 0;
    assert Closes(a, b) == Closes(a, mid) + if t.CloseLast? then 1 else 0;
    match t
    case Apply(_, _) =>
    case OpenAttempt(_, _, _) =>
    case CloseLast(_, _, _) =>
  }

  lemma FireExtends(a: Record, mid: Record, t: Transition)
    requires Lifecycle(mid) && (a == mid || Extended(a, mid)) && Enabled(mid, t)
    ensures Extended(a, Fire(mid, t))
  {
    FireIsLater(mid, t);
    var b := Fire(mid, t);
    forall i | 0 <= i < |a.attempts| ensures Extends(a.attempts[i], b.attempts[i]) {
      assert Extends(mid.attempts[i], b.attempts[i]);
    }
  }

  lemma {:induction false} SerialFollows(a: Record, ts: seq<Transition>)
    requires Lifecycle(a) && Serial(a, ts).Some?
    ensures Lifecycle(Serial(a, ts).value) && Follows(a, Serial(a, ts).value)
  {
    hide Lifecycle, Follows, Enabled, Fire;
    if ts == [] {
      FollowsItself(a);
    } else {
      SerialFollows(a, ts[..|ts| - 1]);
      var mid := Serial(a, ts[..|ts| - 1]).value;
      FireKeepsLifecycle(mid, ts[|ts| - 1]);
      FollowsOneMore(a, mid, ts[|ts| - 1]);
    }
  }

  lemma FollowsItself(a: Record)
    ensures Follows(a, a)
  {}

  /** Equal counts and continued attempts mean equal attempts. */
  lemma {:induction false} SameAttempts(a: seq<Attempt>, b: seq<Attempt>)
    requires |a| == |b| && ClosedCount(a) == ClosedCount(b) && forall i | 0 <= i < |a| :: Extends(a[i], b[i])
    requires forall i | 0 <= i < |a| :: (a[i].Open() ==> a[i].outcome.None? && a[i].after.None?)
    requires forall i | 0 <= i < |b| :: (b[i].Open() ==> b[i].outcome.None? && b[i].after.None?)
    ensures a == b
  {
    if a != [] {
      var n := |a| - 1;
      MoreClosed(a[..n], b[..n]);
      assert Extends(a[n], b[n]);
      SameAttempts(a[..n], b[..n]);
      assert a == a[..n] + [a[n]] && b == b[..n] + [b[n]];
    }
  }

  lemma {:induction false} MoreClosed(a: seq<Attempt>, b: seq<Attempt>)
    requires |a| <= |b| && forall i | 0 <= i < |a| :: Extends(a[i], b[i])
    ensures ClosedCount(a) <= ClosedCount(b)
    decreases |b|
  {
    if b != [] {
      var n := |b| - 1;
      if |a| == |b| {
        assert Extends(a[n], b[n]);
        MoreClosed(a[..n], b[..n]);
      } else {
        MoreClosed(a, b[..n]);
      }
    }
  }

  /** The step before `b` on a way from `a`. */
  ghost predicate StepBefore(a: Record, b: Record, mid: Record, t: Transition) {
    Lifecycle(mid) && Follows(a, mid) && Enabled(mid, t) && Fire(mid, t) == b && mid.revision + 1 == b.revision
  }

  function LastOutcome(attempts: seq<Attempt>): State {
    if attempts == [] || attempts[|attempts| - 1].outcome.None?
    then Inconclusive
    else attempts[|attempts| - 1].outcome.value
  }

  lemma NothingMoved(a: Record, b: Record)
    requires Lifecycle(a) && Lifecycle(b) && Extended(a, b) && Opens(a, b) == 0 && Closes(a, b) == 0
    ensures a.attempts == b.attempts
  {
    SameAttempts(a.attempts, b.attempts);
  }

  lemma MovesAreCounted(a: Record, b: Record)
    requires Extended(a, b)
    ensures Opens(a, b) >= 0 && Closes(a, b) >= 0
  {
    MoreClosed(a.attempts, b.attempts);
  }

  lemma OnlyOpenOnesClose(a: Record, b: Record)
    requires Lifecycle(a) && Extended(a, b) && Opens(a, b) == 0 && !a.state.Verifying?
    ensures b.attempts == a.attempts
  {
    forall i | 0 <= i < |a.attempts| ensures a.attempts[i] == b.attempts[i] {
      assert Extends(a.attempts[i], b.attempts[i]);
    }
  }

  lemma OutcomeIsVerdict(r: Record)
    requires Lifecycle(r) && r.attempts != [] && !r.attempts[|r.attempts| - 1].Open()
    ensures IsVerdict(LastOutcome(r.attempts)) && r.attempts[|r.attempts| - 1].outcome == Some(LastOutcome(r.attempts))
  {
    var last := r.attempts[|r.attempts| - 1];
    assert AttemptShape(r.subject, last);
    if last.after.Some? { VerdictsOnly(r.subject, last.after.value); }
  }

  function LastApply(b: Record): Transition { Apply(if b.appliedAt.Some? then b.appliedAt.value else 0, b.note) }

  /** Nothing but one apply lies between the two. */
  lemma OnlyApplied(a: Record, b: Record)
    requires Lifecycle(a) && Follows(a, b) && b.state.Applied? && Opens(a, b) + Closes(a, b) == 0 && Applies(a, b) == 1
    ensures StepBefore(a, b, a, LastApply(b))
  {
    MovesAreCounted(a, b);
    NothingMoved(a, b);
    if b.attempts != [] { OutcomeIsVerdict(b); }
  }

  /** The last apply came right after another one. */
  lemma AppliedTwice(a: Record, b: Record)
    requires Lifecycle(a) && Follows(a, b) && b.state.Applied? && Applies(a, b) > 1
    requires Opens(a, b) == 0
    ensures StepBefore(a, b, b.(revision := b.revision - 1), LastApply(b))
  {
    MovesAreCounted(a, b);
    if b.attempts != [] { OutcomeIsVerdict(b); }
    hide ClosedCount, VerifyRemediation;
  }

  /** The last apply came after a verdict. */
  lemma AppliedAfterVerdict(a: Record, b: Record)
    requires Lifecycle(a) && Follows(a, b) && b.state.Applied? && Opens(a, b) + Closes(a, b) > 0
    requires Applies(a, b) == 1 || Opens(a, b) > 0
    ensures b.attempts != []
    ensures StepBefore(a, b, BeforeLastApply(a, b), LastApply(b))
  {
    MovesAreCounted(a, b);
    if Opens(a, b) == 0 && !a.state.Verifying? { OnlyOpenOnesClose(a, b); }
    OutcomeIsVerdict(b);
    hide ClosedCount, VerifyRemediation, LastOutcome;
  }

  function BeforeLastApply(a: Record, b: Record): Record {
    b.(revision := if b.revision > 0 then b.revision - 1 else 0, state := LastOutcome(b.attempts),
       appliedAt := if Applies(a, b) == 1 then a.appliedAt else b.appliedAt,
       note := if Applies(a, b) == 1 then a.note else b.note)
  }

  lemma BeforeApply(a: Record, b: Record) returns (mid: Record, t: Transition)
    requires Lifecycle(a) && Follows(a, b) && b != a && b.state.Applied?
    ensures StepBefore(a, b, mid, t)
  {
    MovesAreCounted(a, b);
    t := LastApply(b);
    var moved := Opens(a, b) + Closes(a, b);
    hide Lifecycle, StepBefore, ClosedCount, Extended, LastOutcome;
    if Applies(a, b) == 1 && moved == 0 {
      OnlyApplied(a, b);
      mid := a;
    } else if moved > 0 && (Applies(a, b) == 1 || Opens(a, b) > 0) {
      AppliedAfterVerdict(a, b);
      mid := BeforeLastApply(a, b);
    } else {
      AppliedTwice(a, b);
      mid := b.(revision := b.revision - 1);
    }
  }

  /** The record before its last, open, attempt was opened. */
  function Unopened(b: Record, state: State): Record
    requires b.attempts != []
  {
    b.(revision := if b.revision > 0 then b.revision - 1 else 0, state := state,
       attempts := b.attempts[..|b.attempts| - 1])
  }

  function LastOpening(b: Record): Transition
    requires b.attempts != []
  {
    var last := b.attempts[|b.attempts| - 1];
    OpenAttempt(last.requestId, last.probeId, last.requestedAt)
  }

  lemma UnopenedIsBefore(b: Record, state: State)
    requires Lifecycle(b) && b.state.Verifying? && b.revision > 1
    requires state.Applied? || (|b.attempts| > 1 && state == LastOutcome(b.attempts[..|b.attempts| - 1]))
    ensures var mid := Unopened(b, state);
      Lifecycle(mid) && !mid.state.Verifying? && Enabled(mid, LastOpening(b)) && Fire(mid, LastOpening(b)) == b
  {
    var n := |b.attempts| - 1;
    assert AttemptShape(b.subject, b.attempts[n]);
    if !state.Applied? { FrontOutcome(b); }
    assert b.attempts == b.attempts[..n] + [b.attempts[n]];
  }

  lemma UnopenedFollows(a: Record, b: Record, state: State)
    requires Follows(a, b) && b != a && b.state.Verifying? && Opens(a, b) > 0 && Closes(a, b) >= 0
    requires Lifecycle(Unopened(b, state)) && !state.Verifying?
    requires if state.Applied? then Applies(a, b) > 0 && (a.appliedAt.Some? || Opens(a, b) == 1 || Applies(a, b) > 1)
             else if Applies(a, b) > 0 then Opens(a, b) > 1 else Opens(a, b) + Closes(a, b) > 1
    ensures Follows(a, Unopened(b, state))
  {
    var mid := Unopened(b, state);
    assert ClosedCount(mid.attempts) == ClosedCount(b.attempts) by { OpenLastUncounted(b); }
    hide Lifecycle, ClosedCount;
    assert Extended(a, mid);
  }

  lemma OpenLastUncounted(b: Record)
    requires Lifecycle(b) && b.state.Verifying?
    ensures ClosedCount(b.attempts[..|b.attempts| - 1]) == ClosedCount(b.attempts)
  {}

  /** The state the record was in when its last attempt was opened. */
  function StateBefore(a: Record, b: Record): State
    requires b.attempts != []
  {
    if Applies(a, b) > 0 && (a.appliedAt.Some? || Opens(a, b) == 1 || Applies(a, b) > 1)
    then Applied else LastOutcome(b.attempts[..|b.attempts| - 1])
  }

  lemma StateBeforeFits(a: Record, b: Record)
    requires Lifecycle(a) && Follows(a, b) && b != a && b.state.Verifying? && Opens(a, b) > 0 && Closes(a, b) >= 0
    requires Applies(a, b) > 0 || Opens(a, b) + Closes(a, b) > 1
    ensures b.revision > 1 && (StateBefore(a, b).Applied? || |b.attempts| > 1)
    ensures if StateBefore(a, b).Applied?
      then Applies(a, b) > 0 && (a.appliedAt.Some? || Opens(a, b) == 1 || Applies(a, b) > 1)
      else if Applies(a, b) > 0 then Opens(a, b) > 1 else Opens(a, b) + Closes(a, b) > 1
  {
    FewAttempts(a, b);
    if |b.attempts| > 1 { FrontOutcome(b); }
    assert a.appliedAt.None? ==> a.revision == 0;
    hide Lifecycle, ClosedCount, LastOutcome;
  }

  lemma BeforeOpen(a: Record, b: Record) returns (mid: Record, t: Transition)
    requires Lifecycle(a) && Follows(a, b) && b != a && b.state.Verifying?
    ensures StepBefore(a, b, mid, t)
  {
    MovesAreCounted(a, b);
    OpenWasAdded(a, b);
    t := LastOpening(b);
    assert Lifecycle(b);
    if Applies(a, b) == 0 && Opens(a, b) + Closes(a, b) == 1 {
      FollowsItself(a);
      FrontIsSame(a, b);
      mid := a;
      FirstOpening(a, b);
    } else {
      hide Follows, Lifecycle, Enabled, Fire, ClosedCount;
      assert Applies(a, b) >= 0 by { NeverFewer(a, b); }
      StateBeforeFits(a, b);
      mid := Unopened(b, StateBefore(a, b));
      hide StateBefore;
      UnopenedIsBefore(b, StateBefore(a, b));
      UnopenedFollows(a, b, StateBefore(a, b));
    }
  }

  lemma NeverFewer(a: Record, b: Record)
    requires Follows(a, b) && b != a
    ensures Applies(a, b) >= 0
  {}

  /** With one attempt, newly opened, nothing can have been closed. */
  lemma FewAttempts(a: Record, b: Record)
    requires Lifecycle(b) && Extended(a, b) && b.state.Verifying? && Opens(a, b) > 0
    ensures |b.attempts| == 1 ==> Opens(a, b) == 1 && Closes(a, b) == 0
  {
    if |b.attempts| == 1 { OpenLastUncounted(b); }
  }

  lemma FirstOpening(a: Record, b: Record)
    requires Lifecycle(a) && Lifecycle(b) && b.state.Verifying? && a.id == b.id && a.subject == b.subject
    requires b.attempts[..|b.attempts| - 1] == a.attempts && a.revision + 1 == b.revision
    requires a.appliedAt == b.appliedAt && a.note == b.note
    ensures Enabled(a, LastOpening(b)) && Fire(a, LastOpening(b)) == b
  {
    var n := |b.attempts| - 1;
    assert AttemptShape(b.subject, b.attempts[n]);
    assert b.attempts == b.attempts[..n] + [b.attempts[n]];
    assert forall i | 0 <= i < n :: a.attempts[i] == b.attempts[i];
  }

  /** Nothing opened and the last attempt open: then nothing was closed either. */
  lemma OpenWasAdded(a: Record, b: Record)
    requires Lifecycle(a) && Follows(a, b) && b != a && b.state.Verifying?
    ensures |b.attempts| > |a.attempts|
  {
    if |b.attempts| == |a.attempts| {
      forall i | 0 <= i < |a.attempts| ensures a.attempts[i].Open() == b.attempts[i].Open() {
        assert Extends(a.attempts[i], b.attempts[i]);
      }
      SameClosed(a.attempts, b.attempts);
    }
  }

  lemma {:induction false} SameClosed(a: seq<Attempt>, b: seq<Attempt>)
    requires |a| == |b| && forall i | 0 <= i < |a| :: a[i].Open() == b[i].Open()
    ensures ClosedCount(a) == ClosedCount(b)
  {
    if a != [] { SameClosed(a[..|a| - 1], b[..|b| - 1]); }
  }

  lemma FrontIsSame(a: Record, b: Record)
    requires Lifecycle(a) && Lifecycle(b) && Extended(a, b) && Opens(a, b) == 1 && Closes(a, b) == 0
    requires b.state.Verifying?
    ensures b.attempts[..|b.attempts| - 1] == a.attempts
  {
    var front := b.attempts[..|b.attempts| - 1];
    assert ClosedCount(front) == ClosedCount(b.attempts);
    SameAttempts(a.attempts, front);
  }

  lemma FrontOutcome(b: Record)
    requires Lifecycle(b) && |b.attempts| > 1
    ensures var front := b.attempts[..|b.attempts| - 1];
      IsVerdict(LastOutcome(front)) && front[|front| - 1].outcome == Some(LastOutcome(front))
  {
    var last := b.attempts[|b.attempts| - 2];
    assert AttemptShape(b.subject, last);
    if last.after.Some? { VerdictsOnly(b.subject, last.after.value); }
  }

  /** The record before its last attempt was closed. */
  function Reopened(b: Record): Record
    requires b.attempts != []
  {
    var n := |b.attempts| - 1;
    b.(revision := if b.revision > 0 then b.revision - 1 else 0, state := Verifying,
       attempts := b.attempts[n := b.attempts[n].(completedAt := None, outcome := None, after := None)])
  }

  function LastClosing(b: Record): Transition
    requires b.attempts != [] && !b.attempts[|b.attempts| - 1].Open()
  {
    var last := b.attempts[|b.attempts| - 1];
    CloseLast(b.state, last.completedAt.value, last.after)
  }

  lemma ReopenedIsBefore(b: Record)
    requires Lifecycle(b) && IsVerdict(b.state) && b.revision > 1
    ensures b.attempts != [] && !b.attempts[|b.attempts| - 1].Open()
    ensures var mid := Reopened(b);
      && Lifecycle(mid) && Enabled(mid, LastClosing(b)) && Fire(mid, LastClosing(b)) == b
      && mid.revision + 1 == b.revision && ClosedCount(mid.attempts) == ClosedCount(b.attempts) - 1
  {
    var n, mid := |b.attempts| - 1, Reopened(b);
    assert AttemptShape(b.subject, b.attempts[n]);
    assert b.attempts[..n] == mid.attempts[..n];
    assert Fire(mid, LastClosing(b)).attempts == b.attempts;
  }

  lemma ReopenedFollows(a: Record, b: Record)
    requires Lifecycle(a) && Lifecycle(b) && Follows(a, b) && b != a && IsVerdict(b.state) && b.attempts != []
    requires Lifecycle(Reopened(b)) && ClosedCount(Reopened(b).attempts) == ClosedCount(b.attempts) - 1
    requires b.revision > 0
    ensures Follows(a, Reopened(b))
  {
    var mid := Reopened(b);
    MovesAreCounted(a, b);
    if Opens(a, b) == 0 {
      assert a.state.Verifying? by { if !a.state.Verifying? { OnlyOpenOnesClose(a, b); } }
      ReopenedIsSame(a, b, mid);
      hide Lifecycle, ClosedCount;
      assert mid == a;
    } else {
      ReopenedExtends(a, b, mid);
      MovesAreCounted(a, mid);
      hide Lifecycle, ClosedCount, Extended;
    }
  }

  /** Its last attempt was opened and closed, or was open in a record that had been applied. */
  lemma ClosedIsNotFirst(a: Record, b: Record)
    requires Lifecycle(a) && Follows(a, b) && b != a && IsVerdict(b.state)
    ensures b.revision > 1
  {
    MovesAreCounted(a, b);
    if Opens(a, b) == 0 {
      if !a.state.Verifying? { OnlyOpenOnesClose(a, b); }
    } else {
      var n := |b.attempts| - 1;
      MoreClosed(a.attempts, b.attempts[..n]);
      assert ClosedCount(b.attempts) == ClosedCount(b.attempts[..n]) + 1;
    }
  }

  lemma BeforeClose(a: Record, b: Record) returns (mid: Record, t: Transition)
    requires Lifecycle(a) && Follows(a, b) && b != a && !b.state.Applied? && !b.state.Verifying?
    ensures StepBefore(a, b, mid, t)
  {
    assert Lifecycle(b) && IsVerdict(b.state);
    ClosedIsNotFirst(a, b);
    ReopenedIsBefore(b);
    mid, t := Reopened(b), LastClosing(b);
    hide Lifecycle, Follows, Enabled, Fire, ClosedCount;
    ReopenedFollows(a, b);
  }

  lemma ReopenedExtends(a: Record, b: Record, mid: Record)
    requires Lifecycle(a) && Lifecycle(b) && Extended(a, b) && b.attempts != [] && !b.state.Verifying?
    requires Opens(a, b) == 0 ==> a.state.Verifying?
    requires var n := |b.attempts| - 1;
      mid == b.(revision := mid.revision, state := mid.state,
                attempts := b.attempts[n := b.attempts[n].(completedAt := None, outcome := None, after := None)])
    ensures Extended(a, mid)
  {
    forall i | 0 <= i < |a.attempts| ensures Extends(a.attempts[i], mid.attempts[i]) {
      assert Extends(a.attempts[i], b.attempts[i]);
    }
  }

  lemma ReopenedIsSame(a: Record, b: Record, mid: Record)
    requires Lifecycle(a) && Lifecycle(b) && Extended(a, b) && Opens(a, b) == 0 && a.state.Verifying?
    requires !b.state.Verifying?
    requires b.attempts != []
    requires var n := |b.attempts| - 1;
      mid.attempts == b.attempts[n := b.attempts[n].(completedAt := None, outcome := None, after := None)]
    ensures mid.attempts == a.attempts && Closes(a, b) == 1
  {
    var n := |b.attempts| - 1;
    forall i | 0 <= i <= n ensures a.attempts[i] == mid.attempts[i] {
      assert Extends(a.attempts[i], b.attempts[i]) && AttemptShape(a.subject, a.attempts[i]);
    }
    assert a.attempts[..n] == b.attempts[..n];
  }

  lemma {:induction false} FollowsSerial(a: Record, b: Record) returns (ts: seq<Transition>)
    requires Lifecycle(a) && Follows(a, b)
    ensures Serial(a, ts) == Some(b)
    decreases b.revision
  {
    if b == a {
      ts := [];
    } else {
      var mid, t;
      if b.state.Applied? { mid, t := BeforeApply(a, b); }
      else if b.state.Verifying? { mid, t := BeforeOpen(a, b); }
      else { mid, t := BeforeClose(a, b); }
      hide Follows, Lifecycle, Enabled, Fire;
      ts := FollowsSerial(a, mid);
      ts := ts + [t];
      assert ts[..|ts| - 1] + [t] == ts;
      SerialStep(a, ts[..|ts| - 1], t);
    }
  }

  /**
    No update is lost by replacing a record if and only if the incoming one follows it: exactly then is it what some
    serial run of applies, opens and closes makes of the stored record.
   */
  lemma NothingLostExactly(stored: Record, incoming: Record)
    requires Lifecycle(stored)
    ensures (exists ts :: Serial(stored, ts) == Some(incoming)) <==> Follows(stored, incoming)
  {
    hide Follows, Lifecycle;
    if ts :| Serial(stored, ts) == Some(incoming) { SerialFollows(stored, ts); }
    if Follows(stored, incoming) { var ts := FollowsSerial(stored, incoming); }
  }

  /** The record the command line sends, one closed attempt at revision 1, is none that any run of its own leads to. */
  lemma ClientRecordBreaksTheLaw(first: Record, incoming: Record)
    requires Initial(first) && incoming.revision == 1 && |incoming.attempts| == 1 && !incoming.attempts[0].Open()
    ensures forall ts :: Serial(first, ts) != Some(incoming)
  {
    InitialLifecycle(first);
    NothingLostExactly(first, incoming);
    assert incoming.attempts[..0] == [];
  }
}
