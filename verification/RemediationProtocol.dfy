/**
  Every interleaving of the remediation handlers, the probes they spawn and the recovery pass.
  One action is one storage call (with the computation that follows it), so a crash can fall
  between any two of them. Clients hold the copies they have read; `Commit...` actions write back
  by compare-and-swap on the revision.
 */
module RemediationProtocol {
  import opened Domain
  import opened RemediationRecord

  datatype Config = Config(timeout: Time, cooldown: Time, slots: nat)

  const NOTE_LIMIT := 4096
  const START_GRACE: Time := 30 * SECOND

  /** Longest time a reserved probe may stay unfinished before recovery calls it interrupted. */
  function InterruptedAfter(config: Config): Time { 3 * config.timeout + 30 * SECOND }

  datatype ClientError = Contention | NotLinked | RecordMissing

  datatype Client =
    | Applying(snap: Record, note: Option<string>)
    | Requesting(snap: Record, requestId: Uuid)
    | Scheduling(link: Option<Record>, probeId: Uuid)
    | Reserving(link: Option<Record>, probeId: Uuid)
    | Compensating(snap: Record)
    | Executing(run: ProbeRun)
    | Persisting(run: ProbeRun, permit: bool)
    | Deriving(run: ProbeRun, permit: bool)
    | Recording(run: ProbeRun, permit: bool)
    | Interrupting(run: ProbeRun)
    | Completing(run: ProbeRun, tries: nat, permit: bool)
    | Writing(run: ProbeRun, tries: nat, permit: bool, snap: Record, index: nat)
    | LookingUp(snap: Record)
    | Abandoning(snap: Record)
    | Failed(error: ClientError)
  {
    /** The probe slot is owned by the schedule call and then by the spawned task. */
    predicate Holds() {
      match this
      case Reserving(_, _) => true
      case Executing(_) => true
      case Persisting(_, permit) => permit
      case Deriving(_, permit) => permit
      case Recording(_, permit) => permit
      case Completing(_, _, permit) => permit
      case Writing(_, _, permit, _, _) => permit
      case _ => false
    }

    predicate Scheduler() { Scheduling? || Reserving? }
  }

  /** `issued` remembers every probe id ever drawn and the record it was drawn for, if any. */
  datatype System = System(
    config: Config,
    records: map<Uuid, Record>,
    probes: map<Uuid, ProbeRun>,
    clients: map<nat, Client>,
    now: Time,
    free: nat,
    issued: map<Uuid, Option<Uuid>>,
    assets: set<Uuid>)

  function Start(config: Config, now: Time): System {
    System(config, map[], map[], map[], now, config.slots, map[], {})
  }

  // ---------- bookkeeping of in-flight clients ----------

  function Put(s: System, c: nat, client: Client): System {
    s.(clients := s.clients[c := client])
  }

  /** The client ends; a slot it owns is released with it. */
  function Drop(s: System, c: nat): System
    requires c in s.clients
  {
    s.(clients := s.clients - {c}, free := if s.clients[c].Holds() then s.free + 1 else s.free)
  }

  function Issue(s: System, probeId: Uuid, owner: Option<Uuid>): System {
    s.(issued := s.issued[probeId := owner])
  }

  function OwnerOf(link: Option<Record>): Option<Uuid> {
    match link
    case None => None
    case Some(r) => Some(r.id)
  }

  // ---------- storage ----------

  predicate CasSucceeds(s: System, next: Record, expected: nat) {
    next.id in s.records && s.records[next.id].revision == expected
  }

  function Cas(s: System, next: Record, expected: nat): System {
    if CasSucceeds(s, next, expected) then s.(records := s.records[next.id := next]) else s
  }

  /** `reserve` refuses a target that has an unfinished or recently finished run. */
  predicate TargetBusy(probes: map<Uuid, ProbeRun>, cooldown: Time, run: ProbeRun) {
    exists p | p in probes ::
      && probes[p].target == run.target
      && (probes[p].finishedAt.None? || probes[p].finishedAt.value > run.startedAt - cooldown)
  }

  predicate Blocked(s: System, run: ProbeRun) { TargetBusy(s.probes, s.config.cooldown, run) }

  function WriteProbe(s: System, run: ProbeRun): System {
    if run.id in s.probes then s.(probes := s.probes[run.id := run]) else s
  }

  /** Finished evidence that nothing has been derived from yet. */
  predicate NeedsEvidence(run: ProbeRun) { run.result.Some? && !run.result.value.verification }

  function Evidenced(run: ProbeRun): ProbeRun
    requires run.result.Some?
  {
    run.(result := Some(run.result.value.(verification := true)))
  }

  predicate AttemptIndex(r: Record, probeId: Uuid, i: nat) {
    i < |r.attempts| && r.attempts[i].probeId == probeId
  }

  /** `attempts.iter().position(|a| a.probe_id == probe_id)` */
  function Position(r: Record, probeId: Uuid): (i: nat)
    requires HasProbe(r, probeId)
    ensures AttemptIndex(r, probeId, i)
    ensures forall j | 0 <= j < i :: r.attempts[j].probeId != probeId
  {
    PositionFrom(r, probeId, 0)
  }

  function PositionFrom(r: Record, probeId: Uuid, from: nat): (i: nat)
    requires exists i :: from <= i < |r.attempts| && r.attempts[i].probeId == probeId
    ensures from <= i && AttemptIndex(r, probeId, i)
    ensures forall j | from <= j < i :: r.attempts[j].probeId != probeId
    decreases |r.attempts| - from
  {
    if r.attempts[from].probeId == probeId then from else PositionFrom(r, probeId, from + 1)
  }

  // ---------- actions ----------

  datatype Action =
    | Tick(d: nat)
    | Discover(asset: Uuid)
    | Create(record: Record)
    | BeginApply(c: nat, id: Uuid, note: Option<string>)
    | CommitApply(c: nat, at: Time)
    | BeginVerify(c: nat, id: Uuid, requestId: Uuid)
    | CommitOpen(c: nat, probeId: Uuid, at: Time)
    | BeginProbe(c: nat, probeId: Uuid)
    | Acquire(c: nat)
    | ScheduleFails(c: nat)
    | Reserve(c: nat, run: ProbeRun)
    | Conclude(c: nat, outcome: ProbeOutcome, result: Option<ProbeResult>)
    | Persist(c: nat)
    | Derive(c: nat)
    | StoreEvidence(c: nat)
    | ReadForCompletion(c: nat)
    | CommitCompletion(c: nat)
    | RecoverStale(c: nat, probe: Uuid)
    | StoreInterruption(c: nat)
    | RecoverFinished(c: nat, probe: Uuid)
    | RecoverVerifying(c: nat, id: Uuid)
    | LookUpProbe(c: nat)
    | CommitAbandon(c: nat, at: Time)
    | Crash(c: nat)

  predicate Idle(s: System, c: nat) { c !in s.clients }

  predicate Openable(r: Record, requestId: Uuid) {
    requestId != NIL && !HasRequest(r, requestId) && r.appliedAt.Some? && !r.state.Verifying?
  }

  predicate CanOpen(s: System, c: nat, probeId: Uuid, at: Time) {
    c in s.clients && s.clients[c].Requesting? && probeId !in s.issued && at <= s.now
  }

  /** A remediation request takes its snapshot's next version, with the attempt appended. */
  function DoOpen(s: System, c: nat, probeId: Uuid, at: Time): System
    requires CanOpen(s, c, probeId, at)
  {
    var snap := s.clients[c].snap;
    var next := OpenedRecord(snap, s.clients[c].requestId, probeId, at);
    var issuing := Issue(s, probeId, Some(snap.id));
    if CasSucceeds(s, next, snap.revision)
    then Put(Cas(issuing, next, snap.revision), c, Scheduling(Some(next), probeId))
    else Drop(issuing, c)
  }

  predicate CanAcquire(s: System, c: nat) { c in s.clients && s.clients[c].Scheduling? && s.free > 0 }

  function DoAcquire(s: System, c: nat): System
    requires CanAcquire(s, c)
  {
    Put(s.(free := s.free - 1), c, Reserving(s.clients[c].link, s.clients[c].probeId))
  }

  predicate CanFailSchedule(s: System, c: nat) { c in s.clients && s.clients[c].Scheduler() }

  /** A refused or failed schedule releases its slot; a remediation request then compensates. */
  function DoFailSchedule(s: System, c: nat): System
    requires CanFailSchedule(s, c)
  {
    match s.clients[c].link
    case None => Drop(s, c)
    case Some(r) => Put(Drop(s, c), c, Compensating(r))
  }

  predicate CanReserve(s: System, c: nat, run: ProbeRun) {
    && c in s.clients && s.clients[c].Reserving?
    && run.id == s.clients[c].probeId && run.finishedAt.None? && run.startedAt <= s.now
    && run.remediationId == OwnerOf(s.clients[c].link)
    && (s.clients[c].link.Some? ==> OfEndpoint(s.clients[c].link.value.subject, run))
    && run.assetId in s.assets
    && !Blocked(s, run)
  }

  function DoReserve(s: System, c: nat, run: ProbeRun): System {
    Put(s.(probes := s.probes[run.id := run]), c, Executing(run))
  }

  predicate CanPersist(s: System, c: nat) { c in s.clients && s.clients[c].Persisting? }

  /** The transport evidence is stored before anything is derived from it. */
  function DoPersist(s: System, c: nat): System
    requires CanPersist(s, c)
  {
    Put(WriteProbe(s, s.clients[c].run), c, Deriving(s.clients[c].run, s.clients[c].permit))
  }

  predicate CanDerive(s: System, c: nat) { c in s.clients && s.clients[c].Deriving? }

  /** `apply_evidence` fails when the run's asset is not known, which ends the task. */
  function DoDerive(s: System, c: nat): System
    requires CanDerive(s, c)
  {
    var run := s.clients[c].run;
    if run.assetId !in s.assets then Drop(s, c)
    else Put(s, c, Recording(if run.result.Some? then Evidenced(run) else run, s.clients[c].permit))
  }

  predicate CanStoreEvidence(s: System, c: nat) { c in s.clients && s.clients[c].Recording? }

  function DoStoreEvidence(s: System, c: nat): System
    requires CanStoreEvidence(s, c)
  {
    Put(WriteProbe(s, s.clients[c].run), c, Completing(s.clients[c].run, 0, s.clients[c].permit))
  }

  predicate CanStoreInterruption(s: System, c: nat) { c in s.clients && s.clients[c].Interrupting? }

  function DoStoreInterruption(s: System, c: nat): System
    requires CanStoreInterruption(s, c)
  {
    Drop(WriteProbe(s, s.clients[c].run), c)
  }

  predicate CanRead(s: System, c: nat) { c in s.clients && s.clients[c].Completing? }

  function DoRead(s: System, c: nat): System
    requires CanRead(s, c)
  {
    var cl := s.clients[c];
    match cl.run.remediationId
    case None => Drop(s, c)
    case Some(id) =>
      if id !in s.records then Put(Drop(s, c), c, Failed(RecordMissing))
      else if !HasProbe(s.records[id], cl.run.id) then Put(Drop(s, c), c, Failed(NotLinked))
      else
        var r := s.records[id];
        var index := Position(r, cl.run.id);
        if r.attempts[index].Open()
        then Put(s, c, Writing(cl.run, cl.tries, cl.permit, r, index))
        else Drop(s, c)
  }

  function CompletedRecord(snap: Record, index: nat, run: ProbeRun): Record
    requires index < |snap.attempts|
  {
    ClosedRecord(snap, index, VerifyRemediation(snap.subject, run), run.finishedAt, Some(run))
  }

  predicate CanComplete(s: System, c: nat) {
    && c in s.clients && s.clients[c].Writing?
    && s.clients[c].index < |s.clients[c].snap.attempts| && s.clients[c].run.finishedAt.Some?
  }

  function DoComplete(s: System, c: nat): System
    requires CanComplete(s, c)
  {
    var cl := s.clients[c];
    var next := CompletedRecord(cl.snap, cl.index, cl.run);
    if CasSucceeds(s, next, cl.snap.revision) then Drop(Cas(s, next, cl.snap.revision), c)
    else if cl.tries + 1 < 3 then Put(s, c, Completing(cl.run, cl.tries + 1, cl.permit))
    else Put(Drop(s, c), c, Failed(Contention))
  }

  predicate CanLookUp(s: System, c: nat) {
    c in s.clients && s.clients[c].LookingUp? && s.clients[c].snap.attempts != []
  }

  function DoLookUp(s: System, c: nat): System
    requires CanLookUp(s, c)
  {
    var snap := s.clients[c].snap;
    var a := snap.attempts[|snap.attempts| - 1];
    if a.probeId in s.probes then
      if s.probes[a.probeId].finishedAt.Some?
      then Put(s, c, Completing(s.probes[a.probeId], 0, false))
      else Drop(s, c)
    else if s.now - a.requestedAt > START_GRACE then Put(s, c, Abandoning(snap))
    else Drop(s, c)
  }

  function CloseInconclusive(snap: Record, at: Time): Record
    requires snap.attempts != []
  {
    ClosedRecord(snap, |snap.attempts| - 1, Inconclusive, Some(at), None)
  }

  /** The write of an attempt that never ran: by the compensating handler or by recovery. */
  predicate CanAbandon(s: System, c: nat, at: Time) {
    && c in s.clients && (s.clients[c].Compensating? || s.clients[c].Abandoning?)
    && s.clients[c].snap.attempts != [] && at <= s.now
  }

  function DoAbandon(s: System, c: nat, at: Time): System
    requires CanAbandon(s, c, at)
  {
    var snap := s.clients[c].snap;
    Drop(Cas(s, CloseInconclusive(snap, at), snap.revision), c)
  }

  predicate CanApply(s: System, c: nat, at: Time) {
    c in s.clients && s.clients[c].Applying? && at <= s.now
  }

  function DoApply(s: System, c: nat, at: Time): System
    requires CanApply(s, c, at)
  {
    var snap := s.clients[c].snap;
    Drop(Cas(s, AppliedRecord(snap, at, s.clients[c].note), snap.revision), c)
  }

  predicate CanConclude(s: System, c: nat) { c in s.clients && s.clients[c].Executing? }

  function Interrupted(run: ProbeRun, at: Time): ProbeRun {
    run.Finish(at, InternalError, Some(Unavailable(Some("interrupted"))))
  }

  predicate Overdue(s: System, run: ProbeRun) {
    run.finishedAt.None? && s.now - run.startedAt > InterruptedAfter(s.config)
  }

  predicate CanDo(s: System, a: Action) {
    match a
    case Tick(_) => true
    case Discover(_) => true
    case Create(r) => Initial(r)
    case BeginApply(c, id, note) =>
      && Idle(s, c) && id in s.records && !s.records[id].state.Verifying?
      && (note.Some? ==> |note.value| <= NOTE_LIMIT)
    case CommitApply(c, at) => CanApply(s, c, at)
    case BeginVerify(c, id, requestId) => Idle(s, c) && id in s.records && Openable(s.records[id], requestId)
    case CommitOpen(c, probeId, at) => CanOpen(s, c, probeId, at)
    case BeginProbe(c, probeId) => Idle(s, c) && probeId !in s.issued
    case Acquire(c) => CanAcquire(s, c)
    case ScheduleFails(c) => CanFailSchedule(s, c)
    case Reserve(c, run) => CanReserve(s, c, run)
    case Conclude(c, _, _) => CanConclude(s, c)
    case Persist(c) => CanPersist(s, c)
    case Derive(c) => CanDerive(s, c)
    case StoreEvidence(c) => CanStoreEvidence(s, c)
    case ReadForCompletion(c) => CanRead(s, c)
    case CommitCompletion(c) => CanComplete(s, c)
    case RecoverStale(c, p) => Idle(s, c) && p in s.probes && Overdue(s, s.probes[p])
    case StoreInterruption(c) => CanStoreInterruption(s, c)
    case RecoverFinished(c, p) => Idle(s, c) && p in s.probes && s.probes[p].finishedAt.Some?
    case RecoverVerifying(c, id) => Idle(s, c) && id in s.records && s.records[id].state.Verifying?
    case LookUpProbe(c) => CanLookUp(s, c)
    case CommitAbandon(c, at) => CanAbandon(s, c, at)
    case Crash(c) => c in s.clients
  }

  function Do(s: System, a: Action): System
    requires CanDo(s, a)
  {
    match a
    case Tick(d) => s.(now := s.now + d)
    case Discover(asset) => s.(assets := s.assets + {asset})
    case Create(r) => if r.id in s.records then s else s.(records := s.records[r.id := r])
    case BeginApply(c, id, note) => Put(s, c, Applying(s.records[id], note))
    case CommitApply(c, at) => DoApply(s, c, at)
    case BeginVerify(c, id, requestId) => Put(s, c, Requesting(s.records[id], requestId))
    case CommitOpen(c, probeId, at) => DoOpen(s, c, probeId, at)
    case BeginProbe(c, probeId) => Put(Issue(s, probeId, None), c, Scheduling(None, probeId))
    case Acquire(c) => DoAcquire(s, c)
    case ScheduleFails(c) => DoFailSchedule(s, c)
    case Reserve(c, run) => DoReserve(s, c, run)
    case Conclude(c, outcome, result) =>
      Put(s, c, Persisting(s.clients[c].run.Finish(s.now, outcome, result), true))
    case Persist(c) => DoPersist(s, c)
    case Derive(c) => DoDerive(s, c)
    case StoreEvidence(c) => DoStoreEvidence(s, c)
    case ReadForCompletion(c) => DoRead(s, c)
    case CommitCompletion(c) => DoComplete(s, c)
    case RecoverStale(c, p) => Put(s, c, Interrupting(Interrupted(s.probes[p], s.now)))
    case StoreInterruption(c) => DoStoreInterruption(s, c)
    case RecoverFinished(c, p) =>
      Put(s, c, if NeedsEvidence(s.probes[p]) then Deriving(s.probes[p], false) else Completing(s.probes[p], 0, false))
    case RecoverVerifying(c, id) => Put(s, c, LookingUp(s.records[id]))
    case LookUpProbe(c) => DoLookUp(s, c)
    case CommitAbandon(c, at) => DoAbandon(s, c, at)
    case Crash(c) => Drop(s, c)
  }

  /** The state after a sequence of actions, or None when one of them was not possible. */
  ghost function Steps(s: System, actions: seq<Action>): Option<System> {
    if actions == [] then Some(s)
    else
      match Steps(s, actions[..|actions| - 1])
      case None => None
      case Some(mid) =>
        var a := actions[|actions| - 1];
        if CanDo(mid, a) then Some(Do(mid, a)) else None
  }

  ghost function Run(config: Config, now: Time, actions: seq<Action>): Option<System> {
    Steps(Start(config, now), actions)
  }

  // ---------- the invariant ----------

  /** A copy some client holds: a past or present version of the stored record. */
  ghost predicate Held(s: System, snap: Record) {
    snap.id in s.records && Lifecycle(snap) && Later(snap, s.records[snap.id])
  }

  ghost predicate Linked(s: System, run: ProbeRun) {
    && run.id in s.issued && run.remediationId == s.issued[run.id]
    && (run.remediationId.Some? ==>
          && run.remediationId.value in s.records && HasProbe(s.records[run.remediationId.value], run.id)
          && OfEndpoint(s.records[run.remediationId.value].subject, run))
  }

  /** A copy of a run agrees with the stored run on what never changes. */
  ghost predicate Tracked(s: System, run: ProbeRun) {
    run.id in s.probes && s.probes[run.id].Asked() == run.Asked()
  }

  ghost predicate RunOk(s: System, run: ProbeRun) { Linked(s, run) && Tracked(s, run) }

  /** The attempt this run was started for has been closed. */
  ghost predicate Settled(s: System, run: ProbeRun) {
    run.remediationId.Some? ==>
      && run.remediationId.value in s.records
      && exists i: nat :: AttemptIndex(s.records[run.remediationId.value], run.id, i)
           && !s.records[run.remediationId.value].attempts[i].Open()
  }

  ghost predicate ClientOk(s: System, cl: Client) {
    match cl
    case Applying(snap, note) => Held(s, snap) && !snap.state.Verifying?
    case Requesting(snap, requestId) => Held(s, snap) && Openable(snap, requestId)
    case Scheduling(link, probeId) => SchedulerOk(s, link, probeId)
    case Reserving(link, probeId) => SchedulerOk(s, link, probeId)
    case Compensating(snap) => Held(s, snap) && snap.state.Verifying?
    case Executing(run) => RunOk(s, run)
    case Persisting(run, _) => RunOk(s, run) && run.finishedAt.Some?
    case Deriving(run, _) => RunOk(s, run) && run.finishedAt.Some?
    case Recording(run, _) => RunOk(s, run) && run.finishedAt.Some?
    case Interrupting(run) => RunOk(s, run) && run.finishedAt.Some?
    case Completing(run, tries, _) =>
      && RunOk(s, run) && run.finishedAt.Some?
      && tries <= 1 && (tries == 1 ==> Settled(s, run))
    case Writing(run, tries, _, snap, index) =>
      && RunOk(s, run) && run.finishedAt.Some?
      && tries == 0 && run.remediationId == Some(snap.id) && Held(s, snap)
      && AttemptIndex(snap, run.id, index) && snap.attempts[index].Open()
    case LookingUp(snap) => Held(s, snap) && snap.state.Verifying?
    case Abandoning(snap) => Held(s, snap) && snap.state.Verifying?
    case Failed(_) => false
  }

  ghost predicate SchedulerOk(s: System, link: Option<Record>, probeId: Uuid) {
    && probeId in s.issued && probeId !in s.probes && s.issued[probeId] == OwnerOf(link)
    && (link.Some? ==>
          && Held(s, link.value) && link.value.state.Verifying?
          && link.value.attempts != [] && link.value.attempts[|link.value.attempts| - 1].probeId == probeId)
  }

  ghost predicate RecordsOk(s: System) {
    forall id | id in s.records ::
      && s.records[id].id == id && Lifecycle(s.records[id])
      && forall i | 0 <= i < |s.records[id].attempts| ::
           s.records[id].attempts[i].probeId in s.issued && s.issued[s.records[id].attempts[i].probeId] == Some(id)
  }

  ghost predicate ProbesOk(s: System) {
    && (forall p | p in s.probes :: s.probes[p].id == p && Linked(s, s.probes[p]))
    && (forall p, q | p in s.probes && q in s.probes && p != q
          && s.probes[p].finishedAt.None? && s.probes[q].finishedAt.None? ::
          s.probes[p].target != s.probes[q].target)
  }

  ghost predicate ClientsOk(s: System) {
    && (forall c | c in s.clients :: ClientOk(s, s.clients[c]))
    && (forall c, d | c in s.clients && d in s.clients && c != d
          && s.clients[c].Scheduler() && s.clients[d].Scheduler() ::
          s.clients[c].probeId != s.clients[d].probeId)
  }

  ghost function Holders(s: System): set<nat> { set c | c in s.clients && s.clients[c].Holds() }

  ghost predicate SlotsOk(s: System) { s.free + |Holders(s)| == s.config.slots }

  /** Every stored run is of a known asset. */
  ghost predicate AssetsOk(s: System) { forall p | p in s.probes :: s.probes[p].assetId in s.assets }

  ghost predicate Inv(s: System) { RecordsOk(s) && ProbesOk(s) && ClientsOk(s) && SlotsOk(s) && AssetsOk(s) }
}
