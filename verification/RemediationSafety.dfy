/** What every action of the protocol keeps, and the consequences for every run. */
module RemediationSafety {
  import opened Domain
  import opened RemediationRecord
  import opened RemediationProtocol

  // ---------- growth ----------

  /** Stored runs stay, as runs of the same asset and owner, and a finished run stays finished. */
  ghost predicate ProbesEvolve(s: System, t: System) {
    forall p | p in s.probes ::
      && p in t.probes && t.probes[p].Asked() == s.probes[p].Asked()
      && (s.probes[p].finishedAt.Some? ==> t.probes[p].finishedAt.Some?)
  }

  /** What every action does to the parts of the state that others rely on. */
  ghost predicate Grows(s: System, t: System) {
    && t.config == s.config && s.now <= t.now && s.assets <= t.assets
    && (forall p | p in s.issued :: p in t.issued && t.issued[p] == s.issued[p])
    && s.records.Keys <= t.records.Keys
    && (forall id | id in s.records :: Later(s.records[id], t.records[id]))
    && ProbesEvolve(s, t)
  }

  lemma GrowthKeepsLink(s: System, t: System, run: ProbeRun)
    requires Grows(s, t) && Linked(s, run)
    ensures Linked(t, run)
    ensures Settled(s, run) ==> Settled(t, run)
    ensures Tracked(s, run) ==> Tracked(t, run)
  {}

  lemma GrowthKeepsHeld(s: System, t: System, snap: Record)
    requires Grows(s, t) && Held(s, snap)
    ensures Held(t, snap)
  {}

  lemma GrowthKeepsClient(s: System, t: System, cl: Client)
    requires Grows(s, t) && ClientOk(s, cl)
    requires cl.Scheduler() ==> cl.probeId !in t.probes
    ensures ClientOk(t, cl)
  {
    match cl
    case Applying(snap, _) => GrowthKeepsHeld(s, t, snap);
    case Requesting(snap, _) => GrowthKeepsHeld(s, t, snap);
    case Scheduling(link, _) => if link.Some? { GrowthKeepsHeld(s, t, link.value); }
    case Reserving(link, _) => if link.Some? { GrowthKeepsHeld(s, t, link.value); }
    case Compensating(snap) => GrowthKeepsHeld(s, t, snap);
    case Executing(run) => GrowthKeepsLink(s, t, run);
    case Persisting(run, _) => GrowthKeepsLink(s, t, run);
    case Deriving(run, _) => GrowthKeepsLink(s, t, run);
    case Recording(run, _) => GrowthKeepsLink(s, t, run);
    case Interrupting(run) => GrowthKeepsLink(s, t, run);
    case Completing(run, _, _) => GrowthKeepsLink(s, t, run);
    case Writing(run, _, _, snap, _) => GrowthKeepsLink(s, t, run); GrowthKeepsHeld(s, t, snap);
    case LookingUp(snap) => GrowthKeepsHeld(s, t, snap);
    case Abandoning(snap) => GrowthKeepsHeld(s, t, snap);
    case Failed(_) =>
  }

  // ---------- compare-and-swap is one transition of the current record ----------

  /** A copy whose revision still matches is the stored record itself. */
  lemma CasSeesCurrent(s: System, snap: Record)
    requires Held(s, snap) && s.records[snap.id].revision == snap.revision
    ensures s.records[snap.id] == snap
  {}

  /** A verification in flight can only be ended: once it is overtaken, its attempt is closed. */
  lemma OvertakenIsSettled(s: System, snap: Record, run: ProbeRun, index: nat)
    requires Held(s, snap) && s.records[snap.id].revision != snap.revision
    requires run.remediationId == Some(snap.id) && AttemptIndex(snap, run.id, index) && snap.attempts[index].Open()
    ensures Settled(s, run)
  {}

  lemma FireGrows(s: System, id: Uuid, tr: Transition)
    requires RecordsOk(s) && id in s.records && Enabled(s.records[id], tr)
    ensures Grows(s, s.(records := s.records[id := Fire(s.records[id], tr)]))
  {
    FireIsLater(s.records[id], tr);
  }

  // ---------- elementary updates ----------

  ghost predicate Core(s: System) { RecordsOk(s) && ProbesOk(s) && ClientsOk(s) && AssetsOk(s) }

  ghost predicate FreshScheduler(s: System, c: nat, cl: Client) {
    cl.Scheduler() ==>
      forall d | d in s.clients && d != c && s.clients[d].Scheduler() :: s.clients[d].probeId != cl.probeId
  }

  lemma GrowthKeepsClients(s: System, t: System)
    requires ClientsOk(s) && Grows(s, t) && t.clients == s.clients
    requires forall c | c in s.clients && s.clients[c].Scheduler() :: s.clients[c].probeId !in t.probes
    ensures ClientsOk(t)
  {
    forall c | c in t.clients ensures ClientOk(t, t.clients[c]) { GrowthKeepsClient(s, t, s.clients[c]); }
  }

  lemma GrowthKeepsProbes(s: System, t: System)
    requires Core(s) && Grows(s, t) && t.probes == s.probes
    ensures ProbesOk(t)
  {}

  lemma ClientOkIgnoresClients(s: System, t: System, cl: Client)
    requires t.records == s.records && t.probes == s.probes && t.issued == s.issued
    ensures ClientOk(s, cl) == ClientOk(t, cl)
  {}

  lemma PutKeeps(s: System, c: nat, cl: Client)
    requires Core(s) && ClientOk(s, cl) && FreshScheduler(s, c, cl)
    ensures Core(Put(s, c, cl))
  {
    var t := Put(s, c, cl);
    forall d | d in t.clients ensures ClientOk(t, t.clients[d]) { ClientOkIgnoresClients(s, t, t.clients[d]); }
    forall p | p in t.probes ensures Linked(t, t.probes[p]) { assert Linked(s, s.probes[p]); }
  }

  lemma DropKeeps(s: System, c: nat)
    requires Core(s) && c in s.clients
    ensures Core(Drop(s, c)) && (SlotsOk(s) ==> SlotsOk(Drop(s, c)))
  {
    var t := Drop(s, c);
    forall d | d in t.clients ensures ClientOk(t, t.clients[d]) { ClientOkIgnoresClients(s, t, s.clients[d]); }
    forall p | p in t.probes ensures Linked(t, t.probes[p]) { assert Linked(s, s.probes[p]); }
    assert Holders(t) == Holders(s) - {c};
  }

  lemma PutSlots(s: System, c: nat, cl: Client)
    requires s.free + |Holders(s) - {c}| + (if cl.Holds() then 1 else 0) == s.config.slots
    ensures SlotsOk(Put(s, c, cl))
  {
    var t := Put(s, c, cl);
    assert Holders(t) == if cl.Holds() then Holders(s) - {c} + {c} else Holders(s) - {c};
  }

  /** Replacing a client by one that owns exactly what it owned leaves the slots balanced. */
  lemma PutSameSlots(s: System, c: nat, cl: Client)
    requires SlotsOk(s) && (cl.Holds() <==> c in Holders(s))
    ensures SlotsOk(Put(s, c, cl))
  {
    if c !in Holders(s) { assert Holders(s) - {c} == Holders(s); }
    PutSlots(s, c, cl);
  }

  lemma IssueKeeps(s: System, probeId: Uuid, owner: Option<Uuid>)
    requires Core(s) && probeId !in s.issued
    ensures Core(Issue(s, probeId, owner)) && Grows(s, Issue(s, probeId, owner))
  {
    var t := Issue(s, probeId, owner);
    GrowthKeepsClients(s, t);
    GrowthKeepsProbes(s, t);
  }

  lemma FireKeepsRecords(s: System, id: Uuid, tr: Transition)
    requires RecordsOk(s) && id in s.records && Enabled(s.records[id], tr)
    requires tr.OpenAttempt? ==> tr.probeId in s.issued && s.issued[tr.probeId] == Some(id)
    ensures RecordsOk(s.(records := s.records[id := Fire(s.records[id], tr)]))
  {
    hide Later, VerifyRemediation;
    FireKeepsLifecycle(s.records[id], tr);
  }

  lemma FireKeeps(s: System, id: Uuid, tr: Transition)
    requires Core(s) && id in s.records && Enabled(s.records[id], tr)
    requires tr.OpenAttempt? ==> tr.probeId in s.issued && s.issued[tr.probeId] == Some(id)
    ensures var t := s.(records := s.records[id := Fire(s.records[id], tr)]);
      Core(t) && Grows(s, t)
  {
    hide Lifecycle, Later, RecordsOk, ClientsOk, Linked, Held, Fire, Enabled;
    var t := s.(records := s.records[id := Fire(s.records[id], tr)]);
    FireGrows(s, id, tr);
    FireKeepsRecords(s, id, tr);
    SchedulersUnstored(s);
    GrowthKeepsClients(s, t);
    GrowthKeepsProbes(s, t);
  }

  lemma SchedulersUnstored(s: System)
    requires ClientsOk(s)
    ensures forall c | c in s.clients && s.clients[c].Scheduler() :: s.clients[c].probeId !in s.probes
  {}

  lemma WriteProbeGrows(s: System, run: ProbeRun)
    requires RecordsOk(s) && RunOk(s, run) && run.finishedAt.Some?
    ensures Grows(s, WriteProbe(s, run))
  {
    forall id | id in s.records { LaterReflexive(s.records[id]); }
  }

  lemma LaterReflexive(r: Record)
    ensures Later(r, r)
  {}

  lemma WriteKeepsProbes(s: System, run: ProbeRun)
    requires ProbesOk(s) && Linked(s, run) && run.finishedAt.Some? && Grows(s, WriteProbe(s, run))
    ensures ProbesOk(WriteProbe(s, run))
  {
    hide Grows, Linked;
    var t := WriteProbe(s, run);
    forall p | p in t.probes ensures t.probes[p].id == p && Linked(t, t.probes[p]) {
      GrowthKeepsLink(s, t, t.probes[p]);
    }
  }

  /** Storing a finished run over the stored one. */
  lemma WriteProbeKeeps(s: System, run: ProbeRun)
    requires Core(s) && RunOk(s, run) && run.finishedAt.Some?
    ensures Core(WriteProbe(s, run)) && Grows(s, WriteProbe(s, run))
  {
    hide Lifecycle, Later, Grows, ProbesEvolve, ClientsOk;
    hide Linked;
    var t := WriteProbe(s, run);
    WriteProbeGrows(s, run);
    WriteKeepsProbes(s, run);
    SchedulersUnstored(s);
    GrowthKeepsClients(s, t);
  }

  // ---------- which transition an action commits ----------

  datatype Event = Silent | Created(record: Record) | Fired(id: Uuid, tr: Transition)

  function FiredIf(s: System, next: Record, snap: Record, tr: Transition): Event {
    if CasSucceeds(s, next, snap.revision) then Fired(snap.id, tr) else Silent
  }

  function ApplyEvent(s: System, c: nat, at: Time): Event
    requires CanApply(s, c, at)
  {
    var cl := s.clients[c];
    FiredIf(s, AppliedRecord(cl.snap, at, cl.note), cl.snap, Apply(at, cl.note))
  }

  function OpenEvent(s: System, c: nat, probeId: Uuid, at: Time): Event
    requires CanOpen(s, c, probeId, at)
  {
    var cl := s.clients[c];
    FiredIf(s, OpenedRecord(cl.snap, cl.requestId, probeId, at), cl.snap, OpenAttempt(cl.requestId, probeId, at))
  }

  function CompleteEvent(s: System, c: nat): Event
    requires CanComplete(s, c)
  {
    var cl := s.clients[c];
    FiredIf(s, CompletedRecord(cl.snap, cl.index, cl.run), cl.snap,
            CloseLast(VerifyRemediation(cl.snap.subject, cl.run), cl.run.finishedAt.value, Some(cl.run)))
  }

  function AbandonEvent(s: System, c: nat, at: Time): Event
    requires CanAbandon(s, c, at)
  {
    var snap := s.clients[c].snap;
    FiredIf(s, CloseInconclusive(snap, at), snap, CloseLast(Inconclusive, at, None))
  }

  function EventOf(s: System, a: Action): Event
    requires CanDo(s, a)
  {
    match a
    case Create(r) => if r.id in s.records then Silent else Created(r)
    case CommitApply(c, at) => ApplyEvent(s, c, at)
    case CommitOpen(c, probeId, at) => OpenEvent(s, c, probeId, at)
    case CommitCompletion(c) => CompleteEvent(s, c)
    case CommitAbandon(c, at) => AbandonEvent(s, c, at)
    case _ => Silent
  }

  /** The stored records change by nothing, by one creation, or by one transition of the current record. */
  ghost predicate Effect(s: System, t: System, e: Event) {
    match e
    case Silent => t.records == s.records
    case Created(r) => Initial(r) && r.id !in s.records && t.records == s.records[r.id := r]
    case Fired(id, tr) =>
      && id in s.records && Enabled(s.records[id], tr)
      && t.records == s.records[id := Fire(s.records[id], tr)]
  }

  ghost predicate GoodStep(s: System, t: System, e: Event) { Inv(t) && Grows(s, t) && Effect(s, t, e) }

  lemma CasIsTransition(s: System, snap: Record, tr: Transition)
    requires Core(s) && Held(s, snap) && Enabled(snap, tr)
    requires tr.OpenAttempt? ==> tr.probeId in s.issued && s.issued[tr.probeId] == Some(snap.id)
    ensures var next := Fire(snap, tr);
      var t := Cas(s, next, snap.revision);
      && Core(t) && Grows(s, t)
      && Effect(s, t, FiredIf(s, next, snap, tr))
      && t == s.(records := t.records)
  {
    if s.records[snap.id].revision == snap.revision {
      CasSeesCurrent(s, snap);
      FireKeeps(s, snap.id, tr);
    }
  }

  // ---------- each action keeps the invariant ----------

  lemma KnownClient(s: System, c: nat)
    requires Inv(s) && c in s.clients
    ensures ClientOk(s, s.clients[c])
  {}

  lemma KnownProbe(s: System, p: Uuid)
    requires Inv(s) && p in s.probes
    ensures s.probes[p].id == p && Linked(s, s.probes[p])
  {}

  lemma KnownRecord(s: System, id: Uuid)
    requires Inv(s) && id in s.records
    ensures Held(s, s.records[id])
  {}

  lemma StutterKeeps(s: System)
    requires Inv(s)
    ensures GoodStep(s, s, Silent)
  {}

  lemma LeaveKeeps(s: System, c: nat)
    requires Inv(s) && c in s.clients
    ensures GoodStep(s, Drop(s, c), Silent)
  {
    hide Lifecycle, Later, Held, Linked, ClientOk;
    forall id | id in s.records { LaterReflexive(s.records[id]); }
    DropKeeps(s, c);
  }

  lemma TickKeeps(s: System, d: nat)
    requires Inv(s)
    ensures GoodStep(s, s.(now := s.now + d), Silent)
  {
    hide Lifecycle, Later, Held, Linked, ClientOk;
    var t := s.(now := s.now + d);
    forall id | id in s.records ensures Later(s.records[id], t.records[id]) { LaterReflexive(s.records[id]); }
    SchedulersUnstored(s);
    GrowthKeepsClients(s, t);
    GrowthKeepsProbes(s, t);
    assert Holders(t) == Holders(s);
  }

  lemma DiscoverKeeps(s: System, asset: Uuid)
    requires Inv(s)
    ensures GoodStep(s, s.(assets := s.assets + {asset}), Silent)
  {
    hide Lifecycle, Later, Held, Linked, ClientOk;
    var t := s.(assets := s.assets + {asset});
    forall id | id in s.records ensures Later(s.records[id], t.records[id]) { LaterReflexive(s.records[id]); }
    SchedulersUnstored(s);
    GrowthKeepsClients(s, t);
    GrowthKeepsProbes(s, t);
    assert Holders(t) == Holders(s);
  }

  lemma CreateKeepsRecords(s: System, r: Record)
    requires RecordsOk(s) && Initial(r) && r.id !in s.records
    ensures var t := s.(records := s.records[r.id := r]); RecordsOk(t) && Grows(s, t)
  {
    InitialLifecycle(r);
    hide Lifecycle, Later;
    forall id | id in s.records { LaterReflexive(s.records[id]); }
  }

  lemma CreateKeeps(s: System, r: Record)
    requires Inv(s) && Initial(r) && r.id !in s.records
    ensures GoodStep(s, s.(records := s.records[r.id := r]), Created(r))
  {
    hide Lifecycle, Later, Held, Linked, ClientOk, Grows, Initial;
    var t := s.(records := s.records[r.id := r]);
    CreateKeepsRecords(s, r);
    SchedulersUnstored(s);
    GrowthKeepsClients(s, t);
    GrowthKeepsProbes(s, t);
    assert Holders(t) == Holders(s);
  }

  /** Reading a copy, in whichever role, adds a client that owns no slot. */
  lemma JoinKeeps(s: System, c: nat, cl: Client)
    requires Inv(s) && Idle(s, c) && ClientOk(s, cl) && !cl.Holds() && FreshScheduler(s, c, cl)
    ensures GoodStep(s, Put(s, c, cl), Silent)
  {
    PutKeeps(s, c, cl);
    PutSameSlots(s, c, cl);
  }

  /** A client whose last act is a compare-and-swap. */
  lemma CommitKeeps(s: System, c: nat, snap: Record, tr: Transition)
    requires Inv(s) && c in s.clients && Held(s, snap) && Enabled(snap, tr)
    requires tr.OpenAttempt? ==> tr.probeId in s.issued && s.issued[tr.probeId] == Some(snap.id)
    ensures var next := Fire(snap, tr);
      GoodStep(s, Drop(Cas(s, next, snap.revision), c), FiredIf(s, next, snap, tr))
  {
    hide Lifecycle, Later, Enabled, Fire, RecordsOk, ProbesOk, ClientsOk, Held;
    CasIsTransition(s, snap, tr);
    var mid := Cas(s, Fire(snap, tr), snap.revision);
    assert Holders(mid) == Holders(s);
    DropKeeps(mid, c);
  }

  /** The winning write hands the new attempt to a scheduler of its own. */
  lemma OpenHandsOver(s: System, snap: Record, requestId: Uuid, probeId: Uuid, at: Time)
    requires Core(s) && Held(s, snap) && Openable(snap, requestId)
    requires probeId in s.issued && s.issued[probeId] == Some(snap.id) && probeId !in s.probes
    requires !HasProbe(snap, probeId) && s.records[snap.id].revision == snap.revision
    ensures var next := OpenedRecord(snap, requestId, probeId, at);
      var t := Cas(s, next, snap.revision);
      && Core(t) && Grows(s, t) && t == s.(records := t.records)
      && Effect(s, t, FiredIf(s, next, snap, OpenAttempt(requestId, probeId, at)))
      && SchedulerOk(t, Some(next), probeId)
  {
    var tr := OpenAttempt(requestId, probeId, at);
    assert Enabled(snap, tr) && Fire(snap, tr) == OpenedRecord(snap, requestId, probeId, at);
    CasIsTransition(s, snap, tr);
    FireKeepsLifecycle(snap, tr);
  }

  lemma FreshIdIsUnused(s: System, snap: Record, probeId: Uuid)
    requires Core(s) && Held(s, snap) && probeId !in s.issued
    ensures !HasProbe(snap, probeId) && probeId !in s.probes
    ensures forall c | c in s.clients && s.clients[c].Scheduler() :: s.clients[c].probeId != probeId
  {}

  lemma OpenKeeps(s: System, c: nat, probeId: Uuid, at: Time)
    requires Inv(s) && CanOpen(s, c, probeId, at)
    ensures GoodStep(s, DoOpen(s, c, probeId, at), OpenEvent(s, c, probeId, at))
  {
    hide Lifecycle, Later, RecordsOk, ProbesOk, ClientsOk, Linked;
    var cl := s.clients[c];
    var snap := cl.snap;
    KnownClient(s, c);
    FreshIdIsUnused(s, snap, probeId);
    IssueKeeps(s, probeId, Some(snap.id));
    var issuing := Issue(s, probeId, Some(snap.id));
    assert Holders(issuing) == Holders(s);
    GrowthKeepsHeld(s, issuing, snap);
    if s.records[snap.id].revision == snap.revision {
      OpenHandsOver(issuing, snap, cl.requestId, probeId, at);
      var next := OpenedRecord(snap, cl.requestId, probeId, at);
      var mid := Cas(issuing, next, snap.revision);
      PutKeeps(mid, c, Scheduling(Some(next), probeId));
      assert Holders(mid) == Holders(s);
      PutSameSlots(mid, c, Scheduling(Some(next), probeId));
      GrowsTransitive(s, issuing, mid);
    } else {
      DropKeeps(issuing, c);
    }
  }

  lemma GrowsTransitive(s: System, t: System, u: System)
    requires Grows(s, t) && Grows(t, u)
    ensures Grows(s, u)
  {
    forall id | id in s.records ensures Later(s.records[id], u.records[id]) {
      LaterTransitive(s.records[id], t.records[id], u.records[id]);
    }
  }

  lemma BeginProbeKeeps(s: System, c: nat, probeId: Uuid)
    requires Inv(s) && Idle(s, c) && probeId !in s.issued
    ensures GoodStep(s, Put(Issue(s, probeId, None), c, Scheduling(None, probeId)), Silent)
  {
    IssueKeeps(s, probeId, None);
    var mid := Issue(s, probeId, None);
    assert Holders(mid) == Holders(s);
    forall d | d in s.clients && s.clients[d].Scheduler() ensures s.clients[d].probeId != probeId {
      assert ClientOk(s, s.clients[d]);
    }
    assert probeId !in s.probes by {
      assert forall p | p in s.probes :: Linked(s, s.probes[p]) && s.probes[p].id == p;
    }
    JoinKeeps(mid, c, Scheduling(None, probeId));
  }

  lemma SpendKeeps(s: System)
    requires RecordsOk(s) && s.free > 0
    ensures RecordsOk(s.(free := s.free - 1)) && Grows(s, s.(free := s.free - 1))
  {}

  lemma AcquireKeeps(s: System, c: nat)
    requires Inv(s) && CanAcquire(s, c)
    ensures GoodStep(s, DoAcquire(s, c), Silent)
  {
    hide Lifecycle, Later, Linked, Held;
    var cl := s.clients[c];
    KnownClient(s, c);
    SchedulersUnstored(s);
    var next := Reserving(cl.link, cl.probeId);
    var mid := s.(free := s.free - 1);
    SpendKeeps(s);
    hide Lifecycle, Later, RecordsOk, ProbesOk, Linked, Grows, Held, AssetsOk;
    GrowthKeepsClients(s, mid);
    GrowthKeepsProbes(s, mid);
    assert AssetsOk(mid) by { SpendKeepsAssets(s); }
    KeepsRole(s, mid, cl);
    PutKeeps(mid, c, next);
    assert Holders(mid) == Holders(s) && c !in Holders(s);
    assert Holders(mid) - {c} == Holders(s);
    PutSlots(mid, c, next);
    SameGrowth(s, mid, Put(mid, c, next));
  }

  lemma SpendKeepsAssets(s: System)
    requires AssetsOk(s) && s.free > 0
    ensures AssetsOk(s.(free := s.free - 1))
  {}

  lemma KeepsRole(s: System, t: System, cl: Client)
    requires ClientOk(s, cl) && cl.Scheduling? && t.records == s.records && t.probes == s.probes && t.issued == s.issued
    ensures ClientOk(t, Reserving(cl.link, cl.probeId))
  {}

  lemma ScheduleFailsKeeps(s: System, c: nat)
    requires Inv(s) && CanFailSchedule(s, c)
    ensures GoodStep(s, DoFailSchedule(s, c), Silent)
  {
    var cl := s.clients[c];
    assert ClientOk(s, cl);
    DropKeeps(s, c);
    if cl.link.Some? {
      var next := Compensating(cl.link.value);
      ClientOkIgnoresClients(s, Drop(s, c), next);
      JoinKeeps(Drop(s, c), c, next);
    }
  }

  /** A fresh target, and an id no run has: the store stays well-formed with the new run. */
  lemma InsertProbeKeeps(s: System, run: ProbeRun)
    requires Core(s) && Linked(s, run) && run.finishedAt.None? && !Blocked(s, run)
    requires forall c | c in s.clients && s.clients[c].Scheduler() :: s.clients[c].probeId != run.id
    requires run.id !in s.probes && run.assetId in s.assets
    ensures var t := s.(probes := s.probes[run.id := run]); Core(t) && Grows(s, t) && RunOk(t, run)
  {
    var t := s.(probes := s.probes[run.id := run]);
    hide Lifecycle, Later, Held;
    forall id | id in s.records { LaterReflexive(s.records[id]); }
    assert Grows(s, t);
    forall p | p in t.probes ensures t.probes[p].id == p && Linked(t, t.probes[p]) {
      GrowthKeepsLink(s, t, if p == run.id then run else s.probes[p]);
    }
    forall c | c in s.clients && s.clients[c].Scheduler() ensures s.clients[c].probeId !in t.probes {
      assert ClientOk(s, s.clients[c]);
    }
    GrowthKeepsClients(s, t);
  }

  /** Forgetting a client without releasing its slot, as the first half of replacing it. */
  lemma ForgetKeeps(s: System, c: nat)
    requires Core(s)
    ensures Core(s.(clients := s.clients - {c}))
  {
    var t := s.(clients := s.clients - {c});
    forall d | d in t.clients ensures ClientOk(t, t.clients[d]) { ClientOkIgnoresClients(s, t, s.clients[d]); }
    forall p | p in s.probes ensures Linked(t, s.probes[p]) { assert Linked(s, s.probes[p]); }
  }

  lemma SchedulerLinks(s: System, link: Option<Record>, run: ProbeRun)
    requires SchedulerOk(s, link, run.id)
    requires run.remediationId == OwnerOf(link) && (link.Some? ==> OfEndpoint(link.value.subject, run))
    ensures Linked(s, run)
  {}

  lemma ReserveCore(s: System, c: nat, run: ProbeRun)
    requires Core(s) && CanReserve(s, c, run)
    ensures Core(DoReserve(s, c, run)) && Grows(s, DoReserve(s, c, run))
  {
    hide Lifecycle, Later, RecordsOk, ProbesOk, Linked, Held;
    var cl := s.clients[c];
    assert ClientOk(s, cl);
    var idle := s.(clients := s.clients - {c});
    ForgetKeeps(s, c);
    assert SchedulerOk(idle, cl.link, run.id) by { SameHeld(s, idle, cl.link); }
    SchedulerLinks(idle, cl.link, run);
    InsertProbeKeeps(idle, run);
    PutKeeps(idle.(probes := s.probes[run.id := run]), c, Executing(run));
    assert DoReserve(s, c, run) == Put(idle.(probes := s.probes[run.id := run]), c, Executing(run));
    assert ProbesEvolve(s, DoReserve(s, c, run));
    SameRecordsGrow(s, DoReserve(s, c, run));
  }

  lemma SameHeld(s: System, t: System, link: Option<Record>)
    requires t.records == s.records
    ensures link.Some? ==> Held(s, link.value) == Held(t, link.value)
  {}

  lemma SameRecordsGrow(s: System, t: System)
    requires t == s.(probes := t.probes, clients := t.clients, free := t.free) && ProbesEvolve(s, t)
    ensures Grows(s, t)
  {}

  lemma ReserveKeeps(s: System, c: nat, run: ProbeRun)
    requires Inv(s) && CanReserve(s, c, run)
    ensures GoodStep(s, DoReserve(s, c, run), Silent)
  {
    hide Lifecycle, Later, RecordsOk, ProbesOk, ClientsOk, Linked;
    ReserveCore(s, c, run);
    PutSameSlots(s, c, Executing(run));
    assert Holders(DoReserve(s, c, run)) == Holders(Put(s, c, Executing(run)));
  }

  /** A client that moves on without touching storage and keeps owning what it owned. */
  lemma AdvanceKeeps(s: System, c: nat, cl: Client)
    requires Inv(s) && c in s.clients && ClientOk(s, cl)
    requires (cl.Holds() <==> s.clients[c].Holds()) && !cl.Scheduler()
    ensures GoodStep(s, Put(s, c, cl), Silent)
  {
    PutKeeps(s, c, cl);
    PutSameSlots(s, c, cl);
  }

  /** A task that stores its finished run and goes on to `next`, which owns what it owned. */
  lemma StoreKeeps(s: System, c: nat, run: ProbeRun, next: Client)
    requires Inv(s) && c in s.clients && RunOk(s, run) && run.finishedAt.Some?
    requires next.Deriving? || (next.Completing? && next.tries == 0)
    requires next.run == run && (next.Holds() <==> s.clients[c].Holds())
    ensures GoodStep(s, Put(WriteProbe(s, run), c, next), Silent)
  {
    hide Lifecycle, Later, RecordsOk, ProbesOk, ClientsOk, AssetsOk, Linked, Tracked, ProbesEvolve;
    WriteProbeKeeps(s, run);
    var mid := WriteProbe(s, run);
    assert Holders(mid) == Holders(s);
    GrowthKeepsLink(s, mid, run);
    AdvanceKeeps(mid, c, next);
    SameGrowth(s, mid, Put(mid, c, next));
  }

  /** What others rely on says nothing of clients and free slots. */
  lemma SameGrowth(s: System, t: System, u: System)
    requires Grows(s, t) && u == t.(clients := u.clients, free := u.free)
    ensures Grows(s, u)
  {}

  lemma StoreInterruptionKeeps(s: System, c: nat)
    requires Inv(s) && CanStoreInterruption(s, c)
    ensures GoodStep(s, DoStoreInterruption(s, c), Silent)
  {
    KnownClient(s, c);
    hide Lifecycle, Later, RecordsOk, ProbesOk, ClientsOk, AssetsOk, Linked, Tracked, ProbesEvolve, Grows;
    var run := s.clients[c].run;
    WriteProbeKeeps(s, run);
    var mid := WriteProbe(s, run);
    assert Holders(mid) == Holders(s);
    DropKeeps(mid, c);
    SameGrowth(s, mid, Drop(mid, c));
  }

  lemma DeriveKeeps(s: System, c: nat)
    requires Inv(s) && CanDerive(s, c)
    ensures GoodStep(s, DoDerive(s, c), Silent)
  {
    hide GoodStep, Inv;
    KnownClient(s, c);
    LeaveKeeps(s, c);
    var cl := s.clients[c];
    var run := if cl.run.result.Some? then Evidenced(cl.run) else cl.run;
    if cl.run.assetId in s.assets { AdvanceKeeps(s, c, Recording(run, cl.permit)); }
  }

  /** In every state the invariant allows, deriving finds the asset. */
  lemma DeriveFindsAsset(s: System, c: nat)
    requires Inv(s) && CanDerive(s, c)
    ensures s.clients[c].run.assetId in s.assets
  {
    KnownClient(s, c);
  }

  /** Probe ids name one attempt each, so the first match is the attempt that was settled. */
  lemma SettledIsClosed(s: System, run: ProbeRun, index: nat)
    requires RecordsOk(s) && run.remediationId.Some? && run.remediationId.value in s.records
    requires AttemptIndex(s.records[run.remediationId.value], run.id, index)
    ensures Settled(s, run) <==> !s.records[run.remediationId.value].attempts[index].Open()
  {}

  lemma ReadKeeps(s: System, c: nat)
    requires Inv(s) && CanRead(s, c)
    ensures GoodStep(s, DoRead(s, c), Silent)
  {
    hide GoodStep, Lifecycle, Later, ProbesOk, ClientsOk;
    var cl := s.clients[c];
    KnownClient(s, c);
    LeaveKeeps(s, c);
    if cl.run.remediationId.Some? {
      var r := s.records[cl.run.remediationId.value];
      KnownRecord(s, cl.run.remediationId.value);
      var index := Position(r, cl.run.id);
      if r.attempts[index].Open() {
        SettledIsClosed(s, cl.run, index);
        AdvanceKeeps(s, c, Writing(cl.run, cl.tries, cl.permit, r, index));
      }
    }
  }

  /** The open attempt is the last one, so closing it is the enabled transition. */
  lemma OpenIsLast(r: Record, index: nat)
    requires Lifecycle(r) && index < |r.attempts| && r.attempts[index].Open()
    ensures index == |r.attempts| - 1 && r.state.Verifying?
  {}

  /** A run linked to a record checks the connection that every copy of the record names. */
  lemma HeldEndpoint(s: System, snap: Record, run: ProbeRun)
    requires Held(s, snap) && Linked(s, run) && run.remediationId == Some(snap.id)
    ensures OfEndpoint(snap.subject, run)
  {
    hide Lifecycle;
  }

  lemma CompleteKeeps(s: System, c: nat)
    requires Inv(s) && CanComplete(s, c)
    ensures GoodStep(s, DoComplete(s, c), CompleteEvent(s, c))
  {
    hide GoodStep, Inv, Lifecycle, Later, VerifyRemediation;
    var cl := s.clients[c];
    KnownClient(s, c);
    HeldEndpoint(s, cl.snap, cl.run);
    OpenIsLast(cl.snap, cl.index);
    if s.records[cl.snap.id].revision == cl.snap.revision {
      CommitKeeps(s, c, cl.snap,
        CloseLast(VerifyRemediation(cl.snap.subject, cl.run), cl.run.finishedAt.value, Some(cl.run)));
    } else {
      OvertakenIsSettled(s, cl.snap, cl.run, cl.index);
      AdvanceKeeps(s, c, Completing(cl.run, 1, cl.permit));
    }
  }

  lemma LookUpKeeps(s: System, c: nat)
    requires Inv(s) && CanLookUp(s, c)
    ensures GoodStep(s, DoLookUp(s, c), Silent)
  {
    hide Inv, GoodStep, Lifecycle, Later;
    var snap := s.clients[c].snap;
    KnownClient(s, c);
    LeaveKeeps(s, c);
    var a := snap.attempts[|snap.attempts| - 1];
    if a.probeId in s.probes {
      if s.probes[a.probeId].finishedAt.Some? {
        KnownProbe(s, a.probeId);
        AdvanceKeeps(s, c, Completing(s.probes[a.probeId], 0, false));
      }
    } else if s.now - a.requestedAt > START_GRACE {
      AdvanceKeeps(s, c, Abandoning(snap));
    }
  }

  lemma ApplyKeeps(s: System, c: nat, at: Time)
    requires Inv(s) && CanApply(s, c, at)
    ensures GoodStep(s, DoApply(s, c, at), ApplyEvent(s, c, at))
  {
    var cl := s.clients[c];
    assert ClientOk(s, cl);
    CommitKeeps(s, c, cl.snap, Apply(at, cl.note));
  }

  lemma AbandonKeeps(s: System, c: nat, at: Time)
    requires Inv(s) && CanAbandon(s, c, at)
    ensures GoodStep(s, DoAbandon(s, c, at), AbandonEvent(s, c, at))
  {
    assert ClientOk(s, s.clients[c]);
    CommitKeeps(s, c, s.clients[c].snap, CloseLast(Inconclusive, at, None));
  }

  lemma ConcludeKeeps(s: System, c: nat, run: ProbeRun)
    requires Inv(s) && CanConclude(s, c) && run.finishedAt.Some?
    requires run == s.clients[c].run.(finishedAt := run.finishedAt, outcome := run.outcome, result := run.result)
    ensures GoodStep(s, Put(s, c, Persisting(run, true)), Silent)
  {
    KnownClient(s, c);
    AdvanceKeeps(s, c, Persisting(run, true));
  }

  /** Recovery takes up a stored run, finished or just called interrupted. */
  lemma TakeUpKeeps(s: System, c: nat, p: Uuid, cl: Client)
    requires Inv(s) && Idle(s, c) && p in s.probes && !cl.Holds()
    requires cl.Interrupting? || cl.Deriving? || (cl.Completing? && cl.tries == 0)
    requires cl.run.finishedAt.Some?
    requires cl.run == s.probes[p].(finishedAt := cl.run.finishedAt, outcome := cl.run.outcome, result := cl.run.result)
    ensures GoodStep(s, Put(s, c, cl), Silent)
  {
    KnownProbe(s, p);
    JoinKeeps(s, c, cl);
  }

  /** Actions that work on a run or on recovery, none of which schedules anything. */
  predicate AfterScheduling(a: Action) {
    || a.Persist? || a.Derive? || a.StoreEvidence? || a.StoreInterruption?
    || a.ReadForCompletion? || a.CommitCompletion? || a.LookUpProbe? || a.CommitAbandon?
  }

  lemma LateStepKeeps(s: System, a: Action)
    requires Inv(s) && CanDo(s, a) && AfterScheduling(a)
    ensures GoodStep(s, Do(s, a), EventOf(s, a))
  {
    hide GoodStep, Inv, Lifecycle, Later, Held, Linked, Fire, Enabled, VerifyRemediation, TargetBusy, Position,
         HasProbe, CompletedRecord, CloseInconclusive, DoOpen, DoAcquire, DoFailSchedule, DoReserve, DoDerive, DoRead,
         DoComplete, DoLookUp, DoAbandon, DoApply, DoStoreInterruption;
    match a
    case Persist(c) =>
      KnownClient(s, c);
      StoreKeeps(s, c, s.clients[c].run, Deriving(s.clients[c].run, s.clients[c].permit));
    case Derive(c) => DeriveKeeps(s, c);
    case StoreEvidence(c) =>
      KnownClient(s, c);
      StoreKeeps(s, c, s.clients[c].run, Completing(s.clients[c].run, 0, s.clients[c].permit));
    case ReadForCompletion(c) => ReadKeeps(s, c);
    case CommitCompletion(c) => CompleteKeeps(s, c);
    case StoreInterruption(c) => StoreInterruptionKeeps(s, c);
    case LookUpProbe(c) => LookUpKeeps(s, c);
    case CommitAbandon(c, at) => AbandonKeeps(s, c, at);
  }

  lemma StepKeeps(s: System, a: Action)
    requires Inv(s) && CanDo(s, a)
    ensures GoodStep(s, Do(s, a), EventOf(s, a))
  {
    hide GoodStep, Inv, Lifecycle, Later, Held, Linked, Fire, Enabled, VerifyRemediation, TargetBusy, Position,
         HasProbe, CompletedRecord, CloseInconclusive, DoOpen, DoAcquire, DoFailSchedule, DoReserve, DoDerive, DoRead,
         DoComplete, DoLookUp, DoAbandon, DoApply, DoStoreInterruption, DoPersist, DoStoreEvidence;
    match a
    case Tick(d) => TickKeeps(s, d);
    case Discover(asset) => DiscoverKeeps(s, asset);
    case Create(r) => if r.id in s.records { StutterKeeps(s); } else { CreateKeeps(s, r); }
    case BeginApply(c, id, note) => KnownRecord(s, id); JoinKeeps(s, c, Applying(s.records[id], note));
    case CommitApply(c, at) => ApplyKeeps(s, c, at);
    case BeginVerify(c, id, requestId) => KnownRecord(s, id); JoinKeeps(s, c, Requesting(s.records[id], requestId));
    case CommitOpen(c, probeId, at) => OpenKeeps(s, c, probeId, at);
    case BeginProbe(c, probeId) => BeginProbeKeeps(s, c, probeId);
    case Acquire(c) => AcquireKeeps(s, c);
    case ScheduleFails(c) => ScheduleFailsKeeps(s, c);
    case Reserve(c, run) => ReserveKeeps(s, c, run);
    case Conclude(c, outcome, result) =>
      ConcludeKeeps(s, c, s.clients[c].run.Finish(s.now, outcome, result));
    case RecoverStale(c, p) => TakeUpKeeps(s, c, p, Interrupting(Interrupted(s.probes[p], s.now)));
    case RecoverFinished(c, p) =>
      TakeUpKeeps(s, c, p,
        if NeedsEvidence(s.probes[p]) then Deriving(s.probes[p], false) else Completing(s.probes[p], 0, false));
    case RecoverVerifying(c, id) => KnownRecord(s, id); JoinKeeps(s, c, LookingUp(s.records[id]));
    case Crash(c) => LeaveKeeps(s, c);
    case _ => LateStepKeeps(s, a);
  }
}
