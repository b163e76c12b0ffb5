/** What one recovery pass does to a store, when it ends the work a crash left behind, and when it gives up halfway. */
module RemediationRecovery {
  import opened Domain
  import opened RemediationRecord
  import opened RemediationProtocol
  import opened RemediationSafety
  import opened RemediationRuns

  /** How many recent runs one pass takes up. */
  const SELECTION := 200

  // ---------- the pass ----------

  function RecoveredProbe(s: System, run: ProbeRun): ProbeRun {
    if Overdue(s, run) then Interrupted(run, s.now) else run
  }

  /** First, runs past the threshold are called interrupted. */
  function MarkOverdue(s: System): System {
    s.(probes := map p | p in s.probes :: RecoveredProbe(s, s.probes[p]))
  }

  /** The finished runs among the recent ones, in the order they are taken up. */
  ghost predicate Selected(s: System, list: seq<Uuid>) {
    && Distinct(list) && |list| <= SELECTION
    && forall p | p in list :: p in s.probes && s.probes[p].finishedAt.Some?
  }

  function Derived(run: ProbeRun): ProbeRun { if NeedsEvidence(run) then Evidenced(run) else run }

  /** `complete_probe` for a run that belongs to no record, or is linked to one. */
  function Completed(s: System, run: ProbeRun): System {
    if run.remediationId.Some? && run.remediationId.value in s.records
       && HasProbe(s.records[run.remediationId.value], run.id) then
      var id := run.remediationId.value;
      var r := s.records[id];
      var index := Position(r, run.id);
      if r.attempts[index].Open() then s.(records := s.records[id := CompletedRecord(r, index, run)]) else s
    else s
  }

  function TakeUp(s: System, p: Uuid): System {
    if p in s.probes && s.probes[p].finishedAt.Some?
    then Completed(s.(probes := s.probes[p := Derived(s.probes[p])]), Derived(s.probes[p]))
    else s
  }

  /** Second, each selected run gets its derived evidence and completes its attempt. */
  function TakeUpAll(s: System, list: seq<Uuid>): System {
    if list == [] then s else TakeUp(TakeUpAll(s, list[..|list| - 1]), list[|list| - 1])
  }

  /** Deriving from this run fails, and ends the pass. */
  predicate Underivable(s: System, p: Uuid) {
    p in s.probes && NeedsEvidence(s.probes[p]) && s.probes[p].assetId !in s.assets
  }

  function FirstUnderivable(s: System, list: seq<Uuid>): (k: nat)
    ensures k <= |list| && (k < |list| ==> Underivable(s, list[k]))
    ensures forall i | 0 <= i < k :: !Underivable(s, list[i])
  {
    if list == [] || Underivable(s, list[0]) then 0 else 1 + FirstUnderivable(s, list[1..])
  }

  /** The record after completing its finished probe, or giving up on one that never started. */
  function RecoveredRecord(s: System, r: Record): Record {
    if !r.state.Verifying? || r.attempts == [] then r
    else
      var last := |r.attempts| - 1;
      var a := r.attempts[last];
      if a.probeId in s.probes then
        if s.probes[a.probeId].finishedAt.Some? && a.Open()
        then CompletedRecord(r, last, s.probes[a.probeId])
        else r
      else if s.now - a.requestedAt > START_GRACE then CloseInconclusive(r, s.now)
      else r
  }

  /** Last, the records that are still verifying. */
  function WithRecoveredRecords(s: System): System {
    s.(records := map id | id in s.records :: RecoveredRecord(s, s.records[id]))
  }

  /** One recovery pass with nothing else running, and whether it came to its end. */
  function Pass(s: System, list: seq<Uuid>): (bool, System) {
    var m := MarkOverdue(s);
    var k := FirstUnderivable(m, list);
    if k < |list| then (false, TakeUpAll(m, list[..k])) else (true, WithRecoveredRecords(TakeUpAll(m, list)))
  }

  /** The selected runs the pass gets through. */
  function Taken(s: System, list: seq<Uuid>): seq<Uuid> { list[..FirstUnderivable(MarkOverdue(s), list)] }

  predicate Awaiting(r: Record, p: Uuid) {
    r.state.Verifying? && r.attempts != [] && r.attempts[|r.attempts| - 1].probeId == p
  }

  // ---------- taking up the selected runs ----------

  lemma {:induction false} TakenProbes(s: System, list: seq<Uuid>)
    requires Selected(s, list)
    ensures TakeUpAll(s, list) == s.(probes := TakeUpAll(s, list).probes, records := TakeUpAll(s, list).records)
    ensures TakeUpAll(s, list).probes ==
      map p | p in s.probes :: if p in list then Derived(s.probes[p]) else s.probes[p]
  {
    if list != [] {
      SelectedFront(s, list);
      hide Selected, HasProbe, CompletedRecord;
      TakenProbes(s, list[..|list| - 1]);
    }
  }

  /** Completing one more run closes the one attempt that awaits it, if any does. */
  lemma CompletedRecordOf(s: System, t: System, run: ProbeRun, id: Uuid)
    requires RecordsOk(s) && Linked(s, run) && id in s.records && id in t.records
    requires t.records[id] == s.records[id] ||
      (!t.records[id].state.Verifying? && !Awaiting(s.records[id], run.id) && SameLinks(s.records[id], t.records[id]))
    requires run.remediationId == Some(id) ==> t.records.Keys == s.records.Keys
    ensures id in Completed(t, run).records
    ensures Completed(t, run).records[id] ==
      if t.records[id] == s.records[id] && Awaiting(s.records[id], run.id)
      then CompletedRecord(s.records[id], |s.records[id].attempts| - 1, run) else t.records[id]
  {
    hide Later, VerifyRemediation;
    var r := s.records[id];
    assert Lifecycle(r);
    assert Awaiting(r, run.id) ==> run.id in s.issued && s.issued[run.id] == Some(id);
    if run.remediationId == Some(id) {
      assert HasProbe(r, run.id);
      var i := Position(r, run.id);
      assert HasProbe(t.records[id], run.id) by { assert t.records[id].attempts[i].probeId == run.id; }
      assert Position(t.records[id], run.id) == i;
      if r.attempts[i].Open() { OpenIsLast(r, i); }
    }
  }

  /** The same attempts, all of them closed. */
  ghost predicate SameLinks(a: Record, b: Record) {
    && |a.attempts| == |b.attempts|
    && forall i | 0 <= i < |a.attempts| :: b.attempts[i].probeId == a.attempts[i].probeId && !b.attempts[i].Open()
  }

  ghost function TakenRecord(s: System, list: seq<Uuid>, r: Record): Record {
    if r.state.Verifying? && r.attempts != [] && r.attempts[|r.attempts| - 1].probeId in list
       && r.attempts[|r.attempts| - 1].probeId in s.probes
    then CompletedRecord(r, |r.attempts| - 1, Derived(s.probes[r.attempts[|r.attempts| - 1].probeId]))
    else r
  }

  lemma {:induction false} TakenRecords(s: System, list: seq<Uuid>, id: Uuid)
    requires RecordsOk(s) && ProbesOk(s) && Selected(s, list) && id in s.records
    ensures TakeUpAll(s, list).records.Keys == s.records.Keys
    ensures TakeUpAll(s, list).records[id] == TakenRecord(s, list, s.records[id])
  {
    if list != [] {
      var front, p := list[..|list| - 1], list[|list| - 1];
      SelectedFront(s, list);
      TakenRecords(s, front, id);
      TakenProbes(s, front);
      TakenOneMore(s, front, p, id);
    }
  }

  lemma SelectedFront(s: System, list: seq<Uuid>)
    requires Selected(s, list) && list != []
    ensures var front, p := list[..|list| - 1], list[|list| - 1];
      && list == front + [p] && p !in front && Selected(s, front)
      && p in s.probes && s.probes[p].finishedAt.Some?
  {
    assert forall q | q in list[..|list| - 1] :: q in list;
  }

  lemma TakenOneMore(s: System, front: seq<Uuid>, p: Uuid, id: Uuid)
    requires RecordsOk(s) && ProbesOk(s) && Selected(s, front) && id in s.records
    requires p in s.probes && s.probes[p].finishedAt.Some? && p !in front
    requires var t := TakeUpAll(s, front);
      && t.records.Keys == s.records.Keys && t.records[id] == TakenRecord(s, front, s.records[id])
      && p in t.probes && t.probes[p] == s.probes[p]
    ensures var u := TakeUp(TakeUpAll(s, front), p);
      u.records.Keys == s.records.Keys && u.records[id] == TakenRecord(s, front + [p], s.records[id])
  {
    var t, run := TakeUpAll(s, front), Derived(s.probes[p]);
    var u := t.(probes := t.probes[p := run]);
    TakeUpIs(t, p);
    DerivedIsLinked(s, p);
    LifecycleOf(s, id);
    TakenIsSettled(s, front, p, s.records[id]);
    TakenMore(s, front, p, s.records[id]);
    CompletedKeys(u, run);
    hide RecordsOk, ProbesOk, Lifecycle, Linked, CompletedRecord, Derived, TakenRecord, SameLinks, Awaiting, Completed,
         TakeUp, TakeUpAll, Selected;
    CompletedRecordOf(s, u, run, id);
  }

  lemma TakeUpIs(s: System, p: Uuid)
    requires p in s.probes && s.probes[p].finishedAt.Some?
    ensures TakeUp(s, p) == Completed(s.(probes := s.probes[p := Derived(s.probes[p])]), Derived(s.probes[p]))
  {}

  lemma DerivedIsLinked(s: System, p: Uuid)
    requires ProbesOk(s) && p in s.probes
    ensures Linked(s, Derived(s.probes[p])) && Derived(s.probes[p]).id == p
  {
    LinkIgnoresFinish(s, s.probes[p], Derived(s.probes[p]));
  }

  lemma LifecycleOf(s: System, id: Uuid)
    requires RecordsOk(s) && id in s.records
    ensures Lifecycle(s.records[id]) && s.records[id].id == id
  {}

  lemma CompletedKeys(s: System, run: ProbeRun)
    ensures Completed(s, run).records.Keys == s.records.Keys
  {}

  lemma TakenMore(s: System, front: seq<Uuid>, p: Uuid, r: Record)
    requires p !in front && p in s.probes
    ensures TakenRecord(s, front + [p], r) ==
      if Awaiting(r, p) then CompletedRecord(r, |r.attempts| - 1, Derived(s.probes[p])) else TakenRecord(s, front, r)
    ensures Awaiting(r, p) ==> TakenRecord(s, front, r) == r
  {}

  lemma TakenIsSettled(s: System, front: seq<Uuid>, p: Uuid, r: Record)
    requires Lifecycle(r) && p !in front
    requires forall q | q in front :: q in s.probes && s.probes[q].finishedAt.Some?
    ensures TakenRecord(s, front, r) == r ||
      (!TakenRecord(s, front, r).state.Verifying? && !Awaiting(r, p) && SameLinks(r, TakenRecord(s, front, r)))
  {
    if TakenRecord(s, front, r) != r {
      VerdictsOnly(r.subject, Derived(s.probes[r.attempts[|r.attempts| - 1].probeId]));
    }
  }

  lemma LinkIgnoresFinish(s: System, run: ProbeRun, run': ProbeRun)
    requires Linked(s, run) && run'.Asked() == run.Asked()
    ensures Linked(s, run')
  {}

  // ---------- what a pass does to one probe and to one record ----------

  /** A verification that nothing but recovery will end: past its threshold, or already finished. */
  predicate Stuck(s: System, r: Record) {
    && r.state.Verifying? && r.attempts != []
    && var a := r.attempts[|r.attempts| - 1];
    if a.probeId in s.probes
    then s.probes[a.probeId].finishedAt.Some? || Overdue(s, s.probes[a.probeId])
    else s.now - a.requestedAt > START_GRACE
  }

  /** The thresholds: 30 seconds for a probe to be stored, three timeouts and 30 seconds for it to finish. */
  lemma StuckExactly(s: System, r: Record)
    requires Lifecycle(r) && r.state.Verifying?
    ensures var a := r.attempts[|r.attempts| - 1];
      Stuck(s, r) <==>
        if a.probeId !in s.probes then s.now > a.requestedAt + 30 * SECOND
        else s.probes[a.probeId].finishedAt.Some?
             || s.now > s.probes[a.probeId].startedAt + 3 * s.config.timeout + 30 * SECOND
  {}

  /** The pass gets as far as this record: it comes to its end, or takes up the record's run before it gives up. */
  predicate Reaches(s: System, list: seq<Uuid>, r: Record) {
    Taken(s, list) == list || exists i | 0 <= i < |Taken(s, list)| :: Awaiting(r, Taken(s, list)[i])
  }

  function PassedProbe(s: System, list: seq<Uuid>, run: ProbeRun): ProbeRun {
    if run.id in Taken(s, list) then Derived(RecoveredProbe(s, run)) else RecoveredProbe(s, run)
  }

  /** The closing transition recovery commits for a stuck record. */
  ghost function Closing(s: System, list: seq<Uuid>, r: Record): Transition
    requires Stuck(s, r)
  {
    var a := r.attempts[|r.attempts| - 1];
    if a.probeId in s.probes then
      var p := PassedProbe(s, list, s.probes[a.probeId]);
      CloseLast(VerifyRemediation(r.subject, p), p.finishedAt.value, Some(p))
    else
      CloseLast(Inconclusive, s.now, None)
  }

  lemma MarkKeepsStore(s: System)
    requires RecordsOk(s) && ProbesOk(s)
    ensures RecordsOk(MarkOverdue(s)) && ProbesOk(MarkOverdue(s))
  {
    hide Lifecycle;
    var m := MarkOverdue(s);
    forall p | p in m.probes ensures m.probes[p].id == p && Linked(m, m.probes[p]) {
      LinkIgnoresFinish(m, s.probes[p], m.probes[p]);
    }
  }

  lemma TakenSelected(s: System, list: seq<Uuid>)
    requires Selected(MarkOverdue(s), list)
    ensures Selected(MarkOverdue(s), Taken(s, list)) && (Pass(s, list).0 <==> Taken(s, list) == list)
    ensures Pass(s, list).1 ==
      if Pass(s, list).0
      then WithRecoveredRecords(TakeUpAll(MarkOverdue(s), list))
      else TakeUpAll(MarkOverdue(s), Taken(s, list))
  {
    var m := MarkOverdue(s);
    assert forall p | p in Taken(s, list) :: p in list;
    assert list[..|list|] == list;
  }

  /** An overdue run is marked interrupted, even by a pass that gives up; a taken one gets its evidence; others stay. */
  lemma PassProbe(s: System, list: seq<Uuid>, p: Uuid)
    requires ProbesOk(s) && Selected(MarkOverdue(s), list) && p in s.probes
    ensures var t := Pass(s, list).1;
      && p in t.probes && t.probes[p] == PassedProbe(s, list, s.probes[p])
      && (t.probes[p].finishedAt.None? <==> s.probes[p].finishedAt.None? && !Overdue(s, s.probes[p]))
  {
    TakenSelected(s, list);
    TakenIsPassed(s, list, p);
    hide TakeUpAll, Taken, FirstUnderivable, Selected;
  }

  lemma PassKeys(s: System, list: seq<Uuid>)
    requires RecordsOk(s) && ProbesOk(s) && Selected(MarkOverdue(s), list)
    ensures var t := Pass(s, list).1;
      && t.records.Keys == s.records.Keys && t.probes.Keys == s.probes.Keys
      && t == s.(records := t.records, probes := t.probes)
  {
    TakenSelected(s, list);
    MarkKeepsStore(s);
    TakenProbes(MarkOverdue(s), Taken(s, list));
    hide RecordsOk, ProbesOk, Selected;
    TakenKeys(MarkOverdue(s), Taken(s, list));
  }

  lemma {:induction false} TakenKeys(s: System, list: seq<Uuid>)
    ensures TakeUpAll(s, list).records.Keys == s.records.Keys
  {
    if list != [] { TakenKeys(s, list[..|list| - 1]); }
  }

  /** A stuck record the pass reaches is closed by exactly one transition; every other record is left alone. */
  lemma PassRecord(s: System, list: seq<Uuid>, id: Uuid)
    requires RecordsOk(s) && ProbesOk(s) && Selected(MarkOverdue(s), list) && id in s.records
    ensures id in Pass(s, list).1.records
    ensures var r, r' := s.records[id], Pass(s, list).1.records[id];
      if Stuck(s, r) && Reaches(s, list, r)
      then Enabled(r, Closing(s, list, r)) && r' == Fire(r, Closing(s, list, r)) && !r'.state.Verifying?
      else r' == r
  {
    MarkKeepsStore(s);
    TakenSelected(s, list);
    PassKeys(s, list);
    LifecycleOf(s, id);
    AwaitedIsOwn(s, id);
    var m := MarkOverdue(s);
    var t := TakeUpAll(m, Taken(s, list));
    TakenRecords(m, Taken(s, list), id);
    TakenProbes(m, Taken(s, list));
    forall p | p in s.probes ensures p in t.probes && t.probes[p] == PassedProbe(s, list, s.probes[p]) {
      TakenIsPassed(s, list, p);
    }
    hide TakeUpAll, Taken, RecordsOk, ProbesOk, Selected, Pass, Stuck, Reaches, Closing, Enabled, Fire, PassedProbe,
         TakenRecord, RecoveredRecord, OwnRun;
    PassedRecord(s, list, id, t);
  }

  lemma TakenIsPassed(s: System, list: seq<Uuid>, p: Uuid)
    requires ProbesOk(s) && Selected(MarkOverdue(s), list) && p in s.probes
    ensures var t := TakeUpAll(MarkOverdue(s), Taken(s, list));
      p in t.probes && t.probes[p] == PassedProbe(s, list, s.probes[p])
  {
    TakenSelected(s, list);
    TakenProbes(MarkOverdue(s), Taken(s, list));
    hide TakeUpAll, Taken, FirstUnderivable, Selected;
  }

  /** The stored run of a record's attempt checks the record's own connection. */
  lemma AwaitedIsOwn(s: System, id: Uuid)
    requires RecordsOk(s) && ProbesOk(s) && id in s.records
    ensures OwnRun(s, s.records[id])
  {
    hide Lifecycle;
  }

  ghost predicate OwnRun(s: System, r: Record) {
    forall p | p in s.probes && Awaiting(r, p) :: OfEndpoint(r.subject, s.probes[p])
  }

  /** The closed form of the taken-up store decides what becomes of the record. */
  lemma PassedRecord(s: System, list: seq<Uuid>, id: Uuid, t: System)
    requires ProbesOk(s) && id in s.records && Lifecycle(s.records[id]) && Selected(MarkOverdue(s), Taken(s, list))
    requires OwnRun(s, s.records[id])
    requires id in t.records && t.records[id] == TakenRecord(MarkOverdue(s), Taken(s, list), s.records[id])
    requires t.now == s.now && t.probes.Keys == s.probes.Keys
    requires forall p | p in s.probes :: t.probes[p] == PassedProbe(s, list, s.probes[p])
    ensures var r := s.records[id];
      var r' := if Taken(s, list) == list then RecoveredRecord(t, t.records[id]) else t.records[id];
      if Stuck(s, r) && Reaches(s, list, r)
      then Enabled(r, Closing(s, list, r)) && r' == Fire(r, Closing(s, list, r)) && !r'.state.Verifying?
      else r' == r
  {
    hide Later, Taken, FirstUnderivable, VerifyRemediation, ProbesOk, Selected, TakeUpAll, MarkOverdue;
    var r := s.records[id];
    if r.state.Verifying? {
      var p := r.attempts[|r.attempts| - 1].probeId;
      assert Taken(s, list) != list ==> (Reaches(s, list, r) <==> p in Taken(s, list));
      TakenAreFinished(s, list);
      if p in s.probes {
        assert s.probes[p].id == p by { StoredId(s, p); }
        VerdictsOnly(r.subject, PassedProbe(s, list, s.probes[p]));
        TakenRecordIs(s, list, r);
      }
    }
  }

  lemma TakenAreFinished(s: System, list: seq<Uuid>)
    requires Selected(MarkOverdue(s), Taken(s, list))
    ensures forall p | p in Taken(s, list) :: p in s.probes && RecoveredProbe(s, s.probes[p]).finishedAt.Some?
  {}

  lemma StoredId(s: System, p: Uuid)
    requires ProbesOk(s) && p in s.probes
    ensures s.probes[p].id == p
  {}

  lemma TakenRecordIs(s: System, list: seq<Uuid>, r: Record)
    requires r.state.Verifying? && r.attempts != []
    requires var p := r.attempts[|r.attempts| - 1].probeId; p in s.probes && s.probes[p].id == p
    ensures var p := r.attempts[|r.attempts| - 1].probeId;
      TakenRecord(MarkOverdue(s), Taken(s, list), r)
      == if p in Taken(s, list) then CompletedRecord(r, |r.attempts| - 1, PassedProbe(s, list, s.probes[p])) else r
  {
    hide Taken;
  }

  // ---------- a pass among other clients ----------

  /** The invariant without the promise that every stored run's asset is known. */
  ghost predicate Sound(s: System) { RecordsOk(s) && ProbesOk(s) && ClientsOk(s) && SlotsOk(s) }

  lemma PassGrows(s: System, list: seq<Uuid>)
    requires RecordsOk(s) && ProbesOk(s) && Selected(MarkOverdue(s), list)
    ensures Grows(s, Pass(s, list).1)
  {
    hide Pass, Taken, RecordsOk, ProbesOk, Overdue, Selected, Later, ProbesEvolve, MarkOverdue, Lifecycle;
    PassKeys(s, list);
    forall id | id in s.records ensures Later(s.records[id], Pass(s, list).1.records[id]) {
      PassedIsLater(s, list, id);
    }
    PassedProbesEvolve(s, list);
  }

  lemma PassedProbesEvolve(s: System, list: seq<Uuid>)
    requires ProbesOk(s) && Selected(MarkOverdue(s), list)
    ensures ProbesEvolve(s, Pass(s, list).1)
  {
    hide Pass, Taken, ProbesOk, Selected, MarkOverdue;
    forall p | p in s.probes { PassProbe(s, list, p); }
  }

  lemma PassedIsLater(s: System, list: seq<Uuid>, id: Uuid)
    requires RecordsOk(s) && ProbesOk(s) && Selected(MarkOverdue(s), list) && id in s.records
    ensures id in Pass(s, list).1.records
    ensures Later(s.records[id], Pass(s, list).1.records[id]) && Lifecycle(Pass(s, list).1.records[id])
    ensures Pass(s, list).1.records[id].id == id
    ensures forall i | 0 <= i < |Pass(s, list).1.records[id].attempts| ::
      && i < |s.records[id].attempts|
      && Pass(s, list).1.records[id].attempts[i].probeId == s.records[id].attempts[i].probeId
  {
    PassRecord(s, list, id);
    LifecycleOf(s, id);
    var r := s.records[id];
    LaterReflexive(r);
    hide Pass, RecordsOk, ProbesOk, Selected, Reaches, Closing;
    if Stuck(s, r) && Reaches(s, list, r) {
      FireIsLater(r, Closing(s, list, r));
      FireKeepsLifecycle(r, Closing(s, list, r));
    }
  }

  /** A pass, finished or given up, keeps everything that the other clients rely on. */
  lemma PassKeepsInv(s: System, list: seq<Uuid>)
    requires Sound(s) && Selected(MarkOverdue(s), list)
    ensures Sound(Pass(s, list).1) && (AssetsOk(s) ==> AssetsOk(Pass(s, list).1))
  {
    PassKeys(s, list);
    PassGrows(s, list);
    PassKeepsRecords(s, list);
    PassKeepsProbes(s, list);
    SchedulersUnstored(s);
    hide Pass, RecordsOk, ProbesOk, Grows, Selected, MarkOverdue, ClientOk;
    GrowthKeepsClients(s, Pass(s, list).1);
    assert Holders(Pass(s, list).1) == Holders(s);
  }

  lemma PassKeepsProbes(s: System, list: seq<Uuid>)
    requires RecordsOk(s) && ProbesOk(s) && Selected(MarkOverdue(s), list) && Grows(s, Pass(s, list).1)
    ensures ProbesOk(Pass(s, list).1) && (AssetsOk(s) ==> AssetsOk(Pass(s, list).1))
  {
    hide Later, Lifecycle, Linked, Selected, RecordsOk;
    var t := Pass(s, list).1;
    PassKeys(s, list);
    forall p | p in t.probes ensures t.probes[p].id == p && Linked(t, t.probes[p]) {
      PassProbe(s, list, p);
      GrowthKeepsLink(s, t, s.probes[p]);
      LinkIgnoresFinish(t, s.probes[p], t.probes[p]);
    }
    forall p, q | p in t.probes && q in t.probes && p != q
        && t.probes[p].finishedAt.None? && t.probes[q].finishedAt.None?
      ensures t.probes[p].target != t.probes[q].target
    {
      PassProbe(s, list, p);
      PassProbe(s, list, q);
    }
    forall p | p in t.probes ensures t.probes[p].assetId == s.probes[p].assetId { PassProbe(s, list, p); }
  }

  // ---------- the measure ----------

  ghost function OpenRecords(s: System): set<Uuid> { set id | id in s.records && s.records[id].state.Verifying? }

  ghost function UnfinishedProbes(s: System): set<Uuid> { set p | p in s.probes && s.probes[p].finishedAt.None? }

  /** Open attempts plus unfinished runs. */
  ghost function Work(s: System): nat { |OpenRecords(s)| + |UnfinishedProbes(s)| }

  /** The records and the runs that a pass over `list` ends. */
  ghost function Ended(s: System, list: seq<Uuid>): set<Uuid> {
    set id | id in s.records && Stuck(s, s.records[id]) && Reaches(s, list, s.records[id])
  }

  ghost function OverdueProbes(s: System): set<Uuid> { set p | p in s.probes && Overdue(s, s.probes[p]) }

  /** Exactly the stuck records that were reached and the overdue runs are no longer open work. */
  lemma PassShrinks(s: System, list: seq<Uuid>)
    requires RecordsOk(s) && ProbesOk(s) && Selected(MarkOverdue(s), list)
    ensures OpenRecords(Pass(s, list).1) == OpenRecords(s) - Ended(s, list)
    ensures UnfinishedProbes(Pass(s, list).1) == UnfinishedProbes(s) - OverdueProbes(s)
  {
    hide Pass, Stuck, Reaches, Overdue, RecordsOk, ProbesOk, Selected, MarkOverdue, Closing, Fire, Enabled;
    PassKeys(s, list);
    forall id | id in s.records
      ensures Pass(s, list).1.records[id].state.Verifying?
        <==> s.records[id].state.Verifying? && !(Stuck(s, s.records[id]) && Reaches(s, list, s.records[id]))
    {
      PassRecord(s, list, id);
    }
    forall p | p in s.probes
      ensures Pass(s, list).1.probes[p].finishedAt.None? <==> s.probes[p].finishedAt.None? && !Overdue(s, s.probes[p])
    {
      PassProbe(s, list, p);
    }
  }

  lemma FewerLeft(a: set<Uuid>, b: set<Uuid>)
    requires b <= a
    ensures |a - b| == |a| - |b| && (b != {} ==> |b| > 0)
  {
    assert a == (a - b) + b;
  }

  /** Only open records and unfinished runs are ended. */
  lemma EndedIsOpen(s: System, list: seq<Uuid>)
    ensures Ended(s, list) <= OpenRecords(s) && OverdueProbes(s) <= UnfinishedProbes(s)
  {
    hide Reaches;
  }

  /**
    Each pass never adds work, and strictly decreases it while it reaches anything stuck; a finished one is
    idempotent.
   */
  lemma PassDecreasesWork(s: System, list: seq<Uuid>)
    requires RecordsOk(s) && ProbesOk(s) && Selected(MarkOverdue(s), list)
    ensures Work(Pass(s, list).1) <= Work(s)
    ensures Ended(s, list) != {} || OverdueProbes(s) != {} ==> Work(Pass(s, list).1) < Work(s)
    ensures Pass(s, list).0 ==> Pass(Pass(s, list).1, list) == (true, Pass(s, list).1)
  {
    if Pass(s, list).0 { PassTwice(s, list); }
    PassShrinks(s, list);
    EndedIsOpen(s, list);
    hide *;
    FewerLeft(OpenRecords(s), Ended(s, list));
    FewerLeft(UnfinishedProbes(s), OverdueProbes(s));
    WorkIs(s);
    WorkIs(Pass(s, list).1);
  }

  lemma WorkIs(s: System)
    ensures Work(s) == |OpenRecords(s)| + |UnfinishedProbes(s)|
  {}

  lemma NothingLeftOf(s: System, list: seq<Uuid>, t: System, p: Uuid)
    requires p in s.probes && p in t.probes && t.probes[p] == PassedProbe(s, list, s.probes[p])
    requires t.now == s.now && t.config == s.config && s.probes[p].id == p && Taken(s, list) == list
    requires p in list ==> RecoveredProbe(s, s.probes[p]).finishedAt.Some?
    ensures !Overdue(t, t.probes[p]) && (p in list ==> t.probes[p].finishedAt.Some? && !NeedsEvidence(t.probes[p]))
  {
    hide Taken;
  }

  lemma NothingLeft(s: System, list: seq<Uuid>, p: Uuid)
    requires RecordsOk(s) && ProbesOk(s) && Selected(MarkOverdue(s), list) && Pass(s, list).0 && p in s.probes
    ensures var t := Pass(s, list).1;
      && p in t.probes && !Overdue(t, t.probes[p])
      && (p in list ==> t.probes[p].finishedAt.Some? && !NeedsEvidence(t.probes[p]))
  {
    PassKeys(s, list);
    TakenSelected(s, list);
    TakenAreFinished(s, list);
    StoredId(s, p);
    PassProbe(s, list, p);
    hide Pass, RecordsOk, ProbesOk, Taken, Selected, Overdue, NeedsEvidence, PassedProbe, MarkOverdue, TakeUpAll;
    NothingLeftOf(s, list, Pass(s, list).1, p);
  }

  /** After a finished pass there is nothing left to mark and nothing left to derive. */
  lemma PassLeavesNothing(s: System, list: seq<Uuid>)
    requires RecordsOk(s) && ProbesOk(s) && Selected(MarkOverdue(s), list) && Pass(s, list).0
    ensures var t := Pass(s, list).1;
      && RecordsOk(t) && ProbesOk(t) && MarkOverdue(t) == t && Selected(t, list) && Taken(t, list) == list
      && (forall p | p in t.probes :: !Overdue(t, t.probes[p]) && (p in list ==> !NeedsEvidence(t.probes[p])))
  {
    hide *;
    var t := Pass(s, list).1;
    PassKeys(s, list);
    PassGrows(s, list);
    PassKeepsProbes(s, list);
    PassKeepsRecords(s, list);
    forall p | p in t.probes
      ensures !Overdue(t, t.probes[p]) && (p in list ==> t.probes[p].finishedAt.Some? && !NeedsEvidence(t.probes[p]))
    {
      NothingLeft(s, list, p);
    }
    MarksNothing(t);
    SelectedLater(s, t, list);
    NothingUnderivable(t, list);
    WholeIsTaken(t, list);
  }

  lemma SelectedLater(s: System, t: System, list: seq<Uuid>)
    requires Selected(MarkOverdue(s), list) && t.probes.Keys == s.probes.Keys
    requires forall p | p in t.probes && p in list :: t.probes[p].finishedAt.Some?
    ensures Selected(t, list) && forall p | p in list :: p in t.probes
  {}

  lemma MarksNothing(s: System)
    requires forall p | p in s.probes :: !Overdue(s, s.probes[p])
    ensures MarkOverdue(s) == s
  {
    hide Overdue;
    assert MarkOverdue(s).probes == s.probes;
  }

  lemma WholeIsTaken(s: System, list: seq<Uuid>)
    requires FirstUnderivable(MarkOverdue(s), list) == |list|
    ensures Taken(s, list) == list
  {}

  lemma PassTwice(s: System, list: seq<Uuid>)
    requires RecordsOk(s) && ProbesOk(s) && Selected(MarkOverdue(s), list) && Pass(s, list).0
    ensures Pass(Pass(s, list).1, list) == (true, Pass(s, list).1)
  {
    hide *;
    var t := Pass(s, list).1;
    PassLeavesNothing(s, list);
    TakenSelected(t, list);
    PassKeys(s, list);
    PassKeys(t, list);
    forall p | p in t.probes ensures Pass(t, list).1.probes[p] == t.probes[p] { PassedProbeStays(s, list, p); }
    forall id | id in t.records ensures Pass(t, list).1.records[id] == t.records[id] { PassedStays(s, list, id); }
    assert Pass(t, list).1.records == t.records && Pass(t, list).1.probes == t.probes;
  }

  lemma PassedProbeStays(s: System, list: seq<Uuid>, p: Uuid)
    requires RecordsOk(s) && ProbesOk(s) && Selected(MarkOverdue(s), list) && Pass(s, list).0
    requires p in Pass(s, list).1.probes
    ensures var t := Pass(s, list).1;
      p in Pass(t, list).1.probes && Pass(t, list).1.probes[p] == t.probes[p]
  {
    var t := Pass(s, list).1;
    PassLeavesNothing(s, list);
    hide Pass, Overdue, Taken;
    PassProbe(t, list, p);
  }

  lemma PassedStays(s: System, list: seq<Uuid>, id: Uuid)
    requires RecordsOk(s) && ProbesOk(s) && Selected(MarkOverdue(s), list) && Pass(s, list).0 && id in s.records
    ensures var t := Pass(s, list).1;
      id in t.records && id in Pass(t, list).1.records && Pass(t, list).1.records[id] == t.records[id]
  {
    var t := Pass(s, list).1;
    PassLeavesNothing(s, list);
    TakenSelected(s, list);
    PassKeys(s, list);
    PassRecord(s, list, id);
    PassRecord(t, list, id);
    forall p | p in s.probes { PassProbe(s, list, p); }
    hide Pass, RecordsOk, ProbesOk, Selected, MarkOverdue, Taken, Overdue, Closing, Fire, Enabled;
    StillFree(s, t, list, id);
  }

  lemma PassKeepsRecords(s: System, list: seq<Uuid>)
    requires RecordsOk(s) && ProbesOk(s) && Selected(MarkOverdue(s), list)
    ensures RecordsOk(Pass(s, list).1)
  {
    PassKeys(s, list);
    hide Pass, Lifecycle, Selected;
    forall id | id in s.records { PassedIsLater(s, list, id); }
  }

  lemma NothingUnderivable(s: System, list: seq<Uuid>)
    requires forall p | p in list :: p in s.probes && !NeedsEvidence(s.probes[p])
    ensures FirstUnderivable(s, list) == |list|
  {
    assert forall i | 0 <= i < |list| :: list[i] in list;
  }

  /** What a finished pass left open is not stuck afterwards. */
  lemma StillFree(s: System, t: System, list: seq<Uuid>, id: Uuid)
    requires id in s.records && id in t.records && t.now == s.now && t.config == s.config
    requires t.probes.Keys == s.probes.Keys
    requires forall p | p in s.probes ::
      t.probes[p].finishedAt.None? <==> s.probes[p].finishedAt.None? && !Overdue(s, s.probes[p])
    requires forall p | p in t.probes :: !Overdue(t, t.probes[p])
    requires if Stuck(s, s.records[id]) then !t.records[id].state.Verifying? else t.records[id] == s.records[id]
    ensures !Stuck(t, t.records[id])
  {}

  // ---------- recovery after a crash ----------

  /** The process stops at any point, losing every client, and starts again `d` later. */
  function Restart(s: System, d: nat): System {
    s.(clients := map[], free := s.config.slots, now := s.now + d)
  }

  /** Every open attempt and every unfinished run has passed its threshold. */
  ghost predicate ThresholdsPassed(s: System) {
    && (forall id, i | id in s.records && 0 <= i < |s.records[id].attempts| && s.records[id].attempts[i].Open() ::
          s.now - s.records[id].attempts[i].requestedAt > START_GRACE)
    && (forall p | p in s.probes && s.probes[p].finishedAt.None? ::
          s.now - s.probes[p].startedAt > InterruptedAfter(s.config))
  }

  lemma RestartInv(s: System, d: nat)
    requires Inv(s)
    ensures Inv(Restart(s, d))
  {}

  /** Where every stored run's asset is known, a pass comes to its end. */
  lemma KnownAssetsSuffice(s: System, list: seq<Uuid>)
    requires AssetsOk(s) && Selected(MarkOverdue(s), list)
    ensures Pass(s, list).0 && Taken(s, list) == list
  {
    assert forall p | p in MarkOverdue(s).probes :: !Underivable(MarkOverdue(s), p);
    assert list[..|list|] == list;
  }

  /**
    From any crash point of any run of the protocol, one pass after the thresholds comes to its end and ends every
    verification and every run, each with the one transition its evidence supports.
   */
  lemma RecoveryIsComplete(config: Config, s: System, d: nat, list: seq<Uuid>)
    requires Reachable(config, s) && ThresholdsPassed(Restart(s, d)) && Selected(MarkOverdue(Restart(s, d)), list)
    ensures Pass(Restart(s, d), list).0
    ensures var t := Pass(Restart(s, d), list).1;
      && Work(t) == 0 && Inv(t)
      && (forall id | id in t.records :: !t.records[id].state.Verifying?)
      && (forall p | p in t.probes :: t.probes[p].finishedAt.Some?)
  {
    var c := Restart(s, d);
    ReachableInv(config, s);
    RestartInv(s, d);
    InvParts(c);
    KnownAssetsSuffice(c, list);
    EverythingEnds(c, list);
    hide Inv, Pass, Selected, Taken, ThresholdsPassed, RecordsOk, ProbesOk, ClientsOk, SlotsOk, AssetsOk, Restart,
         Reachable, Ended, OverdueProbes;
    PassShrinks(c, list);
    PassKeepsInv(c, list);
    var t := Pass(c, list).1;
    InvParts(t);
    assert OpenRecords(t) == {} && UnfinishedProbes(t) == {};
    forall id | id in t.records ensures !t.records[id].state.Verifying? { assert id !in OpenRecords(t); }
    forall p | p in t.probes ensures t.probes[p].finishedAt.Some? { assert p !in UnfinishedProbes(t); }
  }

  lemma EverythingEnds(s: System, list: seq<Uuid>)
    requires RecordsOk(s) && ThresholdsPassed(s) && Taken(s, list) == list
    ensures OpenRecords(s) - Ended(s, list) == {} && UnfinishedProbes(s) - OverdueProbes(s) == {}
  {
    hide Later, Taken;
    forall id | id in OpenRecords(s) ensures id in Ended(s, list) { LifecycleOf(s, id); }
  }

  lemma InvParts(s: System)
    ensures Inv(s) <==> Sound(s) && AssetsOk(s)
  {}

  // ---------- a pass that gives up ----------

  ghost predicate AllResolved(s: System, list: seq<Uuid>) {
    forall id | id in s.records && Stuck(s, s.records[id]) ::
      id in Pass(s, list).1.records && !Pass(s, list).1.records[id].state.Verifying?
  }

  /** A stuck record leaves Verifying exactly when the pass reaches it. */
  lemma PassResolvesExactly(s: System, list: seq<Uuid>)
    requires RecordsOk(s) && ProbesOk(s) && Selected(MarkOverdue(s), list)
    ensures Pass(s, list).0 <==> forall p | p in list :: !Underivable(MarkOverdue(s), p)
    ensures AllResolved(s, list)
      <==> forall id | id in s.records && Stuck(s, s.records[id]) :: Reaches(s, list, s.records[id])
  {
    TakenSelected(s, list);
    ListIsTaken(MarkOverdue(s), list);
    forall id | id in s.records && Stuck(s, s.records[id])
      ensures id in Pass(s, list).1.records
      ensures !Pass(s, list).1.records[id].state.Verifying? <==> Reaches(s, list, s.records[id])
    {
      PassRecord(s, list, id);
    }
    hide Pass, Stuck, Reaches, RecordsOk, ProbesOk, Taken;
  }

  lemma ListIsTaken(s: System, list: seq<Uuid>)
    ensures list[..FirstUnderivable(s, list)] == list <==> forall p | p in list :: !Underivable(s, p)
  {
    assert list[..|list|] == list;
    assert forall i | 0 <= i < |list| :: list[i] in list;
  }

  /**
    When some stuck record can only be ended by the last part of the pass, because its probe was never stored, a pass
    resolves every stuck record if and only if each selected run that still needs its evidence is of a known asset.
   */
  lemma RecoveryNeedsEveryAsset(s: System, list: seq<Uuid>, id: Uuid)
    requires RecordsOk(s) && ProbesOk(s) && Selected(MarkOverdue(s), list)
    requires id in s.records && Stuck(s, s.records[id]) && NeverStarted(s, s.records[id])
    ensures AllResolved(s, list) <==> forall p | p in list :: !Underivable(MarkOverdue(s), p)
  {
    hide *;
    PassResolvesExactly(s, list);
    TakenSelected(s, list);
    ReachedLast(s, list, s.records[id]);
    if Taken(s, list) == list {
      forall i | i in s.records && Stuck(s, s.records[i]) { WholeReaches(s, list, s.records[i]); }
    }
  }

  lemma ReachedLast(s: System, list: seq<Uuid>, r: Record)
    requires Selected(MarkOverdue(s), Taken(s, list)) && NeverStarted(s, r)
    ensures Reaches(s, list, r) <==> Taken(s, list) == list
  {
    assert forall p | p in Taken(s, list) :: p in s.probes;
  }

  lemma WholeReaches(s: System, list: seq<Uuid>, r: Record)
    requires Taken(s, list) == list
    ensures Reaches(s, list, r)
  {}

  predicate NeverStarted(s: System, r: Record) { r.attempts != [] && r.attempts[|r.attempts| - 1].probeId !in s.probes }

  /** A finished run without evidence, of an asset nobody knows, and a verification whose probe was never stored. */
  ghost predicate Jammed(s: System, bad: Uuid, id: Uuid) {
    && RecordsOk(s) && ProbesOk(s)
    && Underivable(s, bad) && s.probes[bad].finishedAt.Some?
    && id in s.records && s.records[id].state.Verifying? && NeverStarted(s, s.records[id])
  }

  /**
    Such a pass gives up, and changes neither the run nor the record: the next one, whenever it comes, does the same.
   */
  lemma JamStays(s: System, list: seq<Uuid>, bad: Uuid, id: Uuid, d: nat)
    requires Jammed(s, bad, id) && Selected(MarkOverdue(s), list) && bad in list
    ensures !Pass(s, list).0 && id in Pass(s, list).1.records && Pass(s, list).1.records[id] == s.records[id]
    ensures Jammed(Pass(s, list).1.(now := Pass(s, list).1.now + d), bad, id)
  {
    hide Pass, Selected, RecordsOk, ProbesOk, MarkOverdue, NeverStarted;
    JamKeepsRecord(s, list, bad, id);
    JamKeepsRun(s, list, bad);
    JamKeepsStore(s, list);
    ClockKeepsStore(Pass(s, list).1, d);
    JamCarriesOver(s, Pass(s, list).1, bad, id, d);
  }

  lemma JamCarriesOver(s: System, t: System, bad: Uuid, id: Uuid, d: nat)
    requires Jammed(s, bad, id) && RecordsOk(t.(now := t.now + d)) && ProbesOk(t.(now := t.now + d))
    requires t == s.(records := t.records, probes := t.probes) && t.probes.Keys == s.probes.Keys
    requires id in t.records && t.records[id] == s.records[id] && t.probes[bad] == s.probes[bad]
    ensures Jammed(t.(now := t.now + d), bad, id)
  {
    hide RecordsOk, ProbesOk;
  }

  lemma JamKeepsStore(s: System, list: seq<Uuid>)
    requires RecordsOk(s) && ProbesOk(s) && Selected(MarkOverdue(s), list)
    ensures var t := Pass(s, list).1;
      && RecordsOk(t) && ProbesOk(t) && t.probes.Keys == s.probes.Keys
      && t == s.(records := t.records, probes := t.probes)
  {
    hide Pass, RecordsOk, ProbesOk, Selected, Grows;
    PassKeys(s, list);
    PassGrows(s, list);
    PassKeepsRecords(s, list);
    PassKeepsProbes(s, list);
  }

  lemma JamKeepsRecord(s: System, list: seq<Uuid>, bad: Uuid, id: Uuid)
    requires Jammed(s, bad, id) && Selected(MarkOverdue(s), list) && bad in list
    ensures !Pass(s, list).0 && id in Pass(s, list).1.records && Pass(s, list).1.records[id] == s.records[id]
  {
    PassRecord(s, list, id);
    TakenSelected(s, list);
    TakenIsDerivable(s, list, bad);
    hide Pass, Selected, RecordsOk, ProbesOk, MarkOverdue, Taken, Closing, Fire, Enabled;
    NeverReached(s, list, id);
  }

  lemma JamKeepsRun(s: System, list: seq<Uuid>, bad: Uuid)
    requires ProbesOk(s) && Underivable(s, bad) && s.probes[bad].finishedAt.Some? && Selected(MarkOverdue(s), list)
    ensures bad in Pass(s, list).1.probes && Pass(s, list).1.probes[bad] == s.probes[bad]
  {
    PassProbe(s, list, bad);
    TakenIsDerivable(s, list, bad);
    hide Pass, Selected, MarkOverdue, Taken;
    StoredId(s, bad);
  }

  lemma TakenIsDerivable(s: System, list: seq<Uuid>, bad: Uuid)
    requires bad in s.probes && s.probes[bad].finishedAt.Some? && Underivable(s, bad)
    ensures Underivable(MarkOverdue(s), bad) && bad !in Taken(s, list)
  {}

  lemma NeverReached(s: System, list: seq<Uuid>, id: Uuid)
    requires Selected(MarkOverdue(s), Taken(s, list)) && Taken(s, list) != list
    requires id in s.records && NeverStarted(s, s.records[id])
    ensures !Reaches(s, list, s.records[id])
  {
    ReachedLast(s, list, s.records[id]);
  }

  lemma ClockKeepsStore(s: System, d: nat)
    requires RecordsOk(s) && ProbesOk(s)
    ensures RecordsOk(s.(now := s.now + d)) && ProbesOk(s.(now := s.now + d))
  {
    hide Lifecycle;
    forall p | p in s.probes ensures Linked(s.(now := s.now + d), s.probes[p]) { assert Linked(s, s.probes[p]); }
  }

  /** Any number of passes, each some time after the one before. */
  ghost function Passes(s: System, rounds: seq<(seq<Uuid>, nat)>): System {
    if rounds == [] then s
    else
      var t := Passes(s, rounds[..|rounds| - 1]);
      var u := Pass(t, rounds[|rounds| - 1].0).1;
      u.(now := u.now + rounds[|rounds| - 1].1)
  }

  /** Every round takes up the run, as it does while the run is among the recent ones. */
  ghost predicate Selects(s: System, rounds: seq<(seq<Uuid>, nat)>, bad: Uuid) {
    rounds == [] ||
    (&& Selects(s, rounds[..|rounds| - 1], bad) && bad in rounds[|rounds| - 1].0
     && Selected(MarkOverdue(Passes(s, rounds[..|rounds| - 1])), rounds[|rounds| - 1].0))
  }

  /** The verification never ends, however often and however late recovery runs. */
  lemma {:induction false} JamIsPermanent(s: System, rounds: seq<(seq<Uuid>, nat)>, bad: Uuid, id: Uuid)
    requires Jammed(s, bad, id) && Selects(s, rounds, bad)
    ensures Jammed(Passes(s, rounds), bad, id) && Passes(s, rounds).records[id] == s.records[id]
  {
    hide Jammed, Pass, Selected;
    if rounds != [] {
      var front, last := rounds[..|rounds| - 1], rounds[|rounds| - 1];
      JamIsPermanent(s, front, bad, id);
      JamStays(Passes(s, front), last.0, bad, id, last.1);
    }
  }
}
