/**
  The handlers and the state machine are one model: what the handlers rely on is what the other clients' actions do,
  and what a handler does undisturbed is a sequence of its client's actions.
 */
module RemediationRefinement {
  import opened Domain
  import opened RemediationRecord
  import opened RemediationProtocol
  import opened RemediationSafety
  import opened RemediationRuns
  import opened RemediationRecovery
  import opened RemediationService

  // ---------- what a handler relies on ----------

  function Actor(a: Action): Option<nat> {
    match a
    case Tick(_) => None
    case Discover(_) => None
    case Create(_) => None
    case BeginApply(c, _, _) => Some(c)
    case CommitApply(c, _) => Some(c)
    case BeginVerify(c, _, _) => Some(c)
    case CommitOpen(c, _, _) => Some(c)
    case BeginProbe(c, _) => Some(c)
    case Acquire(c) => Some(c)
    case ScheduleFails(c) => Some(c)
    case Reserve(c, _) => Some(c)
    case Conclude(c, _, _) => Some(c)
    case Persist(c) => Some(c)
    case Derive(c) => Some(c)
    case StoreEvidence(c) => Some(c)
    case ReadForCompletion(c) => Some(c)
    case CommitCompletion(c) => Some(c)
    case RecoverStale(c, _) => Some(c)
    case StoreInterruption(c) => Some(c)
    case RecoverFinished(c, _) => Some(c)
    case RecoverVerifying(c, _) => Some(c)
    case LookUpProbe(c) => Some(c)
    case CommitAbandon(c, _) => Some(c)
    case Crash(c) => Some(c)
  }

  /** Drawn identifiers are fresh, so nobody else draws `mine`. */
  predicate Draws(a: Action, mine: Uuid) {
    (a.CommitOpen? && a.probeId == mine) || (a.BeginProbe? && a.probeId == mine)
  }

  predicate Foreign(a: Action, me: nat, mine: Uuid) { Actor(a) != Some(me) && !Draws(a, mine) }

  /** No other handler is scheduling a probe under this id. */
  ghost predicate Mine(s: System, me: nat, mine: Uuid) {
    forall c | c in s.clients && c != me && s.clients[c].Scheduler() :: s.clients[c].probeId != mine
  }

  lemma ForeignKeepsIssued(s: System, a: Action, me: nat, mine: Uuid)
    requires CanDo(s, a) && Foreign(a, me, mine)
    ensures mine !in s.issued ==> mine !in Do(s, a).issued
  {
    hide Position, HasProbe, CompletedRecord, OpenedRecord, AppliedRecord, CloseInconclusive, TargetBusy, CasSucceeds,
         Openable, Interrupted, Overdue, NeedsEvidence, Evidenced, Initial, OwnerOf;
  }

  lemma ForeignKeepsProbes(s: System, a: Action, me: nat, mine: Uuid)
    requires CanDo(s, a) && Foreign(a, me, mine) && Mine(s, me, mine)
    ensures mine !in s.probes ==> mine !in Do(s, a).probes
  {
    hide Position, HasProbe, CompletedRecord, OpenedRecord, AppliedRecord, CloseInconclusive, TargetBusy, CasSucceeds,
         Openable, Interrupted, Overdue, NeedsEvidence, Evidenced, Initial, OwnerOf;
  }

  /** Nobody but `me` moved, and `me` is not scheduling. */
  ghost predicate OnlyMoves(s: System, t: System, me: nat, c: nat) {
    c in t.clients ==> if c == me then !t.clients[c].Scheduler() else c in s.clients && t.clients[c] == s.clients[c]
  }

  lemma ReadMoves(s: System, me: nat, c: nat)
    requires CanRead(s, me)
    ensures OnlyMoves(s, DoRead(s, me), me, c)
  {
    hide Position, HasProbe;
  }

  lemma CompleteMoves(s: System, me: nat, c: nat)
    requires CanComplete(s, me)
    ensures OnlyMoves(s, DoComplete(s, me), me, c)
  {
    hide CompletedRecord, CasSucceeds;
  }

  lemma LookUpMoves(s: System, me: nat, c: nat)
    requires CanLookUp(s, me)
    ensures OnlyMoves(s, DoLookUp(s, me), me, c)
  {}

  lemma AbandonMoves(s: System, me: nat, at: Time, c: nat)
    requires CanAbandon(s, me, at)
    ensures OnlyMoves(s, DoAbandon(s, me, at), me, c)
  {
    hide CloseInconclusive, CasSucceeds;
  }

  lemma OthersStayLater(s: System, a: Action, c: nat)
    requires CanDo(s, a) && AfterScheduling(a) && c in Do(s, a).clients
    ensures OnlyMoves(s, Do(s, a), Actor(a).value, c)
  {
    hide Evidenced, NeedsEvidence, DoRead, DoComplete, DoLookUp, DoAbandon, DoOpen, DoAcquire, DoFailSchedule,
         DoReserve, DoApply, CanReserve, Openable, Overdue, Interrupted, Initial, CanRead, CanComplete, CanLookUp,
         CanAbandon, CanOpen, CanApply;
    match a
    case ReadForCompletion(me) => ReadMoves(s, me, c);
    case CommitCompletion(me) => CompleteMoves(s, me, c);
    case LookUpProbe(me) => LookUpMoves(s, me, c);
    case CommitAbandon(me, at) => AbandonMoves(s, me, at, c);
    case _ =>
  }

  /** Only its own action changes a client, and a scheduler keeps the id it drew. */
  lemma OthersStay(s: System, a: Action, c: nat)
    requires CanDo(s, a) && c in Do(s, a).clients
    ensures Actor(a) != Some(c) ==> c in s.clients && Do(s, a).clients[c] == s.clients[c]
    ensures Actor(a) == Some(c) && Do(s, a).clients[c].Scheduler() ==>
      || (a.CommitOpen? && Do(s, a).clients[c].probeId == a.probeId)
      || (a.BeginProbe? && Do(s, a).clients[c].probeId == a.probeId)
      || (c in s.clients && s.clients[c].Scheduler() && s.clients[c].probeId == Do(s, a).clients[c].probeId)
  {
    if AfterScheduling(a) {
      OthersStayLater(s, a, c);
    } else {
      hide OpenedRecord, AppliedRecord, TargetBusy, CasSucceeds, Openable, Interrupted, Overdue, NeedsEvidence, Initial,
           OwnerOf, DoPersist, DoDerive, DoStoreEvidence, DoStoreInterruption, DoRead, DoComplete, DoLookUp, DoAbandon;
    }
  }

  lemma ForeignKeepsMine(s: System, a: Action, me: nat, mine: Uuid)
    requires CanDo(s, a) && Foreign(a, me, mine) && Mine(s, me, mine)
    ensures Mine(Do(s, a), me, mine)
  {
    hide Do, CanDo, Mine;
    var t := Do(s, a);
    forall c | c in t.clients && Actor(a) != Some(c) ensures c in s.clients && t.clients[c] == s.clients[c] {
      OthersStay(s, a, c);
    }
    if Actor(a).Some? && Actor(a).value in t.clients { OthersStay(s, a, Actor(a).value); }
    MineStays(s, t, a, me, mine);
  }

  lemma MineStays(s: System, t: System, a: Action, me: nat, mine: Uuid)
    requires Foreign(a, me, mine) && Mine(s, me, mine)
    requires forall c | c in t.clients && Actor(a) != Some(c) :: c in s.clients && t.clients[c] == s.clients[c]
    requires Actor(a).Some? && Actor(a).value in t.clients && t.clients[Actor(a).value].Scheduler() ==>
      var c := Actor(a).value;
      || (a.CommitOpen? && t.clients[c].probeId == a.probeId)
      || (a.BeginProbe? && t.clients[c].probeId == a.probeId)
      || (c in s.clients && s.clients[c].Scheduler() && s.clients[c].probeId == t.clients[c].probeId)
    ensures Mine(t, me, mine)
  {}

  lemma OpensAsDrawn(s: System, a: Action)
    requires CanDo(s, a) && EventOf(s, a).Fired? && EventOf(s, a).tr.OpenAttempt?
    ensures a.CommitOpen? && EventOf(s, a).tr.probeId == a.probeId
  {
    hide Position, HasProbe, CompletedRecord, OpenedRecord, AppliedRecord, CloseInconclusive, TargetBusy, CasSucceeds,
         Openable, Interrupted, Overdue, NeedsEvidence, Evidenced, Initial, OwnerOf;
  }

  lemma EffectKeepsAttempts(s: System, t: System, e: Event, mine: Uuid)
    requires Effect(s, t, e) && Unattempted(s, mine) && (e.Fired? && e.tr.OpenAttempt? ==> e.tr.probeId != mine)
    ensures Unattempted(t, mine)
  {}

  /** One action of another client is something the handlers allow for. */
  lemma ForeignStep(s: System, a: Action, me: nat, mine: Uuid)
    requires Inv(s) && CanDo(s, a) && Foreign(a, me, mine) && Mine(s, me, mine)
    ensures Inv(Do(s, a)) && Meanwhile(s, Do(s, a), mine) && Mine(Do(s, a), me, mine)
  {
    StepKeeps(s, a);
    GoodStepInv(s, a);
    ForeignKeepsIssued(s, a, me, mine);
    ForeignKeepsProbes(s, a, me, mine);
    ForeignKeepsMine(s, a, me, mine);
    if EventOf(s, a).Fired? && EventOf(s, a).tr.OpenAttempt? { OpensAsDrawn(s, a); }
    hide Inv, Do, CanDo, Grows, Effect, EventOf, Mine, Unattempted;
    if Unattempted(s, mine) { EffectKeepsAttempts(s, Do(s, a), EventOf(s, a), mine); }
  }

  /** What a handler sees of a state: everything but the other clients. */
  function Seen(s: System): System { s.(clients := map[]) }

  /** Whatever the others do between two storage calls of a handler is what `Interfere` allows. */
  lemma {:induction false} OthersOnlyInterfere(s: System, actions: seq<Action>, me: nat, mine: Uuid)
    requires Inv(s) && Mine(s, me, mine) && Steps(s, actions).Some?
    requires forall i | 0 <= i < |actions| :: Foreign(actions[i], me, mine)
    ensures var t := Steps(s, actions).value;
      && Inv(t) && Mine(t, me, mine)
      && RecordsOk(Seen(t)) && ProbesOk(Seen(t)) && Meanwhile(Seen(s), Seen(t), mine)
    decreases |actions|
  {
    hide Do, CanDo, Mine, Foreign;
    if actions == [] {
      SeenIsFaithful(s, s, mine);
    } else {
      var front, a := actions[..|actions| - 1], actions[|actions| - 1];
      assert forall i | 0 <= i < |front| :: Foreign(front[i], me, mine);
      OthersOnlyInterfere(s, front, me, mine);
      var mid := Steps(s, front).value;
      ForeignStep(mid, a, me, mine);
      hide Inv, Meanwhile, RecordsOk, ProbesOk, Seen;
      SeenIsFaithful(mid, Do(mid, a), mine);
      MeanwhileTransitive(Seen(s), Seen(mid), Seen(Do(mid, a)), mine);
    }
  }

  lemma SeenIsFaithful(s: System, t: System, mine: Uuid)
    requires Inv(t) && (s == t || Meanwhile(s, t, mine))
    ensures RecordsOk(Seen(t)) && ProbesOk(Seen(t)) && Meanwhile(Seen(s), Seen(t), mine)
  {
    hide Lifecycle;
    if s == t { RemediationService.GrowsReflexive(t); }
    hide Later;
    forall p | p in t.probes ensures Linked(Seen(t), t.probes[p]) { assert Linked(t, t.probes[p]); }
  }

  lemma MeanwhileTransitive(s: System, t: System, u: System, mine: Uuid)
    requires Meanwhile(s, t, mine) && Meanwhile(t, u, mine)
    ensures Meanwhile(s, u, mine)
  {
    GrowsTransitive(s, t, u);
    hide Grows, Unattempted;
  }

  // ---------- an undisturbed handler is a sequence of its client's actions ----------

  predicate By(actions: seq<Action>, c: nat) { forall i | 0 <= i < |actions| :: Actor(actions[i]) == Some(c) }

  /** One client's actions alone lead from `s` to `t`. */
  ghost predicate Alone(s: System, c: nat, t: System) {
    exists actions :: Steps(s, actions) == Some(t) && By(actions, c)
  }

  lemma AloneStays(s: System, c: nat)
    ensures Alone(s, c, s)
  {
    assert Steps(s, []) == Some(s) && By([], c);
  }

  lemma AloneThen(s: System, c: nat, t: System, a: Action)
    requires Alone(s, c, t) && CanDo(t, a) && Actor(a) == Some(c)
    ensures Alone(s, c, Do(t, a))
  {
    hide CanDo, Do;
    var actions :| Steps(s, actions) == Some(t) && By(actions, c);
    OneMoreStep(s, actions, a);
    assert By(actions + [a], c);
  }

  lemma AloneInTurn(s: System, c: nat, t: System, u: System)
    requires Alone(s, c, t) && Alone(t, c, u)
    ensures Alone(s, c, u)
  {
    hide CanDo, Do;
    var first :| Steps(s, first) == Some(t) && By(first, c);
    var rest :| Steps(t, rest) == Some(u) && By(rest, c);
    StepsConcat(s, first, rest);
    assert By(first + rest, c);
  }

  lemma AloneKeepsInv(s: System, c: nat, t: System)
    requires Inv(s) && Alone(s, c, t)
    ensures Inv(t)
  {
    hide Inv, CanDo, Do;
    var actions :| Steps(s, actions) == Some(t) && By(actions, c);
    StepsKeep(s, actions);
  }

  lemma IdIs(s: System, id: Uuid)
    requires Inv(s) && id in s.records
    ensures s.records[id].id == id
  {}

  /** A client that came and went leaves the others as they were. */
  lemma BackToIdle(s: System, c: nat, cl: Client)
    requires Idle(s, c)
    ensures s.clients[c := cl] - {c} == s.clients
  {}

  /** Marking a record applied: read a copy, write it back. A refusal writes nothing. */
  lemma ApplyIsARun(s: System, c: nat, id: Uuid, note: Option<string>)
    requires Inv(s) && Idle(s, c)
    ensures Alone(s, c, ApplySpec(s, id, note).1)
  {
    AloneStays(s, c);
    if ApplySpec(s, id, note).0.Ok? {
      IdIs(s, id);
      hide Inv, Alone;
      AloneThen(s, c, s, BeginApply(c, id, note));
      AloneThen(s, c, Do(s, BeginApply(c, id, note)), CommitApply(c, s.now));
      BackToIdle(s, c, Applying(s.records[id], note));
    }
  }

  /** Scheduling takes a slot and reserves, or ends the way a refused schedule ends. */
  lemma ScheduleIsARun(s: System, c: nat, link: Option<Record>, probeId: Uuid, env: Surroundings)
    requires c in s.clients && s.clients[c] == Scheduling(link, probeId)
    ensures var (refused, t) := ScheduleSpec(s, link, probeId, env);
      && (refused.None? ==> Alone(s, c, Put(t, c, Executing(NewRun(link, probeId, env, s.now)))))
      && (refused.Some? ==> t == s && Alone(s, c, DoFailSchedule(s, c)))
  {
    hide Alone, TargetBusy, Do, CanDo;
    AloneStays(s, c);
    FailsAtOnce(s, c);
    AloneThen(s, c, s, ScheduleFails(c));
    var run := NewRun(link, probeId, env, s.now);
    if s.free > 0 && run.assetId in s.assets && !Blocked(s, run) {
      ReservesSlot(s, c, link, run);
      AloneThen(s, c, s, Acquire(c));
      AloneThen(s, c, DoAcquire(s, c), Reserve(c, run));
    }
  }

  lemma FailsAtOnce(s: System, c: nat)
    requires CanFailSchedule(s, c)
    ensures CanDo(s, ScheduleFails(c)) && Do(s, ScheduleFails(c)) == DoFailSchedule(s, c)
  {}

  lemma ReservesSlot(s: System, c: nat, link: Option<Record>, run: ProbeRun)
    requires c in s.clients && s.clients[c] == Scheduling(link, run.id) && s.free > 0 && !Blocked(s, run)
    requires run.remediationId == OwnerOf(link) && run.assetId in s.assets
    requires run.finishedAt.None? && run.startedAt <= s.now && (link.Some? ==> OfEndpoint(link.value.subject, run))
    ensures CanDo(s, Acquire(c)) && Do(s, Acquire(c)) == DoAcquire(s, c)
    ensures CanDo(DoAcquire(s, c), Reserve(c, run))
    ensures Do(DoAcquire(s, c), Reserve(c, run))
      == Put(s.(probes := s.probes[run.id := run], free := s.free - 1), c, Executing(run))
  {
    hide TargetBusy;
    assert s.clients[c := Reserving(link, run.id)][c := Executing(run)] == s.clients[c := Executing(run)];
  }

  /** A manual check draws an identifier and schedules it. */
  lemma ManualCheckIsARun(s: System, c: nat, probeId: Uuid, env: Surroundings)
    requires Inv(s) && Idle(s, c) && probeId !in s.issued
    ensures var (refused, t) := ScheduleSpec(Issue(s, probeId, None), None, probeId, env);
      Alone(s, c, if refused.None? then Put(t, c, Executing(NewRun(None, probeId, env, s.now))) else t)
  {
    hide Inv, Alone, TargetBusy;
    var a := BeginProbe(c, probeId);
    AloneStays(s, c);
    AloneThen(s, c, s, a);
    var mid := Do(s, a);
    ScheduleIsARun(mid, c, None, probeId, env);
    var (refused, t) := ScheduleSpec(Issue(s, probeId, None), None, probeId, env);
    BackToIdle(s, c, Scheduling(None, probeId));
    if refused.None? {
      AloneInTurn(s, c, mid,
        Put(ScheduleSpec(mid, None, probeId, env).1, c, Executing(NewRun(None, probeId, env, s.now))));
      assert Put(ScheduleSpec(mid, None, probeId, env).1, c, Executing(NewRun(None, probeId, env, s.now)))
          == Put(t, c, Executing(NewRun(None, probeId, env, s.now)));
    } else {
      AloneInTurn(s, c, mid, DoFailSchedule(mid, c));
      assert DoFailSchedule(mid, c) == t;
    }
  }

  /** Opening the attempt: read a copy, write it back with the attempt appended. */
  lemma OpeningIsARun(s: System, c: nat, id: Uuid, requestId: Uuid, probeId: Uuid)
    requires Inv(s) && Idle(s, c) && probeId !in s.issued && id in s.records && Openable(s.records[id], requestId)
    ensures var next := OpenedRecord(s.records[id], requestId, probeId, s.now);
      var t := Put(Issue(s, probeId, Some(id)).(records := s.records[id := next]), c, Scheduling(Some(next), probeId));
      Alone(s, c, t)
  {
    IdIs(s, id);
    AloneStays(s, c);
    assert CanDo(s, BeginVerify(c, id, requestId));
    OpensCopy(s, c, id, requestId, probeId);
    hide Inv, Alone, Do, CanDo;
    AloneThen(s, c, s, BeginVerify(c, id, requestId));
    AloneThen(s, c, Do(s, BeginVerify(c, id, requestId)), CommitOpen(c, probeId, s.now));
  }

  lemma OpensCopy(s: System, c: nat, id: Uuid, requestId: Uuid, probeId: Uuid)
    requires CanDo(s, BeginVerify(c, id, requestId)) && s.records[id].id == id && probeId !in s.issued
    ensures var mid := Do(s, BeginVerify(c, id, requestId));
      var next := OpenedRecord(s.records[id], requestId, probeId, s.now);
      && CanDo(mid, CommitOpen(c, probeId, s.now))
      && Do(mid, CommitOpen(c, probeId, s.now))
         == Put(Issue(s, probeId, Some(id)).(records := s.records[id := next]), c, Scheduling(Some(next), probeId))
  {}

  /** The opened attempt's probe is scheduled, or the attempt is closed again. */
  lemma StartOrCloseIsARun(s: System, c: nat, next: Record, probeId: Uuid, env: Surroundings)
    requires c in s.clients && s.clients[c] == Scheduling(Some(next), probeId)
    requires next.id in s.records && s.records[next.id] == next && next.attempts != []
    ensures var (refused, t) := ScheduleSpec(s, Some(next), probeId, env);
      Alone(s, c, if refused.None? then Put(t, c, Executing(NewRun(Some(next), probeId, env, s.now)))
                  else Drop(s.(records := s.records[next.id := CloseInconclusive(next, s.now)]), c))
  {
    ScheduleIsARun(s, c, Some(next), probeId, env);
    hide Alone, ScheduleSpec;
    if ScheduleSpec(s, Some(next), probeId, env).0.Some? {
      var last := DoFailSchedule(s, c);
      AloneThen(s, c, last, CommitAbandon(c, s.now));
      assert Do(last, CommitAbandon(c, s.now))
          == Drop(s.(records := s.records[next.id := CloseInconclusive(next, s.now)]), c);
    }
  }

  /** The request passes the handler's checks and reaches the scheduler. */
  predicate Admitted(s: System, id: Uuid, requestId: Uuid, env: Surroundings) {
    && id in s.records && Openable(s.records[id], requestId)
    && s.records[id].subject.assetId in s.assets && env.authorized
  }

  lemma RefusedEarly(s: System, id: Uuid, requestId: Uuid, probeId: Uuid, env: Surroundings)
    requires !Admitted(s, id, requestId, env)
    ensures RequestSpec(s, id, requestId, probeId, env).1 == s
  {}

  lemma RequestOf(s: System, c: nat, id: Uuid, requestId: Uuid, probeId: Uuid, env: Surroundings)
    requires Admitted(s, id, requestId, env)
    ensures var next := OpenedRecord(s.records[id], requestId, probeId, s.now);
      var open := Issue(s, probeId, Some(id)).(records := s.records[id := next]);
      var (refused, t) := ScheduleSpec(open, Some(next), probeId, env);
      && open.records[id] != s.records[id]
      && (refused.None? ==> t.records == open.records && RequestSpec(s, id, requestId, probeId, env) == (Ok(next), t))
      && (refused.Some? ==>
            && !refused.value.Ok?
            && RequestSpec(s, id, requestId, probeId, env)
                 == (refused.value, open.(records := open.records[id := CloseInconclusive(next, s.now)])))
  {
    hide TargetBusy;
    assert OpenedRecord(s.records[id], requestId, probeId, s.now).revision != s.records[id].revision;
  }

  /**
    A verification request opens the attempt and schedules its probe; a refused schedule closes the attempt again.
    Refused earlier, or sent a second time, it does nothing.
   */
  lemma RequestIsARun(s: System, c: nat, id: Uuid, requestId: Uuid, probeId: Uuid, env: Surroundings)
    requires Inv(s) && Idle(s, c) && probeId !in s.issued
    ensures var (reply, t) := RequestSpec(s, id, requestId, probeId, env);
      Alone(s, c,
            if t != s && reply.Ok? then Put(t, c, Executing(NewRun(Some(reply.record), probeId, env, s.now))) else t)
  {
    hide Alone;
    AloneStays(s, c);
    if !Admitted(s, id, requestId, env) {
      RefusedEarly(s, id, requestId, probeId, env);
    } else {
      OpeningIsARun(s, c, id, requestId, probeId);
      RequestOf(s, c, id, requestId, probeId, env);
      IdIs(s, id);
      var next := OpenedRecord(s.records[id], requestId, probeId, s.now);
      var open := Issue(s, probeId, Some(id)).(records := s.records[id := next]);
      hide Inv, RequestSpec, OpenedRecord, Admitted, Issue;
      StartOrCloseOpened(open, c, next, probeId, env);
      var mid := Put(open, c, Scheduling(Some(next), probeId));
      var (refused, t) := ScheduleSpec(open, Some(next), probeId, env);
      hide ScheduleSpec, NewRun, CloseInconclusive, Put;
      if refused.None? {
        AloneInTurn(s, c, mid, Put(t, c, Executing(NewRun(Some(next), probeId, env, s.now))));
      } else {
        AloneInTurn(s, c, mid, open.(records := open.records[id := CloseInconclusive(next, s.now)]));
      }
    }
  }

  lemma StartOrCloseOpened(open: System, c: nat, next: Record, probeId: Uuid, env: Surroundings)
    requires Idle(open, c) && next.id in open.records && open.records[next.id] == next && next.attempts != []
    ensures var mid := Put(open, c, Scheduling(Some(next), probeId));
      var (refused, t) := ScheduleSpec(open, Some(next), probeId, env);
      Alone(mid, c, if refused.None? then Put(t, c, Executing(NewRun(Some(next), probeId, env, open.now)))
                    else open.(records := open.records[next.id := CloseInconclusive(next, open.now)]))
  {
    var mid := Put(open, c, Scheduling(Some(next), probeId));
    StartOrCloseIsARun(mid, c, next, probeId, env);
    SameSchedule(open, mid, Some(next), probeId, env);
    BackToIdle(open, c, Scheduling(Some(next), probeId));
    hide Alone, ScheduleSpec, NewRun, CloseInconclusive;
    var (refused, t) := ScheduleSpec(open, Some(next), probeId, env);
    var run := Executing(NewRun(Some(next), probeId, env, open.now));
    ScheduledKeeps(open, Some(next), probeId, env);
    assert Put(t.(clients := mid.clients), c, run) == Put(t, c, run);
  }

  lemma ScheduledKeeps(s: System, link: Option<Record>, probeId: Uuid, env: Surroundings)
    ensures var t := ScheduleSpec(s, link, probeId, env).1; t == s.(free := t.free, probes := t.probes)
  {}

  /** Scheduling does not look at the clients. */
  lemma SameSchedule(s: System, t: System, link: Option<Record>, probeId: Uuid, env: Surroundings)
    requires t == s.(clients := t.clients)
    ensures ScheduleSpec(t, link, probeId, env).0 == ScheduleSpec(s, link, probeId, env).0
    ensures ScheduleSpec(t, link, probeId, env).1 == ScheduleSpec(s, link, probeId, env).1.(clients := t.clients)
    ensures ScheduleSpec(s, link, probeId, env).0.Some? ==> ScheduleSpec(s, link, probeId, env).1 == s
  {}

  // ---------- an undisturbed recovery is a sequence of its client's actions ----------

  /** The record whose open attempt waits for this run. */
  function Waiting(s: System, run: ProbeRun): Option<Record> {
    if run.remediationId.None? || run.remediationId.value !in s.records then None
    else
      var r := s.records[run.remediationId.value];
      if HasProbe(r, run.id) && r.attempts[Position(r, run.id)].Open() then Some(r) else None
  }

  lemma CompletesWaiting(s: System, run: ProbeRun)
    ensures match Waiting(s, run)
      case None => Completed(s, run) == s
      case Some(r) =>
        Completed(s, run)
          == s.(records := s.records[run.remediationId.value := CompletedRecord(r, Position(r, run.id), run)])
  {}

  /** The client that completes a run reads the record first. */
  lemma ReadsItsRecord(s: System, c: nat, run: ProbeRun, permit: bool)
    requires c in s.clients && s.clients[c] == Completing(run, 0, permit) && Linked(s, run)
    ensures CanDo(s, ReadForCompletion(c))
    ensures Do(s, ReadForCompletion(c)) == match Waiting(s, run)
      case None => Drop(s, c)
      case Some(r) => Put(s, c, Writing(run, 0, permit, r, Position(r, run.id)))
  {}

  lemma CompletingMovesOn(r: Record, index: nat, run: ProbeRun)
    requires index < |r.attempts|
    ensures CompletedRecord(r, index, run).revision == r.revision + 1 && CompletedRecord(r, index, run).id == r.id
  {}

  lemma WritesItsRecord(s: System, c: nat, run: ProbeRun, permit: bool, r: Record, index: nat)
    requires c in s.clients && s.clients[c] == Completing(run, 0, permit) && run.finishedAt.Some?
    requires r.id in s.records && s.records[r.id] == r && index < |r.attempts|
    ensures var mid := Put(s, c, Writing(run, 0, permit, r, index));
      && CanDo(mid, CommitCompletion(c))
      && Do(mid, CommitCompletion(c)) == Drop(s.(records := s.records[r.id := CompletedRecord(r, index, run)]), c)
  {
    var mid := Put(s, c, Writing(run, 0, permit, r, index));
    CompletingMovesOn(r, index, run);
    hide CompletedRecord;
    assert mid.clients - {c} == s.clients - {c};
  }

  lemma KnownTask(s: System, c: nat)
    requires Inv(s) && c in s.clients && s.clients[c].Completing?
    ensures Linked(s, s.clients[c].run) && s.clients[c].run.finishedAt.Some?
  {
    KnownClient(s, c);
    hide Inv, Linked;
  }

  /** The client that completes a run: it reads the record and writes it back if the attempt is still open. */
  lemma CompletionIsARun(s: System, c: nat, run: ProbeRun, permit: bool)
    requires Inv(s) && c in s.clients && s.clients[c] == Completing(run, 0, permit)
    ensures Alone(s, c, Drop(Completed(s, run), c))
  {
    hide Inv, Alone, CompletedRecord, Position, Do, CanDo, Completed, Linked;
    KnownTask(s, c);
    if run.remediationId.Some? && run.remediationId.value in s.records { IdIs(s, run.remediationId.value); }
    AloneStays(s, c);
    ReadsItsRecord(s, c, run, permit);
    CompletesWaiting(s, run);
    AloneThen(s, c, s, ReadForCompletion(c));
    if Waiting(s, run).Some? {
      var r := s.records[run.remediationId.value];
      WritesItsRecord(s, c, run, permit, r, Position(r, run.id));
      AloneThen(s, c, Put(s, c, Writing(run, 0, permit, r, Position(r, run.id))), CommitCompletion(c));
    }
  }

  /** A client that has taken up a run on its own completes it and is gone. */
  lemma TakenUpIsARun(s: System, c: nat, t: System, run: ProbeRun)
    requires Inv(s) && Idle(t, c) && Alone(s, c, Put(t, c, Completing(run, 0, false)))
    ensures Alone(s, c, Completed(t, run))
  {
    var mid := Put(t, c, Completing(run, 0, false));
    AloneKeepsInv(s, c, mid);
    CompletionIsARun(mid, c, run, false);
    CompletedApart(t, mid, run);
    BackToIdle(t, c, Completing(run, 0, false));
    hide Inv, Alone, Completed;
    AloneInTurn(s, c, mid, Drop(Completed(mid, run), c));
  }

  /** Completing a run does not look at the clients. */
  lemma CompletedApart(s: System, t: System, run: ProbeRun)
    requires t == s.(clients := t.clients)
    ensures Completed(t, run) == Completed(s, run).(clients := t.clients)
    ensures Completed(s, run) == s.(records := Completed(s, run).records)
  {
    hide Position, HasProbe, CompletedRecord;
  }

  lemma TakesUp(s: System, c: nat, p: Uuid)
    requires Idle(s, c) && p in s.probes && s.probes[p].finishedAt.Some?
    ensures CanDo(s, RecoverFinished(c, p))
    ensures Do(s, RecoverFinished(c, p))
      == Put(s, c,
             if NeedsEvidence(s.probes[p]) then Deriving(s.probes[p], false) else Completing(s.probes[p], 0, false))
  {}

  lemma Derives(s: System, c: nat, run: ProbeRun)
    requires NeedsEvidence(run) && run.assetId in s.assets
    ensures var mid := Put(s, c, Deriving(run, false));
      CanDo(mid, Derive(c)) && Do(mid, Derive(c)) == Put(s, c, Recording(Evidenced(run), false))
  {}

  lemma StoresEvidence(s: System, c: nat, run: ProbeRun)
    requires run.id in s.probes
    ensures var mid := Put(s, c, Recording(run, false));
      && CanDo(mid, StoreEvidence(c))
      && Do(mid, StoreEvidence(c)) == Put(s.(probes := s.probes[run.id := run]), c, Completing(run, 0, false))
  {}

  /**
    One of the recent runs: its evidence is derived and stored unless it has been, and then its attempt is completed.
   */
  lemma TakeUpIsARun(s: System, c: nat, p: Uuid)
    requires Inv(s) && Idle(s, c) && p in s.probes && s.probes[p].finishedAt.Some?
    ensures Alone(s, c, TakeUp(s, p))
  {
    KnownRun(s, p);
    AloneStays(s, c);
    TakesUp(s, c, p);
    TakeUpIs(s, p);
    hide Inv, Alone, Completed, Do, CanDo, TakeUp;
    AloneThen(s, c, s, RecoverFinished(c, p));
    var run := s.probes[p];
    if NeedsEvidence(run) {
      Derives(s, c, run);
      AloneThen(s, c, Put(s, c, Deriving(run, false)), Derive(c));
      StoresEvidence(s, c, Evidenced(run));
      AloneThen(s, c, Put(s, c, Recording(Evidenced(run), false)), StoreEvidence(c));
      TakenUpIsARun(s, c, s.(probes := s.probes[p := Evidenced(run)]), Evidenced(run));
    } else {
      TakenUpIsARun(s, c, s, run);
      assert s.probes[p := run] == s.probes;
    }
  }

  lemma KnownRun(s: System, p: Uuid)
    requires Inv(s) && p in s.probes
    ensures s.probes[p].id == p && s.probes[p].assetId in s.assets
  {}

  lemma LooksUp(s: System, c: nat, r: Record)
    requires Idle(s, c) && r.attempts != []
    ensures var a := r.attempts[|r.attempts| - 1];
      var mid := Put(s, c, LookingUp(r));
      && CanDo(mid, LookUpProbe(c))
      && Do(mid, LookUpProbe(c)) ==
           if a.probeId in s.probes && s.probes[a.probeId].finishedAt.Some?
           then Put(s, c, Completing(s.probes[a.probeId], 0, false))
           else if a.probeId !in s.probes && s.now - a.requestedAt > START_GRACE then Put(s, c, Abandoning(r))
           else s
  {
    BackToIdle(s, c, LookingUp(r));
  }

  lemma GivesUp(s: System, c: nat, r: Record)
    requires Idle(s, c) && r.attempts != [] && r.id in s.records && s.records[r.id] == r
    ensures var mid := Put(s, c, Abandoning(r));
      && CanDo(mid, CommitAbandon(c, s.now))
      && Do(mid, CommitAbandon(c, s.now)) == s.(records := s.records[r.id := CloseInconclusive(r, s.now)])
  {
    BackToIdle(s, c, Abandoning(r));
  }

  function RecoveredIn(s: System, id: Uuid): System
    requires id in s.records
  {
    s.(records := s.records[id := RecoveredRecord(s, s.records[id])])
  }

  lemma NothingToRecover(s: System, id: Uuid)
    requires id in s.records
    ensures !s.records[id].state.Verifying? || s.records[id].attempts == [] ==> RecoveredIn(s, id) == s
    ensures var r := s.records[id];
      r.state.Verifying? && r.attempts != [] ==>
        && var a := r.attempts[|r.attempts| - 1];
        && (a.probeId in s.probes && s.probes[a.probeId].finishedAt.None? ==> RecoveredIn(s, id) == s)
        && (a.probeId !in s.probes && s.now - a.requestedAt <= START_GRACE ==> RecoveredIn(s, id) == s)
        && (a.probeId !in s.probes && s.now - a.requestedAt > START_GRACE ==>
              RecoveredIn(s, id) == s.(records := s.records[id := CloseInconclusive(r, s.now)]))
  {
    assert s.records[id := s.records[id]] == s.records;
    hide CompletedRecord, CloseInconclusive;
  }

  /** One record of the recovery loop. */
  lemma RecoverOneIsARun(s: System, c: nat, id: Uuid)
    requires Inv(s) && Idle(s, c) && id in s.records
    ensures Alone(s, c, RecoveredIn(s, id))
  {
    hide Inv, Alone, Completed, RecoveredIn, RecoveredRecord, Do, CanDo;
    var r := s.records[id];
    AloneStays(s, c);
    NothingToRecover(s, id);
    if r.state.Verifying? {
      VerifyingRecord(s, id);
      TakesRecord(s, c, id);
      AloneThen(s, c, s, RecoverVerifying(c, id));
      LooksUp(s, c, r);
      AloneThen(s, c, Put(s, c, LookingUp(r)), LookUpProbe(c));
      var a := r.attempts[|r.attempts| - 1];
      if a.probeId in s.probes {
        if s.probes[a.probeId].finishedAt.Some? {
          TakenUpIsARun(s, c, s, s.probes[a.probeId]);
        }
      } else if s.now - a.requestedAt > START_GRACE {
        GivesUp(s, c, r);
        AloneThen(s, c, Put(s, c, Abandoning(r)), CommitAbandon(c, s.now));
      }
    }
  }

  lemma TakesRecord(s: System, c: nat, id: Uuid)
    requires Idle(s, c) && id in s.records && s.records[id].state.Verifying?
    ensures CanDo(s, RecoverVerifying(c, id))
    ensures Do(s, RecoverVerifying(c, id)) == Put(s, c, LookingUp(s.records[id]))
  {}

  lemma VerifyingRecord(s: System, id: Uuid)
    requires Inv(s) && id in s.records && s.records[id].state.Verifying?
    ensures var r := s.records[id];
      && r.id == id && r.attempts != []
      && var a := r.attempts[|r.attempts| - 1];
      && a.Open()
      && (a.probeId in s.probes && s.probes[a.probeId].finishedAt.Some? ==>
            Completed(s, s.probes[a.probeId]) == RecoveredIn(s, id))
  {
    var r := s.records[id];
    LifecycleIn(s, id);
    HeldOf(s, id);
    var p := r.attempts[|r.attempts| - 1].probeId;
    hide Later, Settled, VerifyRemediation, RecordsOk, ProbesOk, ClientsOk, SlotsOk, AssetsOk, Completed,
         RecoveredRecord, Linked, Held;
    if p in s.probes && s.probes[p].finishedAt.Some? {
      OwnProbe(s, r);
      CompletesLast(s, r, s.probes[p]);
    }
  }

  function MarkSome(s: System, ps: set<Uuid>): System {
    s.(probes := map p | p in s.probes :: if p in ps then RecoveredProbe(s, s.probes[p]) else s.probes[p])
  }

  lemma MarkOneIsARun(s: System, c: nat, p: Uuid)
    requires Idle(s, c) && p in s.probes && s.probes[p].id == p && Overdue(s, s.probes[p])
    ensures Alone(s, c, s.(probes := s.probes[p := Interrupted(s.probes[p], s.now)]))
  {
    hide Alone;
    AloneStays(s, c);
    AloneThen(s, c, s, RecoverStale(c, p));
    var cl := Interrupting(Interrupted(s.probes[p], s.now));
    AloneThen(s, c, Put(s, c, cl), StoreInterruption(c));
    BackToIdle(s, c, cl);
  }

  lemma MarkOneMore(s: System, ps: set<Uuid>, p: Uuid)
    requires p in ps && p in s.probes && Overdue(s, s.probes[p])
    ensures var t := MarkSome(s, ps - {p});
      p in t.probes && t.probes[p] == s.probes[p]
      && MarkSome(s, ps) == t.(probes := t.probes[p := Interrupted(t.probes[p], t.now)])
  {
    hide Interrupted;
  }

  /** Marking overdue runs, in any order. */
  lemma {:induction false} MarkingIsARun(s: System, c: nat, ps: set<Uuid>)
    requires ProbesOk(s) && Idle(s, c) && ps <= OverdueProbes(s)
    ensures Alone(s, c, MarkSome(s, ps))
    decreases |ps|
  {
    AloneStays(s, c);
    if p :| p in ps {
      assert p in s.probes && Overdue(s, s.probes[p]) && s.probes[p].id == p;
      hide ProbesOk, Alone, Overdue;
      MarkingIsARun(s, c, ps - {p});
      MarkOneMore(s, ps, p);
      var t := MarkSome(s, ps - {p});
      OverdueInBoth(s, t, s.probes[p]);
      MarkOneIsARun(t, c, p);
      AloneInTurn(s, c, t, MarkSome(s, ps));
    } else {
      assert ps == {};
      assert MarkSome(s, {}).probes == s.probes;
    }
  }

  lemma OverdueInBoth(s: System, t: System, run: ProbeRun)
    requires t.now == s.now && t.config == s.config
    ensures Overdue(s, run) <==> Overdue(t, run)
  {}

  lemma {:induction false} TakingUpIsARun(s: System, c: nat, list: seq<Uuid>)
    requires Inv(s) && Idle(s, c) && Selected(s, list)
    ensures Alone(s, c, TakeUpAll(s, list))
  {
    AloneStays(s, c);
    if list != [] {
      var front, p := list[..|list| - 1], list[|list| - 1];
      SelectedFront(s, list);
      TakenProbes(s, front);
      hide Inv, Alone, TakeUp, Selected;
      TakingUpIsARun(s, c, front);
      var t := TakeUpAll(s, front);
      AloneKeepsInv(s, c, t);
      TakeUpIsARun(t, c, p);
      AloneInTurn(s, c, t, TakeUp(t, p));
    }
  }

  function RecoverSome(s: System, ids: set<Uuid>): System {
    s.(records := map id | id in s.records :: if id in ids then RecoveredRecord(s, s.records[id]) else s.records[id])
  }

  lemma RecoverOneMore(s: System, ids: set<Uuid>, id: Uuid)
    requires id in ids && id in s.records
    ensures var t := RecoverSome(s, ids - {id});
      id in t.records && RecoverSome(s, ids) == RecoveredIn(t, id)
  {
    var t := RecoverSome(s, ids - {id});
    assert RecoveredRecord(t, s.records[id]) == RecoveredRecord(s, s.records[id]);
    hide RecoveredRecord;
  }

  /** The loop over the verifying records, in any order. */
  lemma {:induction false} RecoveringIsARun(s: System, c: nat, ids: set<Uuid>)
    requires Inv(s) && Idle(s, c) && ids <= s.records.Keys
    ensures Alone(s, c, RecoverSome(s, ids))
    decreases |ids|
  {
    hide Inv, Alone, RecoveredRecord, RecoveredIn;
    AloneStays(s, c);
    if id :| id in ids {
      RecoveringIsARun(s, c, ids - {id});
      RecoverOneMore(s, ids, id);
      var t := RecoverSome(s, ids - {id});
      AloneKeepsInv(s, c, t);
      RecoverOneIsARun(t, c, id);
      AloneInTurn(s, c, t, RecoverSome(s, ids));
    } else {
      assert ids == {};
      assert RecoverSome(s, {}).records == s.records;
    }
  }

  /** A whole recovery pass, on a store the protocol has led to, comes to its end and is its client's actions alone. */
  lemma PassIsARun(s: System, c: nat, list: seq<Uuid>)
    requires Inv(s) && Idle(s, c) && Selected(MarkOverdue(s), list)
    ensures Pass(s, list).0 && Alone(s, c, Pass(s, list).1)
  {
    hide *;
    PassEnds(s, list);
    MarksAll(s);
    MarkingIsARun(s, c, OverdueProbes(s));
    var m := MarkOverdue(s);
    AloneKeepsInv(s, c, m);
    TakenClients(s, list);
    TakingUpIsARun(m, c, list);
    var t := TakeUpAll(m, list);
    AloneInTurn(s, c, m, t);
    AloneKeepsInv(s, c, t);
    RecoveringIsARun(t, c, t.records.Keys);
    RecoversAll(t);
    AloneInTurn(s, c, t, WithRecoveredRecords(t));
  }

  lemma PassEnds(s: System, list: seq<Uuid>)
    requires Inv(s) && Selected(MarkOverdue(s), list)
    ensures ProbesOk(s) && Pass(s, list) == (true, WithRecoveredRecords(TakeUpAll(MarkOverdue(s), list)))
  {
    hide Lifecycle, Linked, TakeUpAll, RecoveredRecord, Selected;
    KnownAssetsSuffice(s, list);
    TakenSelected(s, list);
  }

  lemma TakenClients(s: System, list: seq<Uuid>)
    requires Selected(MarkOverdue(s), list)
    ensures TakeUpAll(MarkOverdue(s), list).clients == s.clients && MarkOverdue(s).clients == s.clients
    ensures forall c :: Idle(s, c) ==> Idle(TakeUpAll(MarkOverdue(s), list), c) && Idle(MarkOverdue(s), c)
  {
    TakenProbes(MarkOverdue(s), list);
    hide TakeUpAll, Selected;
  }

  lemma RecoversAll(s: System)
    ensures RecoverSome(s, s.records.Keys) == WithRecoveredRecords(s)
  {
    hide RecoveredRecord;
  }

  lemma MarksAll(s: System)
    ensures MarkSome(s, OverdueProbes(s)) == MarkOverdue(s)
  {}
}
