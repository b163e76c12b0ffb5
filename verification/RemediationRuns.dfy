/** The protocol's guarantees, stated over every run from an empty store. */
module RemediationRuns {
  import opened Domain
  import opened RemediationRecord
  import opened RemediationProtocol
  import opened RemediationSafety

  lemma StartInv(config: Config, now: Time)
    ensures Inv(Start(config, now))
  {}

  /** Any sequence of actions keeps the invariant, and changes only what others may see change. */
  lemma {:induction false} StepsKeep(s: System, actions: seq<Action>)
    requires Inv(s) && Steps(s, actions).Some?
    ensures Inv(Steps(s, actions).value) && Grows(s, Steps(s, actions).value)
  {
    hide Inv, GoodStep, CanDo, Do, Grows, EventOf;
    if actions == [] {
      StutterGrows(s);
    } else {
      var front, a := actions[..|actions| - 1], actions[|actions| - 1];
      StepsKeep(s, front);
      var mid := Steps(s, front).value;
      StepKeeps(mid, a);
      GoodStepInv(mid, a);
      GrowsTransitive(s, mid, Do(mid, a));
    }
  }

  lemma StutterGrows(s: System)
    requires Inv(s)
    ensures Grows(s, s)
  {
    StutterKeeps(s);
  }

  /** Every reachable state satisfies the invariant. */
  lemma RunInv(config: Config, now: Time, actions: seq<Action>)
    requires Run(config, now, actions).Some?
    ensures Inv(Run(config, now, actions).value) && Run(config, now, actions).value.config == config
  {
    StartInv(config, now);
    StepsKeep(Start(config, now), actions);
    hide Inv, Steps;
  }

  lemma OneMoreStep(s: System, actions: seq<Action>, a: Action)
    requires Steps(s, actions).Some? && CanDo(Steps(s, actions).value, a)
    ensures Steps(s, actions + [a]) == Some(Do(Steps(s, actions).value, a))
  {
    assert (actions + [a])[..|actions|] == actions;
    hide CanDo, Do;
  }

  lemma {:induction false} StepsConcat(s: System, first: seq<Action>, rest: seq<Action>)
    requires Steps(s, first).Some?
    ensures Steps(s, first + rest) == Steps(Steps(s, first).value, rest)
    decreases |rest|
  {
    if rest == [] {
      assert first + rest == first;
    } else {
      hide CanDo, Do;
      StepsConcat(s, first, rest[..|rest| - 1]);
      assert (first + rest)[..|first + rest| - 1] == first + rest[..|rest| - 1];
    }
  }

  lemma GoodStepInv(s: System, a: Action)
    requires CanDo(s, a) && GoodStep(s, Do(s, a), EventOf(s, a))
    ensures Inv(Do(s, a)) && Grows(s, Do(s, a)) && Effect(s, Do(s, a), EventOf(s, a))
    ensures Do(s, a).config == s.config
  {}

  /** The last step of a run, taken apart. */
  lemma LastStep(config: Config, now: Time, actions: seq<Action>)
    requires actions != [] && Run(config, now, actions).Some?
    ensures var front, a := actions[..|actions| - 1], actions[|actions| - 1];
      && Run(config, now, front).Some?
      && var s, t := Run(config, now, front).value, Run(config, now, actions).value;
      && CanDo(s, a) && t == Do(s, a) && Inv(s) && Inv(t) && Grows(s, t) && Effect(s, t, EventOf(s, a))
  {
    var front, a := actions[..|actions| - 1], actions[|actions| - 1];
    hide Inv, CanDo, Do, EventOf;
    RunInv(config, now, front);
    StepKeeps(Run(config, now, front).value, a);
    GoodStepInv(Run(config, now, front).value, a);
  }

  // ---------- no lost updates ----------

  /** The transitions of one record that a run's successful writes committed, in order. */
  ghost function Committed(config: Config, now: Time, actions: seq<Action>, id: Uuid): seq<Transition>
    requires Run(config, now, actions).Some?
  {
    if actions == [] then []
    else
      var s := Run(config, now, actions[..|actions| - 1]).value;
      var rest := Committed(config, now, actions[..|actions| - 1], id);
      match EventOf(s, actions[|actions| - 1])
      case Fired(i, tr) => if i == id then rest + [tr] else rest
      case _ => rest
  }

  /**
    Every interleaving refines a serial run: the stored record is what the committed transitions
    yield one after the other, each enabled on the record as it then was.
   */
  lemma {:induction false} NoLostUpdates(config: Config, now: Time, actions: seq<Action>, id: Uuid)
      returns (first: Record)
    requires Run(config, now, actions).Some? && id in Run(config, now, actions).value.records
    ensures Initial(first) && first.id == id
    ensures Serial(first, Committed(config, now, actions, id)) == Some(Run(config, now, actions).value.records[id])
  {
    var front, a := actions[..|actions| - 1], actions[|actions| - 1];
    var s := Run(config, now, front).value;
    LastStep(config, now, actions);
    CommittedLast(config, now, actions, id);
    EffectOn(s, Run(config, now, actions).value, EventOf(s, a), id);
    hide Inv, Grows, CanDo, Do, EventOf, Run, Lifecycle, Fire, Enabled, Initial, Committed, Effect, Later;
    if id in s.records {
      first := NoLostUpdates(config, now, front, id);
      if EventOf(s, a).Fired? && EventOf(s, a).id == id {
        SerialStep(first, Committed(config, now, front, id), EventOf(s, a).tr);
      }
    } else {
      NothingBefore(config, now, front, id);
      first := Run(config, now, actions).value.records[id];
    }
  }

  /** What one step does to one record. */
  lemma EffectOn(s: System, t: System, e: Event, id: Uuid)
    requires RecordsOk(t) && Effect(s, t, e) && id in t.records
    ensures id in s.records ==>
      if e.Fired? && e.id == id then Enabled(s.records[id], e.tr) && t.records[id] == Fire(s.records[id], e.tr)
      else t.records[id] == s.records[id]
    ensures id !in s.records ==> !e.Fired? && Initial(t.records[id]) && t.records[id].id == id
  {
    hide Lifecycle;
  }

  lemma CommittedLast(config: Config, now: Time, actions: seq<Action>, id: Uuid)
    requires actions != [] && Run(config, now, actions).Some? && Run(config, now, actions[..|actions| - 1]).Some?
    ensures var front, a := actions[..|actions| - 1], actions[|actions| - 1];
      var s := Run(config, now, front).value;
      && CanDo(s, a)
      && Committed(config, now, actions, id) == Committed(config, now, front, id)
           + if EventOf(s, a).Fired? && EventOf(s, a).id == id then [EventOf(s, a).tr] else []
  {
    hide EventOf, CanDo, Do;
  }

  lemma SerialStep(first: Record, log: seq<Transition>, tr: Transition)
    requires Serial(first, log).Some? && Enabled(Serial(first, log).value, tr)
    ensures Serial(first, log + [tr]) == Some(Fire(Serial(first, log).value, tr))
  {}

  lemma {:induction false} NothingBefore(config: Config, now: Time, actions: seq<Action>, id: Uuid)
    requires Run(config, now, actions).Some? && id !in Run(config, now, actions).value.records
    ensures Committed(config, now, actions, id) == []
  {
    if actions != [] {
      var front, a := actions[..|actions| - 1], actions[|actions| - 1];
      var s := Run(config, now, front).value;
      LastStep(config, now, actions);
      hide Inv, CanDo, Do, EventOf, Run;
      assert id !in s.records;
      NothingBefore(config, now, front, id);
    }
  }

  // ---------- reachable states ----------

  ghost predicate Reachable(config: Config, s: System) {
    exists now, actions :: Run(config, now, actions) == Some(s)
  }

  lemma ReachableInv(config: Config, s: System)
    requires Reachable(config, s)
    ensures Inv(s) && s.config == config
  {
    hide Inv;
    var now, actions :| Run(config, now, actions) == Some(s);
    RunInv(config, now, actions);
  }

  /** In-flight copies are never ahead of the store, and equal it when the revisions agree. */
  lemma SnapshotsAreCoherent(config: Config, s: System, c: nat)
    requires Reachable(config, s) && c in s.clients
    requires var cl := s.clients[c];
      cl.Applying? || cl.Requesting? || cl.Compensating? || cl.Writing? || cl.LookingUp? || cl.Abandoning?
    ensures var snap := s.clients[c].snap;
      && snap.id in s.records && snap.revision <= s.records[snap.id].revision
      && (snap.revision == s.records[snap.id].revision ==> snap == s.records[snap.id])
  {
    hide Lifecycle;
    ReachableInv(config, s);
    KnownClient(s, c);
  }

  // ---------- the bounded retry loop ----------

  /**
    "remediation update contention", "not linked to a fix" and a missing record are unreachable,
    and a completion suffers at most one failed update.
   */
  lemma CompletionNeverFails(config: Config, s: System, c: nat)
    requires Reachable(config, s) && c in s.clients
    ensures !s.clients[c].Failed?
    ensures s.clients[c].Completing? ==> s.clients[c].tries <= 1
    ensures s.clients[c].Writing? ==> s.clients[c].tries == 0
  {
    hide Inv, Lifecycle;
    ReachableInv(config, s);
    KnownClient(s, c);
  }

  /** A task or recovery never fails to find the asset of a run that the protocol stored. */
  lemma EvidenceNeverFails(config: Config, s: System, c: nat)
    requires Reachable(config, s) && c in s.clients && s.clients[c].Deriving?
    ensures s.clients[c].run.assetId in s.assets
  {
    hide Lifecycle;
    ReachableInv(config, s);
    DeriveFindsAsset(s, c);
  }

  // ---------- lifecycle, history, request ids ----------

  /** Every reachable record: its lifecycle, and revision = applies + opened + closed. */
  lemma ReachableRecord(config: Config, now: Time, actions: seq<Action>, id: Uuid)
    requires Run(config, now, actions).Some? && id in Run(config, now, actions).value.records
    ensures var r := Run(config, now, actions).value.records[id];
      && Lifecycle(r)
      && r.revision == Count(Committed(config, now, actions, id), IsApply) + |r.attempts| + ClosedCount(r.attempts)
  {
    hide Lifecycle, Serial;
    var first := NoLostUpdates(config, now, actions, id);
    SerialLifecycle(first, Committed(config, now, actions, id));
  }

  /** History is append-only between any two moments of a run; the first close of an attempt wins. */
  lemma {:induction false} HistoryIsAppendOnly(config: Config, now: Time, actions: seq<Action>, n: nat, id: Uuid)
    requires Run(config, now, actions).Some? && n <= |actions|
    ensures Run(config, now, actions[..n]).Some?
    ensures var s, t := Run(config, now, actions[..n]).value, Run(config, now, actions).value;
      id in s.records ==> id in t.records && Later(s.records[id], t.records[id])
    decreases |actions|
  {
    if n == |actions| {
      assert actions[..n] == actions;
    } else {
      var front, a := actions[..|actions| - 1], actions[|actions| - 1];
      assert front[..n] == actions[..n];
      HistoryIsAppendOnly(config, now, front, n, id);
      LastStep(config, now, actions);
      var s := Run(config, now, front).value;
      hide Inv, CanDo, Do, Run;
      if id in Run(config, now, actions[..n]).value.records {
        LaterTransitive(Run(config, now, actions[..n]).value.records[id], s.records[id], Do(s, a).records[id]);
      }
    }
  }

  /** Resending a request id, even concurrently, opens no second attempt in any run. */
  lemma ResendOpensNothing(config: Config, now: Time, actions: seq<Action>, id: Uuid, i: nat, j: nat)
    requires Run(config, now, actions).Some? && id in Run(config, now, actions).value.records
    requires var log := Committed(config, now, actions, id);
      i < |log| && j < |log| && log[i].OpenAttempt? && log[j].OpenAttempt? && log[i].requestId == log[j].requestId
    ensures i == j
  {
    hide Lifecycle, Serial;
    var first := NoLostUpdates(config, now, actions, id);
    var log := Committed(config, now, actions, id);
    if i < j { OpensAreUnique(first, log, i, j); }
    if j < i { OpensAreUnique(first, log, j, i); }
  }

  /** ... and no second probe: the stored runs of one request are one run. */
  lemma OneProbePerRequest(config: Config, s: System, id: Uuid, p: Uuid, q: Uuid, i: nat, j: nat)
    requires Reachable(config, s) && id in s.records && p in s.probes && q in s.probes
    requires s.probes[p].remediationId == Some(id) && s.probes[q].remediationId == Some(id)
    requires AttemptIndex(s.records[id], p, i) && AttemptIndex(s.records[id], q, j)
    requires s.records[id].attempts[i].requestId == s.records[id].attempts[j].requestId
    ensures p == q
  {
    ReachableInv(config, s);
    assert Lifecycle(s.records[id]) && i == j;
  }

  /** A probe id is being scheduled by one handler at most, and only before its run is stored. */
  lemma SchedulersAreAlone(config: Config, s: System, c: nat, d: nat)
    requires Reachable(config, s) && c in s.clients && d in s.clients
    requires s.clients[c].Scheduler() && s.clients[d].Scheduler() && s.clients[c].probeId == s.clients[d].probeId
    ensures c == d && s.clients[c].probeId !in s.probes
  {
    hide Lifecycle;
    ReachableInv(config, s);
    KnownClient(s, c);
  }

  // ---------- what a run checks ----------

  /** Every stored run of a record checks that record's own connection and condition. */
  lemma RunsCheckTheirRecord(config: Config, s: System, p: Uuid, id: Uuid)
    requires Reachable(config, s) && p in s.probes && s.probes[p].remediationId == Some(id)
    ensures id in s.records && OfEndpoint(s.records[id].subject, s.probes[p])
  {
    hide Lifecycle;
    ReachableInv(config, s);
    KnownProbe(s, p);
  }

  /** So no attempt is ever closed on evidence of another connection, and "inconclusive" never means a mix-up. */
  lemma EvidenceIsOwn(config: Config, s: System, id: Uuid, i: nat)
    requires Reachable(config, s) && id in s.records && i < |s.records[id].attempts|
    requires s.records[id].attempts[i].after.Some?
    ensures OfEndpoint(s.records[id].subject, s.records[id].attempts[i].after.value)
  {
    ReachableInv(config, s);
    assert Lifecycle(s.records[id]) && AttemptShape(s.records[id].subject, s.records[id].attempts[i]);
  }

  /** What a run was asked to do never changes, and a finished run stays finished. */
  lemma {:induction false} RunsKeepTheirPurpose(config: Config, now: Time, actions: seq<Action>, n: nat, p: Uuid)
    requires Run(config, now, actions).Some? && n <= |actions|
    ensures Run(config, now, actions[..n]).Some?
    ensures var s, t := Run(config, now, actions[..n]).value, Run(config, now, actions).value;
      p in s.probes ==>
        && p in t.probes && t.probes[p].Asked() == s.probes[p].Asked()
        && (s.probes[p].finishedAt.Some? ==> t.probes[p].finishedAt.Some?)
    decreases |actions|
  {
    if n == |actions| {
      assert actions[..n] == actions;
    } else {
      var front := actions[..|actions| - 1];
      assert front[..n] == actions[..n];
      RunsKeepTheirPurpose(config, now, front, n, p);
      LastStep(config, now, actions);
      hide Inv, CanDo, Do, Run;
    }
  }

  // ---------- slots and targets ----------

  /** A run is only ever stored while its target is idle and has rested for the cooldown. */
  lemma TargetsRest(s: System, c: nat, run: ProbeRun, p: Uuid)
    requires CanDo(s, Reserve(c, run)) && p in s.probes && s.probes[p].target == run.target
    ensures s.probes[p].finishedAt.Some? && s.probes[p].finishedAt.value + s.config.cooldown <= run.startedAt
  {}

  /** Free permits and the tasks and handlers that own one always add up to the configured number. */
  lemma SlotsBalance(config: Config, s: System)
    requires Reachable(config, s)
    ensures s.free + |set c | c in s.clients && s.clients[c].Holds()| == config.slots
  {
    hide Lifecycle;
    ReachableInv(config, s);
    assert Holders(s) == set c | c in s.clients && s.clients[c].Holds();
  }

  /** Two unfinished stored runs never share a target. */
  lemma TargetsAreExclusive(config: Config, s: System, p: Uuid, q: Uuid)
    requires Reachable(config, s) && p in s.probes && q in s.probes
    requires s.probes[p].finishedAt.None? && s.probes[q].finishedAt.None? && s.probes[p].target == s.probes[q].target
    ensures p == q
  {
    hide Lifecycle;
    ReachableInv(config, s);
  }

  // ---------- a short run ----------

  const REMEDIATION: Uuid := 1
  const PROBE: Uuid := 9

  function FreshRecord(subject: Subject): Record { Record(REMEDIATION, subject, InProgress, 0, None, None, []) }

  function RequestedRecord(subject: Subject): Record {
    OpenedRecord(AppliedRecord(FreshRecord(subject), 0, None), 1, PROBE, 0)
  }

  /** One applied record whose attempt has just been stored; its handler is about to schedule the probe. */
  function OpenedStore(config: Config, subject: Subject): System {
    var r := RequestedRecord(subject);
    System(config, map[REMEDIATION := r], map[], map[0 := Scheduling(Some(r), PROBE)], 0, config.slots,
           map[PROBE := Some(REMEDIATION)], {subject.assetId})
  }

  function FreshStore(config: Config, subject: Subject): System {
    Start(config, 0).(records := map[REMEDIATION := FreshRecord(subject)], assets := {subject.assetId})
  }

  function AppliedStore(config: Config, subject: Subject): System {
    FreshStore(config, subject).(records := map[REMEDIATION := AppliedRecord(FreshRecord(subject), 0, None)])
  }

  lemma TwoSteps(s: System, a: Action, b: Action)
    requires CanDo(s, a) && CanDo(Do(s, a), b)
    ensures Steps(s, [a, b]) == Some(Do(Do(s, a), b))
  {
    hide CanDo, Do;
    assert Steps(s, []) == Some(s);
    OneMoreStep(s, [], a);
    OneMoreStep(s, [a], b);
    assert [] + [a] == [a] && [a] + [b] == [a, b];
  }

  lemma RecordIsCreated(config: Config, subject: Subject)
    ensures Steps(Start(config, 0), [Discover(subject.assetId), Create(FreshRecord(subject))])
      == Some(FreshStore(config, subject))
  {
    hide Steps;
    var s := Start(config, 0);
    TwoSteps(s, Discover(subject.assetId), Create(FreshRecord(subject)));
    assert Do(Do(s, Discover(subject.assetId)), Create(FreshRecord(subject))).assets == {subject.assetId};
  }

  lemma RecordIsApplied(config: Config, subject: Subject)
    ensures Steps(FreshStore(config, subject), [BeginApply(0, REMEDIATION, None), CommitApply(0, 0)])
      == Some(AppliedStore(config, subject))
  {
    hide Steps;
    var s := FreshStore(config, subject);
    TwoSteps(s, BeginApply(0, REMEDIATION, None), CommitApply(0, 0));
    var t := Do(Do(s, BeginApply(0, REMEDIATION, None)), CommitApply(0, 0));
    assert t.records == AppliedStore(config, subject).records && t.clients == map[];
  }

  lemma RecordIsOpened(config: Config, subject: Subject)
    ensures Steps(AppliedStore(config, subject), [BeginVerify(0, REMEDIATION, 1), CommitOpen(0, PROBE, 0)])
      == Some(OpenedStore(config, subject))
  {
    hide Steps;
    var s := AppliedStore(config, subject);
    TwoSteps(s, BeginVerify(0, REMEDIATION, 1), CommitOpen(0, PROBE, 0));
    var t := Do(Do(s, BeginVerify(0, REMEDIATION, 1)), CommitOpen(0, PROBE, 0));
    assert t.records == OpenedStore(config, subject).records && t.clients == OpenedStore(config, subject).clients;
    assert t.issued == OpenedStore(config, subject).issued;
  }

  lemma AttemptIsOpened(config: Config, subject: Subject) returns (actions: seq<Action>)
    ensures Run(config, 0, actions) == Some(OpenedStore(config, subject))
  {
    hide Steps, FreshStore, AppliedStore, OpenedStore, Start;
    RecordIsCreated(config, subject);
    RecordIsApplied(config, subject);
    RecordIsOpened(config, subject);
    var first := [Discover(subject.assetId), Create(FreshRecord(subject))];
    var second := [BeginApply(0, REMEDIATION, None), CommitApply(0, 0)];
    var third := [BeginVerify(0, REMEDIATION, 1), CommitOpen(0, PROBE, 0)];
    StepsConcat(Start(config, 0), first, second);
    StepsConcat(Start(config, 0), first + second, third);
    actions := first + second + third;
  }
}
