/**
  The request handlers and the recovery pass as they are written: a copy of the record is changed
  in place and written back. Other requests and tasks may run before every storage call
  (`Interfere`); with `quiet` they do not, and each method then equals its specification exactly.
 */
module RemediationService {
  import opened Domain
  import opened RemediationRecord
  import opened RemediationProtocol
  import opened RemediationSafety
  import opened RemediationRecovery

  datatype Reply = Ok(record: Record) | NotFound | Conflict | Unprocessable | Forbidden | TooMany

  /**
    What the request and the stores outside this model contribute: the asset asked for, its scope, the endpoint, the
    review.
   */
  datatype Surroundings = Surroundings(
    assetId: Uuid, protocol: Option<EmailProtocol>, port: Option<nat>, authorized: bool, review: Review, target: string)

  /** The investigation a check is asked for from: none, the asset's own, one of another asset, or one nobody knows. */
  datatype Review = NoReview | OwnReview | ForeignReview | MissingReview

  datatype Completion = Done | Broken(error: ClientError)

  // ---------- specifications ----------

  function ApplySpec(s: System, id: Uuid, note: Option<string>): (Reply, System) {
    if id !in s.records then (NotFound, s)
    else if s.records[id].state.Verifying? then (Conflict, s)
    else if note.Some? && |note.value| > NOTE_LIMIT then (Unprocessable, s)
    else
      var next := AppliedRecord(s.records[id], s.now, note);
      (Ok(next), s.(records := s.records[id := next]))
  }

  /** A verification probes the record's own asset; a manual check the one it was asked for. */
  function AssetOf(link: Option<Record>, env: Surroundings): Uuid {
    match link case None => env.assetId case Some(r) => r.subject.assetId
  }

  function UsualPort(protocol: EmailProtocol): nat {
    match protocol case Smtp => 25 case Imap => 143 case Pop3 => 110 case UnknownProtocol => 0
  }

  /** A verification probes the record's own connection; a manual check what was asked for, by default plain SMTP. */
  function EndpointOf(link: Option<Record>, env: Surroundings): (EmailProtocol, nat) {
    match link
    case Some(r) => (r.subject.protocol, r.subject.port)
    case None =>
      var protocol := if env.protocol.Some? then env.protocol.value else Smtp;
      (protocol, if env.port.Some? then env.port.value else UsualPort(protocol))
  }

  function NewRun(link: Option<Record>, probeId: Uuid, env: Surroundings, now: Time): ProbeRun {
    var run := ProbeRun(probeId, None, None, AssetOf(link, env), env.target, EndpointOf(link, env).0,
                        EndpointOf(link, env).1, now, None, InternalError, None);
    match link
    case None => run
    case Some(r) => run.(remediationId := Some(r.id), condition := Some(r.subject.condition))
  }

  /** The run is of the record's connection and condition; without a record, of what was asked for or the default. */
  ghost predicate IsAskedFor(run: ProbeRun, link: Option<Record>, env: Surroundings) {
    && run.target == env.target && run.remediationId == OwnerOf(link)
    && run.port > 0 && !run.protocol.UnknownProtocol?
    && (link.Some? ==> OfEndpoint(link.value.subject, run))
    && (link.None? ==>
          && run.assetId == env.assetId && run.condition.None?
          && (env.protocol.Some? ==> run.protocol == env.protocol.value)
          && (env.protocol.None? ==> run.protocol == Smtp)
          && (env.port.Some? ==> run.port == env.port.value)
          && (env.port.None? ==> (run.protocol, run.port) in {(Smtp, 25), (Imap, 143), (Pop3, 110)}))
  }

  /** Each refusal has its own reason; too many checks are running when nothing else was wrong. */
  ghost predicate RefusedFor(reply: Reply, s: System, link: Option<Record>, env: Surroundings) {
    match reply
    case Ok(_) => false
    case Conflict => false
    case NotFound => AssetOf(link, env) !in s.assets || env.review.MissingReview?
    case Forbidden => !env.authorized
    case Unprocessable =>
      EndpointOf(link, env).0.UnknownProtocol? || EndpointOf(link, env).1 == 0 || env.review.ForeignReview?
    case TooMany => env.authorized && !env.review.MissingReview? && !env.review.ForeignReview?
  }

  function ScheduleSpec(s: System, link: Option<Record>, probeId: Uuid, env: Surroundings): (Option<Reply>, System) {
    if AssetOf(link, env) !in s.assets then (Some(NotFound), s)
    else if !env.authorized then (Some(Forbidden), s)
    else if EndpointOf(link, env).1 == 0 || EndpointOf(link, env).0.UnknownProtocol? then (Some(Unprocessable), s)
    else if env.review.MissingReview? then (Some(NotFound), s)
    else if env.review.ForeignReview? then (Some(Unprocessable), s)
    else if s.free == 0 then (Some(TooMany), s)
    else
      var run := NewRun(link, probeId, env, s.now);
      if Blocked(s, run) then (Some(TooMany), s)
      else (None, s.(probes := s.probes[probeId := run], free := s.free - 1))
  }

  function RequestSpec(s: System, id: Uuid, requestId: Uuid, probeId: Uuid, env: Surroundings): (Reply, System) {
    if requestId == NIL then (Unprocessable, s)
    else if id !in s.records then (NotFound, s)
    else if HasRequest(s.records[id], requestId) then (Ok(s.records[id]), s)
    else if s.records[id].appliedAt.None? || s.records[id].state.Verifying? then (Conflict, s)
    else if s.records[id].subject.assetId !in s.assets then (NotFound, s)
    else if !env.authorized then (Forbidden, s)
    else
      var next := OpenedRecord(s.records[id], requestId, probeId, s.now);
      var open := Issue(s, probeId, Some(id)).(records := s.records[id := next]);
      var (refused, t) := ScheduleSpec(open, Some(next), probeId, env);
      match refused
      case None => (Ok(next), t)
      case Some(reply) => (reply, t.(records := t.records[id := CloseInconclusive(next, s.now)]))
  }

  // ---------- what others may do meanwhile ----------

  predicate Unattempted(s: System, probeId: Uuid) {
    forall id | id in s.records :: !HasProbe(s.records[id], probeId)
  }

  /** Others go on, but do not use the probe id `mine`. */
  ghost predicate Meanwhile(s: System, t: System, mine: Uuid) {
    && Grows(s, t)
    && (mine !in s.issued ==> mine !in t.issued)
    && (mine !in s.probes ==> mine !in t.probes)
    && (Unattempted(s, mine) ==> Unattempted(t, mine))
  }

  lemma GrowsReflexive(s: System)
    ensures Grows(s, s)
  {}

  lemma FreeGrows(s: System, t: System)
    requires RecordsOk(s) && ProbesOk(s) && t == s.(free := t.free)
    ensures Grows(s, t) && RecordsOk(t) && ProbesOk(t)
  {
    hide Lifecycle;
    GrowsReflexive(s);
    forall p | p in s.probes ensures Linked(t, s.probes[p]) { assert Linked(s, s.probes[p]); }
  }

  lemma FireEvolves(s: System, id: Uuid, tr: Transition)
    requires RecordsOk(s) && ProbesOk(s) && id in s.records && Enabled(s.records[id], tr)
    requires tr.OpenAttempt? ==> tr.probeId in s.issued && s.issued[tr.probeId] == Some(id)
    ensures var t := s.(records := s.records[id := Fire(s.records[id], tr)]);
      RecordsOk(t) && ProbesOk(t) && Grows(s, t)
  {
    hide Lifecycle, Later, Linked, Fire, Enabled, RecordsOk;
    FireGrows(s, id, tr);
    FireKeepsRecords(s, id, tr);
    var t := s.(records := s.records[id := Fire(s.records[id], tr)]);
    forall p | p in t.probes ensures Linked(t, t.probes[p]) { GrowthKeepsLink(s, t, s.probes[p]); }
  }

  class Service {
    const config: Config
    var records: map<Uuid, Record>
    var probes: map<Uuid, ProbeRun>
    var now: Time
    var free: nat
    var assets: set<Uuid>
    ghost var issued: map<Uuid, Option<Uuid>>

    ghost function View(): System
      reads this
    {
      System(config, records, probes, map[], now, free, issued, assets)
    }

    ghost predicate Valid()
      reads this
    {
      RecordsOk(View()) && ProbesOk(View())
    }

    constructor (config: Config, now: Time)
      ensures Valid() && View() == Start(config, now)
    {
      this.config := config;
      this.now := now;
      records, probes, free, issued, assets := map[], map[], config.slots, map[], {};
    }

    /** Any number of steps of other requests, tasks and the clock. No other party draws or uses `mine`. */
    method Interfere(ghost quiet: bool, ghost mine: Uuid)
      requires Valid()
      modifies this
      ensures Valid() && Meanwhile(old(View()), View(), mine)
      ensures quiet ==> View() == old(View())
    {
      GrowsReflexive(View());
    }

    /** `update`: compare-and-swap on the revision. */
    method Update(next: Record, expected: nat) returns (ok: bool)
      modifies this`records
      ensures ok == CasSucceeds(old(View()), next, expected)
      ensures View() == Cas(old(View()), next, expected)
    {
      ok := next.id in records && records[next.id].revision == expected;
      if ok {
        records := records[next.id := next];
      }
    }

    /** Writing back a copy that was read earlier either fails or is one transition of the current record. */
    method Commit(ghost snap: Record, next: Record, revision: nat, ghost tr: Transition, ghost quiet: bool,
                  ghost mine: Uuid)
        returns (ok: bool)
      requires Valid() && Held(View(), snap) && Enabled(snap, tr) && next == Fire(snap, tr) && revision == snap.revision
      requires tr.OpenAttempt? ==> tr.probeId in issued && issued[tr.probeId] == Some(snap.id)
      modifies this
      ensures Valid() && Grows(old(View()), View()) && Held(View(), snap)
      ensures snap.id in records && (ok ==> records[snap.id] == next)
      ensures !ok ==> records[snap.id].revision != snap.revision
      ensures quiet && old(records)[snap.id] == snap ==>
                ok && View() == old(View()).(records := old(records)[snap.id := next])
      ensures mine !in old(probes) ==> mine !in probes
      ensures !ok && Unattempted(old(View()), mine) ==> Unattempted(View(), mine)
    {
      hide Lifecycle, Later, RecordsOk, ProbesOk, ProbesEvolve, Fire, Enabled;
      ghost var s0 := View();
      Interfere(quiet, mine);
      ghost var s1 := View();
      GrowthKeepsHeld(s0, s1, snap);
      FireKeepsId(snap, tr);
      if records[snap.id].revision == revision {
        CasSeesCurrent(s1, snap);
        FireEvolves(s1, snap.id, tr);
        GrowthKeepsHeld(s1, s1.(records := s1.records[snap.id := next]), snap);
        GrowsTransitive(s0, s1, s1.(records := s1.records[snap.id := next]));
      }
      ok := Update(next, revision);
    }

    method MarkApplied(id: Uuid, note: Option<string>, ghost quiet: bool) returns (reply: Reply)
      requires Valid()
      modifies this
      ensures Valid() && Grows(old(View()), View())
      ensures quiet ==> (reply, View()) == ApplySpec(old(View()), id, note)
      ensures reply.Ok? ==> id in records && records[id] == reply.record && reply.record.state.Applied?
      ensures note.Some? && |note.value| > 4096 ==> !reply.Ok?
      ensures reply.Ok? || reply.NotFound? || reply.Conflict? || reply.Unprocessable?
      ensures reply.NotFound? ==> id !in old(records)
      ensures reply.Unprocessable? ==> note.Some? && |note.value| > 4096
    {
      hide Later, Lifecycle, ProbesOk, ProbesEvolve;
      ghost var s0 := View();
      Interfere(quiet, NIL);
      if id !in records { return NotFound; }
      var record := records[id];
      if record.state.Verifying? { return Conflict; }
      if note.Some? && |note.value| > NOTE_LIMIT { return Unprocessable; }
      ghost var snap, s1 := record, View();
      HeldOf(s1, id);
      var revision := record.revision;
      record := record.(revision := record.revision + 1);
      record := record.(state := Applied);
      record := record.(appliedAt := Some(now));
      record := record.(note := note);
      var ok := Commit(snap, record, revision, Apply(now, note), quiet, NIL);
      GrowsTransitive(s0, s1, View());
      if !ok { return Conflict; }
      return Ok(record);
    }

    /** `reserve`: others may have taken the target since the slot was taken. */
    method Reserve(ghost link: Option<Record>, run: ProbeRun, ghost quiet: bool) returns (ok: bool)
      requires Valid() && SchedulerOk(View(), link, run.id) && run.remediationId == OwnerOf(link)
      requires run.finishedAt.None? && (link.Some? ==> OfEndpoint(link.value.subject, run))
      modifies this
      ensures Valid() && Grows(old(View()), View())
      ensures quiet ==> ok == !Blocked(old(View()), run)
      ensures quiet ==> View() == if ok then old(View()).(probes := old(probes)[run.id := run]) else old(View())
      ensures ok ==> run.id in probes && probes[run.id] == run && Linked(View(), run)
      ensures ok ==> forall p | p in probes && p != run.id && probes[p].target == run.target ::
        probes[p].finishedAt.Some? && probes[p].finishedAt.value + config.cooldown <= run.startedAt
      ensures !ok ==> exists p ::
        && p in probes && probes[p].target == run.target
        && (probes[p].finishedAt.Some? ==> probes[p].finishedAt.value + config.cooldown > run.startedAt)
      ensures !ok ==> run.id !in probes
    {
      hide Later, Lifecycle, RecordsOk, ProbesEvolve, Held;
      ghost var s0 := View();
      Interfere(quiet, run.id);
      ghost var s1 := View();
      if TargetBusy(probes, config.cooldown, run) { return false; }
      SchedulerLinksLater(s0, s1, link, run);
      ReserveEvolves(s1, run);
      GrowsTransitive(s0, s1, s1.(probes := s1.probes[run.id := run]));
      probes := probes[run.id := run];
      return true;
    }

    /** Take a slot, then reserve the target; a refused reservation gives the slot back. */
    method Schedule(link: Option<Record>, probeId: Uuid, env: Surroundings, ghost quiet: bool)
        returns (refused: Option<Reply>)
      requires Valid() && SchedulerOk(View(), link, probeId)
      modifies this
      ensures Valid() && Grows(old(View()), View())
      ensures quiet ==> (refused, View()) == ScheduleSpec(old(View()), link, probeId, env)
      ensures refused.None? ==> probeId in probes && probes[probeId].finishedAt.None? && Linked(View(), probes[probeId])
      ensures refused.None? ==> probes[probeId].id == probeId && IsAskedFor(probes[probeId], link, env)
      ensures refused.None? ==> env.authorized && !env.review.MissingReview? && !env.review.ForeignReview?
      ensures refused.Some? ==> !refused.value.Ok? && probeId !in probes
      ensures refused.Some? ==> RefusedFor(refused.value, old(View()), link, env)
    {
      hide Later, Lifecycle, RecordsOk, ProbesOk, ProbesEvolve, Held, Linked, Grows, SchedulerOk, TargetBusy;
      ghost var s0 := View();
      ProbeIsUnstored(s0, link, probeId);
      Interfere(quiet, probeId);
      ghost var s1 := View();
      AssetsStay(s0, s1);
      if AssetOf(link, env) !in assets { return Some(NotFound); }
      if !env.authorized { return Some(Forbidden); }
      var (protocol, port) := EndpointOf(link, env);
      if port == 0 || protocol.UnknownProtocol? { return Some(Unprocessable); }
      if env.review.MissingReview? { return Some(NotFound); }
      if env.review.ForeignReview? { return Some(Unprocessable); }
      if free == 0 { return Some(TooMany); }
      free := free - 1;
      ghost var s2 := View();
      FreeGrows(s1, s2);
      GrowsTransitive(s0, s1, s2);
      SchedulerStays(s0, s2, link, probeId);
      var run := NewRun(link, probeId, env, now);
      var ok := Reserve(link, run, quiet);
      ghost var s3 := View();
      GrowsTransitive(s0, s2, s3);
      if !ok {
        free := free + 1;
        FreeGrows(s3, View());
        GrowsTransitive(s0, s3, View());
        return Some(TooMany);
      }
      return None;
    }

    /** The probe could not start: close the attempt just opened, unless someone else already has. */
    method Compensate(began: Record, probeId: Uuid, ghost quiet: bool)
      requires Valid() && Held(View(), began) && began.state.Verifying? && began.attempts != []
      requires began.attempts[|began.attempts| - 1].probeId == probeId
      modifies this
      ensures Valid() && Grows(old(View()), View())
      ensures quiet && old(records)[began.id] == began ==>
                View() == old(View()).(records := old(records)[began.id := CloseInconclusive(began, old(now))])
      ensures probeId !in old(probes) ==> probeId !in probes
      ensures began.id in records && !Awaits(records[began.id], probeId)
    {
      hide Later, Lifecycle, ProbesOk, ProbesEvolve, RecordsOk, Linked;
      var record := began;
      var revision := record.revision;
      record := record.(revision := record.revision + 1);
      record := record.(state := Inconclusive);
      var last := |record.attempts| - 1;
      record := record.(attempts := record.attempts[last :=
        record.attempts[last].(completedAt := Some(now), outcome := Some(Inconclusive))]);
      HeldIsUnevidenced(View(), began);
      var closed := Commit(began, record, revision, CloseLast(Inconclusive, now, None), quiet, probeId);
      Compensated(View(), began, probeId);
    }

    /** The attempt is stored: schedule its probe, and close the attempt again when that is refused. */
    method StartProbe(record: Record, probeId: Uuid, env: Surroundings, ghost quiet: bool) returns (reply: Reply)
      requires Valid() && SchedulerOk(View(), Some(record), probeId)
      modifies this
      ensures Valid() && Grows(old(View()), View())
      ensures quiet && old(records)[record.id] == record ==>
        var (refused, t) := ScheduleSpec(old(View()), Some(record), probeId, env);
        (reply, View()) == match refused
          case None => (Ok(record), t)
          case Some(r) => (r, t.(records := t.records[record.id := CloseInconclusive(record, old(now))]))
      ensures record.id in records && records[record.id].subject == record.subject
      ensures HasProbe(records[record.id], probeId)
      ensures HasRequest(records[record.id], record.attempts[|record.attempts| - 1].requestId)
      ensures reply.Ok? ==> probeId in probes && probes[probeId].finishedAt.None?
      ensures reply.Ok? ==> IsAskedFor(probes[probeId], Some(records[record.id]), env)
      ensures !reply.Ok? ==> probeId !in probes && !Awaits(records[record.id], probeId)
      ensures !reply.Ok? ==> RefusedFor(reply, old(View()), Some(record), env)
    {
      hide Later, Lifecycle, ProbesOk, ProbesEvolve, RecordsOk, Linked, Grows, SchedulerOk, Awaits, IsAskedFor,
           CloseInconclusive, ScheduleSpec, RefusedFor, HasProbe, HasRequest, Held;
      ghost var s0 := View();
      SchedulerHolds(s0, record, probeId);
      var refused := Schedule(Some(record), probeId, env, quiet);
      ghost var s1 := View();
      GrowthKeepsHeld(s0, s1, record);
      if refused.Some? {
        RefusedKeeps(s0, Some(record), probeId, env);
        Compensate(record, probeId, quiet);
        GrowsTransitive(s0, s1, View());
        GrowthKeepsHeld(s1, View(), record);
        HeldKeeps(View(), record);
        return refused.value;
      }
      HeldKeeps(s1, record);
      StillAskedFor(s1, record, probes[probeId], env);
      return Ok(record);
    }

    method RequestVerification(id: Uuid, requestId: Uuid, probeId: Uuid, env: Surroundings, ghost quiet: bool)
        returns (reply: Reply)
      requires Valid() && probeId !in issued && probeId !in probes
      modifies this
      ensures Valid() && Grows(old(View()), View())
      ensures quiet ==> (reply, View()) == RequestSpec(old(View()), id, requestId, probeId, env)
      ensures reply.Ok? ==> id in records && HasRequest(records[id], requestId)
      ensures probeId in probes ==>
        && id in records && IsAskedFor(probes[probeId], Some(records[id]), env)
        && HasProbe(records[id], probeId) && probes[probeId].finishedAt.None?
      ensures !reply.Ok? ==> probeId !in probes
      ensures reply.NotFound? ==>
        id !in old(records) || old(records)[id].subject.assetId !in old(assets) || env.review.MissingReview?
      ensures reply.Forbidden? ==> !env.authorized
      ensures reply.Unprocessable? ==>
        || requestId == NIL || env.review.ForeignReview?
        || (id in records && (records[id].subject.port == 0 || records[id].subject.protocol.UnknownProtocol?))
      ensures reply.TooMany? ==> id in records && HasProbe(records[id], probeId)
      ensures reply.Conflict? && id in records ==> !HasProbe(records[id], probeId)
      ensures !reply.Ok? && id in records ==> !Awaits(records[id], probeId)
    {
      hide Later, Lifecycle, ProbesOk, ProbesEvolve, RecordsOk, Linked, Grows, Held, SchedulerOk, Awaits, IsAskedFor,
           HasProbe, HasRequest, CloseInconclusive;
      UnattemptedIsUnawaited(probeId);
      ghost var s0 := View();
      if requestId == NIL {
        GrowsReflexive(s0);
        UnissuedIsUnattempted(s0, probeId);
        return Unprocessable;
      }
      Interfere(quiet, probeId);
      UnissuedIsUnattempted(View(), probeId);
      if id in s0.records { SubjectStays(s0, View(), id); }
      if id !in records { return NotFound; }
      var record := records[id];
      if HasRequest(record, requestId) { return Ok(record); }
      if record.appliedAt.None? || record.state.Verifying? { return Conflict; }
      if record.subject.assetId !in assets { return NotFound; }
      if !env.authorized { return Forbidden; }
      ghost var snap, s1 := record, View();
      HeldOf(s1, id);
      UnissuedIsUnused(s1, snap, probeId);
      var revision := record.revision;
      record := record.(revision := record.revision + 1);
      record := record.(state := Verifying);
      issued := issued[probeId := Some(id)];
      record := record.(attempts := record.attempts + [Attempt(requestId, probeId, now, None, None, None)]);
      IssueEvolves(s1, probeId, id, snap);
      ghost var s2 := View();
      GrowsTransitive(s0, s1, s2);
      var ok := Commit(snap, record, revision, OpenAttempt(requestId, probeId, now), quiet, probeId);
      ghost var s3 := View();
      GrowsTransitive(s0, s2, s3);
      if !ok { return Conflict; }
      IssuedStays(s2, s3, probeId);
      OpenedIsScheduled(s3, snap, record, requestId, probeId, s2.now);
      reply := StartProbe(record, probeId, env, quiet);
      GrowsTransitive(s0, s3, View());
    }

    /** At most three tries; the second read already finds the attempt closed. */
    method CompleteProbe(run: ProbeRun, ghost quiet: bool) returns (outcome: Completion)
      requires Valid() && Linked(View(), run) && run.finishedAt.Some?
      modifies this
      ensures Valid() && Grows(old(View()), View())
      ensures outcome == Done && Linked(View(), run) && Settled(View(), run)
      ensures quiet ==> View() == Completed(old(View()), run)
    {
      hide Later, Lifecycle, ProbesOk, ProbesEvolve, VerifyRemediation, Grows, Settled;
      ghost var s0 := View();
      GrowsReflexive(s0);
      if run.remediationId.None? {
        NothingToSettle(s0, run);
        return Done;
      }
      var id := run.remediationId.value;
      var tries, finished := 0, false;
      outcome := Broken(Contention);
      while tries < 3 && !finished
        invariant Valid() && Grows(s0, View()) && Linked(View(), run)
        invariant finished ==> outcome == Done && Settled(View(), run)
        invariant !finished ==> tries <= 1 && (tries == 1 ==> Settled(View(), run) && !quiet)
        invariant quiet ==> View() == if finished then Completed(s0, run) else s0
        decreases 3 - tries, !finished
      {
        ghost var s1 := View();
        Interfere(quiet, NIL);
        GrowthKeepsLink(s1, View(), run);
        GrowsTransitive(s0, s1, View());
        if id !in records {
          outcome, finished := Broken(RecordMissing), true;
        } else if !HasProbe(records[id], run.id) {
          outcome, finished := Broken(NotLinked), true;
        } else {
          var record := records[id];
          var index := Position(record, run.id);
          SettledIsClosed(View(), run, index);
          if record.attempts[index].Open() {
            ghost var snap, s2 := record, View();
            HeldOf(s2, id);
            OpenIsLast(snap, index);
            var verdict := VerifyRemediation(record.subject, run);
            var revision := record.revision;
            record := record.(revision := record.revision + 1);
            var attempt := record.attempts[index];
            attempt := attempt.(outcome := Some(verdict));
            attempt := attempt.(completedAt := run.finishedAt);
            attempt := attempt.(after := Some(run));
            record := record.(attempts := record.attempts[index := attempt]);
            record := record.(state := verdict);
            var ok := Commit(snap, record, revision, CloseLast(verdict, run.finishedAt.value, Some(run)), quiet, NIL);
            GrowsTransitive(s0, s2, View());
            GrowthKeepsLink(s2, View(), run);
            if ok {
              ClosedIsSettled(View(), run, record, index);
              outcome, finished := Done, true;
            } else {
              OvertakenIsSettled(View(), snap, run, index);
              tries := tries + 1;
            }
          } else {
            outcome, finished := Done, true;
          }
        }
      }
    }

    /** `list_verifying`, in whatever order the store yields it. */
    method ListVerifying() returns (list: seq<Record>)
      requires Valid()
      ensures forall i | 0 <= i < |list| ::
        list[i].id in records && list[i] == records[list[i].id] && list[i].state.Verifying?
      ensures forall i, j | 0 <= i < j < |list| :: list[i].id != list[j].id
      ensures forall id | id in records && records[id].state.Verifying? ::
        exists i :: 0 <= i < |list| && list[i].id == id
    {
      hide Lifecycle, ProbesOk;
      list := [];
      var todo := records.Keys;
      while todo != {}
        invariant todo <= records.Keys
        invariant forall i | 0 <= i < |list| ::
          list[i].id in records && list[i].id !in todo && list[i] == records[list[i].id] && list[i].state.Verifying?
        invariant forall i, j | 0 <= i < j < |list| :: list[i].id != list[j].id
        invariant forall id | id in records && id !in todo && records[id].state.Verifying? ::
          exists i :: 0 <= i < |list| && list[i].id == id
        decreases todo
      {
        var id :| id in todo;
        todo := todo - {id};
        if records[id].state.Verifying? {
          ghost var before := list;
          list := list + [records[id]];
          assert list[|before|].id == id;
          assert forall i | 0 <= i < |before| :: list[i] == before[i];
        }
      }
    }

    /** One record of the recovery loop. */
    method RecoverOne(snap: Record, ghost quiet: bool)
      requires Valid() && Held(View(), snap) && snap.state.Verifying?
      modifies this
      ensures Valid() && Grows(old(View()), View())
      ensures quiet && old(records)[snap.id] == snap ==>
                View() == old(View()).(records := old(records)[snap.id := RecoveredRecord(old(View()), snap)])
      ensures Ripe(old(View()), snap) ==> Resolved(old(View()), View(), snap)
    {
      hide Lifecycle, Later, RecordsOk, ProbesOk, ProbesEvolve, Linked, Settled, Held;
      ghost var s0 := View();
      HeldIsUnevidenced(s0, snap);
      var record := snap;
      var last := |record.attempts| - 1;
      var attempt := record.attempts[last];
      Interfere(quiet, NIL);
      ghost var s1 := View();
      GrowthKeepsHeld(s0, s1, snap);
      if attempt.probeId in probes {
        var probe := probes[attempt.probeId];
        OwnProbe(s1, snap);
        if probe.finishedAt.Some? {
          var outcome := CompleteProbe(probe, quiet);
          GrowsTransitive(s0, s1, View());
          GrowthKeepsHeld(s1, View(), snap);
          SettledResolves(s0, View(), snap, probe);
          if quiet && s0.records[snap.id] == snap { CompletesLast(s0, snap, probe); }
        } else if Ripe(s0, snap) {
          StoredResolves(s0, s1, snap);
        }
      } else {
        StillUnstored(s0, s1, attempt.probeId);
        if now - attempt.requestedAt > START_GRACE {
          var revision := record.revision;
          record := record.(revision := record.revision + 1);
          record := record.(state := Inconclusive);
          attempt := attempt.(completedAt := Some(now));
          attempt := attempt.(outcome := Some(Inconclusive));
          record := record.(attempts := record.attempts[last := attempt]);
          var ok := Commit(snap, record, revision, CloseLast(Inconclusive, now, None), quiet, NIL);
          GrowsTransitive(s0, s1, View());
          AbandonResolves(s0, View(), snap);
        }
      }
    }

    /** Finish, or give up on, every verification that only recovery can still end. */
    method Recover(ghost quiet: bool)
      requires Valid()
      modifies this
      ensures Valid() && Grows(old(View()), View())
      ensures quiet ==> View() == WithRecoveredRecords(old(View()))
      ensures forall id | id in old(records) && Ripe(old(View()), old(records)[id]) ::
        Resolved(old(View()), View(), old(records)[id])
    {
      hide Lifecycle, Later, RecordsOk, ProbesOk, ProbesEvolve, Held, Linked, Settled, Grows, Enabled, Fire,
           RecoveredRecord, Ripe, Resolved, PartlyRecovered, WithRecoveredRecords;
      ghost var s0 := View();
      Interfere(quiet, NIL);
      var list := ListVerifying();
      ghost var s1 := View();
      NoneRecovered(s1, list);
      forall j | 0 <= j < |list| ensures Held(s1, list[j]) { HeldOf(s1, list[j].id); }
      GrowsReflexive(s1);
      for i := 0 to |list|
        invariant Valid() && Grows(s1, View())
        invariant forall j | 0 <= j < |list| :: Held(View(), list[j])
        invariant quiet ==> View() == PartlyRecovered(s1, list, i)
        invariant forall j | 0 <= j < i && Ripe(s1, list[j]) :: Resolved(s1, View(), list[j])
      {
        ghost var s2 := View();
        RecoverOne(list[i], quiet);
        GrowsTransitive(s1, s2, View());
        forall j | 0 <= j < |list| ensures Held(View(), list[j]) { EvolvesKeepsHeld(s2, View(), list[j]); }
        forall j | 0 <= j <= i && Ripe(s1, list[j]) ensures Resolved(s1, View(), list[j]) {
          if j < i {
            ResolvedStays(s1, s2, View(), list[j]);
          } else {
            RipeStays(s1, s2, View(), list[i]);
          }
        }
        if quiet { RecoversNext(s1, list, i); }
      }
      forall id | id in s0.records && Ripe(s0, s0.records[id]) ensures Resolved(s0, View(), s0.records[id]) {
        ListedIsResolved(s0, s1, View(), list, id);
      }
      GrowsTransitive(s0, s1, View());
      if quiet { AllRecovered(s1, list); }
    }

    /** The stored runs satisfying `wanted`, at most `limit` of them. */
    method ListRuns(unfinished: bool, limit: Option<nat>) returns (list: seq<ProbeRun>)
      requires Valid()
      ensures forall i | 0 <= i < |list| ::
        list[i].id in probes && list[i] == probes[list[i].id] && (list[i].finishedAt.None? <==> unfinished)
      ensures forall i, j | 0 <= i < j < |list| :: list[i].id != list[j].id
      ensures limit.Some? ==> |list| <= limit.value
      ensures limit.None? ==> forall p | p in probes && (probes[p].finishedAt.None? <==> unfinished) ::
        exists i :: 0 <= i < |list| && list[i].id == p
    {
      hide RecordsOk, Linked;
      list := [];
      var todo := probes.Keys;
      while todo != {} && (limit.Some? ==> |list| < limit.value)
        invariant todo <= probes.Keys && (limit.Some? ==> |list| <= limit.value)
        invariant forall i | 0 <= i < |list| ::
          list[i].id in probes && list[i] == probes[list[i].id] && (list[i].finishedAt.None? <==> unfinished)
        invariant forall i | 0 <= i < |list| :: list[i].id !in todo
        invariant forall i, j | 0 <= i < j < |list| :: list[i].id != list[j].id
        invariant forall p | p in probes && p !in todo && (probes[p].finishedAt.None? <==> unfinished) ::
          exists i :: 0 <= i < |list| && list[i].id == p
        decreases todo
      {
        var p :| p in todo;
        todo := todo - {p};
        if probes[p].finishedAt.None? == unfinished {
          ghost var before := list;
          list := list + [probes[p]];
          assert list[|before|].id == p;
          assert forall i | 0 <= i < |before| :: list[i] == before[i];
        }
      }
    }

    /** `probes.update`: the last writer wins. */
    method UpdateProbe(run: ProbeRun, ghost quiet: bool)
      requires Valid() && run.id in probes && run.finishedAt.Some?
      requires run.Asked() == probes[run.id].Asked()
      modifies this
      ensures Valid() && Grows(old(View()), View())
      ensures quiet ==> View() == old(View()).(probes := old(probes)[run.id := run])
      ensures run.id in probes && probes[run.id].finishedAt.Some?
    {
      hide RecordsOk, Linked, Grows;
      ghost var s0 := View();
      Interfere(quiet, NIL);
      ghost var s1 := View();
      StoredStays(s0, s1, run.id);
      WriteEvolves(s1, run);
      GrowsTransitive(s0, s1, s1.(probes := s1.probes[run.id := run]));
      probes := probes[run.id := run];
    }

    /**
      The whole recovery. It ends early, with `ok` false, when a recent run still needs its evidence and its asset is
      not known; runs past the threshold are called interrupted in any case.
     */
    method RecoverStaleProbes(ghost quiet: bool) returns (ok: bool, ghost list: seq<Uuid>)
      requires Valid()
      modifies this
      ensures Valid() && Grows(old(View()), View())
      ensures quiet ==> Selected(MarkOverdue(old(View())), list) && Pass(old(View()), list) == (ok, View())
      ensures forall p | p in old(probes) && Overdue(old(View()), old(probes)[p]) ::
        p in probes && probes[p].finishedAt.Some?
      ensures quiet ==> |list| <= 200
      ensures ok ==> forall id | id in old(records) && Stuck(old(View()), old(records)[id]) ::
        Resolved(old(View()), View(), old(records)[id])
    {
      hide Lifecycle, Later, RecordsOk, ProbesOk, Held, Linked, Settled, Grows, RecoveredRecord, Ripe, Resolved, Stuck,
           TakeUpAll, MarkOverdue, FirstUnderivable, Selected, Overdue;
      ghost var s0 := View();
      MarkInterrupted(quiet);
      ghost var s1 := View();
      ok, list := CompleteRecent(quiet);
      ghost var s2 := View();
      GrowsTransitive(s0, s1, s2);
      if ok {
        Recover(quiet);
        GrowsTransitive(s0, s2, View());
        GrowsTransitive(s1, s2, View());
        forall id | id in s0.records && Stuck(s0, s0.records[id]) ensures Resolved(s0, View(), s0.records[id]) {
          StuckIsResolved(s0, s1, s2, View(), id);
        }
      }
      forall p | p in s0.probes && Overdue(s0, s0.probes[p]) ensures p in probes && probes[p].finishedAt.Some? {
        FinishedStays(s1, View(), p);
      }
      assert list[..|list|] == list;
      if quiet { FewSelected(MarkOverdue(s0), list); }
    }

    method MarkInterrupted(ghost quiet: bool)
      requires Valid()
      modifies this
      ensures Valid() && Grows(old(View()), View())
      ensures quiet ==> View() == MarkOverdue(old(View()))
      ensures forall p | p in old(probes) && Overdue(old(View()), old(probes)[p]) ::
        p in probes && probes[p].finishedAt.Some?
    {
      hide RecordsOk, ProbesOk, PartlyMarked, MarkOverdue, Grows, Overdue, Interrupted;
      ghost var s0 := View();
      Interfere(quiet, NIL);
      var list := ListRuns(true, None);
      ghost var s1 := View();
      GrowsReflexive(s1);
      NoneMarked(s1, list);
      assert forall j | 0 <= j < |list| :: list[j].id in s1.probes && s1.probes[list[j].id] == list[j];
      for i := 0 to |list|
        invariant Valid() && Grows(s1, View())
        invariant quiet ==> View() == PartlyMarked(s1, list, i)
        invariant forall j | 0 <= j < i && Overdue(s1, list[j]) ::
          list[j].id in probes && probes[list[j].id].finishedAt.Some?
      {
        ghost var s2 := View();
        var run := list[i];
        StoredStays(s1, s2, run.id);
        OverdueLater(s1, s2, run);
        if now - run.startedAt > InterruptedAfter(config) {
          InterruptedStays(run, now);
          run := Interrupted(run, now);
          UpdateProbe(run, quiet);
          GrowsTransitive(s1, s2, View());
        } else {
          GrowsReflexive(s2);
        }
        forall j | 0 <= j < i && Overdue(s1, list[j])
          ensures list[j].id in probes && probes[list[j].id].finishedAt.Some?
        {
          FinishedStays(s2, View(), list[j].id);
        }
        if quiet { MarksNext(s1, list, i); }
      }
      GrowsTransitive(s0, s1, View());
      forall p | p in s0.probes && Overdue(s0, s0.probes[p]) ensures p in probes && probes[p].finishedAt.Some? {
        StoredStays(s0, s1, p);
        OverdueIsUnfinished(s1);
        FinishedLater(s0, s1, View(), p);
      }
      if quiet { AllMarked(s1, list); }
    }

    /** The finished runs among the recent ones get their evidence and complete their attempts, until one cannot. */
    method CompleteRecent(ghost quiet: bool) returns (ok: bool, ghost list: seq<Uuid>)
      requires Valid()
      modifies this
      ensures Valid() && Grows(old(View()), View())
      ensures quiet ==> Selected(old(View()), list)
      ensures quiet ==> (ok <==> FirstUnderivable(old(View()), list) == |list|)
      ensures quiet ==> View() == TakeUpAll(old(View()), list[..FirstUnderivable(old(View()), list)])
      ensures ok ==> forall p | p in list :: p in probes && Linked(View(), probes[p]) && Settled(View(), probes[p])
    {
      hide Lifecycle, Later, RecordsOk, ProbesOk, ProbesEvolve, Settled, Grows, RecoveredRecord, Linked, TakeUpAll,
           TakeUp, Selected, Completed;
      ghost var s0 := View();
      Interfere(quiet, NIL);
      var runs := ListRuns(false, Some(SELECTION));
      ghost var s1 := View();
      list := seq(|runs|, i requires 0 <= i < |runs| => runs[i].id);
      ListedAreSelected(s1, runs, list);
      GrowsReflexive(s1);
      TakesNothing(s1);
      for i := 0 to |runs|
        invariant Valid() && Grows(s1, View())
        invariant forall j | 0 <= j < i :: SettledRun(View(), list[j])
        invariant quiet ==> View() == TakeUpAll(s1, list[..i])
        invariant quiet ==> forall j | 0 <= j < i :: !Underivable(s1, list[j])
      {
        ghost var s2 := View();
        var run := runs[i];
        StoredStays(s1, s2, run.id);
        LinkOf(s1, run.id);
        if quiet { NotTakenYet(s1, list, i); }
        if NeedsEvidence(run) {
          Interfere(quiet, NIL);
          if run.assetId !in assets {
            if quiet { FirstIs(s1, list, i); }
            GrowsTransitive(s1, s2, View());
            GrowsTransitive(s0, s1, View());
            return false, list;
          }
          run := Evidenced(run);
          ghost var s3 := View();
          StoredStays(s2, s3, run.id);
          UpdateProbe(run, quiet);
          GrowsTransitive(s2, s3, View());
        } else {
          GrowsReflexive(s2);
        }
        ghost var s4 := View();
        if quiet { SameUpdate(s2, s4, runs[i]); }
        GrowsTransitive(s1, s2, s4);
        LinkStays(s1, s4, runs[i], run);
        var outcome := CompleteProbe(run, quiet);
        GrowsTransitive(s2, s4, View());
        GrowsTransitive(s1, s2, View());
        StoredStays(s1, View(), run.id);
        forall j | 0 <= j <= i ensures SettledRun(View(), list[j]) {
          if j < i { SettledRunStays(s2, View(), list[j]); } else { CompletedIsSettledRun(View(), run); }
        }
        if quiet { TakesNext(s1, list, i); }
      }
      if quiet { FirstIs(s1, list, |list|); }
      assert list[..|list|] == list;
      GrowsTransitive(s0, s1, View());
      ok := true;
      forall p | p in list ensures p in probes && Linked(View(), probes[p]) && Settled(View(), probes[p]) {
        var j :| 0 <= j < |list| && list[j] == p;
        assert SettledRun(View(), list[j]);
      }
    }
  }

  /** The stored run's attempt has been closed. */
  ghost predicate SettledRun(s: System, p: Uuid) { p in s.probes && Linked(s, s.probes[p]) && Settled(s, s.probes[p]) }

  lemma ListedAreSelected(s: System, runs: seq<ProbeRun>, list: seq<Uuid>)
    requires |list| == |runs| <= SELECTION && forall i | 0 <= i < |runs| :: list[i] == runs[i].id
    requires forall i | 0 <= i < |runs| ::
      runs[i].id in s.probes && runs[i] == s.probes[runs[i].id] && runs[i].finishedAt.Some?
    requires forall i, j | 0 <= i < j < |runs| :: runs[i].id != runs[j].id
    ensures Selected(s, list)
  {}

  lemma FewSelected(s: System, list: seq<Uuid>)
    requires Selected(s, list)
    ensures |list| <= 200
  {}

  lemma LinkOf(s: System, p: Uuid)
    requires ProbesOk(s) && p in s.probes
    ensures s.probes[p].id == p && Linked(s, s.probes[p])
  {}

  lemma LinkStays(s: System, t: System, run: ProbeRun, run': ProbeRun)
    requires Grows(s, t) && Linked(s, run) && run'.Asked() == run.Asked()
    ensures Linked(t, run')
  {
    GrowthKeepsLink(s, t, run);
  }

  lemma SettledRunStays(s: System, t: System, p: Uuid)
    requires Grows(s, t) && ProbesOk(s) && ProbesOk(t) && SettledRun(s, p)
    ensures SettledRun(t, p)
  {
    hide Later;
    GrowthKeepsLink(s, t, s.probes[p]);
  }

  lemma CompletedIsSettledRun(s: System, run: ProbeRun)
    requires ProbesOk(s) && run.id in s.probes && Linked(s, run) && Settled(s, run)
    ensures SettledRun(s, run.id)
  {}

  /** Before its turn a selected run is stored as it was selected. */
  lemma NotTakenYet(s: System, list: seq<Uuid>, i: nat)
    requires Selected(s, list) && i < |list|
    ensures var t := TakeUpAll(s, list[..i]);
      list[i] in s.probes && list[i] in t.probes && t.probes[list[i]] == s.probes[list[i]] && t.assets == s.assets
  {
    assert Selected(s, list[..i]);
    TakenProbes(s, list[..i]);
  }

  lemma SameUpdate(s: System, t: System, run: ProbeRun)
    requires run.id in s.probes && s.probes[run.id] == run
    requires t == if NeedsEvidence(run) then s.(probes := s.probes[run.id := Evidenced(run)]) else s
    ensures t == s.(probes := s.probes[run.id := Derived(run)])
  {
    assert s.probes[run.id := run] == s.probes;
  }

  lemma TakesNothing(s: System)
    ensures TakeUpAll(s, []) == s
  {}

  lemma TakesNext(s: System, list: seq<Uuid>, i: nat)
    requires Selected(s, list) && i < |list|
    ensures TakeUpAll(s, list[..i + 1])
      == var t, run := TakeUpAll(s, list[..i]), Derived(s.probes[list[i]]);
         Completed(t.(probes := t.probes[list[i] := run]), run)
  {
    NotTakenYet(s, list, i);
    assert list[..i + 1][..i] == list[..i];
    hide Completed;
  }

  lemma FirstIs(s: System, list: seq<Uuid>, i: nat)
    requires i <= |list| && (i < |list| ==> Underivable(s, list[i]))
    requires forall j | 0 <= j < i :: !Underivable(s, list[j])
    ensures FirstUnderivable(s, list) == i
  {}

  lemma WriteEvolves(s: System, run: ProbeRun)
    requires RecordsOk(s) && ProbesOk(s) && run.id in s.probes && run.finishedAt.Some?
    requires run.Asked() == s.probes[run.id].Asked()
    ensures var t := s.(probes := s.probes[run.id := run]); RecordsOk(t) && ProbesOk(t) && Grows(s, t)
  {
    hide Lifecycle, Later;
    var t := s.(probes := s.probes[run.id := run]);
    GrowsReflexive(s);
    forall p | p in t.probes ensures t.probes[p].id == p && Linked(t, t.probes[p]) {
      assert Linked(s, s.probes[p]);
    }
  }

  lemma FinishedStays(s: System, t: System, p: Uuid)
    requires Grows(s, t)
    ensures p in s.probes && s.probes[p].finishedAt.Some? ==> p in t.probes && t.probes[p].finishedAt.Some?
  {}

  lemma StoredStays(s: System, t: System, p: Uuid)
    requires Grows(s, t) && p in s.probes
    ensures p in t.probes && t.probes[p].Asked() == s.probes[p].Asked()
    ensures s.now <= t.now && s.config == t.config
  {}

  lemma OverdueLater(s: System, t: System, run: ProbeRun)
    requires Grows(s, t) && run.finishedAt.None?
    ensures Overdue(s, run) ==> t.now - run.startedAt > InterruptedAfter(t.config)
    ensures t.now == s.now ==> (Overdue(s, run) <==> t.now - run.startedAt > InterruptedAfter(t.config))
  {}

  lemma OverdueIsUnfinished(s: System)
    ensures forall run :: Overdue(s, run) ==> run.finishedAt.None?
  {}

  lemma InterruptedStays(run: ProbeRun, at: Time)
    ensures var done := Interrupted(run, at);
      && done.finishedAt.Some? && done.Asked() == run.Asked()
  {}

  /** A run that was overdue earlier is, later, finished or still overdue. */
  lemma FinishedLater(s0: System, s1: System, t: System, p: Uuid)
    requires Grows(s0, s1) && Grows(s1, t) && p in s0.probes && Overdue(s0, s0.probes[p])
    requires p in s1.probes && Overdue(s1, s1.probes[p]) ==> p in t.probes && t.probes[p].finishedAt.Some?
    ensures p in t.probes && t.probes[p].finishedAt.Some?
  {}

  function PartlyMarked(s: System, list: seq<ProbeRun>, n: nat): (t: System)
    requires n <= |list|
    ensures t == s.(probes := t.probes)
  {
    s.(probes := map p | p in s.probes ::
         if exists j | 0 <= j < n :: list[j].id == p then RecoveredProbe(s, s.probes[p]) else s.probes[p])
  }

  lemma NoneMarked(s: System, list: seq<ProbeRun>)
    ensures PartlyMarked(s, list, 0) == s
  {}

  lemma MarksNext(s: System, list: seq<ProbeRun>, i: nat)
    requires i < |list| && list[i].id in s.probes && s.probes[list[i].id] == list[i]
    ensures var t := PartlyMarked(s, list, i);
      PartlyMarked(s, list, i + 1) ==
        if Overdue(s, list[i]) then t.(probes := t.probes[list[i].id := Interrupted(list[i], s.now)]) else t
  {}

  lemma AllMarked(s: System, list: seq<ProbeRun>)
    requires forall p | p in s.probes && s.probes[p].finishedAt.None? :: exists i :: 0 <= i < |list| && list[i].id == p
    ensures PartlyMarked(s, list, |list|) == MarkOverdue(s)
  {}

  lemma StuckIsResolved(s0: System, s1: System, s2: System, t: System, id: Uuid)
    requires RecordsOk(s0) && RecordsOk(s2) && id in s0.records && Stuck(s0, s0.records[id])
    requires Grows(s0, s1) && Grows(s1, s2) && Grows(s0, s2) && Grows(s2, t)
    requires forall p | p in s0.probes && Overdue(s0, s0.probes[p]) :: p in s1.probes && s1.probes[p].finishedAt.Some?
    requires forall i | i in s2.records && Ripe(s2, s2.records[i]) :: Resolved(s2, t, s2.records[i])
    ensures Resolved(s0, t, s0.records[id])
  {
    hide RecordsOk;
    LifecycleIn(s0, id);
    var r, r2 := s0.records[id], s2.records[id];
    if r2 == r {
      assert Ripe(s2, r2) ==> Resolved(s2, t, r2);
      assert Later(r, t.records[id]);
    } else {
      assert Extends(r2.attempts[|r.attempts| - 1], t.records[id].attempts[|r.attempts| - 1]);
    }
  }

  /** A verification recovery ends now: its probe has finished, or never started in time. */
  predicate Ripe(s: System, r: Record) {
    && r.state.Verifying? && r.attempts != []
    && var a := r.attempts[|r.attempts| - 1];
    if a.probeId in s.probes then s.probes[a.probeId].finishedAt.Some? else s.now - a.requestedAt > START_GRACE
  }

  /** The attempt is closed; or its handler was merely slow and has stored the probe after all. */
  ghost predicate Resolved(s: System, t: System, r: Record) {
    && r.attempts != [] && r.id in t.records && |r.attempts| <= |t.records[r.id].attempts|
    && var a := r.attempts[|r.attempts| - 1];
    || !t.records[r.id].attempts[|r.attempts| - 1].Open()
    || (a.probeId !in s.probes && a.probeId in t.probes)
  }

  function PartlyRecovered(s: System, list: seq<Record>, n: nat): System
    requires n <= |list|
  {
    s.(records := map id | id in s.records ::
         if exists j | 0 <= j < n :: list[j].id == id then RecoveredRecord(s, s.records[id]) else s.records[id])
  }

  lemma NoneRecovered(s: System, list: seq<Record>)
    ensures PartlyRecovered(s, list, 0) == s
  {
    hide RecoveredRecord;
    assert PartlyRecovered(s, list, 0).records == s.records;
  }

  lemma EvolvesKeepsHeld(s: System, t: System, r: Record)
    requires Grows(s, t) && Held(s, r)
    ensures Held(t, r)
  {}

  lemma ResolvedStays(s: System, t: System, u: System, r: Record)
    requires Resolved(s, t, r) && Grows(t, u)
    ensures Resolved(s, u, r)
  {}

  /** What was ripe before earlier records were handled is ripe, or resolved by a late probe, when its turn comes. */
  lemma RipeStays(s: System, t: System, u: System, r: Record)
    requires Grows(s, t) && Grows(t, u) && Held(t, r) && Ripe(s, r)
    requires Ripe(t, r) ==> Resolved(t, u, r)
    ensures Resolved(s, u, r)
  {}

  lemma ListedIsResolved(s0: System, s1: System, t: System, list: seq<Record>, id: Uuid)
    requires RecordsOk(s0) && RecordsOk(s1) && Grows(s0, s1) && Grows(s1, t) && id in s0.records
    requires Ripe(s0, s0.records[id])
    requires forall i | 0 <= i < |list| :: list[i].id in s1.records && list[i] == s1.records[list[i].id]
    requires forall i | i in s1.records && s1.records[i].state.Verifying? ::
      exists j :: 0 <= j < |list| && list[j].id == i
    requires forall j | 0 <= j < |list| && Ripe(s1, list[j]) :: Resolved(s1, t, list[j])
    ensures Resolved(s0, t, s0.records[id])
  {
    hide RecordsOk;
    LifecycleIn(s0, id);
    var r := s0.records[id];
    var r1 := s1.records[id];
    if r1 == r {
      var j :| 0 <= j < |list| && list[j].id == id;
      assert list[j] == r;
      if Ripe(s1, r) { assert Resolved(s1, t, r); }
      assert Later(r, t.records[id]);
    } else {
      assert Extends(r1.attempts[|r.attempts| - 1], t.records[id].attempts[|r.attempts| - 1]);
    }
  }

  lemma LifecycleIn(s: System, id: Uuid)
    requires RecordsOk(s) && id in s.records
    ensures Lifecycle(s.records[id]) && s.records[id].id == id
  {}

  lemma RecoversNext(s: System, list: seq<Record>, i: nat)
    requires i < |list| && list[i].id in s.records && s.records[list[i].id] == list[i]
    requires forall j, k | 0 <= j < k < |list| :: list[j].id != list[k].id
    ensures var t := PartlyRecovered(s, list, i);
      && t.records[list[i].id] == list[i]
      && PartlyRecovered(s, list, i + 1) == t.(records := t.records[list[i].id := RecoveredRecord(t, list[i])])
  {}

  lemma AllRecovered(s: System, list: seq<Record>)
    requires forall id | id in s.records && s.records[id].state.Verifying? ::
      exists i :: 0 <= i < |list| && list[i].id == id
    ensures PartlyRecovered(s, list, |list|) == WithRecoveredRecords(s)
  {}

  /** The stored run of a record's attempt was drawn for that record. */
  lemma OwnProbe(s: System, r: Record)
    requires RecordsOk(s) && ProbesOk(s) && Held(s, r) && r.attempts != []
    requires r.attempts[|r.attempts| - 1].probeId in s.probes
    ensures var p := s.probes[r.attempts[|r.attempts| - 1].probeId];
      Linked(s, p) && p.remediationId == Some(r.id) && p.id == r.attempts[|r.attempts| - 1].probeId
  {}

  lemma SettledResolves(s: System, t: System, r: Record, run: ProbeRun)
    requires RecordsOk(t) && Held(t, r) && r.attempts != [] && Settled(t, run)
    requires run.remediationId == Some(r.id) && run.id == r.attempts[|r.attempts| - 1].probeId
    ensures Resolved(s, t, r)
  {}

  lemma StoredResolves(s: System, t: System, r: Record)
    requires Grows(s, t) && Ripe(s, r) && Held(t, r)
    requires r.attempts[|r.attempts| - 1].probeId in t.probes
    requires t.probes[r.attempts[|r.attempts| - 1].probeId].finishedAt.None?
    ensures Resolved(s, t, r)
  {}

  lemma StillUnstored(s: System, t: System, probeId: Uuid)
    requires Grows(s, t) && probeId !in t.probes
    ensures probeId !in s.probes && s.now <= t.now
  {}

  lemma AbandonResolves(s: System, t: System, r: Record)
    requires Held(t, r) && r.state.Verifying? && r.attempts != [] && t.records[r.id].revision != r.revision
    ensures Resolved(s, t, r)
  {}

  lemma CompletesLast(s: System, r: Record, run: ProbeRun)
    requires RecordsOk(s) && Held(s, r) && s.records[r.id] == r && r.state.Verifying? && r.attempts != []
    requires run.remediationId == Some(r.id) && run.id == r.attempts[|r.attempts| - 1].probeId
    requires run.id in s.probes && s.probes[run.id] == run && run.finishedAt.Some?
    ensures HasProbe(r, run.id)
    ensures Completed(s, run) == s.(records := s.records[r.id := RecoveredRecord(s, r)])
  {
    var last := |r.attempts| - 1;
    assert AttemptIndex(r, run.id, last);
    assert Position(r, run.id) == last;
  }

  /** The record has an open attempt waiting for this probe. */
  predicate Awaits(r: Record, probeId: Uuid) {
    exists i | 0 <= i < |r.attempts| :: r.attempts[i].probeId == probeId && r.attempts[i].Open()
  }

  lemma NothingToSettle(s: System, run: ProbeRun)
    requires run.remediationId.None?
    ensures Settled(s, run)
  {}

  lemma IssuedStays(s: System, t: System, p: Uuid)
    requires Grows(s, t) && p in s.issued
    ensures p in t.issued && t.issued[p] == s.issued[p]
  {}

  lemma UnattemptedIsUnawaited(probeId: Uuid)
    ensures forall r :: !HasProbe(r, probeId) ==> !Awaits(r, probeId)
  {}

  lemma UnissuedIsUnattempted(s: System, probeId: Uuid)
    requires RecordsOk(s) && probeId !in s.issued
    ensures Unattempted(s, probeId)
  {}

  lemma UnissuedIsUnused(s: System, snap: Record, probeId: Uuid)
    requires RecordsOk(s) && snap.id in s.records && s.records[snap.id] == snap && probeId !in s.issued
    ensures !HasProbe(snap, probeId)
  {}

  lemma IssueEvolves(s: System, probeId: Uuid, id: Uuid, snap: Record)
    requires RecordsOk(s) && ProbesOk(s) && probeId !in s.issued && Held(s, snap)
    ensures var t := Issue(s, probeId, Some(id));
      RecordsOk(t) && ProbesOk(t) && Grows(s, t) && Held(t, snap)
  {}

  lemma OpenedIsScheduled(s: System, snap: Record, next: Record, requestId: Uuid, probeId: Uuid, at: Time)
    requires RecordsOk(s) && snap.id in s.records && s.records[snap.id] == next
    requires next == OpenedRecord(snap, requestId, probeId, at)
    requires probeId in s.issued && s.issued[probeId] == Some(snap.id) && probeId !in s.probes
    ensures SchedulerOk(s, Some(next), probeId) && Held(s, next)
  {}

  lemma HeldIsUnevidenced(s: System, r: Record)
    requires Held(s, r) && r.state.Verifying?
    ensures r.attempts != [] && r.attempts[|r.attempts| - 1].after.None?
  {}

  lemma SchedulerHolds(s: System, r: Record, probeId: Uuid)
    requires SchedulerOk(s, Some(r), probeId)
    ensures Held(s, r) && r.state.Verifying? && r.attempts != [] && r.attempts[|r.attempts| - 1].probeId == probeId
  {}

  lemma RefusedKeeps(s: System, link: Option<Record>, probeId: Uuid, env: Surroundings)
    ensures ScheduleSpec(s, link, probeId, env).0.Some? ==> ScheduleSpec(s, link, probeId, env).1 == s
  {}

  lemma AssetsStay(s: System, t: System)
    requires Grows(s, t)
    ensures s.assets <= t.assets
  {}

  lemma SubjectStays(s: System, t: System, id: Uuid)
    requires Grows(s, t) && id in s.records
    ensures id in t.records && t.records[id].subject == s.records[id].subject && s.assets <= t.assets
  {}

  lemma HeldKeeps(s: System, r: Record)
    requires Held(s, r)
    ensures s.records[r.id].subject == r.subject
    ensures forall i | 0 <= i < |r.attempts| ::
      HasProbe(s.records[r.id], r.attempts[i].probeId) && HasRequest(s.records[r.id], r.attempts[i].requestId)
  {
    hide Lifecycle;
    var t := s.records[r.id];
    forall i | 0 <= i < |r.attempts|
      ensures HasProbe(t, r.attempts[i].probeId) && HasRequest(t, r.attempts[i].requestId)
    {
      assert Extends(r.attempts[i], t.attempts[i]);
    }
  }

  lemma StillAskedFor(s: System, r: Record, run: ProbeRun, env: Surroundings)
    requires Held(s, r) && Linked(s, run) && IsAskedFor(run, Some(r), env)
    ensures IsAskedFor(run, Some(s.records[r.id]), env) && HasProbe(s.records[r.id], run.id)
  {
    hide Lifecycle;
  }

  lemma ClosedIsSettled(s: System, run: ProbeRun, r: Record, index: nat)
    requires run.remediationId == Some(r.id) && r.id in s.records && s.records[r.id] == r
    requires AttemptIndex(r, run.id, index) && !r.attempts[index].Open()
    ensures Settled(s, run)
  {}

  /** After the compensating write nothing waits for the probe, whether the write won or was overtaken. */
  lemma Compensated(s: System, began: Record, probeId: Uuid)
    requires RecordsOk(s) && Held(s, began) && began.state.Verifying? && began.attempts != []
    requires began.attempts[|began.attempts| - 1].probeId == probeId
    requires s.records[began.id].revision != began.revision
    ensures !Awaits(s.records[began.id], probeId)
  {}

  lemma FireKeepsId(r: Record, tr: Transition)
    requires Enabled(r, tr)
    ensures Fire(r, tr).id == r.id
  {}

  lemma HeldOf(s: System, id: Uuid)
    requires RecordsOk(s) && id in s.records
    ensures Held(s, s.records[id]) && s.records[id].id == id
  {}

  lemma SchedulerLinksLater(s: System, t: System, link: Option<Record>, run: ProbeRun)
    requires SchedulerOk(s, link, run.id) && run.remediationId == OwnerOf(link) && Grows(s, t)
    requires link.Some? ==> OfEndpoint(link.value.subject, run)
    ensures Linked(t, run)
  {}

  lemma ReserveEvolves(s: System, run: ProbeRun)
    requires RecordsOk(s) && ProbesOk(s) && Linked(s, run) && run.finishedAt.None? && !Blocked(s, run)
    requires run.id !in s.probes
    ensures var t := s.(probes := s.probes[run.id := run]);
      RecordsOk(t) && ProbesOk(t) && Grows(s, t) && Linked(t, run)
  {}

  lemma ProbeIsUnstored(s: System, link: Option<Record>, probeId: Uuid)
    requires SchedulerOk(s, link, probeId)
    ensures probeId !in s.probes
  {}

  lemma SchedulerStays(s: System, t: System, link: Option<Record>, probeId: Uuid)
    requires SchedulerOk(s, link, probeId) && Grows(s, t) && probeId !in t.probes
    ensures SchedulerOk(t, link, probeId)
  {
    GrowthKeepsClient(s, t, Scheduling(link, probeId));
  }
}
