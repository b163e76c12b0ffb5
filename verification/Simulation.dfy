/** Replaying stored sessions against a proposed policy: per-asset verdicts and their totals, through hash maps. */
module Simulation {
  import opened Domain
  import opened Sums

  datatype Session = Session(id: Uuid, lastSeen: Time, tlsKnown: bool, certificateKnown: bool)

  datatype Violation = Violation(rule: string, title: string, description: string)

  /** The rule engine and the texts made from its findings. */
  datatype Policy = Policy(name: string, evaluate: Session -> seq<Violation>, behaviour: (Session, Violation) -> string)

  datatype Asset = Asset(id: Uuid, addresses: seq<string>)

  datatype Compatibility = Compatible | WouldFail | InsufficientEvidence

  datatype Breakage = Breakage(rule: string, title: string, description: string, behaviour: string, count: nat)

  datatype AssetResult = AssetResult(assetId: Uuid, compatibility: Compatibility, evaluated: nat,
    breakages: seq<Breakage>)

  datatype Summary = Summary(rule: string, behaviour: string, description: string, assets: nat, sessions: nat)

  datatype Report = Report(
    totalAssets: nat, compatible: nat, wouldFail: nat, insufficient: nat, totalSessions: nat,
    summaries: seq<Summary>, results: seq<AssetResult>)

  /** The session store: what is known for an address, or None when it could not be read. */
  type Store = string -> Option<seq<Session>>

  // ---------- the sessions of one asset ----------

  function Fetched(store: Store, addresses: seq<string>): seq<Session> {
    if addresses == [] then []
    else
      var n := |addresses| - 1;
      Fetched(store, addresses[..n]) + match store(addresses[n]) case Some(ss) => ss case None => []
  }

  /** One session per id; of several with one id the first is kept. */
  function Unique(ss: seq<Session>): map<Uuid, Session> {
    if ss == [] then map[]
    else
      var rest, s := Unique(ss[..|ss| - 1]), ss[|ss| - 1];
      if s.id in rest then rest else rest[s.id := s]
  }

  function Recent(ss: map<Uuid, Session>, cutoff: Option<Time>): map<Uuid, Session> {
    map id | id in ss && (cutoff.Some? ==> ss[id].lastSeen >= cutoff.value) :: ss[id]
  }

  function Retained(store: Store, asset: Asset, cutoff: Option<Time>): map<Uuid, Session> {
    Recent(Unique(Fetched(store, asset.addresses)), cutoff)
  }

  /** The earliest session of an id decides, also about its age. */
  lemma {:induction false} UniqueIsFirst(ss: seq<Session>, id: Uuid)
    ensures id in Unique(ss) <==> exists i :: FirstAt(ss, id, i)
    ensures forall i | FirstAt(ss, id, i) :: id in Unique(ss) && Unique(ss)[id] == ss[i]
  {
    if ss != [] {
      var front, n := ss[..|ss| - 1], |ss| - 1;
      UniqueIsFirst(front, id);
      forall i ensures FirstAt(ss, id, i)
        <==> FirstAt(front, id, i) || (i == n && ss[n].id == id && id !in Unique(front)) {
        if i == n && ss[n].id == id && id !in Unique(front) {
          forall j | 0 <= j < n ensures ss[j].id != id {
            if ss[j].id == id { EarliestExists(front, id, j); }
          }
        }
      }
      if ss[n].id == id && id !in Unique(front) { assert FirstAt(ss, id, n); }
      if i :| FirstAt(front, id, i) { assert FirstAt(ss, id, i); }
    }
  }

  ghost predicate FirstAt(ss: seq<Session>, id: Uuid, i: int) {
    0 <= i < |ss| && ss[i].id == id && forall j | 0 <= j < i :: ss[j].id != id
  }

  lemma {:induction false} EarliestExists(ss: seq<Session>, id: Uuid, j: nat)
    requires j < |ss| && ss[j].id == id
    ensures exists i :: FirstAt(ss, id, i)
    decreases j
  {
    if k :| 0 <= k < j && ss[k].id == id {
      EarliestExists(ss, id, k);
    } else {
      assert FirstAt(ss, id, j);
    }
  }

  lemma {:induction false} FetchedExactly(store: Store, addresses: seq<string>, s: Session)
    ensures s in Fetched(store, addresses) <==> exists a :: a in addresses && store(a).Some? && s in store(a).value
  {
    if addresses != [] {
      var front, last := addresses[..|addresses| - 1], addresses[|addresses| - 1];
      FetchedExactly(store, front, s);
      assert forall a :: a in addresses <==> a in front || a == last by { assert addresses == front + [last]; }
    }
  }

  /** The sessions that are judged: the first of each id, no older than the cutoff. */
  lemma RetainedExactly(store: Store, asset: Asset, cutoff: Option<Time>, s: Session)
    ensures s.id in Retained(store, asset, cutoff) && Retained(store, asset, cutoff)[s.id] == s
      <==> && (exists i :: FirstAt(Fetched(store, asset.addresses), s.id, i) && Fetched(store, asset.addresses)[i] == s)
           && (cutoff == None || cutoff.value <= s.lastSeen)
  {
    UniqueIsFirst(Fetched(store, asset.addresses), s.id);
    hide Unique, Fetched;
  }

  /** A later cutoff never brings a session in, and only sessions before it are left out. */
  lemma CutoffIsMonotone(store: Store, asset: Asset, early: Time, late: Time, id: Uuid)
    requires early <= late
    ensures id in Retained(store, asset, Some(late)) ==>
      && id in Retained(store, asset, Some(early)) && id in Retained(store, asset, None)
      && Retained(store, asset, Some(early))[id] == Retained(store, asset, Some(late))[id]
    ensures id in Retained(store, asset, Some(early)) && id !in Retained(store, asset, Some(late)) ==>
      early <= Retained(store, asset, Some(early))[id].lastSeen < late
  {
    hide Unique, Fetched;
  }

  // ---------- counting ----------

  function Mentions(vs: seq<Violation>, rule: string): nat {
    if vs == [] then 0 else Mentions(vs[..|vs| - 1], rule) + if vs[|vs| - 1].rule == rule then 1 else 0
  }

  function HitsIn(p: Policy, ss: map<Uuid, Session>, rule: string, id: Uuid): nat {
    if id in ss then Mentions(p.evaluate(ss[id]), rule) else 0
  }

  ghost function HitsOf(p: Policy, ss: map<Uuid, Session>, rule: string): Uuid -> nat {
    (id: Uuid) => HitsIn(p, ss, rule, id)
  }

  /** How often these sessions break a rule. */
  ghost function Hits(p: Policy, ss: map<Uuid, Session>, ids: set<Uuid>, rule: string): nat {
    SumNats(ids, HitsOf(p, ss, rule))
  }

  // ---------- the verdict on one asset ----------

  ghost predicate Counted(p: Policy, ss: map<Uuid, Session>, ids: set<Uuid>, extra: seq<Violation>,
                          found: map<string, Breakage>)
  {
    forall rule ::
      && (rule in found <==> Hits(p, ss, ids, rule) + Mentions(extra, rule) > 0)
      && (rule in found ==>
            found[rule].rule == rule && found[rule].count == Hits(p, ss, ids, rule) + Mentions(extra, rule))
  }

  /** Every broken rule once, with the number of violations over all retained sessions. */
  ghost predicate Breaks(p: Policy, ss: map<Uuid, Session>, bs: seq<Breakage>) {
    && (forall i, j | 0 <= i < j < |bs| :: bs[i].rule != bs[j].rule)
    && (forall i | 0 <= i < |bs| :: bs[i].count == Hits(p, ss, ss.Keys, bs[i].rule) > 0)
    && (forall rule | Hits(p, ss, ss.Keys, rule) > 0 :: rule in Rules(bs))
  }

  function Rules(bs: seq<Breakage>): set<string> { set b | b in bs :: b.rule }

  ghost predicate Violated(p: Policy, ss: map<Uuid, Session>) { exists id :: id in ss && p.evaluate(ss[id]) != [] }

  ghost predicate Informative(ss: map<Uuid, Session>) {
    exists id :: id in ss && (ss[id].tlsKnown || ss[id].certificateKnown)
  }

  ghost function Verdict(p: Policy, ss: map<Uuid, Session>): Compatibility {
    if Violated(p, ss) then WouldFail else if Informative(ss) then Compatible else InsufficientEvidence
  }

  ghost predicate Judged(p: Policy, asset: Asset, ss: map<Uuid, Session>, r: AssetResult) {
    r.assetId == asset.id && r.evaluated == |ss| && r.compatibility == Verdict(p, ss) && Breaks(p, ss, r.breakages)
  }

  method Dedupe(ss: seq<Session>) returns (unique: map<Uuid, Session>)
    ensures unique == Unique(ss)
  {
    unique := map[];
    for i := 0 to |ss|
      invariant unique == Unique(ss[..i])
    {
      assert ss[..i + 1][..i] == ss[..i];
      if ss[i].id !in unique {
        unique := unique[ss[i].id := ss[i]];
      }
    }
    assert ss[..|ss|] == ss;
  }

  method Collect(store: Store, addresses: seq<string>) returns (ss: seq<Session>)
    ensures ss == Fetched(store, addresses)
  {
    ss := [];
    for i := 0 to |addresses|
      invariant ss == Fetched(store, addresses[..i])
    {
      assert addresses[..i + 1][..i] == addresses[..i];
      var known := store(addresses[i]);
      if known.Some? {
        ss := ss + known.value;
      }
    }
    assert addresses[..|addresses|] == addresses;
  }

  lemma CountedNext(p: Policy, ss: map<Uuid, Session>, ids: set<Uuid>, vs: seq<Violation>, k: nat,
                    found: map<string, Breakage>, b: Breakage)
    requires k < |vs| && Counted(p, ss, ids, vs[..k], found)
    requires b.rule == vs[k].rule && b.count == 1 + if b.rule in found then found[b.rule].count else 0
    ensures Counted(p, ss, ids, vs[..k + 1], found[b.rule := b])
  {
    assert vs[..k + 1][..k] == vs[..k];
    hide Hits;
  }

  lemma CountedDone(p: Policy, ss: map<Uuid, Session>, ids: set<Uuid>, id: Uuid, found: map<string, Breakage>)
    requires id in ss && id !in ids && Counted(p, ss, ids, p.evaluate(ss[id]), found)
    ensures Counted(p, ss, ids + {id}, [], found)
  {
    forall rule ensures Hits(p, ss, ids + {id}, rule) == Hits(p, ss, ids, rule) + Mentions(p.evaluate(ss[id]), rule) {
      NatsWithout(ids + {id}, id, HitsOf(p, ss, rule));
      assert ids + {id} - {id} == ids;
    }
    hide Hits, Mentions;
    assert forall rule :: Mentions([], rule) == 0 by { MentionsNothing(); }
  }

  lemma MentionsNothing()
    ensures forall rule :: Mentions([], rule) == 0
  {}

  /** Counts the violations of one session. */
  method Register(p: Policy, ghost ss: map<Uuid, Session>, ghost ids: set<Uuid>, s: Session, vs: seq<Violation>,
                  found: map<string, Breakage>) returns (found': map<string, Breakage>)
    requires Counted(p, ss, ids, [], found)
    ensures Counted(p, ss, ids, vs, found')
  {
    hide Counted;
    found' := found;
    assert vs[..0] == [];
    for k := 0 to |vs|
      invariant Counted(p, ss, ids, vs[..k], found')
    {
      var v := vs[k];
      var b := if v.rule in found' then found'[v.rule]
        else Breakage(v.rule, v.title, v.description, p.behaviour(s, v), 0);
      FoundRule(p, ss, ids, vs[..k], found', v.rule);
      b := b.(count := b.count + 1);
      CountedNext(p, ss, ids, vs, k, found', b);
      found' := found'[v.rule := b];
    }
    assert vs[..|vs|] == vs;
  }

  lemma NothingCounted(p: Policy, ss: map<Uuid, Session>)
    ensures Counted(p, ss, {}, [], map[])
  {}

  /** Replays the sessions, in whatever order they come, and counts the violations of each rule. */
  method Replay(p: Policy, ss: map<Uuid, Session>) returns (found: map<string, Breakage>, informative: bool)
    ensures Counted(p, ss, ss.Keys, [], found) && informative == Informative(ss)
  {
    hide Counted;
    NothingCounted(p, ss);
    found, informative := map[], false;
    var rest := ss.Keys;
    ghost var done := {};
    while rest != {}
      invariant rest <= ss.Keys && done == ss.Keys - rest && Counted(p, ss, done, [], found)
      invariant informative <==> exists id :: id in done && (ss[id].tlsKnown || ss[id].certificateKnown)
      decreases |rest|
    {
      var id :| id in rest;
      if ss[id].tlsKnown || ss[id].certificateKnown {
        informative := true;
      }
      found := Register(p, ss, done, ss[id], p.evaluate(ss[id]), found);
      CountedDone(p, ss, done, id, found);
      rest, done := rest - {id}, done + {id};
    }
    assert done == ss.Keys;
  }

  lemma FoundRule(p: Policy, ss: map<Uuid, Session>, ids: set<Uuid>, extra: seq<Violation>,
                  found: map<string, Breakage>, rule: string)
    requires Counted(p, ss, ids, extra, found)
    ensures rule in found ==> found[rule].rule == rule
  {}

  /** The breakages listed so far: those of the rules that were visited, one each. */
  ghost predicate Listed(found: map<string, Breakage>, done: set<string>, bs: seq<Breakage>) {
    && (forall b :: b in bs <==> b.rule in done && b.rule in found && found[b.rule] == b)
    && forall i, j | 0 <= i < j < |bs| :: bs[i].rule != bs[j].rule
  }

  lemma ListedNext(found: map<string, Breakage>, done: set<string>, bs: seq<Breakage>, rule: string)
    requires Listed(found, done, bs) && rule in found && rule !in done && found[rule].rule == rule
    ensures Listed(found, done + {rule}, bs + [found[rule]])
  {}

  lemma ListedAll(found: map<string, Breakage>, bs: seq<Breakage>)
    requires Listed(found, found.Keys, bs) && forall rule | rule in found :: found[rule].rule == rule
    ensures Rules(bs) == found.Keys && forall i | 0 <= i < |bs| :: bs[i].rule in found && found[bs[i].rule] == bs[i]
  {}

  /** The values of a map, in some order. */
  method Values(found: map<string, Breakage>) returns (bs: seq<Breakage>)
    requires forall rule | rule in found :: found[rule].rule == rule
    ensures forall i | 0 <= i < |bs| :: bs[i].rule in found && found[bs[i].rule] == bs[i]
    ensures forall i, j | 0 <= i < j < |bs| :: bs[i].rule != bs[j].rule
    ensures Rules(bs) == found.Keys
  {
    bs := [];
    var rest := found.Keys;
    ghost var done := {};
    while rest != {}
      invariant rest <= found.Keys && done == found.Keys - rest && Listed(found, done, bs)
      decreases |rest|
    {
      hide Listed;
      var rule :| rule in rest;
      ListedNext(found, done, bs, rule);
      bs := bs + [found[rule]];
      rest, done := rest - {rule}, done + {rule};
    }
    assert done == found.Keys;
    ListedAll(found, bs);
  }

  lemma {:induction false} SomeHit(p: Policy, ss: map<Uuid, Session>, ids: set<Uuid>, rule: string)
    requires ids <= ss.Keys && Hits(p, ss, ids, rule) > 0
    ensures Violated(p, ss)
    decreases |ids|
  {
    var id :| id in ids;
    NatsWithout(ids, id, HitsOf(p, ss, rule));
    if p.evaluate(ss[id]) == [] { SomeHit(p, ss, ids - {id}, rule); }
  }

  lemma AnyViolationHits(p: Policy, ss: map<Uuid, Session>, id: Uuid)
    requires id in ss && p.evaluate(ss[id]) != []
    ensures exists rule :: Hits(p, ss, ss.Keys, rule) > 0
  {
    var vs := p.evaluate(ss[id]);
    var rule := vs[|vs| - 1].rule;
    NatsWithout(ss.Keys, id, HitsOf(p, ss, rule));
    assert Mentions(vs, rule) > 0;
    assert Hits(p, ss, ss.Keys, rule) > 0;
  }

  /** An asset would fail exactly when it has a breakage. */
  lemma BreaksIffViolated(p: Policy, ss: map<Uuid, Session>, bs: seq<Breakage>)
    requires Breaks(p, ss, bs)
    ensures bs != [] <==> Violated(p, ss)
  {
    if bs != [] { SomeHit(p, ss, ss.Keys, bs[0].rule); }
    if Violated(p, ss) {
      var id :| id in ss && p.evaluate(ss[id]) != [];
      AnyViolationHits(p, ss, id);
    }
  }

  method Judge(p: Policy, store: Store, asset: Asset, cutoff: Option<Time>) returns (r: AssetResult)
    ensures Judged(p, asset, Retained(store, asset, cutoff), r)
  {
    var fetched := Collect(store, asset.addresses);
    var unique := Dedupe(fetched);
    var ss := Recent(unique, cutoff);
    hide Retained, Recent, Hits, Violated, Informative;
    assert ss == Retained(store, asset, cutoff) by { RetainedIs(store, asset, cutoff); }
    if ss == map[] {
      NothingSeen(p, ss);
      return AssetResult(asset.id, InsufficientEvidence, 0, []);
    }
    var found, informative := Replay(p, ss);
    MentionsNothing();
    var bs := Values(found);
    assert Breaks(p, ss, bs);
    BreaksIffViolated(p, ss, bs);
    var verdict := if bs != [] then WouldFail else if informative then Compatible else InsufficientEvidence;
    r := AssetResult(asset.id, verdict, |ss|, bs);
  }

  lemma RetainedIs(store: Store, asset: Asset, cutoff: Option<Time>)
    ensures Retained(store, asset, cutoff) == Recent(Unique(Fetched(store, asset.addresses)), cutoff)
  {}

  lemma NothingSeen(p: Policy, ss: map<Uuid, Session>)
    requires ss == map[]
    ensures Verdict(p, ss) == InsufficientEvidence && Breaks(p, ss, [])
  {}

  // ---------- all assets ----------

  /** The retained sessions of the assets, one by one. */
  ghost predicate AllJudged(p: Policy, store: Store, cutoff: Option<Time>, assets: seq<Asset>, rs: seq<AssetResult>) {
    |rs| == |assets| && forall i | 0 <= i < |rs| :: Judged(p, assets[i], Retained(store, assets[i], cutoff), rs[i])
  }

  function CountOf(rs: seq<AssetResult>, c: Compatibility): nat {
    if rs == [] then 0 else CountOf(rs[..|rs| - 1], c) + if rs[|rs| - 1].compatibility == c then 1 else 0
  }

  function Evaluated(rs: seq<AssetResult>): nat {
    if rs == [] then 0 else Evaluated(rs[..|rs| - 1]) + rs[|rs| - 1].evaluated
  }

  /** The count of a rule among some breakages. */
  function CountFor(bs: seq<Breakage>, rule: string): nat {
    if bs == [] then 0 else CountFor(bs[..|bs| - 1], rule) + if bs[|bs| - 1].rule == rule then bs[|bs| - 1].count else 0
  }

  function AssetsWith(rs: seq<AssetResult>, rule: string): nat {
    if rs == [] then 0 else AssetsWith(rs[..|rs| - 1], rule) + if rule in Rules(rs[|rs| - 1].breakages) then 1 else 0
  }

  function SessionsWith(rs: seq<AssetResult>, rule: string): nat {
    if rs == [] then 0 else SessionsWith(rs[..|rs| - 1], rule) + CountFor(rs[|rs| - 1].breakages, rule)
  }

  /** Each rule's totals after some assets and the first breakages of the next one. */
  ghost predicate Tallied(rs: seq<AssetResult>, extra: seq<Breakage>, summary: map<string, Summary>) {
    forall rule ::
      && (rule in summary <==> AssetsWith(rs, rule) > 0 || rule in Rules(extra))
      && (rule in summary ==>
            && summary[rule].rule == rule
            && summary[rule].assets == AssetsWith(rs, rule) + (if rule in Rules(extra) then 1 else 0)
            && summary[rule].sessions == SessionsWith(rs, rule) + CountFor(extra, rule))
  }

  lemma {:induction false} CountForNone(bs: seq<Breakage>, rule: string)
    requires rule !in Rules(bs)
    ensures CountFor(bs, rule) == 0
  {
    if bs != [] {
      assert forall b | b in bs[..|bs| - 1] :: b in bs;
      CountForNone(bs[..|bs| - 1], rule);
    }
  }

  lemma {:induction false} NoSessionsWithout(rs: seq<AssetResult>, rule: string)
    requires AssetsWith(rs, rule) == 0
    ensures SessionsWith(rs, rule) == 0
  {
    if rs != [] {
      NoSessionsWithout(rs[..|rs| - 1], rule);
      CountForNone(rs[|rs| - 1].breakages, rule);
    }
  }

  lemma TalliedNext(rs: seq<AssetResult>, bs: seq<Breakage>, k: nat, summary: map<string, Summary>, s: Summary)
    requires k < |bs| && Tallied(rs, bs[..k], summary) && bs[k].rule !in Rules(bs[..k])
    requires s.rule == bs[k].rule
    requires s.assets == 1 + (if s.rule in summary then summary[s.rule].assets else 0)
    requires s.sessions == bs[k].count + (if s.rule in summary then summary[s.rule].sessions else 0)
    ensures Tallied(rs, bs[..k + 1], summary[s.rule := s])
  {
    hide AssetsWith, SessionsWith, CountFor, Rules;
    var front, more := bs[..k], bs[..k + 1];
    RulesOfMore(bs, k);
    CountForNone(front, s.rule);
    if s.rule !in summary { NoSessionsWithout(rs, s.rule); }
  }

  lemma RulesOfMore(bs: seq<Breakage>, k: nat)
    requires k < |bs|
    ensures var front, more := bs[..k], bs[..k + 1];
      && Rules(more) == Rules(front) + {bs[k].rule}
      && forall rule :: CountFor(more, rule) == CountFor(front, rule) + if rule == bs[k].rule then bs[k].count else 0
  {
    var front, more := bs[..k], bs[..k + 1];
    assert more[..k] == front && more == front + [bs[k]];
    assert forall b :: b in more <==> b in front || b == bs[k];
  }

  lemma TalliedDone(rs: seq<AssetResult>, r: AssetResult, summary: map<string, Summary>)
    requires Tallied(rs, r.breakages, summary)
    ensures Tallied(rs + [r], [], summary)
  {}

  method Summarise(ghost rs: seq<AssetResult>, bs: seq<Breakage>, summary: map<string, Summary>)
      returns (summary': map<string, Summary>)
    requires Tallied(rs, [], summary) && forall i, j | 0 <= i < j < |bs| :: bs[i].rule != bs[j].rule
    ensures Tallied(rs, bs, summary')
  {
    hide Tallied;
    summary' := summary;
    assert bs[..0] == [];
    for k := 0 to |bs|
      invariant Tallied(rs, bs[..k], summary')
    {
      var b := bs[k];
      var s := if b.rule in summary' then summary'[b.rule] else Summary(b.rule, b.behaviour, b.description, 0, 0);
      SummaryRule(rs, bs[..k], summary', b.rule);
      s := s.(assets := s.assets + 1, sessions := s.sessions + b.count);
      TalliedNext(rs, bs, k, summary', s);
      summary' := summary'[b.rule := s];
    }
    assert bs[..|bs|] == bs;
  }

  lemma SummaryRule(rs: seq<AssetResult>, extra: seq<Breakage>, summary: map<string, Summary>, rule: string)
    requires Tallied(rs, extra, summary)
    ensures rule in summary ==> summary[rule].rule == rule
  {}

  // ---------- the final order ----------

  function Rank(r: AssetResult): nat {
    match r.compatibility case WouldFail => 0 case InsufficientEvidence => 1 case Compatible => 2
  }

  /** A stable sort by rank. */
  function SortByRank(rs: seq<AssetResult>): seq<AssetResult> {
    if rs == [] then [] else InsertByRank(SortByRank(rs[..|rs| - 1]), rs[|rs| - 1])
  }

  function InsertByRank(sorted: seq<AssetResult>, r: AssetResult): seq<AssetResult> {
    if sorted == [] || Rank(sorted[|sorted| - 1]) <= Rank(r) then sorted + [r]
    else InsertByRank(sorted[..|sorted| - 1], r) + [sorted[|sorted| - 1]]
  }

  /** The results of one verdict, in order. */
  function Only(rs: seq<AssetResult>, c: Compatibility): (os: seq<AssetResult>)
    ensures forall i | 0 <= i < |os| :: os[i].compatibility == c
  {
    if rs == [] then []
    else Only(rs[..|rs| - 1], c) + if rs[|rs| - 1].compatibility == c then [rs[|rs| - 1]] else []
  }

  lemma {:induction false} InsertBefore(low: seq<AssetResult>, high: seq<AssetResult>, r: AssetResult)
    requires forall i | 0 <= i < |low| :: Rank(low[i]) <= Rank(r)
    requires forall i | 0 <= i < |high| :: Rank(high[i]) > Rank(r)
    ensures InsertByRank(low + high, r) == low + [r] + high
    decreases |high|
  {
    var all := low + high;
    if high == [] {
      assert all == low;
      assert low + [r] + high == low + [r];
    } else {
      var n := |high| - 1;
      assert all[..|all| - 1] == low + high[..n] && all[|all| - 1] == high[n];
      InsertBefore(low, high[..n], r);
      assert low + [r] + high[..n] + [high[n]] == low + [r] + high;
    }
  }

  /** Failing assets first, then those without evidence, then compatible ones, each in their original order. */
  lemma {:induction false} RankedOrder(rs: seq<AssetResult>)
    ensures SortByRank(rs) == Only(rs, WouldFail) + Only(rs, InsufficientEvidence) + Only(rs, Compatible)
  {
    if rs != [] {
      var front, r := rs[..|rs| - 1], rs[|rs| - 1];
      RankedOrder(front);
      var f, i, c := Only(front, WouldFail), Only(front, InsufficientEvidence), Only(front, Compatible);
      assert forall x: seq<AssetResult> {:trigger x + []} :: x + [] == x;
      var one := [r];
      assert Only(rs, WouldFail) == (if r.compatibility == WouldFail then f + one else f)
          && Only(rs, InsufficientEvidence) == (if r.compatibility == InsufficientEvidence then i + one else i)
          && Only(rs, Compatible) == (if r.compatibility == Compatible then c + one else c);
      RankApart(f, i, c, r);
    }
  }

  lemma RankApart(f: seq<AssetResult>, i: seq<AssetResult>, c: seq<AssetResult>, r: AssetResult)
    requires forall k | 0 <= k < |f| :: f[k].compatibility == WouldFail
    requires forall k | 0 <= k < |i| :: i[k].compatibility == InsufficientEvidence
    requires forall k | 0 <= k < |c| :: c[k].compatibility == Compatible
    ensures InsertByRank(f + i + c, r)
         == match r.compatibility
            case WouldFail => f + [r] + i + c
            case InsufficientEvidence => f + (i + [r]) + c
            case Compatible => f + i + (c + [r])
  {
    match r.compatibility
    case WouldFail =>
      assert f + i + c == f + (i + c);
      InsertBefore(f, i + c, r);
      assert f + [r] + (i + c) == f + [r] + i + c;
    case InsufficientEvidence =>
      InsertBefore(f + i, c, r);
      assert f + i + [r] + c == f + (i + [r]) + c;
    case Compatible =>
      assert f + i + c + [] == f + i + c;
      InsertBefore(f + i + c, [], r);
      assert f + i + c + [r] + [] == f + i + (c + [r]);
  }

  function InsertDescending(sorted: seq<Summary>, s: Summary): seq<Summary> {
    if sorted == [] || sorted[|sorted| - 1].sessions >= s.sessions then sorted + [s]
    else InsertDescending(sorted[..|sorted| - 1], s) + [sorted[|sorted| - 1]]
  }

  ghost predicate Descending(ss: seq<Summary>) { forall i, j | 0 <= i < j < |ss| :: ss[i].sessions >= ss[j].sessions }

  ghost predicate OnePerRule(ss: seq<Summary>) { forall i, j | 0 <= i < j < |ss| :: ss[i].rule != ss[j].rule }

  lemma {:induction false} InsertMembers(sorted: seq<Summary>, s: Summary)
    ensures forall x :: x in InsertDescending(sorted, s) <==> x == s || x in sorted
    decreases |sorted|
  {
    if sorted != [] && sorted[|sorted| - 1].sessions < s.sessions {
      InsertMembers(sorted[..|sorted| - 1], s);
      assert sorted == sorted[..|sorted| - 1] + [sorted[|sorted| - 1]];
    }
  }

  lemma Lower(ss: seq<Summary>, last: Summary)
    requires Descending(ss) && OnePerRule(ss)
    requires forall x | x in ss :: x.sessions >= last.sessions && x.rule != last.rule
    ensures Descending(ss + [last]) && OnePerRule(ss + [last])
  {}

  lemma {:induction false} InsertDescends(sorted: seq<Summary>, s: Summary)
    requires Descending(sorted) && OnePerRule(sorted) && forall x | x in sorted :: x.rule != s.rule
    ensures Descending(InsertDescending(sorted, s)) && OnePerRule(InsertDescending(sorted, s))
    decreases |sorted|
  {
    if sorted == [] || sorted[|sorted| - 1].sessions >= s.sessions {
      assert forall x | x in sorted :: x.sessions >= sorted[|sorted| - 1].sessions;
      Lower(sorted, s);
    } else {
      var front, last := sorted[..|sorted| - 1], sorted[|sorted| - 1];
      assert forall x | x in front :: x.sessions >= last.sessions && x.rule != last.rule;
      InsertDescends(front, s);
      InsertMembers(front, s);
      hide Descending, OnePerRule;
      Lower(InsertDescending(front, s), last);
    }
  }

  /** Each rule with its totals, largest number of sessions first. */
  ghost predicate Summaries(rs: seq<AssetResult>, ss: seq<Summary>) {
    && Descending(ss) && OnePerRule(ss)
    && (forall s | s in ss :: s.assets == AssetsWith(rs, s.rule) > 0 && s.sessions == SessionsWith(rs, s.rule))
    && (forall rule | AssetsWith(rs, rule) > 0 :: exists s :: s in ss && s.rule == rule)
  }

  method SortSummaries(ghost rs: seq<AssetResult>, summary: map<string, Summary>) returns (ss: seq<Summary>)
    requires Tallied(rs, [], summary)
    ensures Summaries(rs, ss)
  {
    ss := [];
    var rest := summary.Keys;
    while rest != {}
      invariant rest <= summary.Keys && Descending(ss) && OnePerRule(ss)
      invariant forall s :: s in ss <==> s.rule in summary.Keys - rest && summary[s.rule] == s
      decreases |rest|
    {
      hide Tallied;
      var rule :| rule in rest;
      SummaryRule(rs, [], summary, rule);
      InsertDescends(ss, summary[rule]);
      InsertMembers(ss, summary[rule]);
      ss := InsertDescending(ss, summary[rule]);
      rest := rest - {rule};
    }
    SummariesOf(rs, summary, ss);
  }

  lemma SummariesOf(rs: seq<AssetResult>, summary: map<string, Summary>, ss: seq<Summary>)
    requires Tallied(rs, [], summary) && Descending(ss) && OnePerRule(ss)
    requires forall s :: s in ss <==> s.rule in summary.Keys && summary[s.rule] == s
    ensures Summaries(rs, ss)
  {}

  // ---------- the whole simulation ----------

  ghost predicate Reported(p: Policy, store: Store, cutoff: Option<Time>, assets: seq<Asset>, rs: seq<AssetResult>,
    report: Report) {
    && AllJudged(p, store, cutoff, assets, rs)
    && report.results == Only(rs, WouldFail) + Only(rs, InsufficientEvidence) + Only(rs, Compatible)
    && report.compatible == CountOf(rs, Compatible) && report.wouldFail == CountOf(rs, WouldFail)
    && report.insufficient == CountOf(rs, InsufficientEvidence)
    && report.totalAssets == |rs| && report.totalSessions == Evaluated(rs)
    && Summaries(rs, report.summaries)
  }

  lemma JudgedDistinct(p: Policy, asset: Asset, ss: map<Uuid, Session>, r: AssetResult)
    requires Judged(p, asset, ss, r)
    ensures forall i, j | 0 <= i < j < |r.breakages| :: r.breakages[i].rule != r.breakages[j].rule
  {}

  lemma NothingTallied()
    ensures Tallied([], [], map[])
  {}

  lemma ResultsPush(rs: seq<AssetResult>, r: AssetResult)
    ensures forall c :: CountOf(rs + [r], c) == CountOf(rs, c) + if r.compatibility == c then 1 else 0
    ensures Evaluated(rs + [r]) == Evaluated(rs) + r.evaluated
  {}

  lemma JudgedPush(p: Policy, store: Store, cutoff: Option<Time>, assets: seq<Asset>, i: nat, rs: seq<AssetResult>,
                   r: AssetResult)
    requires i < |assets| && AllJudged(p, store, cutoff, assets[..i], rs)
    requires Judged(p, assets[i], Retained(store, assets[i], cutoff), r)
    ensures AllJudged(p, store, cutoff, assets[..i + 1], rs + [r])
  {}

  /** None when the policy's name is not known. */
  method RunSimulation(policy: Option<Policy>, store: Store, assets: seq<Asset>, cutoff: Option<Time>)
      returns (report: Option<Report>, ghost rs: seq<AssetResult>)
    ensures report.Some? <==> policy.Some?
    ensures report.Some? ==> Reported(policy.value, store, cutoff, assets, rs, report.value)
  {
    rs := [];
    if policy.None? { return None, []; }
    var results: seq<AssetResult> := [];
    var summary: map<string, Summary> := map[];
    var compatible, wouldFail, insufficient, sessions := 0, 0, 0, 0;
    NothingTallied();
    for i := 0 to |assets|
      invariant AllJudged(policy.value, store, cutoff, assets[..i], results)
      invariant compatible == CountOf(results, Compatible) && wouldFail == CountOf(results, WouldFail)
      invariant insufficient == CountOf(results, InsufficientEvidence) && sessions == Evaluated(results)
      invariant Tallied(results, [], summary)
    {
      hide Tallied, AllJudged, Judged, Retained, CountOf, Evaluated;
      var r := Judge(policy.value, store, assets[i], cutoff);
      JudgedDistinct(policy.value, assets[i], Retained(store, assets[i], cutoff), r);
      summary := Summarise(results, r.breakages, summary);
      TalliedDone(results, r, summary);
      sessions := sessions + r.evaluated;
      match r.compatibility {
        case WouldFail => wouldFail := wouldFail + 1;
        case Compatible => compatible := compatible + 1;
        case InsufficientEvidence => insufficient := insufficient + 1;
      }
      ResultsPush(results, r);
      JudgedPush(policy.value, store, cutoff, assets, i, results, r);
      results := results + [r];
    }
    assert assets[..|assets|] == assets;
    hide Tallied, AllJudged, Summaries, CountOf, Evaluated, Only;
    RankedOrder(results);
    var summaries := SortSummaries(results, summary);
    rs := results;
    report := Some(Report(|results|, compatible, wouldFail, insufficient, sessions, summaries, SortByRank(results)));
  }

  lemma {:induction false} CountsAddUp(rs: seq<AssetResult>)
    ensures CountOf(rs, Compatible) + CountOf(rs, WouldFail) + CountOf(rs, InsufficientEvidence) == |rs|
    ensures |Only(rs, WouldFail) + Only(rs, InsufficientEvidence) + Only(rs, Compatible)| == |rs|
  {
    if rs != [] { CountsAddUp(rs[..|rs| - 1]); }
  }

  function RetainedTotal(store: Store, cutoff: Option<Time>, assets: seq<Asset>): nat {
    if assets == [] then 0
    else RetainedTotal(store, cutoff, assets[..|assets| - 1]) + |Retained(store, assets[|assets| - 1], cutoff)|
  }

  lemma {:induction false} EvaluatedIsRetained(p: Policy, store: Store, cutoff: Option<Time>, assets: seq<Asset>,
                                               rs: seq<AssetResult>)
    requires AllJudged(p, store, cutoff, assets, rs)
    ensures Evaluated(rs) == RetainedTotal(store, cutoff, assets)
  {
    if rs != [] {
      hide Breaks, Verdict, Retained;
      EvaluatedIsRetained(p, store, cutoff, assets[..|assets| - 1], rs[..|rs| - 1]);
    }
  }

  /** The totals of a report balance. */
  lemma TotalsBalance(p: Policy, store: Store, cutoff: Option<Time>, assets: seq<Asset>, rs: seq<AssetResult>,
                      report: Report)
    requires Reported(p, store, cutoff, assets, rs, report)
    ensures report.compatible + report.wouldFail + report.insufficient == report.totalAssets == |report.results|
      == |assets|
    ensures report.totalSessions == RetainedTotal(store, cutoff, assets)
    ensures forall i, j | 0 <= i < j < |report.results| :: Rank(report.results[i]) <= Rank(report.results[j])
  {
    CountsAddUp(rs);
    EvaluatedIsRetained(p, store, cutoff, assets, rs);
    hide AllJudged, Summaries, Only, CountOf, Evaluated;
  }

  lemma {:induction false} TotalsConcat(xs: seq<AssetResult>, ys: seq<AssetResult>, rule: string)
    ensures AssetsWith(xs + ys, rule) == AssetsWith(xs, rule) + AssetsWith(ys, rule)
    ensures SessionsWith(xs + ys, rule) == SessionsWith(xs, rule) + SessionsWith(ys, rule)
    decreases |ys|
  {
    if ys == [] {
      assert xs + ys == xs;
    } else {
      assert (xs + ys)[..|xs + ys| - 1] == xs + ys[..|ys| - 1];
      TotalsConcat(xs, ys[..|ys| - 1], rule);
    }
  }

  lemma {:induction false} TotalsByVerdict(rs: seq<AssetResult>, rule: string)
    ensures AssetsWith(rs, rule)
         == AssetsWith(Only(rs, WouldFail), rule) + AssetsWith(Only(rs, InsufficientEvidence), rule)
           + AssetsWith(Only(rs, Compatible), rule)
    ensures SessionsWith(rs, rule)
         == SessionsWith(Only(rs, WouldFail), rule) + SessionsWith(Only(rs, InsufficientEvidence), rule)
            + SessionsWith(Only(rs, Compatible), rule)
  {
    if rs != [] {
      var front, r := rs[..|rs| - 1], rs[|rs| - 1];
      TotalsByVerdict(front, rule);
      OnlyTotals(rs, WouldFail, rule);
      OnlyTotals(rs, InsufficientEvidence, rule);
      OnlyTotals(rs, Compatible, rule);
      hide Rules, CountFor, Only;
    }
  }

  lemma OnlyTotals(rs: seq<AssetResult>, c: Compatibility, rule: string)
    requires rs != []
    ensures var front, r := rs[..|rs| - 1], rs[|rs| - 1];
      && AssetsWith(Only(rs, c), rule)
         == AssetsWith(Only(front, c), rule) + (if r.compatibility == c && rule in Rules(r.breakages) then 1 else 0)
      && SessionsWith(Only(rs, c), rule)
         == SessionsWith(Only(front, c), rule) + (if r.compatibility == c then CountFor(r.breakages, rule) else 0)
  {
    var os, r := Only(rs[..|rs| - 1], c), rs[|rs| - 1];
    assert (os + [r])[..|os|] == os && os + [] == os;
    hide Rules, CountFor;
  }

  /** Every summary of a report counts the results of that report. */
  lemma SummariesMatchResults(p: Policy, store: Store, cutoff: Option<Time>, assets: seq<Asset>, rs: seq<AssetResult>,
                              report: Report, s: Summary)
    requires Reported(p, store, cutoff, assets, rs, report) && s in report.summaries
    ensures s.assets == AssetsWith(report.results, s.rule) && s.sessions == SessionsWith(report.results, s.rule)
  {
    var f, i, c := Only(rs, WouldFail), Only(rs, InsufficientEvidence), Only(rs, Compatible);
    TotalsByVerdict(rs, s.rule);
    TotalsConcat(f + i, c, s.rule);
    TotalsConcat(f, i, s.rule);
    hide AllJudged, AssetsWith, SessionsWith, Only;
  }
}
