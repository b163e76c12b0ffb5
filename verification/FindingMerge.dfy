/** Findings made from one session's rule violations, and the merge of many sessions' findings. */
module FindingMerge {
  import opened Domain
  import opened Orders

  datatype Evidence = Evidence(sessionId: Option<Uuid>, observationId: Option<Uuid>, description: string)

  /** What a rule says about itself, carried along untouched. */
  datatype Advice = Advice(reference: string, severity: nat, category: nat, description: string, remediation: string)

  datatype Candidate = Candidate(policy: string, version: string, rule: string, title: string, advice: Advice,
    evidence: seq<Evidence>)
  {
    function Key(): Triple { (policy, version, rule) }
  }

  datatype Session = Session(id: Uuid, firstSeen: Time, lastSeen: Time)

  datatype Finding = Finding(
    session: Uuid, rule: string, policy: string, version: string, title: string, advice: Advice,
    affected: nat, firstSeen: Time, lastSeen: Time, evidence: seq<Evidence>)
  {
    function Key(): (string, string) { (rule, title) }
  }

  // ---------- one session ----------

  function Group(cs: seq<Candidate>, key: Triple): seq<Candidate> {
    if cs == [] then []
    else Group(cs[..|cs| - 1], key) + if cs[|cs| - 1].Key() == key then [cs[|cs| - 1]] else []
  }

  function AllEvidence(cs: seq<Candidate>): seq<Evidence> {
    if cs == [] then [] else AllEvidence(cs[..|cs| - 1]) + cs[|cs| - 1].evidence
  }

  function Keys(cs: seq<Candidate>): set<Triple> { set c | c in cs :: c.Key() }

  /** The finding of one group: the first candidate's texts and everybody's evidence. */
  function FindingOf(s: Session, key: Triple, group: seq<Candidate>): Finding
    requires group != []
  {
    Finding(s.id, key.2, key.0, key.1, group[0].title, group[0].advice, 1, s.firstSeen, s.lastSeen, AllEvidence(group))
  }

  function KeyOf(f: Finding): Triple { (f.policy, f.version, f.rule) }

  function KeySet(fs: seq<Finding>): set<Triple> { set f | f in fs :: KeyOf(f) }

  lemma KeySetGrows(fs: seq<Finding>, f: Finding)
    ensures KeySet(fs + [f]) == KeySet(fs) + {KeyOf(f)}
  {}

  ghost predicate KeysAscend(fs: seq<Finding>) {
    forall i, j | 0 <= i < j < |fs| :: TripleLess(KeyOf(fs[i]), KeyOf(fs[j]))
  }

  /** One finding per policy, version and rule, in the order of these keys, each made from its whole group. */
  ghost predicate Correlated(s: Session, cs: seq<Candidate>, done: set<Triple>, fs: seq<Finding>) {
    && KeysAscend(fs)
    && done == KeySet(fs)
    && (forall i | 0 <= i < |fs| ::
          Group(cs, KeyOf(fs[i])) != [] && fs[i] == FindingOf(s, KeyOf(fs[i]), Group(cs, KeyOf(fs[i]))))
  }

  /** The candidate is the first of its key. */
  ghost predicate FirstOfKey(cs: seq<Candidate>, i: nat) {
    i < |cs| && forall j | 0 <= j < i :: cs[j].Key() != cs[i].Key()
  }

  /** A finding spans its session's interval, counts once, and speaks in the words of its first candidate. */
  ghost predicate Spans(s: Session, cs: seq<Candidate>, f: Finding) {
    && f.session == s.id && f.affected == 1 && f.firstSeen == s.firstSeen && f.lastSeen == s.lastSeen
    && exists i: nat ::
         && FirstOfKey(cs, i) && f.title == cs[i].title && f.advice == cs[i].advice
         && f.rule == cs[i].rule && f.policy == cs[i].policy && f.version == cs[i].version
  }

  lemma {:induction false} GroupBeginsFirst(cs: seq<Candidate>, key: Triple)
    requires Group(cs, key) != []
    ensures exists i: nat :: FirstOfKey(cs, i) && cs[i].Key() == key && Group(cs, key)[0] == cs[i]
  {
    var front, n := cs[..|cs| - 1], |cs| - 1;
    if Group(front, key) != [] {
      GroupBeginsFirst(front, key);
      var i: nat :| FirstOfKey(front, i) && front[i].Key() == key && Group(front, key)[0] == front[i];
      assert FirstOfKey(cs, i);
    } else {
      GroupExactly(front, key);
      assert forall j | 0 <= j < n :: cs[j] in front;
      assert FirstOfKey(cs, n);
    }
  }

  lemma CorrelatedSpans(s: Session, cs: seq<Candidate>, done: set<Triple>, fs: seq<Finding>)
    requires Correlated(s, cs, done, fs)
    ensures forall f | f in fs :: Spans(s, cs, f)
  {
    forall i | 0 <= i < |fs| ensures Spans(s, cs, fs[i]) {
      GroupBeginsFirst(cs, KeyOf(fs[i]));
      var k: nat :| FirstOfKey(cs, k) && cs[k].Key() == KeyOf(fs[i]) && Group(cs, KeyOf(fs[i]))[0] == cs[k];
      hide Group, AllEvidence, FirstOfKey;
    }
  }

  lemma {:induction false} GroupExactly(cs: seq<Candidate>, key: Triple)
    ensures forall c :: c in Group(cs, key) <==> c in cs && c.Key() == key
    ensures key in Keys(cs) <==> Group(cs, key) != []
  {
    if cs != [] {
      GroupExactly(cs[..|cs| - 1], key);
      assert cs == cs[..|cs| - 1] + [cs[|cs| - 1]];
    }
    assert Group(cs, key) != [] ==> Group(cs, key)[0] in Group(cs, key);
  }

  lemma KeysGrow(cs: seq<Candidate>, c: Candidate)
    ensures Keys(cs + [c]) == Keys(cs) + {c.Key()}
  {}

  lemma GroupGrows(cs: seq<Candidate>, c: Candidate, key: Triple)
    ensures Group(cs + [c], key) == if c.Key() == key then Group(cs, key) + [c] else Group(cs, key)
  {}

  ghost predicate Grouped(cs: seq<Candidate>, grouped: map<Triple, seq<Candidate>>) {
    grouped.Keys == Keys(cs) && forall key | key in grouped :: grouped[key] == Group(cs, key)
  }

  lemma GroupOne(cs: seq<Candidate>, c: Candidate, grouped: map<Triple, seq<Candidate>>)
    requires Grouped(cs, grouped)
    ensures var group := if c.Key() in grouped then grouped[c.Key()] else [];
      Grouped(cs + [c], grouped[c.Key() := group + [c]])
  {
    GroupExactly(cs, c.Key());
    KeysGrow(cs, c);
    hide Keys;
    var group := if c.Key() in grouped then grouped[c.Key()] else [];
    var more := grouped[c.Key() := group + [c]];
    forall key | key in more ensures more[key] == Group(cs + [c], key) {
      GroupGrows(cs, c, key);
    }
  }

  method GroupByKey(cs: seq<Candidate>) returns (grouped: map<Triple, seq<Candidate>>)
    ensures Grouped(cs, grouped)
  {
    grouped := map[];
    assert cs[..0] == [];
    for i := 0 to |cs|
      invariant Grouped(cs[..i], grouped)
    {
      hide Grouped;
      var c := cs[i];
      assert cs[..i + 1] == cs[..i] + [c];
      GroupOne(cs[..i], c, grouped);
      grouped := grouped[c.Key() := (if c.Key() in grouped then grouped[c.Key()] else []) + [c]];
    }
    assert cs[..|cs|] == cs;
  }

  lemma LeastTriple(keys: set<Triple>)
    requires keys != {}
    ensures exists least :: IsLeast(keys, TripleLess, least)
  {
    TripleIsOrder();
    hide TripleLess;
    LeastExists(keys, TripleLess);
  }

  lemma NothingCorrelated(s: Session, cs: seq<Candidate>)
    ensures Correlated(s, cs, {}, [])
  {}

  method CorrelateSession(s: Session, cs: seq<Candidate>) returns (fs: seq<Finding>)
    ensures Correlated(s, cs, Keys(cs), fs)
    ensures forall f | f in fs :: Spans(s, cs, f)
  {
    hide TripleLess, AllEvidence, Group, Keys, Correlated;
    var grouped := GroupByKey(cs);
    NothingCorrelated(s, cs);
    fs := [];
    var rest := grouped.Keys;
    ghost var done := {};
    while rest != {}
      invariant rest <= Keys(cs) && done == Keys(cs) - rest && Correlated(s, cs, done, fs)
      invariant forall x, y | x in done && y in rest :: TripleLess(x, y)
      decreases |rest|
    {
      LeastTriple(rest);
      var key :| IsLeast(rest, TripleLess, key);
      GroupExactly(cs, key);
      var items := grouped[key];
      var evidence := Collect(items);
      CorrelateOne(s, cs, done, fs, key);
      fs := fs + [Finding(s.id, key.2, key.0, key.1, items[0].title, items[0].advice, 1, s.firstSeen, s.lastSeen,
        evidence)];
      rest, done := rest - {key}, done + {key};
    }
    assert done == Keys(cs);
    CorrelatedSpans(s, cs, Keys(cs), fs);
  }

  method Collect(items: seq<Candidate>) returns (evidence: seq<Evidence>)
    ensures evidence == AllEvidence(items)
  {
    evidence := [];
    for i := 0 to |items|
      invariant evidence == AllEvidence(items[..i])
    {
      assert items[..i + 1][..i] == items[..i];
      evidence := evidence + items[i].evidence;
    }
    assert items[..|items|] == items;
  }

  lemma CorrelateOne(s: Session, cs: seq<Candidate>, done: set<Triple>, fs: seq<Finding>, key: Triple)
    requires Correlated(s, cs, done, fs) && Group(cs, key) != []
    requires forall x | x in done :: TripleLess(x, key)
    ensures Correlated(s, cs, done + {key}, fs + [FindingOf(s, key, Group(cs, key))])
  {
    var f := FindingOf(s, key, Group(cs, key));
    assert KeyOf(f) == key;
    hide TripleLess, Group, FindingOf, KeyOf;
    var more := fs + [f];
    AscendOne(fs, f, done);
    KeySetGrows(fs, f);
    hide KeysAscend, KeySet;
    assert forall i | 0 <= i < |more| :: more[i] == if i < |fs| then fs[i] else f;
  }

  lemma AscendOne(fs: seq<Finding>, f: Finding, done: set<Triple>)
    requires KeysAscend(fs) && done == KeySet(fs)
    requires forall k | k in done :: TripleLess(k, KeyOf(f))
    ensures KeysAscend(fs + [f])
  {}

  function EvidenceIn(fs: seq<Finding>): seq<Evidence> {
    if fs == [] then [] else EvidenceIn(fs[..|fs| - 1]) + fs[|fs| - 1].evidence
  }

  /** The candidates whose key is in a set. */
  function Within(cs: seq<Candidate>, keys: set<Triple>): seq<Candidate> {
    if cs == [] then []
    else Within(cs[..|cs| - 1], keys) + if cs[|cs| - 1].Key() in keys then [cs[|cs| - 1]] else []
  }

  lemma LastWithin(cs: seq<Candidate>, keys: set<Triple>)
    requires cs != []
    ensures var front, c := cs[..|cs| - 1], cs[|cs| - 1];
      AllEvidence(Within(cs, keys)) == AllEvidence(Within(front, keys)) + if c.Key() in keys then c.evidence else []
  {
    var front, c := cs[..|cs| - 1], cs[|cs| - 1];
    EvidencePush(Within(front, keys), c);
    assert Within(front, keys) + [] == Within(front, keys);
    hide AllEvidence;
    assert AllEvidence(Within(front, keys)) + [] == AllEvidence(Within(front, keys));
  }

  lemma LastInGroup(cs: seq<Candidate>, key: Triple)
    requires cs != []
    ensures var front, c := cs[..|cs| - 1], cs[|cs| - 1];
      AllEvidence(Group(cs, key)) == AllEvidence(Group(front, key)) + if c.Key() == key then c.evidence else []
  {
    var front, c := cs[..|cs| - 1], cs[|cs| - 1];
    EvidencePush(Group(front, key), c);
    assert Group(front, key) + [] == Group(front, key);
    hide AllEvidence;
    assert AllEvidence(Group(front, key)) + [] == AllEvidence(Group(front, key));
  }

  lemma {:induction false} WithinMore(cs: seq<Candidate>, keys: set<Triple>, key: Triple)
    requires key !in keys
    ensures multiset(AllEvidence(Within(cs, keys + {key})))
         == multiset(AllEvidence(Within(cs, keys))) + multiset(AllEvidence(Group(cs, key)))
  {
    if cs != [] {
      var front, c := cs[..|cs| - 1], cs[|cs| - 1];
      WithinMore(front, keys, key);
      LastWithin(cs, keys + {key});
      LastWithin(cs, keys);
      LastInGroup(cs, key);
      hide AllEvidence, Within, Group;
      SplitPush(AllEvidence(Within(front, keys + {key})), AllEvidence(Within(front, keys)),
        AllEvidence(Group(front, key)), c.evidence);
    }
  }

  lemma SplitPush<T>(all: seq<T>, some: seq<T>, others: seq<T>, more: seq<T>)
    requires multiset(all) == multiset(some) + multiset(others)
    ensures multiset(all + more) == multiset(some + more) + multiset(others) == multiset(some) + multiset(others + more)
    ensures all + [] == all && some + [] == some && others + [] == others
  {}

  lemma EvidencePush(cs: seq<Candidate>, c: Candidate)
    ensures AllEvidence(cs + [c]) == AllEvidence(cs) + c.evidence
  {}

  lemma {:induction false} AllWithin(cs: seq<Candidate>, keys: set<Triple>)
    requires Keys(cs) <= keys
    ensures Within(cs, keys) == cs
  {
    if cs != [] {
      assert cs == cs[..|cs| - 1] + [cs[|cs| - 1]];
      AllWithin(cs[..|cs| - 1], keys);
    }
  }

  lemma {:induction false} NoneWithin(cs: seq<Candidate>)
    ensures Within(cs, {}) == []
  {
    if cs != [] { NoneWithin(cs[..|cs| - 1]); }
  }

  lemma {:induction false} EvidenceOfPart(s: Session, cs: seq<Candidate>, done: set<Triple>, fs: seq<Finding>)
    requires Correlated(s, cs, done, fs)
    ensures multiset(EvidenceIn(fs)) == multiset(AllEvidence(Within(cs, done)))
    decreases |fs|
  {
    if fs == [] {
      assert done == {};
      NoneWithin(cs);
    } else {
      var front, f := fs[..|fs| - 1], fs[|fs| - 1];
      var key := KeyOf(f);
      FrontCorrelated(s, cs, done, fs);
      EvidenceOfPart(s, cs, done - {key}, front);
      WithinMore(cs, done - {key}, key);
      assert done - {key} + {key} == done;
      assert f.evidence == AllEvidence(Group(cs, key));
    }
  }

  lemma FrontCorrelated(s: Session, cs: seq<Candidate>, done: set<Triple>, fs: seq<Finding>)
    requires Correlated(s, cs, done, fs) && fs != []
    ensures var key := KeyOf(fs[|fs| - 1]);
      key in done && Correlated(s, cs, done - {key}, fs[..|fs| - 1])
  {
    TripleIsOrder();
    hide TripleLess, Group, FindingOf, KeyOf;
    var front, f := fs[..|fs| - 1], fs[|fs| - 1];
    assert fs == front + [f];
    assert forall x | x in front :: TripleLess(KeyOf(x), KeyOf(f));
  }

  /** Correlating a session loses no evidence, duplicates none, and gives one finding per policy, version and rule. */
  lemma CorrelationConserves(s: Session, cs: seq<Candidate>, fs: seq<Finding>)
    requires Correlated(s, cs, Keys(cs), fs)
    ensures multiset(EvidenceIn(fs)) == multiset(AllEvidence(cs))
    ensures forall i, j | 0 <= i < j < |fs| :: KeyOf(fs[i]) != KeyOf(fs[j])
  {
    EvidenceOfPart(s, cs, Keys(cs), fs);
    AllWithin(cs, Keys(cs));
    TripleIsOrder();
    hide TripleLess;
    assert forall i, j | 0 <= i < j < |fs| :: TripleLess(KeyOf(fs[i]), KeyOf(fs[j]));
  }

  // ---------- merging ----------

  /** Pushes what is not there yet. */
  function AddMissing(evidence: seq<Evidence>, more: seq<Evidence>): seq<Evidence> {
    if more == [] then evidence
    else
      var rest, e := AddMissing(evidence, more[..|more| - 1]), more[|more| - 1];
      if e in rest then rest else rest + [e]
  }

  function Max(a: Time, b: Time): Time { if b > a then b else a }

  function Min(a: Time, b: Time): Time { if b < a then b else a }

  function Absorb(existing: Finding, f: Finding): Finding {
    existing.(affected := existing.affected + f.affected, evidence := AddMissing(existing.evidence, f.evidence),
              lastSeen := Max(existing.lastSeen, f.lastSeen), firstSeen := Min(existing.firstSeen, f.firstSeen))
  }

  /** The first finding of a key, or the length when there is none. */
  function Index(fs: seq<Finding>, key: (string, string)): (i: nat)
    ensures i <= |fs| && (i < |fs| ==> fs[i].Key() == key)
    ensures forall j | 0 <= j < i :: fs[j].Key() != key
  {
    if fs == [] || fs[0].Key() == key then 0 else 1 + Index(fs[1..], key)
  }

  function MergeOne(merged: seq<Finding>, f: Finding): seq<Finding> {
    var i := Index(merged, f.Key());
    if i < |merged| then merged[i := Absorb(merged[i], f)] else merged + [f]
  }

  function MergeInto(merged: seq<Finding>, fs: seq<Finding>): seq<Finding> {
    if fs == [] then merged else MergeOne(MergeInto(merged, fs[..|fs| - 1]), fs[|fs| - 1])
  }

  function Merge(fs: seq<Finding>): seq<Finding> { MergeInto([], fs) }

  /** The merge loop: the first finding of a rule and title is updated in place. */
  method MergeFindings(all: seq<Finding>) returns (merged: seq<Finding>)
    ensures merged == Merge(all)
  {
    merged := [];
    for n := 0 to |all|
      invariant merged == Merge(all[..n])
    {
      assert all[..n + 1][..n] == all[..n];
      var f, i := all[n], 0;
      while i < |merged| && merged[i].Key() != f.Key()
        invariant i <= |merged| && forall j | 0 <= j < i :: merged[j].Key() != f.Key()
      {
        i := i + 1;
      }
      if i < |merged| {
        var e := merged[i];
        var evidence := AddEvidence(e.evidence, f.evidence);
        e := e.(affected := e.affected + f.affected, evidence := evidence);
        if f.lastSeen > e.lastSeen { e := e.(lastSeen := f.lastSeen); }
        if f.firstSeen < e.firstSeen { e := e.(firstSeen := f.firstSeen); }
        assert e == Absorb(merged[i], f);
        IndexIs(merged, f.Key(), i);
        merged := merged[i := e];
      } else {
        merged := merged + [f];
      }
    }
    assert all[..|all|] == all;
  }

  lemma IndexIs(fs: seq<Finding>, key: (string, string), i: nat)
    requires i < |fs| && fs[i].Key() == key && forall j | 0 <= j < i :: fs[j].Key() != key
    ensures Index(fs, key) == i
  {}

  method AddEvidence(evidence: seq<Evidence>, more: seq<Evidence>) returns (all: seq<Evidence>)
    ensures all == AddMissing(evidence, more)
  {
    all := evidence;
    for i := 0 to |more|
      invariant all == AddMissing(evidence, more[..i])
    {
      assert more[..i + 1][..i] == more[..i];
      if more[i] !in all {
        all := all + [more[i]];
      }
    }
    assert more[..|more|] == more;
  }

  // ---------- what a merged finding is ----------

  /** The findings of one key, in order. */
  function Same(fs: seq<Finding>, key: (string, string)): seq<Finding> {
    if fs == [] then []
    else Same(fs[..|fs| - 1], key) + if fs[|fs| - 1].Key() == key then [fs[|fs| - 1]] else []
  }

  function Affected(fs: seq<Finding>): nat {
    if fs == [] then 0 else Affected(fs[..|fs| - 1]) + fs[|fs| - 1].affected
  }

  ghost predicate Summarises(m: Finding, group: seq<Finding>) {
    && group != []
    && m == group[0].(affected := m.affected, firstSeen := m.firstSeen, lastSeen := m.lastSeen, evidence := m.evidence)
    && m.affected == Affected(group)
    && (forall f | f in group :: m.firstSeen <= f.firstSeen && f.lastSeen <= m.lastSeen)
    && (exists f :: f in group && f.firstSeen == m.firstSeen) && (exists f :: f in group && f.lastSeen == m.lastSeen)
    && (forall e :: e in m.evidence <==> exists f :: f in group && e in f.evidence)
    && group[0].evidence <= m.evidence
  }

  lemma {:induction false} AddMissingExactly(evidence: seq<Evidence>, more: seq<Evidence>)
    ensures evidence <= AddMissing(evidence, more)
    ensures forall e :: e in AddMissing(evidence, more) <==> e in evidence || e in more
  {
    if more != [] {
      AddMissingExactly(evidence, more[..|more| - 1]);
      assert more == more[..|more| - 1] + [more[|more| - 1]];
    }
  }

  lemma AbsorbSummarises(m: Finding, group: seq<Finding>, f: Finding)
    requires Summarises(m, group) && f.Key() == m.Key()
    ensures Summarises(Absorb(m, f), group + [f])
  {
    AddMissingExactly(m.evidence, f.evidence);
    var more, n := group + [f], Absorb(m, f);
    assert more[..|group|] == group && forall x :: x in more <==> x in group || x == f;
    hide AddMissing;
    var first :| first in group && first.firstSeen == m.firstSeen;
    var last :| last in group && last.lastSeen == m.lastSeen;
    assert first in more && last in more && f in more;
    forall e ensures e in n.evidence <==> exists x :: x in more && e in x.evidence {
      if e in m.evidence {
        var x :| x in group && e in x.evidence;
        assert x in more;
      }
    }
  }

  /** Each merged finding summarises exactly the findings of its rule and title; none is missing, none occurs twice. */
  ghost predicate IsMerge(fs: seq<Finding>, merged: seq<Finding>) {
    && (forall i, j | 0 <= i < j < |merged| :: merged[i].Key() != merged[j].Key())
    && (forall i | 0 <= i < |merged| :: Summarises(merged[i], Same(fs, merged[i].Key())))
    && (forall f | f in fs :: Index(merged, f.Key()) < |merged|)
  }

  lemma SameLast(fs: seq<Finding>, f: Finding, key: (string, string))
    ensures Same(fs + [f], key) == Same(fs, key) + if f.Key() == key then [f] else []
  {}

  lemma {:induction false} NoneSame(fs: seq<Finding>, key: (string, string))
    requires forall f | f in fs :: f.Key() != key
    ensures Same(fs, key) == []
  {
    if fs != [] { NoneSame(fs[..|fs| - 1], key); }
  }

  lemma NewIsSummary(f: Finding)
    ensures Summarises(f, [f])
  {}

  lemma {:induction false} MergeSummarises(fs: seq<Finding>)
    ensures IsMerge(fs, Merge(fs))
  {
    if fs != [] {
      hide IsMerge, MergeOne;
      var front, f := fs[..|fs| - 1], fs[|fs| - 1];
      assert fs == front + [f];
      MergeSummarises(front);
      MergeOneSummarises(front, Merge(front), f);
    }
  }

  /** The finding stands for this one: same rule and title, its interval and its evidence included. */
  ghost predicate StandsFor(m: Finding, f: Finding) {
    && m.rule == f.rule && m.title == f.title && m.firstSeen <= f.firstSeen && f.lastSeen <= m.lastSeen
    && forall e | e in f.evidence :: e in m.evidence
  }

  /** Findings are merged exactly when they share rule and title. */
  lemma MergedExactly(fs: seq<Finding>)
    ensures var merged := Merge(fs);
      && (forall i, j | 0 <= i < j < |merged| :: merged[i].rule != merged[j].rule || merged[i].title != merged[j].title)
      && (forall f | f in fs :: exists m :: m in merged && StandsFor(m, f))
      && (forall m | m in merged :: exists f :: f in fs && StandsFor(m, f))
  {
    MergeSummarises(fs);
    var merged := Merge(fs);
    forall f | f in fs ensures exists m :: m in merged && StandsFor(m, f) {
      var m := merged[Index(merged, f.Key())];
      SameMembers(fs, f.Key());
      assert f in Same(fs, m.Key());
      assert StandsFor(m, f);
    }
    forall m | m in merged ensures exists f :: f in fs && StandsFor(m, f) {
      var f := Same(fs, m.Key())[0];
      SameMembers(fs, m.Key());
      assert f in Same(fs, m.Key());
      assert f in fs && StandsFor(m, f);
    }
  }

  lemma {:induction false} SameMembers(fs: seq<Finding>, key: (string, string))
    ensures forall f :: f in Same(fs, key) <==> f in fs && f.Key() == key
  {
    if fs != [] {
      SameMembers(fs[..|fs| - 1], key);
      assert fs == fs[..|fs| - 1] + [fs[|fs| - 1]];
    }
  }

  lemma MergeOneSummarises(fs: seq<Finding>, merged: seq<Finding>, f: Finding)
    requires IsMerge(fs, merged)
    ensures IsMerge(fs + [f], MergeOne(merged, f))
  {
    var next := MergeOne(merged, f);
    KeysStayDistinct(merged, f);
    forall j | 0 <= j < |next| ensures Summarises(next[j], Same(fs + [f], next[j].Key())) {
      SameLast(fs, f, next[j].Key());
      if next[j].Key() == f.Key() {
        TouchedSummarises(fs, merged, f, j);
      } else {
        assert next[j] == merged[j];
        assert Same(fs, next[j].Key()) + [] == Same(fs, next[j].Key());
      }
    }
    forall x | x in fs + [f] ensures Index(next, x.Key()) < |next| { StillThere(merged, f, x.Key()); }
  }

  lemma KeysStayDistinct(merged: seq<Finding>, f: Finding)
    requires forall i, j | 0 <= i < j < |merged| :: merged[i].Key() != merged[j].Key()
    ensures var next := MergeOne(merged, f); forall i, j | 0 <= i < j < |next| :: next[i].Key() != next[j].Key()
  {}

  lemma TouchedSummarises(fs: seq<Finding>, merged: seq<Finding>, f: Finding, j: nat)
    requires IsMerge(fs, merged) && j < |MergeOne(merged, f)| && MergeOne(merged, f)[j].Key() == f.Key()
    ensures Summarises(MergeOne(merged, f)[j], Same(fs, f.Key()) + [f])
  {
    var i := Index(merged, f.Key());
    KeysStayDistinct(merged, f);
    assert i < |merged| ==> MergeOne(merged, f)[i].Key() == f.Key();
    hide Summarises, Same, Absorb;
    if i < |merged| {
      assert i == j;
      AbsorbSummarises(merged[i], Same(fs, f.Key()), f);
    } else {
      NoneSame(fs, f.Key());
      assert [] + [f] == [f];
      NewIsSummary(f);
    }
  }

  lemma StillThere(merged: seq<Finding>, f: Finding, key: (string, string))
    ensures Index(merged, key) < |merged| || f.Key() == key ==> Index(MergeOne(merged, f), key) < |MergeOne(merged, f)|
    ensures Index(MergeOne(merged, f), key) < |MergeOne(merged, f)| ==> Index(merged, key) < |merged| || f.Key() == key
  {
    var next := MergeOne(merged, f);
    assert forall j | 0 <= j < |merged| :: next[j].Key() == merged[j].Key();
    assert |next| > |merged| ==> next[|merged|] == f;
  }

  /** Merging changes no total. */
  lemma {:induction false} TotalIsConserved(fs: seq<Finding>)
    ensures Affected(Merge(fs)) == Affected(fs)
  {
    if fs != [] {
      TotalIsConserved(fs[..|fs| - 1]);
      AffectedAfterOne(Merge(fs[..|fs| - 1]), fs[|fs| - 1]);
    }
  }

  lemma {:induction false} AffectedUpdate(fs: seq<Finding>, i: nat, f: Finding)
    requires i < |fs|
    ensures Affected(fs[i := f]) == Affected(fs) - fs[i].affected + f.affected
  {
    var n := |fs| - 1;
    if i < n {
      AffectedUpdate(fs[..n], i, f);
      assert fs[i := f][..n] == fs[..n][i := f];
    } else {
      assert fs[i := f][..n] == fs[..n];
    }
  }

  lemma AffectedAfterOne(merged: seq<Finding>, f: Finding)
    ensures Affected(MergeOne(merged, f)) == Affected(merged) + f.affected
  {
    var i := Index(merged, f.Key());
    if i < |merged| {
      AffectedUpdate(merged, i, Absorb(merged[i], f));
    } else {
      assert (merged + [f])[..|merged|] == merged;
    }
  }

  // ---------- batching ----------

  lemma {:induction false} AddMissingTwice(evidence: seq<Evidence>, first: seq<Evidence>, second: seq<Evidence>)
    ensures AddMissing(AddMissing(evidence, first), second) == AddMissing(evidence, AddMissing(first, second))
    decreases |second|
  {
    if second != [] {
      var front, e := second[..|second| - 1], second[|second| - 1];
      AddMissingTwice(evidence, first, front);
      AddMissingExactly(evidence, AddMissing(first, front));
      if e !in AddMissing(first, front) {
        assert (AddMissing(first, front) + [e])[..|AddMissing(first, front)|] == AddMissing(first, front);
      }
    }
  }

  /** Absorbing a finding that has itself absorbed another is absorbing the two in turn. */
  lemma AbsorbTwice(m: Finding, f: Finding, g: Finding)
    ensures Absorb(Absorb(m, f), g) == Absorb(m, Absorb(f, g))
  {
    AddMissingTwice(m.evidence, f.evidence, g.evidence);
  }

  lemma MergeOneKeys(merged: seq<Finding>, f: Finding)
    ensures var next := MergeOne(merged, f);
      && |merged| <= |next|
      && (forall j | 0 <= j < |merged| :: next[j].Key() == merged[j].Key())
      && Index(next, f.Key()) < |next|
  {
    var next := MergeOne(merged, f);
    assert |next| > |merged| ==> next[|merged|] == f;
  }

  lemma IndexStays(merged: seq<Finding>, f: Finding, key: (string, string))
    requires Index(merged, key) < |merged|
    ensures Index(MergeOne(merged, f), key) == Index(merged, key)
  {
    MergeOneKeys(merged, f);
    IndexIs(MergeOne(merged, f), key, Index(merged, key));
  }

  /** Merging a finding into itself-with-another: one key, two findings, one or two steps. */
  lemma MergeTwice(merged: seq<Finding>, f: Finding, g: Finding)
    requires f.Key() == g.Key()
    ensures MergeOne(MergeOne(merged, f), g) == MergeOne(merged, Absorb(f, g))
  {
    var i := Index(merged, f.Key());
    if i < |merged| {
      IndexStays(merged, f, f.Key());
      AbsorbTwice(merged[i], f, g);
    } else {
      IndexIs(merged + [f], f.Key(), i);
      assert (merged + [f])[i := Absorb(f, g)] == merged + [Absorb(f, g)];
    }
  }

  lemma MergeCommutesKnown(merged: seq<Finding>, f: Finding, g: Finding)
    requires f.Key() != g.Key() && Index(merged, f.Key()) < |merged| && Index(merged, g.Key()) < |merged|
    ensures MergeOne(MergeOne(merged, f), g) == MergeOne(MergeOne(merged, g), f)
  {
    var i, j := Index(merged, f.Key()), Index(merged, g.Key());
    assert i != j;
    IndexStays(merged, g, f.Key());
    IndexStays(merged, f, g.Key());
    MergeAt(merged, f);
    MergeAt(merged, g);
    MergeAt(MergeOne(merged, g), f);
    MergeAt(MergeOne(merged, f), g);
    hide Absorb, Index, MergeOne;
    UpdatesCommute(merged, i, j, Absorb(merged[i], f), Absorb(merged[j], g));
  }

  lemma UpdatesCommute<T>(s: seq<T>, i: nat, j: nat, a: T, b: T)
    requires i < |s| && j < |s| && i != j
    ensures s[i := a][j := b] == s[j := b][i := a] && s[i := a][j] == s[j] && s[j := b][i] == s[i]
  {}

  lemma UpdateThenAppend<T>(s: seq<T>, i: nat, a: T, b: T)
    requires i < |s|
    ensures (s + [b])[i := a] == s[i := a] + [b] && (s + [b])[i] == s[i]
  {}

  lemma MergeCommutesNew(merged: seq<Finding>, f: Finding, g: Finding)
    requires f.Key() != g.Key() && Index(merged, f.Key()) < |merged| && Index(merged, g.Key()) == |merged|
    ensures MergeOne(MergeOne(merged, f), g) == MergeOne(MergeOne(merged, g), f)
  {
    var i := Index(merged, f.Key());
    IndexStays(merged, g, f.Key());
    NoneAfter(merged, f, g.Key());
    MergeAt(merged, f);
    MergeAt(merged, g);
    MergeAt(MergeOne(merged, g), f);
    MergeAt(MergeOne(merged, f), g);
    hide Absorb, Index, MergeOne;
    UpdateThenAppend(merged, i, Absorb(merged[i], f), g);
  }

  /** Findings of different keys can be merged in either order, once one of the keys is known. */
  lemma MergeCommutes(merged: seq<Finding>, f: Finding, g: Finding)
    requires f.Key() != g.Key() && Index(merged, f.Key()) < |merged|
    ensures MergeOne(MergeOne(merged, f), g) == MergeOne(MergeOne(merged, g), f)
  {
    hide MergeOne;
    if Index(merged, g.Key()) < |merged| {
      MergeCommutesKnown(merged, f, g);
    } else {
      MergeCommutesNew(merged, f, g);
    }
  }

  lemma MergeAt(merged: seq<Finding>, f: Finding)
    ensures var i := Index(merged, f.Key());
      MergeOne(merged, f) == if i < |merged| then merged[i := Absorb(merged[i], f)] else merged + [f]
  {}

  lemma NoneAfter(merged: seq<Finding>, f: Finding, key: (string, string))
    requires Index(merged, key) == |merged| && Index(merged, f.Key()) < |merged| && f.Key() != key
    ensures Index(MergeOne(merged, f), key) == |merged| == |MergeOne(merged, f)|
  {}

  lemma {:induction false} MergeIntoConcat(merged: seq<Finding>, fs: seq<Finding>, gs: seq<Finding>)
    ensures MergeInto(merged, fs + gs) == MergeInto(MergeInto(merged, fs), gs)
    decreases |gs|
  {
    if gs == [] {
      assert fs + gs == fs;
    } else {
      MergeIntoConcat(merged, fs, gs[..|gs| - 1]);
      assert (fs + gs)[..|fs + gs| - 1] == fs + gs[..|gs| - 1];
    }
  }

  lemma {:induction false} KeyStays(merged: seq<Finding>, fs: seq<Finding>, key: (string, string))
    requires Index(merged, key) < |merged|
    ensures Index(MergeInto(merged, fs), key) < |MergeInto(merged, fs)|
  {
    if fs != [] {
      KeyStays(merged, fs[..|fs| - 1], key);
      IndexStays(MergeInto(merged, fs[..|fs| - 1]), fs[|fs| - 1], key);
      MergeOneKeys(MergeInto(merged, fs[..|fs| - 1]), fs[|fs| - 1]);
    }
  }

  /** A finding whose key is known and not among `fs` can be merged before or after them. */
  lemma {:induction false} MergePast(merged: seq<Finding>, fs: seq<Finding>, f: Finding)
    requires Index(merged, f.Key()) < |merged| && forall g | g in fs :: g.Key() != f.Key()
    ensures MergeInto(MergeOne(merged, f), fs) == MergeOne(MergeInto(merged, fs), f)
  {
    if fs != [] {
      MergePast(merged, fs[..|fs| - 1], f);
      KeyStays(merged, fs[..|fs| - 1], f.Key());
      MergeCommutes(MergeInto(merged, fs[..|fs| - 1]), f, fs[|fs| - 1]);
    }
  }

  lemma MergeSplit(merged: seq<Finding>, ms: seq<Finding>, i: nat)
    requires i < |ms|
    ensures MergeInto(merged, ms) == MergeInto(MergeOne(MergeInto(merged, ms[..i]), ms[i]), ms[i + 1..])
  {
    assert ms == ms[..i + 1] + ms[i + 1..];
    assert ms[..i + 1][..i] == ms[..i];
    MergeIntoConcat(merged, ms[..i + 1], ms[i + 1..]);
  }

  lemma MergeKnown(merged: seq<Finding>, ms: seq<Finding>, f: Finding, i: nat)
    requires i < |ms| && ms[i].Key() == f.Key()
    requires forall j, k | 0 <= j < k < |ms| :: ms[j].Key() != ms[k].Key()
    ensures MergeInto(merged, ms[i := Absorb(ms[i], f)]) == MergeOne(MergeInto(merged, ms), f)
  {
    var front, m, rest, next := MergeInto(merged, ms[..i]), ms[i], ms[i + 1..], ms[i := Absorb(ms[i], f)];
    assert forall g | g in rest :: g.Key() != f.Key();
    assert next[..i] == ms[..i] && next[i + 1..] == rest;
    MergeSplit(merged, ms, i);
    MergeSplit(merged, next, i);
    MergeTwice(front, m, f);
    MergeOneKeys(front, m);
    MergePast(MergeOne(front, m), rest, f);
  }

  /** Merging a batch that was merged before is merging the batch. */
  lemma {:induction false} MergeOfMerged(merged: seq<Finding>, fs: seq<Finding>)
    ensures MergeInto(merged, Merge(fs)) == MergeInto(merged, fs)
  {
    if fs != [] {
      var front, f := fs[..|fs| - 1], fs[|fs| - 1];
      var ms := Merge(front);
      MergeOfMerged(merged, front);
      MergeSummarises(front);
      var i := Index(ms, f.Key());
      if i < |ms| {
        MergeKnown(merged, ms, f, i);
      } else {
        MergeIntoConcat(merged, ms, [f]);
        assert [f][..0] == [];
      }
    }
  }

  /** However findings are split into batches that are merged first, the result is the same, order included. */
  lemma MergeIsBatchIndependent(xs: seq<Finding>, ys: seq<Finding>)
    ensures Merge(xs + ys) == Merge(Merge(xs) + Merge(ys))
    ensures Merge(Merge(xs)) == Merge(xs)
  {
    MergeIntoConcat([], xs, ys);
    MergeIntoConcat([], Merge(xs), Merge(ys));
    MergeOfMerged([], xs);
    MergeOfMerged(Merge(xs), ys);
  }
}
