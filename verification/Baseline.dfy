/** The baseline of an asset's sessions and the detector that judges a session against it; rates are exact rationals. */
module Baseline {
  import opened Domain
  import opened SessionState
  import opened Sums

  datatype Certificate = Certificate(fingerprint: string, issuer: string)

  datatype Session = Session(
    peer: string, port: nat, version: Option<TlsVersion>, cipher: Option<string>, keyExchange: Option<KeyExchange>,
    certificate: Option<Certificate>, starttls: Option<StartTlsState>)

  datatype Baseline = Baseline(
    sampleCount: nat, coverage: real,
    versions: map<string, real>, ciphers: map<string, real>, keyExchanges: map<string, real>,
    fingerprints: seq<string>, issuers: seq<string>, peers: seq<string>, ports: seq<nat>,
    successRate: real, failureRate: real, perHour: real)

  datatype Kind = UnseenTlsVersion | RareCipher | SuccessRateDrop | UnexpectedIssuer | NewPeer

  datatype Signal = Signal(kind: Kind, current: string, deviation: real)

  // ---------- what a session contributes ----------

  function KeyExchangeName(kx: KeyExchange): string {
    match kx
    case Ecdhe => "ECDHE"
    case Dhe => "DHE"
    case RsaStatic => "RSA"
    case HybridPqc(pqc) => "HybridPQC(" + pqc + ")"
    case UnknownKx(u) => u
  }

  /** A feature of a session; versions and key exchanges are told apart by their text only. */
  type Feature = Session -> Option<string>

  const VERSION: Feature := (s: Session) => if s.version.Some? then Some(s.version.value.Display()) else None
  const CIPHER: Feature := (s: Session) => s.cipher
  const KEY_EXCHANGE: Feature :=
    (s: Session) => if s.keyExchange.Some? then Some(KeyExchangeName(s.keyExchange.value)) else None
  const FINGERPRINT: Feature :=
    (s: Session) => if s.certificate.Some? then Some(s.certificate.value.fingerprint) else None
  const ISSUER: Feature := (s: Session) => if s.certificate.Some? then Some(s.certificate.value.issuer) else None
  const PEER: Feature := (s: Session) => Some(s.peer)

  predicate Succeeded(s: Session) {
    && s.starttls.Some?
    && (s.starttls.value.AdvertisedAndUsed? || s.starttls.value.TlsEstablished? || s.starttls.value.TlsStarted?)
  }

  predicate Failed(s: Session) {
    s.starttls.Some? && (s.starttls.value.FailedHandshake? || s.starttls.value.Rejected?)
  }

  predicate Attempted(s: Session) { Succeeded(s) || Failed(s) || s.starttls == Some(AdvertisedNotUsed) }

  // ---------- counting ----------

  function CountIf(ss: seq<Session>, p: Session -> bool): (n: nat)
    ensures n <= |ss|
  {
    if ss == [] then 0 else CountIf(ss[..|ss| - 1], p) + if p(ss[|ss| - 1]) then 1 else 0
  }

  /** The sessions whose feature is `k`. */
  function Tally(ss: seq<Session>, f: Feature, k: string): nat { CountIf(ss, s => f(s) == Some(k)) }

  function Carriers(ss: seq<Session>, f: Feature): nat { CountIf(ss, s => f(s).Some?) }

  function Present(ss: seq<Session>, f: Feature): set<string> { set s | s in ss && f(s).Some? :: f(s).value }

  function Counts(ss: seq<Session>, f: Feature): map<string, nat> { map k | k in Present(ss, f) :: Tally(ss, f, k) }

  function AtLeastOne(n: nat): (m: nat)
    ensures m >= 1 && m >= n
  {
    if n == 0 then 1 else n
  }

  function Part(x: real, total: nat): real { x / AtLeastOne(total) as real }

  function Share(count: nat, total: nat): real { Part(count as real, total) }

  function Distribution(ss: seq<Session>, f: Feature): map<string, real> {
    map k | k in Present(ss, f) :: Share(Tally(ss, f, k), |ss|)
  }

  /** The different values of a feature, in order of first appearance. */
  function Firsts(ss: seq<Session>, f: Feature): seq<string> {
    if ss == [] then []
    else
      var rest, v := Firsts(ss[..|ss| - 1], f), f(ss[|ss| - 1]);
      if v.None? || v.value in rest then rest else rest + [v.value]
  }

  function Ports(ss: seq<Session>): seq<nat> {
    if ss == [] then []
    else
      var rest, p := Ports(ss[..|ss| - 1]), ss[|ss| - 1].port;
      if p in rest then rest else rest + [p]
  }

  function SuccessRate(attempts: nat, successes: nat): real {
    if attempts > 0 then successes as real / attempts as real else 1.0
  }

  function PerHour(count: nat, window: Time): real {
    count as real / ((if window / SECOND > 1 then window / SECOND else 1) as real / 3600.0)
  }

  function BaselineOf(ss: seq<Session>, window: Time): Baseline {
    Baseline(|ss|, if ss == [] then 0.0 else 1.0,
             Distribution(ss, VERSION), Distribution(ss, CIPHER), Distribution(ss, KEY_EXCHANGE),
             Firsts(ss, FINGERPRINT), Firsts(ss, ISSUER), Firsts(ss, PEER), Ports(ss),
             SuccessRate(CountIf(ss, Attempted), CountIf(ss, Succeeded)), Share(CountIf(ss, Failed), |ss|),
             PerHour(|ss|, window))
  }

  // ---------- the one pass over the sessions ----------

  lemma CountsGrow(ss: seq<Session>, i: nat, f: Feature)
    requires i < |ss|
    ensures var v, before := f(ss[i]), Counts(ss[..i], f);
      Counts(ss[..i + 1], f)
      == if v.None? then before else before[v.value := (if v.value in before then before[v.value] else 0) + 1]
  {
    var v, front, more := f(ss[i]), ss[..i], ss[..i + 1];
    assert more[..i] == front && forall s :: s in more <==> s in front || s == ss[i];
    assert Present(more, f) == if v.None? then Present(front, f) else Present(front, f) + {v.value};
    forall k ensures Tally(more, f, k) == Tally(front, f, k) + if v == Some(k) then 1 else 0 {}
    if v.Some? && v.value !in Present(front, f) { NoTally(front, f, v.value); }
  }

  lemma {:induction false} NoTally(ss: seq<Session>, f: Feature, k: string)
    ensures k in Present(ss, f) <==> Tally(ss, f, k) > 0
  {
    if ss != [] {
      var front, s := ss[..|ss| - 1], ss[|ss| - 1];
      NoTally(front, f, k);
      assert forall x :: x in ss <==> x in front || x == s;
    }
  }

  method Bump(counts: map<string, nat>, v: Option<string>) returns (more: map<string, nat>)
    ensures more ==
      if v.None? then counts else counts[v.value := (if v.value in counts then counts[v.value] else 0) + 1]
  {
    more := counts;
    if v.Some? {
      more := more[v.value := (if v.value in more then more[v.value] else 0) + 1];
    }
  }

  /** Divides every count by the number of samples, in whatever order the counts come out. */
  method Normalise(counts: map<string, nat>, total: nat) returns (shares: map<string, real>)
    ensures shares.Keys == counts.Keys && forall k | k in counts :: shares[k] == Share(counts[k], total)
  {
    shares := map[];
    var rest := counts.Keys;
    while rest != {}
      invariant rest <= counts.Keys && shares.Keys == counts.Keys - rest
      invariant forall k | k in shares :: shares[k] == Share(counts[k], total)
      decreases |rest|
    {
      var k :| k in rest;
      shares := shares[k := counts[k] as real / AtLeastOne(total) as real];
      rest := rest - {k};
    }
  }

  method Add(list: seq<string>, v: Option<string>) returns (more: seq<string>)
    ensures more == if v.None? || v.value in list then list else list + [v.value]
  {
    more := list;
    if v.Some? && v.value !in more {
      more := more + [v.value];
    }
  }

  lemma ListsGrow(ss: seq<Session>, i: nat, f: Feature)
    requires i < |ss|
    ensures var v, before := f(ss[i]), Firsts(ss[..i], f);
      Firsts(ss[..i + 1], f) == if v.None? || v.value in before then before else before + [v.value]
  {
    assert ss[..i + 1][..i] == ss[..i];
  }

  lemma CountGrows(ss: seq<Session>, i: nat, p: Session -> bool)
    requires i < |ss|
    ensures CountIf(ss[..i + 1], p) == CountIf(ss[..i], p) + if p(ss[i]) then 1 else 0
  {
    assert ss[..i + 1][..i] == ss[..i];
  }

  ghost predicate Tables(ss: seq<Session>, versions: map<string, nat>, ciphers: map<string, nat>,
    keyExchanges: map<string, nat>) {
    versions == Counts(ss, VERSION) && ciphers == Counts(ss, CIPHER) && keyExchanges == Counts(ss, KEY_EXCHANGE)
  }

  ghost predicate Lists(ss: seq<Session>, fingerprints: seq<string>, issuers: seq<string>, peers: seq<string>,
    ports: seq<nat>) {
    && fingerprints == Firsts(ss, FINGERPRINT) && issuers == Firsts(ss, ISSUER)
    && peers == Firsts(ss, PEER) && ports == Ports(ss)
  }

  ghost predicate Counters(ss: seq<Session>, attempts: nat, successes: nat, failures: nat) {
    attempts == CountIf(ss, Attempted) && successes == CountIf(ss, Succeeded) && failures == CountIf(ss, Failed)
  }

  method TabulateOne(ghost ss: seq<Session>, ghost i: nat, s: Session,
                     versions: map<string, nat>, ciphers: map<string, nat>, keyExchanges: map<string, nat>)
      returns (versions': map<string, nat>, ciphers': map<string, nat>, keyExchanges': map<string, nat>)
    requires i < |ss| && ss[i] == s && Tables(ss[..i], versions, ciphers, keyExchanges)
    ensures Tables(ss[..i + 1], versions', ciphers', keyExchanges')
  {
    hide Counts, KeyExchangeName;
    CountsGrow(ss, i, VERSION);
    versions' := Bump(versions, VERSION(s));
    CountsGrow(ss, i, CIPHER);
    ciphers' := Bump(ciphers, CIPHER(s));
    CountsGrow(ss, i, KEY_EXCHANGE);
    keyExchanges' := Bump(keyExchanges, KEY_EXCHANGE(s));
  }

  method ListOne(ghost ss: seq<Session>, ghost i: nat, s: Session,
                 fingerprints: seq<string>, issuers: seq<string>, peers: seq<string>, ports: seq<nat>)
      returns (fingerprints': seq<string>, issuers': seq<string>, peers': seq<string>, ports': seq<nat>)
    requires i < |ss| && ss[i] == s && Lists(ss[..i], fingerprints, issuers, peers, ports)
    ensures Lists(ss[..i + 1], fingerprints', issuers', peers', ports')
  {
    assert ss[..i + 1][..i] == ss[..i];
    ports' := if s.port in ports then ports else ports + [s.port];
    assert ports' == Ports(ss[..i + 1]);
    hide Firsts, Ports;
    ListsGrow(ss, i, FINGERPRINT);
    fingerprints' := Add(fingerprints, FINGERPRINT(s));
    ListsGrow(ss, i, ISSUER);
    issuers' := Add(issuers, ISSUER(s));
    ListsGrow(ss, i, PEER);
    peers' := Add(peers, PEER(s));
  }

  method CountOne(ghost ss: seq<Session>, ghost i: nat, s: Session, attempts: nat, successes: nat, failures: nat)
      returns (attempts': nat, successes': nat, failures': nat)
    requires i < |ss| && ss[i] == s && Counters(ss[..i], attempts, successes, failures)
    ensures Counters(ss[..i + 1], attempts', successes', failures')
  {
    hide CountIf;
    CountGrows(ss, i, Attempted);
    CountGrows(ss, i, Succeeded);
    CountGrows(ss, i, Failed);
    attempts', successes', failures' := attempts, successes, failures;
    if s.starttls.Some? {
      match s.starttls.value
      case AdvertisedAndUsed | TlsEstablished | TlsStarted => attempts', successes' := attempts + 1, successes + 1;
      case FailedHandshake | Rejected => attempts', failures' := attempts + 1, failures + 1;
      case AdvertisedNotUsed => attempts' := attempts + 1;
      case _ =>
    }
  }

  method Calculate(sessions: seq<Session>, window: Time) returns (b: Baseline)
    ensures b == BaselineOf(sessions, window)
  {
    var versions, ciphers, keyExchanges: map<string, nat> := map[], map[], map[];
    var fingerprints: seq<string>, issuers: seq<string>, peers: seq<string>, ports: seq<nat> := [], [], [], [];
    var attempts, successes, failures := 0, 0, 0;
    assert sessions[..0] == [];
    for i := 0 to |sessions|
      invariant Tables(sessions[..i], versions, ciphers, keyExchanges)
      invariant Lists(sessions[..i], fingerprints, issuers, peers, ports)
      invariant Counters(sessions[..i], attempts, successes, failures)
    {
      hide Tables, Lists, Counters;
      versions, ciphers, keyExchanges := TabulateOne(sessions, i, sessions[i], versions, ciphers, keyExchanges);
      fingerprints, issuers, peers, ports := ListOne(sessions, i, sessions[i], fingerprints, issuers, peers, ports);
      attempts, successes, failures := CountOne(sessions, i, sessions[i], attempts, successes, failures);
    }
    hide Tables, Lists, Counters, BaselineOf;
    assert sessions[..|sessions|] == sessions;
    b := Finish(sessions, window, versions, ciphers, keyExchanges, fingerprints, issuers, peers, ports,
                attempts, successes, failures);
  }

  /** Turns the counters into rates. */
  method Finish(sessions: seq<Session>, window: Time, versions: map<string, nat>, ciphers: map<string, nat>,
                keyExchanges: map<string, nat>, fingerprints: seq<string>, issuers: seq<string>, peers: seq<string>,
                ports: seq<nat>, attempts: nat, successes: nat, failures: nat) returns (b: Baseline)
    requires Tables(sessions, versions, ciphers, keyExchanges) && Lists(sessions, fingerprints, issuers, peers, ports)
    requires Counters(sessions, attempts, successes, failures)
    ensures b == BaselineOf(sessions, window)
  {
    hide Tally, Present, Firsts, CountIf, Ports;
    var versionShares := Normalise(versions, |sessions|);
    var cipherShares := Normalise(ciphers, |sessions|);
    var keyExchangeShares := Normalise(keyExchanges, |sessions|);
    assert versionShares == Distribution(sessions, VERSION);
    assert cipherShares == Distribution(sessions, CIPHER);
    assert keyExchangeShares == Distribution(sessions, KEY_EXCHANGE);
    var successRate := if attempts > 0 then successes as real / attempts as real else 1.0;
    var failureRate := failures as real / AtLeastOne(|sessions|) as real;
    var seconds := if window / SECOND > 1 then window / SECOND else 1;
    b := Baseline(|sessions|, if |sessions| > 0 then 1.0 else 0.0, versionShares, cipherShares, keyExchangeShares,
                  fingerprints, issuers, peers, ports, successRate, failureRate,
                  |sessions| as real / (seconds as real / 3600.0));
  }

  // ---------- the detector ----------

  function Prevalence(d: map<string, real>, k: string): real { if k in d then d[k] else 0.0 }

  function VersionSignals(b: Baseline, s: Session): seq<Signal> {
    var v := VERSION(s);
    if b.sampleCount >= 5 && v.Some? && Prevalence(b.versions, v.value) == 0.0
    then [Signal(UnseenTlsVersion, v.value, 1.0)] else []
  }

  function CipherSignals(b: Baseline, s: Session): seq<Signal> {
    if b.sampleCount >= 5 && s.cipher.Some? && Prevalence(b.ciphers, s.cipher.value) < 0.05
    then [Signal(RareCipher, s.cipher.value, 1.0 - Prevalence(b.ciphers, s.cipher.value))] else []
  }

  function StateName(st: StartTlsState): string {
    match st case FailedHandshake => "FailedHandshake" case _ => "Rejected"
  }

  function DropSignals(b: Baseline, s: Session): seq<Signal> {
    if Failed(s) && b.successRate > 0.7 && b.sampleCount >= 5
    then [Signal(SuccessRateDrop, StateName(s.starttls.value), 0.95)] else []
  }

  function IssuerSignals(b: Baseline, s: Session): seq<Signal> {
    if b.sampleCount >= 3 && s.certificate.Some? && b.issuers != [] && s.certificate.value.issuer !in b.issuers
    then [Signal(UnexpectedIssuer, s.certificate.value.issuer, 1.0)] else []
  }

  function PeerSignals(b: Baseline, s: Session): seq<Signal> {
    if b.sampleCount >= 10 && b.peers != [] && s.peer !in b.peers then [Signal(NewPeer, s.peer, 0.6)] else []
  }

  function Signals(b: Baseline, s: Session): seq<Signal> {
    VersionSignals(b, s) + CipherSignals(b, s) + DropSignals(b, s) + IssuerSignals(b, s) + PeerSignals(b, s)
  }

  method Detect(b: Baseline, s: Session) returns (signals: seq<Signal>)
    ensures signals == Signals(b, s)
  {
    signals := [];
    if b.sampleCount >= 5 && s.version.Some? {
      var version := s.version.value.Display();
      var prevalence := Prevalence(b.versions, version);
      if prevalence == 0.0 {
        signals := signals + [Signal(UnseenTlsVersion, version, 1.0)];
      }
    }
    assert signals == VersionSignals(b, s);
    if b.sampleCount >= 5 && s.cipher.Some? {
      var prevalence := Prevalence(b.ciphers, s.cipher.value);
      if prevalence < 0.05 {
        signals := signals + [Signal(RareCipher, s.cipher.value, 1.0 - prevalence)];
      }
    }
    if s.starttls.Some? {
      var isFailure := s.starttls.value.FailedHandshake? || s.starttls.value.Rejected?;
      if isFailure && b.successRate > 0.7 && b.sampleCount >= 5 {
        signals := signals + [Signal(SuccessRateDrop, StateName(s.starttls.value), 0.95)];
      }
    }
    assert signals == VersionSignals(b, s) + CipherSignals(b, s) + DropSignals(b, s);
    if b.sampleCount >= 3 && s.certificate.Some? {
      if b.issuers != [] && s.certificate.value.issuer !in b.issuers {
        signals := signals + [Signal(UnexpectedIssuer, s.certificate.value.issuer, 1.0)];
      }
    }
    if b.sampleCount >= 10 {
      if b.peers != [] && s.peer !in b.peers {
        signals := signals + [Signal(NewPeer, s.peer, 0.6)];
      }
    }
  }

  ghost predicate Has(xs: seq<Signal>, kind: Kind) { exists i | 0 <= i < |xs| :: xs[i].kind == kind }

  ghost predicate Raises(b: Baseline, s: Session, kind: Kind) { Has(Signals(b, s), kind) }

  lemma HasConcat(xs: seq<Signal>, ys: seq<Signal>, kind: Kind)
    ensures Has(xs + ys, kind) <==> Has(xs, kind) || Has(ys, kind)
  {
    if i :| 0 <= i < |xs| && xs[i].kind == kind { assert (xs + ys)[i].kind == kind; }
    if i :| 0 <= i < |ys| && ys[i].kind == kind { assert (xs + ys)[|xs| + i].kind == kind; }
  }

  lemma HasOwn(xs: seq<Signal>, own: Kind, kind: Kind)
    requires forall i | 0 <= i < |xs| :: xs[i].kind == own
    ensures Has(xs, kind) <==> xs != [] && kind == own
  {
    assert |xs| > 0 ==> xs[0].kind == own;
  }

  lemma RaisesOne(b: Baseline, s: Session, kind: Kind)
    ensures Raises(b, s, kind) <==> SignalsOf(b, s, kind) != []
  {
    var v, c, d, i, p := VersionSignals(b, s), CipherSignals(b, s), DropSignals(b, s), IssuerSignals(b, s),
      PeerSignals(b, s);
    HasOwn(v, UnseenTlsVersion, kind);
    HasOwn(c, RareCipher, kind);
    HasOwn(d, SuccessRateDrop, kind);
    HasOwn(i, UnexpectedIssuer, kind);
    HasOwn(p, NewPeer, kind);
    hide VersionSignals, CipherSignals, DropSignals, IssuerSignals, PeerSignals, Has;
    HasConcat(v + c + d + i, p, kind);
    HasConcat(v + c + d, i, kind);
    HasConcat(v + c, d, kind);
    HasConcat(v, c, kind);
  }

  function SignalsOf(b: Baseline, s: Session, kind: Kind): seq<Signal> {
    match kind
    case UnseenTlsVersion => VersionSignals(b, s)
    case RareCipher => CipherSignals(b, s)
    case SuccessRateDrop => DropSignals(b, s)
    case UnexpectedIssuer => IssuerSignals(b, s)
    case NewPeer => PeerSignals(b, s)
  }

  lemma {:induction false} FirstsExactly(ss: seq<Session>, f: Feature)
    ensures Distinct(Firsts(ss, f)) && forall k :: k in Firsts(ss, f) <==> k in Present(ss, f)
  {
    if ss != [] {
      var front, s := ss[..|ss| - 1], ss[|ss| - 1];
      FirstsExactly(front, f);
      assert forall x :: x in ss <==> x in front || x == s;
    }
  }

  lemma RatioAgainst(a: real, b: real, q: real)
    requires b > 0.0
    ensures (a / b < q <==> a < q * b) && (a / b > q <==> a > q * b)
  {}

  lemma ShareBelowTwentieth(count: nat, total: nat)
    requires total > 0
    ensures Share(count, total) < 0.05 <==> 20 * count < total
    ensures Share(count, total) == 0.0 <==> count == 0
  {
    RatioAgainst(count as real, total as real, 0.05);
    RatioAgainst(count as real, total as real, 0.0);
  }

  /** When a baseline made from `ss` raises each signal, in terms of the sessions themselves. */
  lemma SignalsExactly(ss: seq<Session>, window: Time, s: Session)
    ensures var b, n := BaselineOf(ss, window), |ss|;
      && (Raises(b, s, UnseenTlsVersion)
        <==> n >= 5 && s.version.Some? && Tally(ss, VERSION, s.version.value.Display()) == 0)
      && (Raises(b, s, RareCipher) <==> n >= 5 && s.cipher.Some? && 20 * Tally(ss, CIPHER, s.cipher.value) < n)
      && (Raises(b, s, SuccessRateDrop) <==> n >= 5 && Failed(s) && MostlySucceeds(ss))
      && (Raises(b, s, UnexpectedIssuer) <==>
            && n >= 3 && s.certificate.Some?
            && Present(ss, ISSUER) != {} && s.certificate.value.issuer !in Present(ss, ISSUER))
      && (Raises(b, s, NewPeer) <==> n >= 10 && s.peer !in Present(ss, PEER))
  {
    var b, n := BaselineOf(ss, window), |ss|;
    forall kind { RaisesOne(b, s, kind); }
    UnseenExactly(ss, window, s);
    RareExactly(ss, window, s);
    DropExactly(ss, window, s);
    FirstsExactly(ss, ISSUER);
    FirstsExactly(ss, PEER);
    hide Raises, Tally, BaselineOf, VersionSignals, CipherSignals, DropSignals, Firsts;
    assert b.issuers == Firsts(ss, ISSUER) && b.peers == Firsts(ss, PEER) && b.sampleCount == n by {
      BaselineLists(ss, window);
    }
    assert Firsts(ss, ISSUER) != [] ==> Firsts(ss, ISSUER)[0] in Firsts(ss, ISSUER);
    assert n > 0 ==> ss[0].peer in Present(ss, PEER) by { if n > 0 { PeerPresent(ss, ss[0]); } }
  }

  lemma BaselineLists(ss: seq<Session>, window: Time)
    ensures var b := BaselineOf(ss, window);
      b.issuers == Firsts(ss, ISSUER) && b.peers == Firsts(ss, PEER) && b.sampleCount == |ss|
  {}

  lemma PeerPresent(ss: seq<Session>, s: Session)
    requires s in ss
    ensures s.peer in Present(ss, PEER)
  {}

  /** More than seven in ten attempts succeeded, or nothing was attempted. */
  predicate MostlySucceeds(ss: seq<Session>) {
    CountIf(ss, Attempted) == 0 || 10 * CountIf(ss, Succeeded) > 7 * CountIf(ss, Attempted)
  }

  lemma UnseenExactly(ss: seq<Session>, window: Time, s: Session)
    ensures VersionSignals(BaselineOf(ss, window), s) != []
       <==> |ss| >= 5 && s.version.Some? && Tally(ss, VERSION, s.version.value.Display()) == 0
  {
    if s.version.Some? && |ss| >= 5 {
      NoTally(ss, VERSION, s.version.value.Display());
      ShareBelowTwentieth(Tally(ss, VERSION, s.version.value.Display()), |ss|);
    }
  }

  lemma RareExactly(ss: seq<Session>, window: Time, s: Session)
    ensures CipherSignals(BaselineOf(ss, window), s) != []
       <==> |ss| >= 5 && s.cipher.Some? && 20 * Tally(ss, CIPHER, s.cipher.value) < |ss|
  {
    if s.cipher.Some? && |ss| >= 5 {
      NoTally(ss, CIPHER, s.cipher.value);
      ShareBelowTwentieth(Tally(ss, CIPHER, s.cipher.value), |ss|);
    }
  }

  lemma DropExactly(ss: seq<Session>, window: Time, s: Session)
    ensures DropSignals(BaselineOf(ss, window), s) != [] <==> |ss| >= 5 && Failed(s) && MostlySucceeds(ss)
  {
    var attempts, successes := CountIf(ss, Attempted), CountIf(ss, Succeeded);
    if attempts > 0 {
      RatioAgainst(successes as real, attempts as real, 0.7);
    }
  }

  /** A session of the list never looks new, and looks rare exactly when fewer than one in twenty share its cipher. */
  lemma InListSignals(ss: seq<Session>, window: Time, s: Session)
    requires s in ss
    ensures var b := BaselineOf(ss, window);
      && !Raises(b, s, UnseenTlsVersion) && !Raises(b, s, UnexpectedIssuer) && !Raises(b, s, NewPeer)
      && (Raises(b, s, RareCipher) <==> |ss| >= 5 && s.cipher.Some? && 20 * Tally(ss, CIPHER, s.cipher.value) < |ss|)
      && (|ss| <= 20 ==> !Raises(b, s, RareCipher))
  {
    SignalsExactly(ss, window, s);
    if s.version.Some? {
      assert VERSION(s) == Some(s.version.value.Display());
      NoTally(ss, VERSION, s.version.value.Display());
    }
    if s.cipher.Some? {
      assert CIPHER(s) == s.cipher;
      NoTally(ss, CIPHER, s.cipher.value);
    }
    if s.certificate.Some? { assert ISSUER(s) == Some(s.certificate.value.issuer); }
    PeerPresent(ss, s);
    hide Raises, BaselineOf, Tally;
  }

  // ---------- arithmetic ----------

  lemma {:induction false} CountsAdd(ss: seq<Session>)
    ensures CountIf(ss, Succeeded) + CountIf(ss, Failed) <= CountIf(ss, Attempted)
  {
    if ss != [] { CountsAdd(ss[..|ss| - 1]); }
  }

  predicate Rate(r: real) { 0.0 <= r <= 1.0 }

  lemma ShareIsRate(count: nat, total: nat)
    requires count <= total
    ensures Rate(Share(count, total))
  {}

  /** Every rate of a baseline lies in [0, 1], and successes and failures are attempts, attempts are samples. */
  lemma RatesAreRates(ss: seq<Session>, window: Time)
    ensures var b := BaselineOf(ss, window);
      && CountIf(ss, Succeeded) + CountIf(ss, Failed) <= CountIf(ss, Attempted) <= b.sampleCount
      && Rate(b.successRate) && Rate(b.failureRate)
      && (forall k | k in b.versions :: Rate(b.versions[k]))
      && (forall k | k in b.ciphers :: Rate(b.ciphers[k]))
      && (forall k | k in b.keyExchanges :: Rate(b.keyExchanges[k]))
  {
    CountsAdd(ss);
    ShareIsRate(CountIf(ss, Failed), |ss|);
    if CountIf(ss, Attempted) > 0 { ShareIsRate(CountIf(ss, Succeeded), CountIf(ss, Attempted)); }
    forall k { ShareIsRate(Tally(ss, VERSION, k), |ss|); }
    forall k { ShareIsRate(Tally(ss, CIPHER, k), |ss|); }
    forall k { ShareIsRate(Tally(ss, KEY_EXCHANGE, k), |ss|); }
    hide Share, Rate, Tally;
  }

  /** The hourly rate times the hours of the window, counted in whole seconds and at least one, is the sample count. */
  lemma PerHourExactly(ss: seq<Session>, window: Time)
    ensures var seconds := if window < SECOND then 1 else window / SECOND;
      BaselineOf(ss, window).perHour * (seconds as real / 3600.0) == BaselineOf(ss, window).sampleCount as real
  {
    hide Distribution, Firsts, Ports, CountIf, SuccessRate, Share;
    var seconds := if window < SECOND then 1 else window / SECOND;
    assert seconds == if window / SECOND > 1 then window / SECOND else 1;
    var hours := seconds as real / 3600.0;
    assert hours > 0.0;
    DivideBack(|ss| as real, hours);
  }

  lemma DivideBack(x: real, y: real)
    requires y > 0.0
    ensures x / y * y == x
  {}

  /** Adding one to `g` at one value adds one to the sum, if the value is summed at all. */
  lemma {:induction false} SumBumped(keys: set<string>, at: Option<string>, g: string -> real, h: string -> real)
    requires forall k :: h(k) == g(k) + if at == Some(k) then 1.0 else 0.0
    ensures SumReals(keys, h) == SumReals(keys, g) + if at.Some? && at.value in keys then 1.0 else 0.0
    decreases |keys|
  {
    if k :| k in keys {
      RealsWithout(keys, k, g);
      RealsWithout(keys, k, h);
      SumBumped(keys - {k}, at, g, h);
    }
  }

  lemma {:induction false} SumOfNothing(keys: set<string>, g: string -> real)
    requires forall k :: g(k) == 0.0
    ensures SumReals(keys, g) == 0.0
    decreases |keys|
  {
    if k :| k in keys {
      RealsWithout(keys, k, g);
      SumOfNothing(keys - {k}, g);
    }
  }

  lemma PartAdds(a: real, b: real, total: nat)
    ensures Part(a + b, total) == Part(a, total) + Part(b, total)
  {}

  lemma {:induction false} SumOfParts(keys: set<string>, g: string -> real, h: string -> real, total: nat)
    requires forall k | k in keys :: h(k) == Part(g(k), total)
    ensures SumReals(keys, h) == Part(SumReals(keys, g), total)
    decreases |keys|
  {
    hide Part;
    if k :| k in keys {
      RealsWithout(keys, k, g);
      RealsWithout(keys, k, h);
      SumOfParts(keys - {k}, g, h, total);
      PartAdds(g(k), SumReals(keys - {k}, g), total);
    } else {
      PartAdds(0.0, 0.0, total);
    }
  }

  lemma {:induction false} TalliesAddUp(keys: set<string>, ss: seq<Session>, f: Feature)
    requires Present(ss, f) <= keys
    ensures SumReals(keys, k => Tally(ss, f, k) as real) == Carriers(ss, f) as real
  {
    if ss == [] {
      SumOfNothing(keys, k => Tally(ss, f, k) as real);
    } else {
      var front, s := ss[..|ss| - 1], ss[|ss| - 1];
      assert forall x :: x in ss <==> x in front || x == s;
      assert f(s).Some? ==> f(s).value in Present(ss, f);
      TalliesAddUp(keys, front, f);
      SumBumped(keys, f(s), k => Tally(front, f, k) as real, k => Tally(ss, f, k) as real);
    }
  }

  /** The shares of a distribution add up to the fraction of the sessions that carry the field. */
  lemma SharesAddUp(ss: seq<Session>, f: Feature)
    ensures SumReals(Present(ss, f), k => Prevalence(Distribution(ss, f), k)) == Share(Carriers(ss, f), |ss|)
  {
    TalliesAddUp(Present(ss, f), ss, f);
    SumOfParts(Present(ss, f), k => Tally(ss, f, k) as real, k => Prevalence(Distribution(ss, f), k), |ss|);
  }

  // ---------- the order of the sessions does not matter ----------

  lemma {:induction false} CountIfWithout(ss: seq<Session>, i: nat, p: Session -> bool)
    requires i < |ss|
    ensures CountIf(ss, p) == CountIf(ss[..i] + ss[i + 1..], p) + if p(ss[i]) then 1 else 0
  {
    var n := |ss| - 1;
    if i == n {
      assert ss[..i] + ss[i + 1..] == ss[..n];
    } else {
      CountIfWithout(ss[..n], i, p);
      assert (ss[..i] + ss[i + 1..])[..n - 1] == ss[..n][..i] + ss[..n][i + 1..];
    }
  }

  lemma {:induction false} CountIfPermutes(ss: seq<Session>, ts: seq<Session>, p: Session -> bool)
    requires multiset(ss) == multiset(ts)
    ensures CountIf(ss, p) == CountIf(ts, p)
    decreases |ss|
  {
    if ss == [] {
      assert |multiset(ts)| == 0;
    } else {
      var n := |ss| - 1;
      assert ss == ss[..n] + [ss[n]];
      assert ss[n] in multiset(ts);
      var i :| 0 <= i < |ts| && ts[i] == ss[n];
      assert ts == ts[..i] + [ts[i]] + ts[i + 1..];
      assert multiset(ss[..n]) == multiset(ss) - multiset{ss[n]};
      assert multiset(ts[..i] + ts[i + 1..]) == multiset(ts) - multiset{ts[i]};
      CountIfPermutes(ss[..n], ts[..i] + ts[i + 1..], p);
      CountIfWithout(ts, i, p);
    }
  }

  lemma PermutedFeature(ss: seq<Session>, ts: seq<Session>, f: Feature)
    requires multiset(ss) == multiset(ts)
    ensures Distribution(ss, f) == Distribution(ts, f)
    ensures multiset(Firsts(ss, f)) == multiset(Firsts(ts, f))
  {
    SamePermutedLength(ss, ts);
    assert forall s :: s in ss <==> s in multiset(ss);
    assert forall s :: s in ts <==> s in multiset(ts);
    assert Present(ss, f) == Present(ts, f);
    forall k ensures Tally(ss, f, k) == Tally(ts, f, k) { CountIfPermutes(ss, ts, s => f(s) == Some(k)); }
    FirstsExactly(ss, f);
    FirstsExactly(ts, f);
    SameMembers(Firsts(ss, f), Firsts(ts, f));
  }

  lemma SamePermutedLength<T>(ss: seq<T>, ts: seq<T>)
    requires multiset(ss) == multiset(ts)
    ensures |ss| == |ts|
  {
    assert |multiset(ss)| == |ss| && |multiset(ts)| == |ts|;
  }

  lemma {:induction false} DistinctMultiset<T>(xs: seq<T>, x: T)
    requires Distinct(xs)
    ensures multiset(xs)[x] == if x in xs then 1 else 0
  {
    if xs != [] {
      var n := |xs| - 1;
      assert xs == xs[..n] + [xs[n]];
      DistinctMultiset(xs[..n], x);
    }
  }

  lemma SameMembers<T>(xs: seq<T>, ys: seq<T>)
    requires Distinct(xs) && Distinct(ys) && forall x :: x in xs <==> x in ys
    ensures multiset(xs) == multiset(ys)
  {
    forall x ensures multiset(xs)[x] == multiset(ys)[x] {
      DistinctMultiset(xs, x);
      DistinctMultiset(ys, x);
    }
  }

  lemma {:induction false} PortsExactly(ss: seq<Session>)
    ensures Distinct(Ports(ss)) && forall p :: p in Ports(ss) <==> exists s :: s in ss && s.port == p
  {
    if ss != [] {
      var front, s := ss[..|ss| - 1], ss[|ss| - 1];
      PortsExactly(front);
      assert forall x :: x in ss <==> x in front || x == s;
    }
  }

  /** Permuting the sessions changes no rate, no distribution and no member of a list. */
  lemma OrderDoesNotMatter(ss: seq<Session>, ts: seq<Session>, window: Time)
    requires multiset(ss) == multiset(ts)
    ensures var b, c := BaselineOf(ss, window), BaselineOf(ts, window);
      && b == c.(fingerprints := b.fingerprints, issuers := b.issuers, peers := b.peers, ports := b.ports)
      && multiset(b.fingerprints) == multiset(c.fingerprints) && multiset(b.issuers) == multiset(c.issuers)
      && multiset(b.peers) == multiset(c.peers) && multiset(b.ports) == multiset(c.ports)
  {
    SamePermutedLength(ss, ts);
    PermutedFeature(ss, ts, VERSION);
    PermutedFeature(ss, ts, CIPHER);
    PermutedFeature(ss, ts, KEY_EXCHANGE);
    PermutedFeature(ss, ts, FINGERPRINT);
    PermutedFeature(ss, ts, ISSUER);
    PermutedFeature(ss, ts, PEER);
    CountIfPermutes(ss, ts, Attempted);
    CountIfPermutes(ss, ts, Succeeded);
    CountIfPermutes(ss, ts, Failed);
    PermutedPorts(ss, ts);
    hide Distribution, Firsts, Ports, CountIf, SuccessRate, Share, PerHour;
  }

  lemma PermutedPorts(ss: seq<Session>, ts: seq<Session>)
    requires multiset(ss) == multiset(ts)
    ensures multiset(Ports(ss)) == multiset(Ports(ts))
  {
    PortsExactly(ss);
    PortsExactly(ts);
    assert forall s :: s in ss <==> s in multiset(ss);
    assert forall s :: s in ts <==> s in multiset(ts);
    SameMembers(Ports(ss), Ports(ts));
  }
}
