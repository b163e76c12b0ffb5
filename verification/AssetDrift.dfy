/** An asset evolving under observations, and the drift log that is emitted while it does. */
module AssetDrift {
  import opened Domain

  datatype Certificate = Certificate(fingerprint: string, issuer: string)

  /** What one observed session contributes; `names` are the host names its certificate claims. */
  datatype Session = Session(
    address: string, protocol: EmailProtocol, port: nat, at: Time,
    tlsVersion: Option<TlsVersion>, cipher: Option<string>, keyExchange: Option<KeyExchange>,
    certificate: Option<Certificate>, names: seq<string>)

  datatype Endpoint = Endpoint(protocol: EmailProtocol, port: nat, tlsVersions: seq<TlsVersion>, ciphers: seq<string>,
                               firstSeen: Time, lastSeen: Time)

  datatype Asset = Asset(
    primaryName: Option<string>, addresses: seq<string>, hostnames: seq<string>, endpoints: seq<Endpoint>,
    tlsVersions: seq<TlsVersion>, ciphers: seq<string>, fingerprints: seq<string>, lastSeen: Time)

  datatype DriftKind =
    | NewTlsVersion | NewCipherSuite | ForwardSecrecyLost | CertificateChanged | NewCertificateIssuer | NewEndpoint

  datatype Drift = Drift(kind: DriftKind, previous: Option<string>, value: string)

  // ---------- pieces of one observation ----------

  function ToSeq<T>(o: Option<T>): seq<T> { match o case None => [] case Some(x) => [x] }

  function Last(xs: seq<string>): Option<string> { if xs == [] then None else Some(xs[|xs| - 1]) }

  function Add<T(==)>(xs: seq<T>, o: Option<T>): seq<T> {
    match o
    case None => xs
    case Some(x) => if x in xs then xs else xs + [x]
  }

  function AddAll(xs: seq<string>, names: seq<string>): seq<string> {
    if names == [] then xs else Add(AddAll(xs, names[..|names| - 1]), Some(names[|names| - 1]))
  }

  function Displays(vs: seq<TlsVersion>): seq<string> { seq(|vs|, i requires 0 <= i < |vs| => vs[i].Display()) }

  /** The event of a value that is not in its list yet; it cites the newest element of the list. */
  function Appearing(kind: DriftKind, list: seq<string>, value: Option<string>): seq<Drift> {
    if value.None? || value.value in list then [] else [Drift(kind, Last(list), value.value)]
  }

  /** Versions are compared as versions and logged as text. */
  function TlsEvents(a: Asset, s: Session): seq<Drift> {
    match s.tlsVersion
    case None => []
    case Some(v) =>
      if v in a.tlsVersions then [] else [Drift(NewTlsVersion, Last(Displays(a.tlsVersions)), v.Display())]
  }

  function CipherEvents(a: Asset, s: Session): seq<Drift> { Appearing(NewCipherSuite, a.ciphers, s.cipher) }

  predicate LacksForwardSecrecy(s: Session) { s.keyExchange == Some(RsaStatic) }

  predicate HadForwardSecrecy(ciphers: seq<string>) {
    exists i | 0 <= i < |ciphers| :: Contains(ciphers[i], "DHE") || Contains(ciphers[i], "ECDHE")
  }

  /** Looks at the ciphers after this session's own has been added. */
  function SecrecyEvents(a: Asset, s: Session): seq<Drift> {
    if LacksForwardSecrecy(s) && HadForwardSecrecy(Add(a.ciphers, s.cipher))
    then [Drift(ForwardSecrecyLost, Some("PFS Enabled"), "PFS Disabled")]
    else []
  }

  function Fingerprint(s: Session): Option<string> {
    match s.certificate case None => None case Some(c) => Some(c.fingerprint)
  }

  function CertificateEvents(a: Asset, s: Session): seq<Drift> {
    Appearing(CertificateChanged, a.fingerprints, Fingerprint(s))
  }

  /** A new fingerprint always comes with its issuer, even one that was seen before. */
  function IssuerEvents(a: Asset, s: Session): seq<Drift> {
    if CertificateEvents(a, s) == [] then [] else [Drift(NewCertificateIssuer, None, s.certificate.value.issuer)]
  }

  predicate At(e: Endpoint, s: Session) { e.protocol == s.protocol && e.port == s.port }

  predicate HasEndpoint(es: seq<Endpoint>, s: Session) { exists i | 0 <= i < |es| :: At(es[i], s) }

  function NewEndpointOf(s: Session): Endpoint {
    Endpoint(s.protocol, s.port, ToSeq(s.tlsVersion), ToSeq(s.cipher), s.at, s.at)
  }

  function Touched(e: Endpoint, s: Session): Endpoint {
    e.(lastSeen := s.at, tlsVersions := Add(e.tlsVersions, s.tlsVersion), ciphers := Add(e.ciphers, s.cipher))
  }

  /** The first endpoint of the session's protocol and port is updated, or one is added. */
  function TouchEndpoints(es: seq<Endpoint>, s: Session): seq<Endpoint> {
    if es == [] then [NewEndpointOf(s)]
    else if At(es[0], s) then [Touched(es[0], s)] + es[1..]
    else [es[0]] + TouchEndpoints(es[1..], s)
  }

  function EndpointEvents(a: Asset, s: Session): seq<Drift> {
    if HasEndpoint(a.endpoints, s) then [] else [Drift(NewEndpoint, None, EndpointName(s.protocol, s.port))]
  }

  function EndpointName(protocol: EmailProtocol, port: nat): string {
    (match protocol case Smtp => "SMTP" case Imap => "IMAP" case Pop3 => "POP3" case UnknownProtocol => "Unknown")
    + ":" + Decimal(port)
  }

  function Decimal(n: nat): string {
    if n < 10 then [['0', '1', '2', '3', '4', '5', '6', '7', '8', '9'][n]] else Decimal(n / 10) + Decimal(n % 10)
  }

  /** The number a string of digits stands for. */
  function Number(digits: string): int {
    if digits == [] then 0 else Number(digits[..|digits| - 1]) * 10 + (digits[|digits| - 1] as int - '0' as int)
  }

  lemma {:induction false} DecimalIsNumber(n: nat)
    ensures Number(Decimal(n)) == n && Decimal(n) != []
    ensures forall c | c in Decimal(n) :: '0' <= c <= '9'
  {
    if n >= 10 {
      DecimalIsNumber(n / 10);
      var last := Decimal(n % 10);
      assert Decimal(n)[..|Decimal(n)| - 1] == Decimal(n / 10) && |last| == 1;
      assert Number(last) == n % 10;
    } else {
      assert Decimal(n)[..0] == [];
    }
  }

  /** An endpoint's name tells which one it is: the protocol, a colon, and the port in decimal. */
  lemma EndpointNameTells(p: EmailProtocol, m: nat, q: EmailProtocol, n: nat)
    requires EndpointName(p, m) == EndpointName(q, n)
    ensures p == q && m == n
  {
    var a, b := EndpointName(p, m), EndpointName(q, n);
    DecimalIsNumber(m);
    DecimalIsNumber(n);
    assert a[0] == b[0] && a[|a| - |Decimal(m)|..] == Decimal(m) && b[|b| - |Decimal(n)|..] == Decimal(n);
    assert |a| - |Decimal(m)| == |b| - |Decimal(n)|;
  }

  // ---------- one observation ----------

  function Discovered(s: Session): Asset {
    Asset(if s.names == [] then None else Some(s.names[0]), [s.address], s.names, [NewEndpointOf(s)],
          ToSeq(s.tlsVersion), ToSeq(s.cipher), ToSeq(Fingerprint(s)), s.at)
  }

  function Observed(a: Asset, s: Session): Asset {
    Asset(if a.primaryName.None? && s.names != [] then Some(s.names[0]) else a.primaryName,
          Add(a.addresses, Some(s.address)), AddAll(a.hostnames, s.names), TouchEndpoints(a.endpoints, s),
          Add(a.tlsVersions, s.tlsVersion), Add(a.ciphers, s.cipher), Add(a.fingerprints, Fingerprint(s)), s.at)
  }

  function Events(a: Asset, s: Session): seq<Drift> {
    TlsEvents(a, s) + CipherEvents(a, s) + SecrecyEvents(a, s)
    + CertificateEvents(a, s) + IssuerEvents(a, s) + EndpointEvents(a, s)
  }

  // ---------- a whole history ----------

  function History(first: Session, rest: seq<Session>): Asset {
    if rest == [] then Discovered(first)
    else Observed(History(first, rest[..|rest| - 1]), rest[|rest| - 1])
  }

  function Log(first: Session, rest: seq<Session>): seq<Drift> {
    if rest == [] then []
    else Log(first, rest[..|rest| - 1]) + Events(History(first, rest[..|rest| - 1]), rest[|rest| - 1])
  }

  /** The events of one kind, in order. */
  function Of(kind: DriftKind, log: seq<Drift>): seq<Drift> {
    if log == [] then []
    else if log[|log| - 1].kind == kind then Of(kind, log[..|log| - 1]) + [log[|log| - 1]]
    else Of(kind, log[..|log| - 1])
  }

  /** The log of one kind turns `start` into `list`: each event appends its value and cites the element before it. */
  ghost predicate Replays(start: seq<string>, events: seq<Drift>, list: seq<string>) {
    && |list| == |start| + |events|
    && start <= list
    && forall k | 0 <= k < |events| ::
         && events[k].value == list[|start| + k]
         && events[k].previous == Last(list[..|start| + k])
  }

  lemma {:induction false} OfConcat(kind: DriftKind, a: seq<Drift>, b: seq<Drift>)
    ensures Of(kind, a + b) == Of(kind, a) + Of(kind, b)
    decreases |b|
  {
    if b == [] {
      assert a + b == a;
    } else {
      assert (a + b)[..|a + b| - 1] == a + b[..|b| - 1];
      OfConcat(kind, a, b[..|b| - 1]);
    }
  }

  lemma {:induction false} OfUniform(kind: DriftKind, own: DriftKind, events: seq<Drift>)
    requires forall d | d in events :: d.kind == own
    ensures Of(kind, events) == if kind == own then events else []
  {
    if events != [] {
      var front, d := events[..|events| - 1], events[|events| - 1];
      assert events == front + [d];
      assert d in events && forall e | e in front :: e in events;
      OfUniform(kind, own, front);
    }
  }

  lemma OfConcats(kind: DriftKind, p: seq<Drift>, q: seq<Drift>, r: seq<Drift>, u: seq<Drift>, v: seq<Drift>,
                  w: seq<Drift>)
    ensures Of(kind, p + q + r + u + v + w)
      == Of(kind, p) + Of(kind, q) + Of(kind, r) + Of(kind, u) + Of(kind, v) + Of(kind, w)
  {
    OfConcat(kind, p + q + r + u + v, w);
    OfConcat(kind, p + q + r + u, v);
    OfConcat(kind, p + q + r, u);
    OfConcat(kind, p + q, r);
    OfConcat(kind, p, q);
  }

  function EventsOf(kind: DriftKind, a: Asset, s: Session): seq<Drift> {
    match kind
    case NewTlsVersion => TlsEvents(a, s)
    case NewCipherSuite => CipherEvents(a, s)
    case ForwardSecrecyLost => SecrecyEvents(a, s)
    case CertificateChanged => CertificateEvents(a, s)
    case NewCertificateIssuer => IssuerEvents(a, s)
    case NewEndpoint => EndpointEvents(a, s)
  }

  lemma PartsByKind(kind: DriftKind, a: Asset, s: Session)
    ensures Of(kind, TlsEvents(a, s)) == if kind == NewTlsVersion then TlsEvents(a, s) else []
    ensures Of(kind, CipherEvents(a, s)) == if kind == NewCipherSuite then CipherEvents(a, s) else []
    ensures Of(kind, SecrecyEvents(a, s)) == if kind == ForwardSecrecyLost then SecrecyEvents(a, s) else []
    ensures Of(kind, CertificateEvents(a, s)) == if kind == CertificateChanged then CertificateEvents(a, s) else []
    ensures Of(kind, IssuerEvents(a, s)) == if kind == NewCertificateIssuer then IssuerEvents(a, s) else []
    ensures Of(kind, EndpointEvents(a, s)) == if kind == NewEndpoint then EndpointEvents(a, s) else []
  {
    hide Of, Displays, Last, HadForwardSecrecy, EndpointName, HasEndpoint, Add;
    OfUniform(kind, NewTlsVersion, TlsEvents(a, s));
    OfUniform(kind, NewCipherSuite, CipherEvents(a, s));
    OfUniform(kind, ForwardSecrecyLost, SecrecyEvents(a, s));
    OfUniform(kind, CertificateChanged, CertificateEvents(a, s));
    OfUniform(kind, NewCertificateIssuer, IssuerEvents(a, s));
    OfUniform(kind, NewEndpoint, EndpointEvents(a, s));
  }

  /** What one observation logs, kind by kind. */
  lemma EventsByKind(kind: DriftKind, a: Asset, s: Session)
    ensures Of(kind, Events(a, s)) == EventsOf(kind, a, s)
  {
    hide TlsEvents, CipherEvents, SecrecyEvents, CertificateEvents, IssuerEvents, EndpointEvents, Of;
    var p, q, r, u, v, w :=
      TlsEvents(a, s), CipherEvents(a, s), SecrecyEvents(a, s), CertificateEvents(a, s), IssuerEvents(a, s),
        EndpointEvents(a, s);
    PartsByKind(kind, a, s);
    OfConcats(kind, p, q, r, u, v, w);
    match kind {
      case NewTlsVersion => assert p + [] + [] + [] + [] + [] == p;
      case NewCipherSuite => assert [] + q + [] + [] + [] + [] == q;
      case ForwardSecrecyLost => assert [] + [] + r + [] + [] + [] == r;
      case CertificateChanged => assert [] + [] + [] + u + [] + [] == u;
      case NewCertificateIssuer => assert [] + [] + [] + [] + v + [] == v;
      case NewEndpoint => assert [] + [] + [] + [] + [] + w == w;
    }
  }

  /** The log of one kind grows by that kind's events of the newest observation. */
  lemma LogByKind(kind: DriftKind, first: Session, rest: seq<Session>)
    requires rest != []
    ensures var front, s := rest[..|rest| - 1], rest[|rest| - 1];
      Of(kind, Log(first, rest)) == Of(kind, Log(first, front)) + EventsOf(kind, History(first, front), s)
  {
    var front, s := rest[..|rest| - 1], rest[|rest| - 1];
    OfConcat(kind, Log(first, front), Events(History(first, front), s));
    EventsByKind(kind, History(first, front), s);
  }

  lemma ReplaysMore(start: seq<string>, events: seq<Drift>, list: seq<string>, kind: DriftKind, value: string)
    requires Replays(start, events, list)
    ensures Replays(start, events + [Drift(kind, Last(list), value)], list + [value])
  {}

  lemma ReplaysAppearing(start: seq<string>, events: seq<Drift>, list: seq<string>, kind: DriftKind,
                         value: Option<string>)
    requires Replays(start, events, list)
    ensures Replays(start, events + Appearing(kind, list, value), Add(list, value))
  {}

  lemma ReplaysVersion(start: seq<string>, events: seq<Drift>, a: Asset, s: Session)
    requires Replays(start, events, Displays(a.tlsVersions))
    ensures Replays(start, events + TlsEvents(a, s), Displays(Add(a.tlsVersions, s.tlsVersion)))
  {
    if TlsEvents(a, s) == [] {
      assert events + [] == events;
    } else {
      var v := s.tlsVersion.value;
      assert Displays(a.tlsVersions + [v]) == Displays(a.tlsVersions) + [v.Display()];
      hide Replays;
      ReplaysMore(start, events, Displays(a.tlsVersions), NewTlsVersion, v.Display());
    }
  }

  lemma {:induction false} LogReplaysVersions(first: Session, rest: seq<Session>)
    ensures Replays(Displays(Discovered(first).tlsVersions), Of(NewTlsVersion, Log(first, rest)),
                    Displays(History(first, rest).tlsVersions))
  {
    if rest != [] {
      var front, s := rest[..|rest| - 1], rest[|rest| - 1];
      LogByKind(NewTlsVersion, first, rest);
      hide Replays, Log, Of, Add, TlsEvents;
      LogReplaysVersions(first, front);
      ReplaysVersion(Displays(Discovered(first).tlsVersions), Of(NewTlsVersion, Log(first, front)),
        History(first, front), s);
    }
  }

  /** The session's version came out of a decoder. */
  predicate Decoded(s: Session) { s.tlsVersion.Some? ==> Canonical(s.tlsVersion.value) }

  function DecodeAll(events: seq<Drift>): seq<TlsVersion> {
    seq(|events|, i requires 0 <= i < |events| => DecodeVersion(events[i].value))
  }

  ghost predicate AllCanonical(vs: seq<TlsVersion>) { forall i | 0 <= i < |vs| :: Canonical(vs[i]) }

  lemma {:induction false} VersionsAreCanonical(first: Session, rest: seq<Session>)
    requires Decoded(first) && forall s | s in rest :: Decoded(s)
    ensures AllCanonical(History(first, rest).tlsVersions)
  {
    hide Canonical;
    if rest != [] {
      assert rest == rest[..|rest| - 1] + [rest[|rest| - 1]];
      VersionsAreCanonical(first, rest[..|rest| - 1]);
      assert Decoded(rest[|rest| - 1]);
    } else {
      assert History(first, rest) == Discovered(first);
      assert AllCanonical(ToSeq(first.tlsVersion));
    }
  }

  /** The versions themselves are the first session's followed by what the logged texts decode to, no text twice. */
  lemma LogRebuildsVersions(first: Session, rest: seq<Session>)
    requires Decoded(first) && forall s | s in rest :: Decoded(s)
    ensures History(first, rest).tlsVersions
      == Discovered(first).tlsVersions + DecodeAll(Of(NewTlsVersion, Log(first, rest)))
    ensures Distinct(Displays(History(first, rest).tlsVersions))
  {
    LogReplaysVersions(first, rest);
    VersionsAreCanonical(first, rest);
    VersionsAreCanonical(first, []);
    HistoryAgrees(first, rest);
    hide History, Log, Of, Discovered;
    TextsAreDistinct(History(first, rest).tlsVersions);
    TextsDecode(Discovered(first).tlsVersions, Of(NewTlsVersion, Log(first, rest)), History(first, rest).tlsVersions);
  }

  lemma TextsAreDistinct(list: seq<TlsVersion>)
    requires Distinct(list) && AllCanonical(list)
    ensures Distinct(Displays(list))
  {
    forall i, j | 0 <= i < j < |list| ensures Displays(list)[i] != Displays(list)[j] {
      if list[i].Display() == list[j].Display() { CanonicalTextsDiffer(list[i], list[j]); }
    }
  }

  lemma TextsDecode(start: seq<TlsVersion>, events: seq<Drift>, list: seq<TlsVersion>)
    requires Replays(Displays(start), events, Displays(list)) && AllCanonical(start) && AllCanonical(list)
    ensures list == start + DecodeAll(events)
  {
    hide Canonical, DecodeVersion, Last;
    forall i | 0 <= i < |list| ensures list[i] == (start + DecodeAll(events))[i] {
      assert Displays(list)[i] == list[i].Display();
      CanonicalExactly(list[i]);
      if i < |start| {
        assert Displays(start)[i] == Displays(list)[i];
        CanonicalTextsDiffer(list[i], start[i]);
      } else {
        assert events[i - |start|].value == Displays(list)[i];
      }
    }
  }

  lemma {:induction false} LogReplaysCiphers(first: Session, rest: seq<Session>)
    ensures Replays(Discovered(first).ciphers, Of(NewCipherSuite, Log(first, rest)), History(first, rest).ciphers)
  {
    if rest != [] {
      var front, s := rest[..|rest| - 1], rest[|rest| - 1];
      LogReplaysCiphers(first, front);
      LogByKind(NewCipherSuite, first, rest);
      ReplaysAppearing(Discovered(first).ciphers, Of(NewCipherSuite, Log(first, front)), History(first, front).ciphers,
                       NewCipherSuite, s.cipher);
    }
  }

  lemma {:induction false} LogReplaysFingerprints(first: Session, rest: seq<Session>)
    ensures Replays(Discovered(first).fingerprints, Of(CertificateChanged, Log(first, rest)),
      History(first, rest).fingerprints)
  {
    if rest != [] {
      var front, s := rest[..|rest| - 1], rest[|rest| - 1];
      LogReplaysFingerprints(first, front);
      LogByKind(CertificateChanged, first, rest);
      ReplaysAppearing(Discovered(first).fingerprints, Of(CertificateChanged, Log(first, front)),
                       History(first, front).fingerprints, CertificateChanged, Fingerprint(s));
    }
  }

  ghost predicate Showed(rest: seq<Session>, fingerprint: string, issuer: string) {
    exists s :: s in rest && s.certificate == Some(Certificate(fingerprint, issuer))
  }

  /** The two logs go together, event by event, each pair naming a certificate some session showed. */
  ghost predicate Paired(rest: seq<Session>, changes: seq<Drift>, issuers: seq<Drift>) {
    |changes| == |issuers| && forall i | 0 <= i < |issuers| :: Showed(rest, changes[i].value, issuers[i].value)
  }

  lemma PairedMore(rest: seq<Session>, s: Session, changes: seq<Drift>, issuers: seq<Drift>, c: seq<Drift>,
                   d: seq<Drift>)
    requires Paired(rest, changes, issuers) && Paired([s], c, d)
    ensures Paired(rest + [s], changes + c, issuers + d)
  {
    forall i | 0 <= i < |issuers + d| ensures Showed(rest + [s], (changes + c)[i].value, (issuers + d)[i].value) {
      if i < |issuers| {
        assert Showed(rest, changes[i].value, issuers[i].value);
      } else {
        assert Showed([s], c[i - |issuers|].value, d[i - |issuers|].value);
      }
    }
  }

  lemma PairedOnce(a: Asset, s: Session)
    ensures Paired([s], EventsOf(CertificateChanged, a, s), EventsOf(NewCertificateIssuer, a, s))
  {
    if CertificateEvents(a, s) != [] { assert s in [s]; }
  }

  /** Every change of certificate comes with one event for its issuer, both of a certificate some session showed. */
  lemma {:induction false} IssuersAccompany(first: Session, rest: seq<Session>)
    ensures Paired(rest, Of(CertificateChanged, Log(first, rest)), Of(NewCertificateIssuer, Log(first, rest)))
  {
    if rest != [] {
      hide Of, Log, History, EventsOf, Paired;
      var front, s := rest[..|rest| - 1], rest[|rest| - 1];
      LogByKind(NewCertificateIssuer, first, rest);
      LogByKind(CertificateChanged, first, rest);
      IssuersAccompany(first, front);
      PairedOnce(History(first, front), s);
      PairedMore(front, s, Of(CertificateChanged, Log(first, front)), Of(NewCertificateIssuer, Log(first, front)),
                 EventsOf(CertificateChanged, History(first, front), s),
                 EventsOf(NewCertificateIssuer, History(first, front), s));
      assert rest == front + [s];
    }
  }

  // ---------- losses of forward secrecy ----------

  /** The session used this cipher, and the cipher has a forward-secret name. */
  ghost predicate ShowedSecrecy(s: Session) { s.cipher.Some? && Contains(s.cipher.value, "DHE") }

  /**
    A session with static RSA on an asset that has shown a forward-secret cipher, in this session or an earlier one.
   */
  ghost predicate LosesSecrecy(first: Session, before: seq<Session>, s: Session) {
    s.keyExchange == Some(RsaStatic) && exists t :: (t == first || t in before || t == s) && ShowedSecrecy(t)
  }

  ghost function SecrecyLosses(first: Session, rest: seq<Session>): nat {
    if rest == [] then 0
    else
      var front, s := rest[..|rest| - 1], rest[|rest| - 1];
      SecrecyLosses(first, front) + if LosesSecrecy(first, front, s) then 1 else 0
  }

  lemma {:induction false} CiphersAreSeen(first: Session, rest: seq<Session>)
    ensures forall c ::
      c in History(first, rest).ciphers <==> exists s :: (s == first || s in rest) && s.cipher == Some(c)
  {
    if rest != [] {
      var front, last := rest[..|rest| - 1], rest[|rest| - 1];
      CiphersAreSeen(first, front);
      assert forall s :: s in rest <==> s in front || s == last by { assert rest == front + [last]; }
      forall c ensures c in History(first, rest).ciphers
        <==> exists s :: (s == first || s in rest) && s.cipher == Some(c) {
        if last.cipher == Some(c) { assert last in rest; }
      }
    } else {
      assert History(first, []).ciphers == ToSeq(first.cipher);
      forall c ensures c in ToSeq(first.cipher) <==> exists s :: (s == first || s in rest) && s.cipher == Some(c) {}
    }
  }

  lemma EcdheIsDhe(c: string)
    ensures Contains(c, "ECDHE") ==> Contains(c, "DHE")
  {
    if i :| 0 <= i <= |c| && PartAt(c, "ECDHE", i) {
      assert "ECDHE"[2..] == "DHE" && c[i + 2..i + 5] == c[i..i + 5][2..];
      assert PartAt(c, "DHE", i + 2);
    }
  }

  lemma SecrecyIsShown(first: Session, front: seq<Session>, s: Session)
    ensures HadForwardSecrecy(Add(History(first, front).ciphers, s.cipher))
      <==> exists t :: (t == first || t in front || t == s) && ShowedSecrecy(t)
  {
    CiphersAreSeen(first, front);
    var ciphers := Add(History(first, front).ciphers, s.cipher);
    hide History, Contains;
    if i :| 0 <= i < |ciphers| && (Contains(ciphers[i], "DHE") || Contains(ciphers[i], "ECDHE")) {
      EcdheIsDhe(ciphers[i]);
      assert s.cipher == Some(ciphers[i]) || ciphers[i] in History(first, front).ciphers;
      var t :| (t == first || t in front || t == s) && t.cipher == Some(ciphers[i]);
      assert ShowedSecrecy(t);
    }
    if t :| (t == first || t in front || t == s) && ShowedSecrecy(t) {
      assert t.cipher.value in ciphers;
    }
  }

  lemma LossIsLogged(first: Session, front: seq<Session>, s: Session)
    ensures EventsOf(ForwardSecrecyLost, History(first, front), s)
      == if LosesSecrecy(first, front, s) then [Drift(ForwardSecrecyLost, Some("PFS Enabled"), "PFS Disabled")] else []
  {
    SecrecyIsShown(first, front, s);
    hide History, HadForwardSecrecy, Add, ShowedSecrecy;
  }

  /** The log has one loss of forward secrecy for each session that lost it, all alike. */
  lemma {:induction false} LossesAreCounted(first: Session, rest: seq<Session>)
    ensures |Of(ForwardSecrecyLost, Log(first, rest))| == SecrecyLosses(first, rest)
    ensures var events := Of(ForwardSecrecyLost, Log(first, rest));
      forall i | 0 <= i < |events| :: events[i] == Drift(ForwardSecrecyLost, Some("PFS Enabled"), "PFS Disabled")
  {
    if rest != [] {
      var front, s := rest[..|rest| - 1], rest[|rest| - 1];
      hide Of, Log, History, EventsOf, LosesSecrecy;
      LogByKind(ForwardSecrecyLost, first, rest);
      LossIsLogged(first, front, s);
      LossesAreCounted(first, front);
    }
  }

  // ---------- the asset and its endpoints ----------

  ghost predicate UniqueEndpoints(es: seq<Endpoint>) {
    forall i, j | 0 <= i < j < |es| :: es[i].protocol != es[j].protocol || es[i].port != es[j].port
  }

  ghost predicate SomewhereTls(es: seq<Endpoint>, v: TlsVersion) { exists i | 0 <= i < |es| :: v in es[i].tlsVersions }

  ghost predicate SomewhereCipher(es: seq<Endpoint>, c: string) { exists i | 0 <= i < |es| :: c in es[i].ciphers }

  ghost predicate Agrees(a: Asset) {
    && Distinct(a.tlsVersions) && Distinct(a.ciphers) && Distinct(a.fingerprints)
    && UniqueEndpoints(a.endpoints)
    && (forall v :: v in a.tlsVersions <==> SomewhereTls(a.endpoints, v))
    && (forall c :: c in a.ciphers <==> SomewhereCipher(a.endpoints, c))
  }

  /** Position `k` holds the session's endpoint: a new one at the end, or an old one brought up to date. */
  ghost predicate TouchedAt(es: seq<Endpoint>, ts: seq<Endpoint>, k: int, s: Session) {
    && 0 <= k < |ts| && At(ts[k], s)
    && (if k < |es| then ts[k] == Touched(es[k], s) else k == |es| && ts[k] == NewEndpointOf(s))
  }

  /** Touching: every endpoint stays in place, the session's own holds what the session showed, nothing else appears. */
  lemma {:induction false} TouchEffect(es: seq<Endpoint>, s: Session)
    ensures var ts := TouchEndpoints(es, s);
      && |ts| == |es| + (if HasEndpoint(es, s) then 0 else 1)
      && (forall i | 0 <= i < |es| :: ts[i].protocol == es[i].protocol && ts[i].port == es[i].port)
      && (forall i | 0 <= i < |es| :: ts[i] == es[i] || (At(es[i], s) && ts[i] == Touched(es[i], s)))
      && (!HasEndpoint(es, s) ==> ts == es + [NewEndpointOf(s)])
      && (exists k :: TouchedAt(es, ts, k, s))
  {
    if es != [] && !At(es[0], s) {
      TouchEffect(es[1..], s);
      var ts, us := TouchEndpoints(es, s), TouchEndpoints(es[1..], s);
      assert HasEndpoint(es, s) <==> HasEndpoint(es[1..], s) by {
        if HasEndpoint(es, s) {
          var i :| 0 <= i < |es| && At(es[i], s);
          assert es[1..][i - 1] == es[i];
        }
      }
      assert forall i | 0 < i < |ts| :: ts[i] == us[i - 1];
      assert forall i | 0 < i < |es| :: es[i] == es[1..][i - 1];
      var k :| TouchedAt(es[1..], us, k, s);
      assert TouchedAt(es, ts, k + 1, s);
    } else {
      assert TouchedAt(es, TouchEndpoints(es, s), 0, s);
    }
  }

  lemma DistinctAdd<T>(xs: seq<T>, o: Option<T>)
    requires Distinct(xs)
    ensures Distinct(Add(xs, o)) && xs <= Add(xs, o)
  {}

  lemma ObserveAgrees(a: Asset, s: Session)
    requires Agrees(a)
    ensures Agrees(Observed(a, s))
  {
    DistinctAdd(a.tlsVersions, s.tlsVersion);
    DistinctAdd(a.ciphers, s.cipher);
    DistinctAdd(a.fingerprints, Fingerprint(s));
    TouchEffect(a.endpoints, s);
    var es, ts := a.endpoints, TouchEndpoints(a.endpoints, s);
    TouchUnites(es, ts, s);
    forall v ensures v in Add(a.tlsVersions, s.tlsVersion) <==> SomewhereTls(ts, v) {}
    forall c ensures c in Add(a.ciphers, s.cipher) <==> SomewhereCipher(ts, c) {}
  }

  lemma TouchUnites(es: seq<Endpoint>, ts: seq<Endpoint>, s: Session)
    requires ts == TouchEndpoints(es, s)
    ensures forall v :: SomewhereTls(ts, v) <==> SomewhereTls(es, v) || s.tlsVersion == Some(v)
    ensures forall c :: SomewhereCipher(ts, c) <==> SomewhereCipher(es, c) || s.cipher == Some(c)
  {
    TouchEffect(es, s);
    var k :| TouchedAt(es, ts, k, s);
    forall v ensures SomewhereTls(ts, v) <==> SomewhereTls(es, v) || s.tlsVersion == Some(v) {
      if s.tlsVersion == Some(v) { assert v in ts[k].tlsVersions; }
      if i :| 0 <= i < |es| && v in es[i].tlsVersions { assert v in ts[i].tlsVersions; }
      if i :| 0 <= i < |ts| && v in ts[i].tlsVersions {
        assert i < |es| ==> v in es[i].tlsVersions || s.tlsVersion == Some(v);
      }
    }
    forall c ensures SomewhereCipher(ts, c) <==> SomewhereCipher(es, c) || s.cipher == Some(c) {
      if s.cipher == Some(c) { assert c in ts[k].ciphers; }
      if i :| 0 <= i < |es| && c in es[i].ciphers { assert c in ts[i].ciphers; }
      if i :| 0 <= i < |ts| && c in ts[i].ciphers { assert i < |es| ==> c in es[i].ciphers || s.cipher == Some(c); }
    }
  }

  lemma DiscoverAgrees(s: Session)
    ensures Agrees(Discovered(s))
  {
    var es := Discovered(s).endpoints;
    forall v ensures v in ToSeq(s.tlsVersion) <==> SomewhereTls(es, v) {
      assert es[0].tlsVersions == ToSeq(s.tlsVersion);
    }
    forall c ensures c in ToSeq(s.cipher) <==> SomewhereCipher(es, c) { assert es[0].ciphers == ToSeq(s.cipher); }
  }

  /** In every reachable asset the lists are duplicate-free and agree with the endpoints. */
  lemma {:induction false} HistoryAgrees(first: Session, rest: seq<Session>)
    ensures Agrees(History(first, rest))
    ensures |Of(NewEndpoint, Log(first, rest))| == |History(first, rest).endpoints| - 1
  {
    if rest == [] {
      DiscoverAgrees(first);
    } else {
      hide Agrees, Of, Log, EventsOf, TouchEndpoints, Add, AddAll;
      var front, s := rest[..|rest| - 1], rest[|rest| - 1];
      HistoryAgrees(first, front);
      ObserveAgrees(History(first, front), s);
      LogByKind(NewEndpoint, first, rest);
      EndpointIsCounted(History(first, front), s);
    }
  }

  lemma EndpointIsCounted(a: Asset, s: Session)
    ensures |EventsOf(NewEndpoint, a, s)| == |TouchEndpoints(a.endpoints, s)| - |a.endpoints|
  {
    TouchEffect(a.endpoints, s);
    hide TouchEndpoints, EndpointName;
  }

  // ---------- growth ----------

  /** The endpoints stay where they are, and each keeps what it showed. */
  ghost predicate EndpointsGrow(es: seq<Endpoint>, ts: seq<Endpoint>) {
    && |es| <= |ts|
    && forall i | 0 <= i < |es| ::
         && ts[i].protocol == es[i].protocol && ts[i].port == es[i].port && ts[i].firstSeen == es[i].firstSeen
         && es[i].tlsVersions <= ts[i].tlsVersions && es[i].ciphers <= ts[i].ciphers
  }

  ghost predicate AssetGrows(a: Asset, b: Asset) {
    && a.addresses <= b.addresses && a.hostnames <= b.hostnames && a.tlsVersions <= b.tlsVersions
    && a.ciphers <= b.ciphers && a.fingerprints <= b.fingerprints
    && (a.primaryName.Some? ==> b.primaryName == a.primaryName)
    && EndpointsGrow(a.endpoints, b.endpoints)
  }

  lemma ObserveGrows(a: Asset, s: Session)
    ensures AssetGrows(a, Observed(a, s))
  {
    AddAllKeeps(a.hostnames, s.names);
    TouchEffect(a.endpoints, s);
    hide TouchEndpoints, HasEndpoint, AddAll;
  }

  lemma GrowthInTurn(a: Asset, b: Asset, c: Asset)
    requires AssetGrows(a, b) && AssetGrows(b, c)
    ensures AssetGrows(a, c)
  {}

  /** What an asset showed at any moment is a prefix of what it shows later, and so is its log. */
  lemma {:induction false} HistoryOnlyGrows(first: Session, rest: seq<Session>, n: nat)
    requires n <= |rest|
    ensures AssetGrows(History(first, rest[..n]), History(first, rest)) && Log(first, rest[..n]) <= Log(first, rest)
    decreases |rest|
  {
    hide AssetGrows, Observed, Events;
    if n == |rest| {
      assert rest[..n] == rest;
      GrowsFromItself(History(first, rest));
    } else {
      var front, s := rest[..|rest| - 1], rest[|rest| - 1];
      assert front[..n] == rest[..n];
      HistoryOnlyGrows(first, front, n);
      ObserveGrows(History(first, front), s);
      GrowthInTurn(History(first, rest[..n]), History(first, front), History(first, rest));
    }
  }

  lemma GrowsFromItself(a: Asset)
    ensures AssetGrows(a, a)
  {}

  // ---------- replaying an observation ----------

  /** Everything the session would contribute is already there. */
  ghost predicate Knows(a: Asset, s: Session) {
    && (s.tlsVersion.Some? ==> s.tlsVersion.value in a.tlsVersions)
    && (s.cipher.Some? ==> s.cipher.value in a.ciphers)
    && (s.certificate.Some? ==> s.certificate.value.fingerprint in a.fingerprints)
    && s.address in a.addresses
    && (forall n | n in s.names :: n in a.hostnames)
    && (s.names != [] ==> a.primaryName.Some?)
    && exists i :: 0 <= i < |a.endpoints| && Holds(a.endpoints[i], s)
  }

  predicate Holds(e: Endpoint, s: Session) {
    At(e, s) && (s.tlsVersion.Some? ==> s.tlsVersion.value in e.tlsVersions)
    && (s.cipher.Some? ==> s.cipher.value in e.ciphers)
  }

  lemma {:induction false} AddAllKeeps(xs: seq<string>, names: seq<string>)
    ensures xs <= AddAll(xs, names)
    ensures forall n | n in names :: n in AddAll(xs, names)
    ensures (forall n | n in names :: n in xs) ==> AddAll(xs, names) == xs
  {
    if names != [] {
      AddAllKeeps(xs, names[..|names| - 1]);
      assert names == names[..|names| - 1] + [names[|names| - 1]];
    }
  }

  lemma ObservedIsKnown(a: Asset, s: Session)
    ensures Knows(Observed(a, s), s)
  {
    AddAllKeeps(a.hostnames, s.names);
    TouchEffect(a.endpoints, s);
    var ts := TouchEndpoints(a.endpoints, s);
    var k :| TouchedAt(a.endpoints, ts, k, s);
    assert Holds(ts[k], s);
  }

  lemma KnownStaysKnown(a: Asset, s: Session, t: Session)
    requires Knows(a, s)
    ensures Knows(Observed(a, t), s)
  {
    AddAllKeeps(a.hostnames, t.names);
    TouchEffect(a.endpoints, t);
    var i :| 0 <= i < |a.endpoints| && Holds(a.endpoints[i], s);
    assert Holds(TouchEndpoints(a.endpoints, t)[i], s);
  }

  lemma {:induction false} HistoryKnows(first: Session, rest: seq<Session>, s: Session)
    requires s == first || s in rest
    ensures Knows(History(first, rest), s)
  {
    if rest == [] {
      assert Holds(Discovered(first).endpoints[0], first);
    } else {
      var front, t := rest[..|rest| - 1], rest[|rest| - 1];
      assert rest == front + [t];
      if s == first || s in front {
        HistoryKnows(first, front, s);
        KnownStaysKnown(History(first, front), s, t);
      } else {
        ObservedIsKnown(History(first, front), s);
      }
    }
  }

  /** Equal but for when it was last seen. */
  ghost predicate SameButForTime(a: Asset, b: Asset) {
    && a == b.(lastSeen := a.lastSeen, endpoints := a.endpoints)
    && |a.endpoints| == |b.endpoints|
    && forall i | 0 <= i < |a.endpoints| :: a.endpoints[i] == b.endpoints[i].(lastSeen := a.endpoints[i].lastSeen)
  }

  lemma KnownAddsNothing(a: Asset, s: Session)
    requires Agrees(a) && Knows(a, s)
    ensures SameButForTime(Observed(a, s), a)
  {
    AddAllKeeps(a.hostnames, s.names);
    TouchEffect(a.endpoints, s);
    var es, ts := a.endpoints, TouchEndpoints(a.endpoints, s);
    var k :| 0 <= k < |es| && Holds(es[k], s);
    assert HasEndpoint(es, s);
    forall i | 0 <= i < |es| ensures ts[i] == es[i].(lastSeen := ts[i].lastSeen) {
      if ts[i] != es[i] {
        assert At(es[i], s) && At(es[k], s);
        assert i == k;
        assert ts[i] == Touched(es[i], s);
      }
    }
  }

  lemma KnownLogsNothing(a: Asset, s: Session)
    requires Knows(a, s)
    ensures Events(a, s) == SecrecyEvents(a, s)
  {}

  /** Replaying any observation already folded in adds nothing and logs at most a forward-secrecy loss. */
  lemma ReplayIsSilent(first: Session, rest: seq<Session>, s: Session)
    requires s == first || s in rest
    ensures SameButForTime(Observed(History(first, rest), s), History(first, rest))
    ensures Events(History(first, rest), s) == SecrecyEvents(History(first, rest), s)
  {
    HistoryKnows(first, rest, s);
    HistoryAgrees(first, rest);
    KnownAddsNothing(History(first, rest), s);
    KnownLogsNothing(History(first, rest), s);
  }

  lemma TouchFrom(es: seq<Endpoint>, i: nat, s: Session)
    requires i <= |es|
    ensures TouchEndpoints(es[i..], s) ==
      if i == |es| then [NewEndpointOf(s)]
      else if At(es[i], s) then [Touched(es[i], s)] + es[i + 1..]
      else [es[i]] + TouchEndpoints(es[i + 1..], s)
  {
    if i < |es| { assert es[i..][1..] == es[i + 1..]; }
  }

  // ---------- the update in place ----------

  class TrackedAsset {
    var primaryName: Option<string>
    var addresses: seq<string>
    var hostnames: seq<string>
    var endpoints: seq<Endpoint>
    var tlsVersions: seq<TlsVersion>
    var ciphers: seq<string>
    var fingerprints: seq<string>
    var lastSeen: Time

    function View(): Asset
      reads this
    {
      Asset(primaryName, addresses, hostnames, endpoints, tlsVersions, ciphers, fingerprints, lastSeen)
    }

    constructor Discover(s: Session)
      ensures View() == Discovered(s)
    {
      primaryName := if s.names == [] then None else Some(s.names[0]);
      addresses, hostnames, endpoints := [s.address], s.names, [NewEndpointOf(s)];
      tlsVersions, ciphers, fingerprints := ToSeq(s.tlsVersion), ToSeq(s.cipher), ToSeq(Fingerprint(s));
      lastSeen := s.at;
    }

    /** Folds one session in and returns the drift it causes. */
    method Observe(s: Session) returns (drift: seq<Drift>)
      modifies this
      ensures View() == Observed(old(View()), s) && drift == Events(old(View()), s)
    {
      hide TlsEvents, Appearing, Add, HadForwardSecrecy, EndpointName, TouchEndpoints, AddAll;
      ghost var a := View();
      drift := CheckTls(s);
      var events := CheckCipher(s);
      drift := drift + events;
      if LacksForwardSecrecy(s) && HadForwardSecrecy(ciphers) {
        drift := drift + [Drift(ForwardSecrecyLost, Some("PFS Enabled"), "PFS Disabled")];
      }
      assert drift == TlsEvents(a, s) + CipherEvents(a, s) + SecrecyEvents(a, s);
      events := CheckCertificate(s);
      drift := drift + events;
      if !HasEndpoint(endpoints, s) {
        drift := drift + [Drift(NewEndpoint, None, EndpointName(s.protocol, s.port))];
      }
      assert drift == Events(a, s);
      UpdateEndpoint(s);
      UpdateAddress(s.address);
      UpdateNames(s.names);
      lastSeen := s.at;
    }

    method CheckTls(s: Session) returns (events: seq<Drift>)
      modifies this`tlsVersions
      ensures events == TlsEvents(old(View()), s) && tlsVersions == Add(old(tlsVersions), s.tlsVersion)
    {
      events := [];
      if s.tlsVersion.Some? && s.tlsVersion.value !in tlsVersions {
        var previous := if tlsVersions == [] then None else Some(tlsVersions[|tlsVersions| - 1].Display());
        events := [Drift(NewTlsVersion, previous, s.tlsVersion.value.Display())];
        tlsVersions := tlsVersions + [s.tlsVersion.value];
      }
    }

    method CheckCipher(s: Session) returns (events: seq<Drift>)
      modifies this`ciphers
      ensures events == CipherEvents(old(View()), s) && ciphers == Add(old(ciphers), s.cipher)
    {
      events := [];
      if s.cipher.Some? && s.cipher.value !in ciphers {
        events := [Drift(NewCipherSuite, Last(ciphers), s.cipher.value)];
        ciphers := ciphers + [s.cipher.value];
      }
    }

    method CheckCertificate(s: Session) returns (events: seq<Drift>)
      modifies this`fingerprints
      ensures events == CertificateEvents(old(View()), s) + IssuerEvents(old(View()), s)
      ensures fingerprints == Add(old(fingerprints), Fingerprint(s))
    {
      events := [];
      if s.certificate.Some? && s.certificate.value.fingerprint !in fingerprints {
        events := [Drift(CertificateChanged, Last(fingerprints), s.certificate.value.fingerprint)];
        fingerprints := fingerprints + [s.certificate.value.fingerprint];
        events := events + [Drift(NewCertificateIssuer, None, s.certificate.value.issuer)];
      }
    }

    method UpdateAddress(address: string)
      modifies this`addresses
      ensures addresses == Add(old(addresses), Some(address))
    {
      if address !in addresses {
        addresses := addresses + [address];
      }
    }

    method UpdateEndpoint(s: Session)
      modifies this`endpoints
      ensures endpoints == TouchEndpoints(old(endpoints), s)
    {
      hide TouchEndpoints;
      var i := 0;
      while i < |endpoints| && !At(endpoints[i], s)
        invariant i <= |endpoints| && endpoints == old(endpoints)
        invariant TouchEndpoints(endpoints, s) == endpoints[..i] + TouchEndpoints(endpoints[i..], s)
      {
        TouchFrom(endpoints, i, s);
        i := i + 1;
      }
      TouchFrom(endpoints, i, s);
      if i == |endpoints| {
        endpoints := endpoints + [NewEndpointOf(s)];
      } else {
        var e := endpoints[i];
        e := e.(lastSeen := s.at);
        if s.tlsVersion.Some? && s.tlsVersion.value !in e.tlsVersions {
          e := e.(tlsVersions := e.tlsVersions + [s.tlsVersion.value]);
        }
        if s.cipher.Some? && s.cipher.value !in e.ciphers {
          e := e.(ciphers := e.ciphers + [s.cipher.value]);
        }
        endpoints := endpoints[i := e];
      }
    }

    method UpdateNames(names: seq<string>)
      modifies this`hostnames, this`primaryName
      ensures hostnames == AddAll(old(hostnames), names)
      ensures primaryName == if old(primaryName).None? && names != [] then Some(names[0]) else old(primaryName)
    {
      for i := 0 to |names|
        invariant hostnames == AddAll(old(hostnames), names[..i])
        invariant primaryName == if old(primaryName).None? && i > 0 then Some(names[0]) else old(primaryName)
      {
        assert names[..i + 1][..i] == names[..i];
        if names[i] !in hostnames {
          hostnames := hostnames + [names[i]];
        }
        if primaryName.None? {
          primaryName := Some(names[i]);
        }
      }
      assert names[..|names|] == names;
    }
  }
}
