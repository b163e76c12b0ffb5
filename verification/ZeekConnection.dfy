/** What the log lines of one connection say together: the observation made from them, if any. */
module ZeekConnection {
  import opened Domain
  import opened ZeekRecord
  import opened SessionState

  datatype Gap =
    | ProtocolUnclear | NoConnectionLog | HandshakeIncomplete | BytesMissing | EndUnavailable
    | FingerprintUnavailable | TlsUnavailable | CertificateUnavailable | EventsUnavailable

  datatype Event = Event(at: Time, kind: string, source: Source)

  datatype ChainValidation = Verified | Failed | NotVerified

  datatype PublicKey = PublicKey(algorithm: Option<string>, rsaBits: Option<nat>, curve: Option<string>)

  datatype CertificateSeen = CertificateSeen(
    fingerprint: string, subject: string, issuer: string, selfSigned: bool, validity: Validity, names: seq<string>,
    signature: Option<string>, key: PublicKey, isCa: Option<bool>, chain: ChainValidation, chainLength: Option<nat>)

  datatype Observation = Observation(
    id: nat, uid: string, at: Time, flow: Flow, protocol: EmailProtocol, hint: Option<EmailProtocol>,
    starttls: Option<StartTlsState>, tlsVersion: Option<TlsVersion>, cipher: Option<string>, cipherId: Option<nat>,
    keyExchange: Option<KeyExchange>, certificate: Option<CertificateSeen>, established: Option<bool>,
    sources: set<Source>, timeline: seq<Event>, gaps: seq<Gap>)

  /** The identities of one import. `idOf` stands for the hash of capture, sensor, start time and flow. */
  datatype Import = Import(sensorNamed: bool, zeekVersionNamed: bool, isIp: string -> bool, idOf: (Time, Flow) -> nat)

  // ---------- picking lines ----------

  function Select(records: seq<Record>, logs: set<Log>): seq<Record> {
    if records == [] then []
    else Select(records[..|records| - 1], logs)
         + if records[|records| - 1].source.log in logs then [records[|records| - 1]] else []
  }

  function First(records: seq<Record>, logs: set<Log>): Option<Record> {
    if Select(records, logs) == [] then None else Some(Select(records, logs)[0])
  }

  function Or<T>(a: Option<T>, b: Option<T>): Option<T> { if a.Some? then a else b }

  function MaybeText(r: Option<Record>, key: string): Result<Option<string>> {
    if r.None? then Ok(None) else GetText(r.value, key)
  }

  function MaybeBoolean(r: Option<Record>, key: string): Result<Option<bool>> {
    if r.None? then Ok(None) else GetBoolean(r.value, key)
  }

  // ---------- which protocol ----------

  function Split(s: string, c: char): seq<string> {
    if c !in s then [s]
    else
      var i := IndexOf(s, c);
      [s[..i]] + Split(s[i + 1..], c)
  }

  function IndexOf(s: string, c: char): (i: nat)
    requires c in s
    ensures i < |s| && s[i] == c && c !in s[..i]
  {
    if s[0] == c then 0 else 1 + IndexOf(s[1..], c)
  }

  const SERVICES: set<string> := {"smtp", "imap", "pop3"}

  function EventProtocols(events: seq<Record>): Result<set<string>> {
    if events == [] then Ok({})
    else
      var names :- EventProtocols(events[..|events| - 1]);
      var name :- Required(events[|events| - 1], "protocol");
      Ok(if name == "" then names else names + {name})
  }

  /** The protocols the evidence names, or None for a connection that is not TCP. */
  function Names(events: seq<Record>, smtp: Option<Record>, conn: Option<Record>): Result<Option<set<string>>> {
    var named :- EventProtocols(events);
    var names := named + if smtp.Some? then {"smtp"} else {};
    var transport :- MaybeText(conn, "proto");
    if transport.Some? && transport.value != "tcp" then Ok(None)
    else
      var service :- MaybeText(conn, "service");
      Ok(Some(names + if service.Some? then (set n | n in Split(service.value, ',') && n in SERVICES) else {}))
  }

  function ProtocolOf(names: set<string>): EmailProtocol {
    if names == {"smtp"} then Smtp
    else if names == {"imap"} then Imap
    else if names == {"pop3"} then Pop3
    else UnknownProtocol
  }

  function Hint(r: Option<Record>): Result<Option<EmailProtocol>> {
    if r.None? then Ok(None)
    else
      var port :- Port(r.value, "id.resp_p");
      Ok(if port == 465 then Some(Smtp)
         else if port == 993 then Some(Imap)
         else if port == 995 then Some(Pop3)
         else None)
  }

  // ---------- the capture's gaps ----------

  function GapIf(missing: bool, gap: Gap): seq<Gap> { if missing then [gap] else [] }

  /** The gaps known before the TLS evidence is read. A connection that was not closed always has one. */
  function EarlyGaps(protocol: EmailProtocol, conn: Option<Record>): Result<seq<Gap>> {
    var history :- MaybeText(conn, "history");
    var missed :- if conn.None? then Ok(None) else GetNumber(conn.value, "missed_bytes");
    var state :- MaybeText(conn, "conn_state");
    var shaken := history.Some? && 'S' in history.value && 'h' in history.value;
    var closed := state.Some? && state.value in {"SF", "RSTO", "RSTR"};
    Ok(GapIf(protocol.UnknownProtocol?, ProtocolUnclear) + GapIf(conn.None?, NoConnectionLog)
       + GapIf(!shaken, HandshakeIncomplete) + GapIf(missed.Some? && missed.value > 0.0, BytesMissing)
       + GapIf(!closed, EndUnavailable))
  }

  // ---------- the event log ----------

  datatype Facts = Facts(cipherId: Option<nat>, keyExchange: Option<KeyExchange>, timeline: seq<Event>)

  function CipherId(event: Record): Result<Option<nat>> {
    var n := Unsigned(event, "cipher_id");
    if n.Some? && n.value >= 0x1_0000 then Bad(event, "cipher_id") else Ok(n)
  }

  /** A cipher number is an integer of 16 bits; what is no integer of 64 bits counts as absent. */
  lemma CipherIdExactly(event: Record, n: nat)
    ensures CipherId(event) == Ok(Some(n)) <==> HasInteger(event, "cipher_id", 0, 65535, n)
    ensures CipherId(event) == Ok(None) <==> forall i :: !HasInteger(event, "cipher_id", 0, 0xFFFF_FFFF_FFFF_FFFF, i)
  {
    if forall i :: !HasInteger(event, "cipher_id", 0, 0xFFFF_FFFF_FFFF_FFFF, i) {
      if "cipher_id" in event.value && event.value["cipher_id"].Integer? {
        assert !HasInteger(event, "cipher_id", 0, 0xFFFF_FFFF_FFFF_FFFF, event.value["cipher_id"].i);
      }
    }
  }

  function EventFacts(events: seq<Record>): Result<Facts> {
    if events == [] then Ok(Facts(None, None, []))
    else
      var event := events[|events| - 1];
      var facts :- EventFacts(events[..|events| - 1]);
      var kind :- Required(event, "kind");
      var cipherId :- if kind == "tls_server_hello" then CipherId(event) else Ok(facts.cipherId);
      var kx :=
        if kind == "key_exchange_ecdhe" then Some(Ecdhe)
        else if kind == "key_exchange_dhe" then Some(Dhe)
        else if kind == "key_exchange_rsa_static" then Some(RsaStatic)
        else facts.keyExchange;
      var at :- GetTime(event, "ts");
      Ok(Facts(cipherId, kx, facts.timeline + [Event(at, kind, event.source)]))
  }

  /** A stable sort by time: events of one packet keep their order. */
  function SortByTime(events: seq<Event>): seq<Event> {
    if events == [] then [] else InsertLast(SortByTime(events[..|events| - 1]), events[|events| - 1])
  }

  function InsertLast(sorted: seq<Event>, e: Event): seq<Event> {
    if sorted == [] || sorted[|sorted| - 1].at <= e.at then sorted + [e]
    else InsertLast(sorted[..|sorted| - 1], e) + [sorted[|sorted| - 1]]
  }

  function Kinds(timeline: seq<Event>): set<string> { set e | e in timeline :: e.kind }

  // ---------- STARTTLS ----------

  function Reconstruct(timeline: seq<Event>, upgraded: bool, established: Option<bool>, complete: bool)
      : Option<StartTlsState>
  {
    var kinds := Kinds(timeline);
    if "plaintext_continuation" in kinds then Some(PlaintextContinuation)
    else if "tls_fatal_alert" in kinds && (upgraded || "starttls_requested" in kinds) then Some(FailedHandshake)
    else if upgraded && established == Some(true) then Some(TlsEstablished)
    else if "starttls_rejected" in kinds then Some(Rejected)
    else if upgraded && "tls_client_hello" in kinds then Some(TlsStarted)
    else if upgraded then Some(Accepted)
    else if "starttls_requested" in kinds then Some(Requested)
    else if "starttls_advertised" in kinds then Some(if complete then AdvertisedNotUsed else Advertised)
    else if "starttls_not_advertised" in kinds then Some(StartTlsState.NotAdvertised)
    else None
  }

  // ---------- TLS and the certificate ----------

  function VersionOf(v: string): TlsVersion {
    if v == "TLSv10" || v == "TLSv1.0" then Tls10
    else if v == "TLSv11" || v == "TLSv1.1" then Tls11
    else if v == "TLSv12" || v == "TLSv1.2" then Tls12
    else if v == "TLSv13" || v == "TLSv1.3" then Tls13
    else UnknownTls(v)
  }

  /** Zeek writes the known versions without a dot. */
  function Dotted(v: string): string {
    if v in {"TLSv10", "TLSv11", "TLSv12", "TLSv13"} then v[..5] + "." + v[5..] else v
  }

  /** Both spellings of a known version are that version, and any other text is kept: what is read is canonical. */
  lemma VersionIsCanonical(v: string)
    ensures Canonical(VersionOf(v)) && VersionOf(v).Display() == Dotted(v)
  {}

  /** The key exchange an event names, else the one the cipher's name implies below TLS 1.3. */
  function KeyExchangeOf(seen: Option<KeyExchange>, version: Option<TlsVersion>, cipher: Option<string>)
      : Option<KeyExchange>
  {
    if seen.Some? || version == Some(Tls13) || cipher.None? then seen
    else if "TLS_ECDHE_" <= cipher.value then Some(Ecdhe)
    else if "TLS_DHE_" <= cipher.value then Some(Dhe)
    else if "TLS_RSA_WITH_" <= cipher.value then Some(RsaStatic)
    else None
  }

  function Lower(s: string): string {
    seq(|s|, i requires 0 <= i < |s| => if 'A' <= s[i] <= 'Z' then s[i] + 32 as char else s[i])
  }

  function Upper(s: string): string {
    seq(|s|, i requires 0 <= i < |s| => if 'a' <= s[i] <= 'z' then s[i] - 32 as char else s[i])
  }

  predicate KeyIs(kind: Option<string>, algorithm: Option<string>, kinds: set<string>, part: string) {
    || (kind.Some? && Lower(kind.value) in kinds)
    || (algorithm.Some? && Contains(Lower(algorithm.value), part))
  }

  /** A float cast to 16 bits: the fraction is dropped and the ends saturate. */
  function Clamp16(n: real): nat { if n <= 0.0 then 0 else if n >= 65535.0 then 65535 else n.Floor }

  function PublicKeyOf(cert: Record): Result<PublicKey> {
    var kind :- GetText(cert, "certificate.key_type");
    var algorithm :- GetText(cert, "certificate.key_alg");
    var length :- GetNumber(cert, "certificate.key_length");
    if KeyIs(kind, algorithm, {"rsa"}, "rsa") then
      Ok(PublicKey(Some("RSA"), if length.None? then None else Some(Clamp16(length.value)), None))
    else if KeyIs(kind, algorithm, {"ecdsa", "ec"}, "ec") then
      var curve :- GetText(cert, "certificate.curve");
      Ok(PublicKey(Some("EC"), None, curve))
    else if KeyIs(kind, algorithm, {"ed25519"}, "25519") then Ok(PublicKey(Some("Ed25519"), None, None))
    else
      var name := Or(kind, algorithm);
      Ok(PublicKey(if name.None? then None else Some(Upper(name.value)), None, None))
  }

  /** Equal but for the case of ASCII letters; `small` is in lower case. */
  ghost predicate SameLetters(text: string, small: string) {
    |text| == |small| && forall i | 0 <= i < |text| :: text[i] == small[i] || IsCapitalOf(text[i], small[i])
  }

  predicate IsCapitalOf(big: char, small: char) { 'A' <= big <= 'Z' && big as int + 32 == small as int }

  ghost predicate IsSmall(s: string) { forall i | 0 <= i < |s| :: !('A' <= s[i] <= 'Z') }

  lemma LowerExactly(text: string, small: string)
    requires IsSmall(small)
    ensures Lower(text) == small <==> SameLetters(text, small)
  {
    if Lower(text) == small {
      forall i | 0 <= i < |text| ensures text[i] == small[i] || IsCapitalOf(text[i], small[i]) {
        assert Lower(text)[i] == small[i];
      }
    }
  }

  /** Some part of the text spells the word, whatever its letters' case. */
  ghost predicate Spells(text: string, word: string) { exists i :: SpellsAt(text, word, i) }

  ghost predicate SpellsAt(text: string, word: string, i: int) {
    0 <= i <= |text| - |word| && SameLetters(text[i..i + |word|], word)
  }

  lemma SpellsExactly(text: string, word: string)
    requires IsSmall(word)
    ensures Contains(Lower(text), word) <==> Spells(text, word)
  {
    LowerLength(text);
    forall i: nat | i <= |text| ensures PartAt(Lower(text), word, i) <==> SpellsAt(text, word, i) {
      if i + |word| <= |text| {
        assert Lower(text)[i..i + |word|] == Lower(text[i..i + |word|]);
        LowerExactly(text[i..i + |word|], word);
      }
    }
    hide Lower, SameLetters, PartAt;
    if Spells(text, word) {
      var i :| SpellsAt(text, word, i);
      assert PartAt(Lower(text), word, i);
    }
  }

  lemma LowerLength(text: string)
    ensures |Lower(text)| == |text|
  {}

  /** The certificate's key type is one of these words, or its algorithm's name spells the part. */
  ghost predicate NamesKey(cert: Record, kinds: set<string>, part: string) {
    || (exists kind, word ::
          GetText(cert, "certificate.key_type") == Ok(Some(kind)) && word in kinds && SameLetters(kind, word))
    || (exists name :: GetText(cert, "certificate.key_alg") == Ok(Some(name)) && Spells(name, part))
  }

  lemma KeyIsNamed(cert: Record, kinds: set<string>, part: string)
    requires PublicKeyOf(cert).Ok? && IsSmall(part) && forall word | word in kinds :: IsSmall(word)
    ensures KeyIs(GetText(cert, "certificate.key_type").value, GetText(cert, "certificate.key_alg").value, kinds, part)
      <==> NamesKey(cert, kinds, part)
  {
    var kind, name := GetText(cert, "certificate.key_type").value, GetText(cert, "certificate.key_alg").value;
    hide GetText, PublicKeyOf;
    if kind.Some? {
      forall word | word in kinds { LowerExactly(kind.value, word); }
    }
    if name.Some? { SpellsExactly(name.value, part); }
    hide Lower, SameLetters, Spells, Contains;
  }

  /** The kind of key in its order of precedence; a size is given for RSA only, a curve for elliptic keys only. */
  ghost predicate KeyRead(cert: Record, key: PublicKey) {
    if NamesKey(cert, {"rsa"}, "rsa") then
      && key.algorithm == Some("RSA") && key.curve.None?
      && (exists length :: GetNumber(cert, "certificate.key_length") == Ok(length) && BitsRead(length, key.rsaBits))
    else if NamesKey(cert, {"ecdsa", "ec"}, "ec") then
      key.algorithm == Some("EC") && key.rsaBits.None? && GetText(cert, "certificate.curve") == Ok(key.curve)
    else if NamesKey(cert, {"ed25519"}, "25519") then key == PublicKey(Some("Ed25519"), None, None)
    else
      && key.rsaBits.None? && key.curve.None?
      && (key.algorithm.None? <==> GetText(cert, "certificate.key_type") == Ok(None)
                                   && GetText(cert, "certificate.key_alg") == Ok(None))
      && (key.algorithm.Some? ==> exists name :: KeyName(cert, name) && InCapitals(key.algorithm.value, name))
  }

  /** The name of the key's type, or without one of its algorithm. */
  ghost predicate KeyName(cert: Record, name: string) {
    || GetText(cert, "certificate.key_type") == Ok(Some(name))
    || (GetText(cert, "certificate.key_type") == Ok(None) && GetText(cert, "certificate.key_alg") == Ok(Some(name)))
  }

  ghost predicate InCapitals(big: string, text: string) {
    && |big| == |text|
    && forall i | 0 <= i < |text| :: if 'a' <= text[i] <= 'z' then IsCapitalOf(big[i], text[i]) else big[i] == text[i]
  }

  lemma UpperIsCapitals(text: string)
    ensures InCapitals(Upper(text), text)
  {}

  /** The size without its fraction, at least 0 and at most 65535. */
  ghost predicate BitsRead(length: Option<real>, bits: Option<nat>) {
    && (length.None? <==> bits.None?)
    && (length.Some? ==>
          && bits.value <= 65535
          && (0.0 <= length.value < 65536.0 ==> bits.value as real <= length.value < bits.value as real + 1.0)
          && (length.value < 0.0 ==> bits.value == 0) && (length.value >= 65536.0 ==> bits.value == 65535))
  }

  lemma KeyIsRead(cert: Record)
    requires PublicKeyOf(cert).Ok?
    ensures KeyRead(cert, PublicKeyOf(cert).value)
  {
    KeyIsNamed(cert, {"rsa"}, "rsa");
    KeyIsNamed(cert, {"ecdsa", "ec"}, "ec");
    KeyIsNamed(cert, {"ed25519"}, "25519");
    forall name { UpperIsCapitals(name); }
    hide GetText, GetNumber, NamesKey, KeyIs, Upper, InCapitals;
    var length := GetNumber(cert, "certificate.key_length").value;
    assert BitsRead(length, if length.None? then None else Some(Clamp16(length.value)));
  }

  function ChainOf(status: Option<string>): ChainValidation {
    if status.Some? && Lower(status.value) == "ok" then Verified
    else if status.Some? && status.value != "" then Failed
    else NotVerified
  }

  function Describe(tls: Record, cert: Record, fingerprint: string, chainLength: nat): Result<CertificateSeen> {
    var subject :- Required(cert, "certificate.subject");
    var issuer :- Required(cert, "certificate.issuer");
    var signature :- GetText(cert, "certificate.sig_alg");
    var key :- PublicKeyOf(cert);
    var isCa :- GetBoolean(cert, "basic_constraints.ca");
    var status :- GetText(tls, "validation_status");
    var notBefore :- GetTime(cert, "certificate.not_valid_before");
    var notAfter :- GetTime(cert, "certificate.not_valid_after");
    var names :- GetStrings(cert, "san.dns");
    Ok(CertificateSeen(fingerprint, subject, issuer, subject == issuer, Validity(notBefore, notAfter), names,
                       signature, key, isCa, ChainOf(status), Some(chainLength % 256)))
  }

  /** The leaf certificate: described, without a fingerprint, or not in the table at all. */
  datatype Leaf = Described(seen: CertificateSeen, source: Source) | Unnamed | Unlisted

  function LeafOf(tls: Record, certs: map<string, Record>, hashes: map<string, string>): Result<Leaf> {
    var fps :- GetStrings(tls, "cert_chain_fps");
    var fuids :- GetStrings(tls, "cert_chain_fuids");
    var chain := if fps != [] then fps else fuids;
    if chain == [] || chain[0] !in certs then Ok(Unlisted)
    else
      var cert := certs[chain[0]];
      var own :- GetText(cert, "fingerprint");
      var fingerprint := Or(own, if chain[0] in hashes then Some(hashes[chain[0]]) else None);
      if fingerprint.None? then Ok(Unnamed)
      else
        var seen :- Describe(tls, cert, fingerprint.value, |chain|);
        Ok(Described(seen, cert.source))
  }

  predicate HexDigit(c: char) { '0' <= c <= '9' || 'a' <= c <= 'f' || 'A' <= c <= 'F' }

  lemma HexDigitExactly(c: char)
    ensures HexDigit(c) <==> c in "0123456789abcdefABCDEF"
  {}

  /** The checks every observation passes before it leaves the sensor. */
  predicate Valid(run: Import, o: Observation) {
    && run.sensorNamed && run.zeekVersionNamed
    && run.isIp(o.flow.srcIp) && run.isIp(o.flow.dstIp) && o.flow.srcPort > 0 && o.flow.dstPort > 0
    && (o.certificate.Some? ==>
          && |o.certificate.value.fingerprint| == 64
          && (forall i | 0 <= i < 64 :: HexDigit(o.certificate.value.fingerprint[i]))
          && o.certificate.value.validity.notBefore <= o.certificate.value.validity.notAfter)
  }

  /** Named sensor and parser, addresses that are addresses, real ports, a hash of 64 digits, a time in order. */
  lemma ValidExactly(run: Import, o: Observation)
    ensures Valid(run, o) <==>
      && run.sensorNamed && run.zeekVersionNamed && run.isIp(o.flow.srcIp) && run.isIp(o.flow.dstIp)
      && 0 !in {o.flow.srcPort, o.flow.dstPort}
      && match o.certificate
         case None => true
         case Some(c) =>
           && |c.fingerprint| == 64 && (forall x | x in c.fingerprint :: x in "0123456789abcdefABCDEF")
           && !(c.validity.notAfter < c.validity.notBefore)
  {
    forall x: char { HexDigitExactly(x); }
    hide HexDigit;
  }

  // ---------- one connection ----------

  /** Everything read from the TLS record, if there is one. */
  datatype Tls = Tls(version: Option<TlsVersion>, cipher: Option<string>, leaf: Leaf)

  function TlsOf(tls: Option<Record>, certs: map<string, Record>, hashes: map<string, string>): Result<Tls> {
    var version :- MaybeText(tls, "version");
    var cipher :- MaybeText(tls, "cipher");
    var leaf :- if tls.None? then Ok(Unlisted) else LeafOf(tls.value, certs, hashes);
    Ok(Tls(if version.None? then None else Some(VersionOf(version.value)), cipher, leaf))
  }

  function Upgraded(timeline: seq<Event>, smtp: Option<Record>): Result<bool> {
    if "starttls_accepted" in Kinds(timeline) then Ok(true)
    else
      var tls :- MaybeBoolean(smtp, "tls");
      Ok(tls == Some(true))
  }

  /** The log lines a connection consists of. */
  function OwnSources(records: seq<Record>): set<Source> { set r | r in records :: r.source }

  function Observe(run: Import, uid: string, records: seq<Record>, certs: map<string, Record>,
                   hashes: map<string, string>,
                   names: set<string>, base: Record, hint: Option<EmailProtocol>): Result<Observation> {
    var conn, smtp, tls := First(records, {ConnLog}), First(records, {SmtpLog}), First(records, {SslLog, TlsLog});
    var early :- EarlyGaps(ProtocolOf(names), conn);
    var facts :- EventFacts(Select(records, {MailentLog}));
    var timeline := SortByTime(facts.timeline);
    var said :- MaybeBoolean(tls, "established");
    var established := Or(said, if "tls_established" in Kinds(timeline) then Some(true) else None);
    var upgraded :- Upgraded(timeline, smtp);
    var t :- TlsOf(tls, certs, hashes);
    if |Select(records, {SslLog, TlsLog})| > 1 then Err(MultipleTls(uid))
    else
      var at :- GetTime(if tls.Some? then tls.value else base, "ts");
      var flow :- FlowOf(base);
      var start :- GetTime(base, "ts");
      var sources := OwnSources(records) + if t.leaf.Described? then {t.leaf.source} else {};
      var gaps := early + GapIf(t.leaf.Unnamed?, FingerprintUnavailable) + GapIf(t.version.None?, TlsUnavailable)
        + GapIf(!t.leaf.Described?, CertificateUnavailable)
          + GapIf(Select(records, {MailentLog}) == [], EventsUnavailable);
      var o := Observation(run.idOf(start, flow), uid, at, flow, ProtocolOf(names), hint,
                           Reconstruct(timeline, upgraded, established, early == []), t.version, t.cipher,
                           if t.cipher.Some? then facts.cipherId else None,
                           KeyExchangeOf(facts.keyExchange, t.version, t.cipher),
                           if t.leaf.Described? then Some(t.leaf.seen) else None, established, sources, timeline, gaps);
      if Valid(run, o) then Ok(o) else Err(Invalid("observation"))
  }

  /** None when the lines carry no email evidence. */
  function Connection(run: Import, uid: string, records: seq<Record>,
                      certs: map<string, Record>, hashes: map<string, string>): Result<Option<Observation>>
  {
    var conn, smtp, tls := First(records, {ConnLog}), First(records, {SmtpLog}), First(records, {SslLog, TlsLog});
    var names :- Names(Select(records, {MailentLog}), smtp, conn);
    if names.None? then Ok(None)
    else
      var base := Or(conn, Or(smtp, tls));
      var hint :- Hint(base);
      if names.value == {} && !(tls.Some? && hint.Some?) then Ok(None)
      else if base.None? then Err(NoFlowRecord(uid))
      else
        var o :- Observe(run, uid, records, certs, hashes, names.value, base.value, hint);
        Ok(Some(o))
  }

  lemma ObservedUid(run: Import, uid: string, records: seq<Record>, certs: map<string, Record>,
                    hashes: map<string, string>,
                    names: set<string>, base: Record, hint: Option<EmailProtocol>)
    ensures var r := Observe(run, uid, records, certs, hashes, names, base, hint);
      r.Ok? ==> r.value.uid == uid && r.value.protocol == ProtocolOf(names) && r.value.hint == hint
  {
    hide First, EarlyGaps, EventFacts, SortByTime, MaybeBoolean, Or, Upgraded, TlsOf, Select, GetTime, FlowOf, Kinds,
         GapIf, Reconstruct, KeyExchangeOf, Valid, ProtocolOf;
  }

  lemma ConnectionUid(run: Import, uid: string, records: seq<Record>, certs: map<string, Record>,
                      hashes: map<string, string>)
    ensures var r := Connection(run, uid, records, certs, hashes); r.Ok? && r.value.Some? ==> r.value.value.uid == uid
  {
    hide First, Select, Names, Hint, Or, Observe;
    var conn, smtp, tls := First(records, {ConnLog}), First(records, {SmtpLog}), First(records, {SslLog, TlsLog});
    var base := Or(conn, Or(smtp, tls));
    var names, hint := Names(Select(records, {MailentLog}), smtp, conn), Hint(base);
    if names.Ok? && names.value.Some? && hint.Ok? && base.Some? {
      ObservedUid(run, uid, records, certs, hashes, names.value.value, base.value, hint.value);
    }
  }

  // ---------- the protocol is evidence, never a guess ----------

  /** Some line names the protocol: an event, the presence of an SMTP log line, or the connection's service list. */
  ghost predicate Mentions(records: seq<Record>, name: string) {
    || (name == "smtp" && First(records, {SmtpLog}).Some?)
    || (name != "" && EventNames(Select(records, {MailentLog}), name))
    || (name in SERVICES && ServiceNames(First(records, {ConnLog}), name))
  }

  ghost predicate EventNames(events: seq<Record>, name: string) {
    exists i | 0 <= i < |events| :: Required(events[i], "protocol") == Ok(name)
  }

  ghost predicate ServiceNames(conn: Option<Record>, name: string) {
    var service := MaybeText(conn, "service");
    service.Ok? && service.value.Some? && name in Split(service.value.value, ',')
  }

  lemma {:induction false} EventProtocolsExactly(events: seq<Record>, name: string)
    requires EventProtocols(events).Ok?
    ensures name in EventProtocols(events).value <==> name != "" && EventNames(events, name)
  {
    if events != [] {
      var front, last := events[..|events| - 1], events[|events| - 1];
      EventProtocolsExactly(front, name);
      hide Required;
      assert EventNames(events, name) <==> EventNames(front, name) || Required(last, "protocol") == Ok(name) by {
        if EventNames(front, name) {
          var i :| 0 <= i < |front| && Required(front[i], "protocol") == Ok(name);
          assert events[i] == front[i];
        }
      }
    }
  }

  ghost predicate OnlyMentions(records: seq<Record>, name: string) {
    forall n :: Mentions(records, n) <==> n == name
  }

  lemma NamesExactly(records: seq<Record>, name: string)
    requires var r := Names(Select(records, {MailentLog}), First(records, {SmtpLog}), First(records, {ConnLog}));
      r.Ok? && r.value.Some?
    ensures name in Names(Select(records, {MailentLog}), First(records, {SmtpLog}),
      First(records, {ConnLog})).value.value
       <==> Mentions(records, name)
  {
    EventProtocolsExactly(Select(records, {MailentLog}), name);
    hide Select, First, EventProtocols, MaybeText, Split, EventNames;
  }

  /** An observation carries a protocol exactly when the evidence names that one and no other; the port has no say. */
  lemma ProtocolIsEvidence(run: Import, uid: string, records: seq<Record>, certs: map<string, Record>,
                           hashes: map<string, string>)
    requires Connection(run, uid, records, certs, hashes).Ok?
    requires Connection(run, uid, records, certs, hashes).value.Some?
    ensures var o := Connection(run, uid, records, certs, hashes).value.value;
      && (o.protocol.Smtp? <==> OnlyMentions(records, "smtp"))
      && (o.protocol.Imap? <==> OnlyMentions(records, "imap"))
      && (o.protocol.Pop3? <==> OnlyMentions(records, "pop3"))
  {
    hide First, Select, Hint, Or, Observe, Names, Mentions;
    var conn, smtp, tls := First(records, {ConnLog}), First(records, {SmtpLog}), First(records, {SslLog, TlsLog});
    var names := Names(Select(records, {MailentLog}), smtp, conn).value.value;
    var base := Or(conn, Or(smtp, tls));
    ObservedUid(run, uid, records, certs, hashes, names, base.value, Hint(base).value);
    forall n ensures n in names <==> Mentions(records, n) { NamesExactly(records, n); }
    SingleName(records, names, "smtp");
    SingleName(records, names, "imap");
    SingleName(records, names, "pop3");
  }

  /** The connection log says the connection is not TCP. */
  ghost predicate NotTcp(conn: Option<Record>) {
    conn.Some? && exists transport :: GetText(conn.value, "proto") == Ok(Some(transport)) && transport != "tcp"
  }

  /** TLS was seen on a port that mail servers encrypt from the first byte. */
  ghost predicate ImplicitTlsSeen(records: seq<Record>) {
    var conn, smtp, tls := First(records, {ConnLog}), First(records, {SmtpLog}), First(records, {SslLog, TlsLog});
    var base := if conn.Some? then conn else if smtp.Some? then smtp else tls;
    && tls.Some? && base.Some?
    && (Port(base.value, "id.resp_p") == Ok(465) || Port(base.value, "id.resp_p") == Ok(993)
        || Port(base.value, "id.resp_p") == Ok(995))
  }

  lemma NamesMissing(events: seq<Record>, smtp: Option<Record>, conn: Option<Record>)
    requires Names(events, smtp, conn).Ok?
    ensures Names(events, smtp, conn).value.None? <==> NotTcp(conn)
  {
    hide EventProtocols, GetText;
    assert conn.Some? ==> GetText(conn.value, "proto") == MaybeText(conn, "proto");
  }

  /** A readable connection is passed over exactly when it is not TCP, or nothing says it is mail. */
  lemma SkippedExactly(run: Import, uid: string, records: seq<Record>, certs: map<string, Record>,
                       hashes: map<string, string>)
    requires Connection(run, uid, records, certs, hashes).Ok?
    ensures Connection(run, uid, records, certs, hashes) == Ok(None)
      <==> NotTcp(First(records, {ConnLog}))
           || ((forall name :: !Mentions(records, name)) && !ImplicitTlsSeen(records))
  {
    hide First, Select, Observe, Names, Mentions, Port, GetText;
    var conn, smtp, tls := First(records, {ConnLog}), First(records, {SmtpLog}), First(records, {SslLog, TlsLog});
    var names := Names(Select(records, {MailentLog}), smtp, conn).value;
    NamesMissing(Select(records, {MailentLog}), smtp, conn);
    if names.Some? {
      forall n ensures n in names.value <==> Mentions(records, n) { NamesExactly(records, n); }
    }
    hide NotTcp;
  }

  lemma SingleName(records: seq<Record>, names: set<string>, name: string)
    requires forall n :: n in names <==> Mentions(records, n)
    ensures names == {name} <==> OnlyMentions(records, name)
  {}

  // ---------- the timeline ----------

  /** The events of one instant, in order. */
  function AtTime(events: seq<Event>, at: Time): seq<Event> {
    if events == [] then []
    else AtTime(events[..|events| - 1], at) + if events[|events| - 1].at == at then [events[|events| - 1]] else []
  }

  ghost predicate Chronological(events: seq<Event>) {
    forall i, j | 0 <= i < j < |events| :: events[i].at <= events[j].at
  }

  lemma {:induction false} InsertKeepsOrder(sorted: seq<Event>, e: Event)
    requires Chronological(sorted)
    ensures Chronological(InsertLast(sorted, e))
    ensures forall x | x in InsertLast(sorted, e) :: x == e || x in sorted
    decreases |sorted|
  {
    if sorted != [] && sorted[|sorted| - 1].at > e.at {
      var front, last := sorted[..|sorted| - 1], sorted[|sorted| - 1];
      InsertKeepsOrder(front, e);
      assert forall x | x in InsertLast(front, e) :: x.at <= last.at;
    }
  }

  lemma {:induction false} InsertIsLast(sorted: seq<Event>, e: Event, at: Time)
    ensures AtTime(InsertLast(sorted, e), at) == AtTime(sorted, at) + if e.at == at then [e] else []
    decreases |sorted|
  {
    var result := InsertLast(sorted, e);
    if sorted == [] || sorted[|sorted| - 1].at <= e.at {
      assert result[..|result| - 1] == sorted;
    } else {
      var front := sorted[..|sorted| - 1];
      InsertIsLast(front, e, at);
      assert result[..|result| - 1] == InsertLast(front, e);
      assert AtTime(front, at) + [] == AtTime(front, at);
    }
  }

  /** Sorting by time keeps every event, and the order of the events of one instant. */
  lemma {:induction false} SortIsStable(events: seq<Event>, at: Time)
    ensures Chronological(SortByTime(events)) && AtTime(SortByTime(events), at) == AtTime(events, at)
  {
    if events != [] {
      SortIsStable(events[..|events| - 1], at);
      InsertKeepsOrder(SortByTime(events[..|events| - 1]), events[|events| - 1]);
      InsertIsLast(SortByTime(events[..|events| - 1]), events[|events| - 1], at);
    }
  }

  /** Sorting neither adds nor drops a kind of event. */
  lemma {:induction false} InsertMembers(sorted: seq<Event>, e: Event)
    ensures forall x :: x in InsertLast(sorted, e) <==> x == e || x in sorted
    decreases |sorted|
  {
    if sorted != [] && sorted[|sorted| - 1].at > e.at {
      InsertMembers(sorted[..|sorted| - 1], e);
      assert sorted == sorted[..|sorted| - 1] + [sorted[|sorted| - 1]];
    }
  }

  lemma {:induction false} SortMembers(events: seq<Event>)
    ensures forall x :: x in SortByTime(events) <==> x in events
  {
    if events != [] {
      SortMembers(events[..|events| - 1]);
      InsertMembers(SortByTime(events[..|events| - 1]), events[|events| - 1]);
      assert events == events[..|events| - 1] + [events[|events| - 1]];
    }
  }

  // ---------- what an observation's verdict rests on ----------

  ghost predicate KindLogged(events: seq<Record>, kind: string) {
    exists i | 0 <= i < |events| :: Required(events[i], "kind") == Ok(kind)
  }

  /** A timeline has exactly the kinds of event the lines name. */
  lemma {:induction false} FactsKinds(events: seq<Record>, kind: string)
    requires EventFacts(events).Ok?
    ensures kind in Kinds(EventFacts(events).value.timeline) <==> KindLogged(events, kind)
  {
    if events != [] {
      var front, last := events[..|events| - 1], events[|events| - 1];
      FactsKinds(front, kind);
      var before, after := EventFacts(front).value.timeline, EventFacts(events).value.timeline;
      hide Required, CipherId, GetTime;
      assert after == before + [after[|before|]] && Required(last, "kind") == Ok(after[|before|].kind);
      assert KindLogged(events, kind) <==> KindLogged(front, kind) || Required(last, "kind") == Ok(kind) by {
        if KindLogged(front, kind) {
          var i :| 0 <= i < |front| && Required(front[i], "kind") == Ok(kind);
          assert events[i] == front[i];
        }
      }
    }
  }

  /** The capture saw the connection open and close, lost nothing, and the protocol is clear. */
  ghost predicate Whole(conn: Option<Record>, protocol: EmailProtocol) {
    && conn.Some? && !protocol.UnknownProtocol?
    && (exists history :: GetText(conn.value, "history") == Ok(Some(history)) && 'S' in history && 'h' in history)
    && (exists state :: GetText(conn.value, "conn_state") == Ok(Some(state)) && state in {"SF", "RSTO", "RSTR"})
    && (forall missed :: GetNumber(conn.value, "missed_bytes") == Ok(Some(missed)) ==> missed <= 0.0)
  }

  /** Plain evidence of an upgrade: an accepted STARTTLS in the event log, or Zeek's own mark on the SMTP line. */
  ghost predicate UpgradeSeen(records: seq<Record>) {
    || KindLogged(Select(records, {MailentLog}), "starttls_accepted")
    || (First(records, {SmtpLog}).Some? && GetBoolean(First(records, {SmtpLog}).value, "tls") == Ok(Some(true)))
  }

  lemma NoGapsIsWhole(protocol: EmailProtocol, conn: Option<Record>)
    requires EarlyGaps(protocol, conn) == Ok([])
    ensures Whole(conn, protocol)
  {
    hide GetText, GetNumber;
    var history, state := MaybeText(conn, "history").value, MaybeText(conn, "conn_state").value;
    assert !protocol.UnknownProtocol? && conn.Some?;
    assert GetText(conn.value, "history") == Ok(history) && GetText(conn.value, "conn_state") == Ok(state);
  }

  lemma UpgradedIsSeen(records: seq<Record>, timeline: seq<Event>)
    requires Upgraded(timeline, First(records, {SmtpLog})).Ok?
    requires forall kind :: kind in Kinds(timeline) <==> KindLogged(Select(records, {MailentLog}), kind)
    ensures Upgraded(timeline, First(records, {SmtpLog})).value <==> UpgradeSeen(records)
  {
    hide KindLogged, Select, First, Kinds, GetBoolean, Required;
  }

  // ---------- an observation says what its lines say ----------

  /** The version is what the TLS line calls it. */
  ghost predicate VersionRead(tls: Option<Record>, version: Option<TlsVersion>) {
    match version
    case None => tls.None? || GetText(tls.value, "version") == Ok(None)
    case Some(v) =>
      && tls.Some? && Canonical(v)
      && exists text :: GetText(tls.value, "version") == Ok(Some(text)) && v.Display() == Dotted(text)
  }

  const KEY_EXCHANGES: map<string, KeyExchange> :=
    map["key_exchange_ecdhe" := Ecdhe, "key_exchange_dhe" := Dhe, "key_exchange_rsa_static" := RsaStatic]

  /** The event is the last of its log to name a key exchange. */
  ghost predicate LastNamed(events: seq<Record>, i: nat, kind: string) {
    && i < |events| && kind in KEY_EXCHANGES && Required(events[i], "kind") == Ok(kind)
    && forall j, k | i < j < |events| && Required(events[j], "kind") == Ok(k) :: k !in KEY_EXCHANGES
  }

  ghost predicate NamesKeyExchange(events: seq<Record>) { exists i: nat, kind :: LastNamed(events, i, kind) }

  ghost predicate LastNames(events: seq<Record>, kx: Option<KeyExchange>) {
    exists i: nat, kind :: LastNamed(events, i, kind) && kx == Some(KEY_EXCHANGES[kind])
  }

  const CIPHER_PREFIXES: map<string, KeyExchange> :=
    map["TLS_ECDHE_" := Ecdhe, "TLS_DHE_" := Dhe, "TLS_RSA_WITH_" := RsaStatic]

  /** The key exchange is the last one an event named; else, below TLS 1.3, the one the cipher's name begins with. */
  ghost predicate KeyExchangeRead(events: seq<Record>, o: Observation) {
    if NamesKeyExchange(events) then LastNames(events, o.keyExchange)
    else if o.tlsVersion == Some(Tls13) || o.cipher.None? then o.keyExchange.None?
    else forall prefix | prefix in CIPHER_PREFIXES ::
           o.keyExchange == Some(CIPHER_PREFIXES[prefix]) <==> prefix <= o.cipher.value
  }

  lemma KeyExchangeIsRead(events: seq<Record>, seen: Option<KeyExchange>, version: Option<TlsVersion>,
                          cipher: Option<string>, o: Observation)
    requires if NamesKeyExchange(events) then LastNames(events, seen) else seen.None?
    requires o.keyExchange == KeyExchangeOf(seen, version, cipher) && o.tlsVersion == version && o.cipher == cipher
    ensures KeyExchangeRead(events, o)
  {
    hide LastNamed;
    assert "TLS_ECDHE_"[4] == 'E' && "TLS_DHE_"[4] == 'D' && "TLS_RSA_WITH_"[4] == 'R';
  }

  lemma {:induction false} FactsKeyExchange(events: seq<Record>)
    requires EventFacts(events).Ok?
    ensures var seen := EventFacts(events).value.keyExchange;
      if NamesKeyExchange(events) then LastNames(events, seen) else seen.None?
  {
    if events != [] {
      var front, last := events[..|events| - 1], events[|events| - 1];
      FactsKeyExchange(front);
      var kind := Required(last, "kind").value;
      hide Required, CipherId, GetTime;
      if kind in KEY_EXCHANGES {
        assert LastNamed(events, |front|, kind);
      } else {
        forall i: nat, k ensures LastNamed(events, i, k) <==> LastNamed(front, i, k) {
          assert forall j | 0 <= j < |front| :: events[j] == front[j];
        }
      }
    }
  }

  /** Whether the handshake was completed: what the TLS line says, else yes if an event says so. */
  ghost predicate EstablishedRead(records: seq<Record>, established: Option<bool>) {
    var tls := First(records, {SslLog, TlsLog});
    if tls.Some? && GetBoolean(tls.value, "established") != Ok(None)
    then GetBoolean(tls.value, "established") == Ok(established)
    else established == if KindLogged(Select(records, {MailentLog}), "tls_established") then Some(true) else None
  }

  /** The leaf certificate the TLS line's chain begins with, its fingerprint its own or its file's. */
  ghost predicate CertificateRead(tls: Record, certs: map<string, Record>, hashes: map<string, string>,
                                  seen: CertificateSeen)
  {
    exists fps, fuids :: CertificateOf(tls, fps, fuids, certs, hashes, seen)
  }

  ghost predicate CertificateOf(tls: Record, fps: seq<string>, fuids: seq<string>, certs: map<string, Record>,
                                hashes: map<string, string>, seen: CertificateSeen)
  {
    && GetStrings(tls, "cert_chain_fps") == Ok(fps) && GetStrings(tls, "cert_chain_fuids") == Ok(fuids)
    && var chain := if fps != [] then fps else fuids;
    && chain != [] && chain[0] in certs && seen.chainLength == Some(|chain| % 256)
    && var cert := certs[chain[0]];
    && (GetText(cert, "fingerprint") == Ok(Some(seen.fingerprint))
        || (GetText(cert, "fingerprint") == Ok(None) && chain[0] in hashes && hashes[chain[0]] == seen.fingerprint))
    && GetText(cert, "certificate.subject") == Ok(Some(seen.subject))
    && GetText(cert, "certificate.issuer") == Ok(Some(seen.issuer))
    && (seen.selfSigned <==> seen.subject == seen.issuer)
    && GetTime(cert, "certificate.not_valid_before") == Ok(seen.validity.notBefore)
    && GetTime(cert, "certificate.not_valid_after") == Ok(seen.validity.notAfter)
    && GetStrings(cert, "san.dns") == Ok(seen.names)
    && GetText(cert, "certificate.sig_alg") == Ok(seen.signature)
    && GetBoolean(cert, "basic_constraints.ca") == Ok(seen.isCa)
    && KeyRead(cert, seen.key)
    && exists status :: GetText(tls, "validation_status") == Ok(status) && ChainOf(status) == seen.chain
  }

  lemma KeysAreRead(certs: map<string, Record>)
    ensures forall key | key in certs && PublicKeyOf(certs[key]).Ok? ::
      KeyRead(certs[key], PublicKeyOf(certs[key]).value)
  {
    forall key | key in certs && PublicKeyOf(certs[key]).Ok? { KeyIsRead(certs[key]); }
  }

  lemma LeafIsRead(tls: Record, certs: map<string, Record>, hashes: map<string, string>)
    requires LeafOf(tls, certs, hashes).Ok? && LeafOf(tls, certs, hashes).value.Described?
    ensures CertificateRead(tls, certs, hashes, LeafOf(tls, certs, hashes).value.seen)
  {
    KeysAreRead(certs);
    hide GetText, GetStrings, GetBoolean, GetTime, PublicKeyOf, ChainOf, KeyRead;
    var fps, fuids := GetStrings(tls, "cert_chain_fps").value, GetStrings(tls, "cert_chain_fuids").value;
    assert CertificateOf(tls, fps, fuids, certs, hashes, LeafOf(tls, certs, hashes).value.seen);
  }

  /** A chain counts as verified exactly when its status is "ok" in any letter case, as failed for any other text. */
  lemma ChainExactly(status: Option<string>)
    ensures ChainOf(status) == Verified <==>
      status.Some? && |status.value| == 2 && status.value[0] in {'o', 'O'} && status.value[1] in {'k', 'K'}
    ensures ChainOf(status) == NotVerified <==> status == None || status == Some("")
  {
    if status.Some? && |status.value| == 2 {
      assert Lower(status.value) == [Lower(status.value)[0], Lower(status.value)[1]];
      assert "ok" == ['o', 'k'];
    }
  }

  /** The cipher's number is the one of the last server hello. */
  ghost predicate CipherIdRead(events: seq<Record>, o: Observation) {
    && (o.cipherId.Some? ==> o.cipher.Some? && exists i: nat :: LastHello(events, i))
    && (o.cipher.Some? ==> forall i: nat | LastHello(events, i) :: CipherId(events[i]) == Ok(o.cipherId))
  }

  ghost predicate LastHello(events: seq<Record>, i: nat) {
    && i < |events| && Required(events[i], "kind") == Ok("tls_server_hello")
    && forall j | i < j < |events| :: Required(events[j], "kind") != Ok("tls_server_hello")
  }

  lemma {:induction false} FactsCipherId(events: seq<Record>)
    requires EventFacts(events).Ok?
    ensures var id := EventFacts(events).value.cipherId;
      && (forall i: nat | LastHello(events, i) :: CipherId(events[i]) == Ok(id))
      && (id.Some? ==> exists i: nat :: LastHello(events, i))
  {
    if events != [] {
      var front, last := events[..|events| - 1], events[|events| - 1];
      FactsCipherId(front);
      hide Required, CipherId, GetTime;
      if Required(last, "kind") == Ok("tls_server_hello") {
        assert LastHello(events, |front|);
      } else {
        forall i: nat ensures LastHello(events, i) <==> LastHello(front, i) {
          assert forall j | 0 <= j < |front| :: events[j] == front[j];
        }
      }
    }
  }

  /** One entry for each event, in log order. */
  lemma {:induction false} FactsTimeline(events: seq<Record>)
    requires EventFacts(events).Ok?
    ensures Logs(events, EventFacts(events).value.timeline)
  {
    if events != [] {
      FactsTimeline(events[..|events| - 1]);
      hide Required, CipherId, GetTime;
    }
  }

  ghost predicate Logs(events: seq<Record>, timeline: seq<Event>) {
    && |timeline| == |events|
    && forall i | 0 <= i < |events| ::
         && timeline[i].source == events[i].source
         && Required(events[i], "kind") == Ok(timeline[i].kind) && GetTime(events[i], "ts") == Ok(timeline[i].at)
  }

  /** The timeline is the event log in the order of time, the log's own order within each instant. */
  ghost predicate TimelineRead(events: seq<Record>, timeline: seq<Event>) {
    && Chronological(timeline)
    && exists log :: Logs(events, log) && forall at :: AtTime(timeline, at) == AtTime(log, at)
  }

  lemma TimelineIsRead(events: seq<Record>)
    requires EventFacts(events).Ok?
    ensures TimelineRead(events, SortByTime(EventFacts(events).value.timeline))
  {
    var log := EventFacts(events).value.timeline;
    FactsTimeline(events);
    SortIsStable(log, 0);
    forall at ensures AtTime(SortByTime(log), at) == AtTime(log, at) { SortIsStable(log, at); }
  }

  /** The TLS line names a chain whose first certificate is in the log. */
  ghost predicate LeafListed(tls: Option<Record>, certs: map<string, Record>) {
    && tls.Some? && GetStrings(tls.value, "cert_chain_fps").Ok? && GetStrings(tls.value, "cert_chain_fuids").Ok?
    && var fps := GetStrings(tls.value, "cert_chain_fps").value;
    && var chain := if fps != [] then fps else GetStrings(tls.value, "cert_chain_fuids").value;
    && chain != [] && chain[0] in certs
  }

  ghost predicate Shaken(conn: Option<Record>) {
    conn.Some? && exists history ::
      GetText(conn.value, "history") == Ok(Some(history)) && 'S' in history && 'h' in history
  }

  ghost predicate Closed(conn: Option<Record>) {
    conn.Some? && exists state ::
      GetText(conn.value, "conn_state") == Ok(Some(state)) && state in {"SF", "RSTO", "RSTR"}
  }

  ghost predicate LostBytes(conn: Option<Record>) {
    conn.Some? && exists missed :: GetNumber(conn.value, "missed_bytes") == Ok(Some(missed)) && missed > 0.0
  }

  /** Each gap is reported exactly when something is missing. */
  ghost predicate GapsRead(records: seq<Record>, certs: map<string, Record>, o: Observation) {
    var conn, tls := First(records, {ConnLog}), First(records, {SslLog, TlsLog});
    && (ProtocolUnclear in o.gaps <==> o.protocol.UnknownProtocol?)
    && (NoConnectionLog in o.gaps <==> conn.None?)
    && (HandshakeIncomplete in o.gaps <==> !Shaken(conn))
    && (BytesMissing in o.gaps <==> LostBytes(conn))
    && (EndUnavailable in o.gaps <==> !Closed(conn))
    && (TlsUnavailable in o.gaps <==> o.tlsVersion.None?)
    && (CertificateUnavailable in o.gaps <==> o.certificate.None?)
    && (FingerprintUnavailable in o.gaps <==> o.certificate.None? && LeafListed(tls, certs))
    && (EventsUnavailable in o.gaps <==> Select(records, {MailentLog}) == [])
  }

  lemma EarlyGapsRead(protocol: EmailProtocol, conn: Option<Record>)
    requires EarlyGaps(protocol, conn).Ok?
    ensures var gaps := EarlyGaps(protocol, conn).value;
      && (ProtocolUnclear in gaps <==> protocol.UnknownProtocol?) && (NoConnectionLog in gaps <==> conn.None?)
      && (HandshakeIncomplete in gaps <==> !Shaken(conn)) && (BytesMissing in gaps <==> LostBytes(conn))
      && (EndUnavailable in gaps <==> !Closed(conn))
      && forall g | g in gaps ::
           g in {ProtocolUnclear, NoConnectionLog, HandshakeIncomplete, BytesMissing, EndUnavailable}
  {
    hide GetText, GetNumber;
    var history, state := MaybeText(conn, "history").value, MaybeText(conn, "conn_state").value;
    if conn.Some? {
      assert GetText(conn.value, "history") == Ok(history) && GetText(conn.value, "conn_state") == Ok(state);
      assert GetNumber(conn.value, "missed_bytes").Ok?;
    }
  }

  lemma LeafKind(tls: Option<Record>, certs: map<string, Record>, hashes: map<string, string>)
    requires TlsOf(tls, certs, hashes).Ok?
    ensures !TlsOf(tls, certs, hashes).value.leaf.Unlisted? <==> LeafListed(tls, certs)
  {
    hide GetText, GetStrings, Describe, VersionOf;
  }

  /** The line that places the connection: the connection log's, else the SMTP log's, else the TLS log's. */
  ghost predicate PlacedBy(run: Import, records: seq<Record>, o: Observation) {
    var conn, smtp, tls := First(records, {ConnLog}), First(records, {SmtpLog}), First(records, {SslLog, TlsLog});
    var base := if conn.Some? then conn else if smtp.Some? then smtp else tls;
    && base.Some? && FlowRead(base.value, o.flow)
    && GetTime(if tls.Some? then tls.value else base.value, "ts") == Ok(o.at)
    && (exists start :: GetTime(base.value, "ts") == Ok(start) && o.id == run.idOf(start, o.flow))
    && (o.hint == Some(Smtp) <==> o.flow.dstPort == 465) && (o.hint == Some(Imap) <==> o.flow.dstPort == 993)
    && (o.hint == Some(Pop3) <==> o.flow.dstPort == 995) && o.hint != Some(UnknownProtocol)
  }

  /** The TLS session's facts are those of the lines. */
  ghost predicate SessionRead(records: seq<Record>, certs: map<string, Record>, hashes: map<string, string>,
                              o: Observation)
  {
    var tls, events := First(records, {SslLog, TlsLog}), Select(records, {MailentLog});
    && VersionRead(tls, o.tlsVersion)
    && MaybeText(tls, "cipher") == Ok(o.cipher) && CipherIdRead(events, o)
    && KeyExchangeRead(events, o) && EstablishedRead(records, o.established)
    && (o.certificate.Some? ==> tls.Some? && CertificateRead(tls.value, certs, hashes, o.certificate.value))
    && TimelineRead(events, o.timeline)
  }

  // ---------- the STARTTLS ladder ----------

  function Rung(s: Option<StartTlsState>): nat {
    if s.None? then 0
    else
      match s.value
      case NotAdvertised => 1
      case Advertised => 2
      case AdvertisedNotUsed => 2
      case Requested => 3
      case Accepted => 4
      case TlsStarted => 5
      case Rejected => 6
      case TlsEstablished => 7
      case AdvertisedAndUsed => 7
      case FailedHandshake => 8
      case PlaintextContinuation => 9
  }

  /** More events, an upgrade or an established session never move the verdict down the ladder. */
  lemma EvidenceOnlyClimbs(less: seq<Event>, more: seq<Event>, up: bool, up': bool, est: Option<bool>,
                           est': Option<bool>,
                           complete: bool, complete': bool)
    requires Kinds(less) <= Kinds(more) && (up ==> up') && (est == Some(true) ==> est' == Some(true))
    ensures Rung(Reconstruct(less, up, est, complete)) <= Rung(Reconstruct(more, up', est', complete'))
  {
    hide Kinds;
  }

  /** No two verdicts share a rung, but for those that no capture shows together. */
  lemma RungsDiffer(a: StartTlsState, b: StartTlsState)
    ensures Rung(Some(a)) == Rung(Some(b)) <==>
      || a == b
      || {a, b} == {Advertised, AdvertisedNotUsed}
      || {a, b} == {TlsEstablished, AdvertisedAndUsed}
  {
    if {a, b} == {Advertised, AdvertisedNotUsed} {
      assert a in {Advertised, AdvertisedNotUsed} && b in {Advertised, AdvertisedNotUsed};
    }
    if {a, b} == {TlsEstablished, AdvertisedAndUsed} { assert a in {TlsEstablished, AdvertisedAndUsed}; }
  }

  /** What a capture must show for each verdict. */
  ghost predicate Shows(kinds: set<string>, upgraded: bool, established: Option<bool>, complete: bool,
                        state: StartTlsState)
  {
    match state
    case PlaintextContinuation => "plaintext_continuation" in kinds
    case FailedHandshake => "tls_fatal_alert" in kinds && (upgraded || "starttls_requested" in kinds)
    case TlsEstablished => upgraded && established == Some(true)
    case Rejected => "starttls_rejected" in kinds
    case TlsStarted => upgraded && "tls_client_hello" in kinds
    case Accepted => upgraded
    case Requested => "starttls_requested" in kinds
    case AdvertisedNotUsed => "starttls_advertised" in kinds && complete
    case Advertised => "starttls_advertised" in kinds && !complete
    case NotAdvertised => "starttls_not_advertised" in kinds
    case AdvertisedAndUsed => false
  }

  /** The verdict is the highest rung the capture shows. */
  ghost predicate Highest(kinds: set<string>, upgraded: bool, established: Option<bool>, complete: bool,
                          state: Option<StartTlsState>)
  {
    && (state.Some? ==> Shows(kinds, upgraded, established, complete, state.value))
    && forall s | Shows(kinds, upgraded, established, complete, s) :: state.Some? && Rung(Some(s)) <= Rung(state)
  }

  lemma VerdictIsHighest(timeline: seq<Event>, upgraded: bool, established: Option<bool>, complete: bool)
    ensures Highest(Kinds(timeline), upgraded, established, complete,
                    Reconstruct(timeline, upgraded, established, complete))
  {
    hide Kinds;
  }

  ghost predicate EarlyGap(g: Gap) {
    g in {ProtocolUnclear, NoConnectionLog, HandshakeIncomplete, BytesMissing, EndUnavailable}
  }

  /** The STARTTLS verdict is the highest rung that the event log, the SMTP line and the TLS line show together. */
  ghost predicate VerdictRead(records: seq<Record>, o: Observation) {
    Highest(LoggedKinds(Select(records, {MailentLog})), UpgradeSeen(records), o.established,
            forall g | g in o.gaps :: !EarlyGap(g), o.starttls)
  }

  ghost function LoggedKinds(events: seq<Record>): set<string> {
    set i | 0 <= i < |events| && Required(events[i], "kind").Ok? :: Required(events[i], "kind").value
  }

  lemma KindsAreLogged(events: seq<Record>)
    requires EventFacts(events).Ok?
    ensures Kinds(SortByTime(EventFacts(events).value.timeline)) == LoggedKinds(events)
  {
    forall kind ensures kind in LoggedKinds(events) <==> kind in Kinds(SortByTime(EventFacts(events).value.timeline)) {
      TimelineKinds(events, kind);
    }
  }

  /**
    Place, time and TLS facts are those of the lines; each gap is reported exactly when something is missing.
    "Advertised but not used" is claimed only of a whole capture; "TLS established" only with evidence of an upgrade and
    of an established session; and an observation names exactly the lines it was made from and perhaps a certificate's.
   */
  ghost predicate Backed(run: Import, records: seq<Record>, certs: map<string, Record>, hashes: map<string, string>,
                         o: Observation)
  {
    && PlacedBy(run, records, o) && SessionRead(records, certs, hashes, o) && GapsRead(records, certs, o)
    && VerdictRead(records, o)
    && (o.starttls == Some(AdvertisedNotUsed) ==> Whole(First(records, {ConnLog}), o.protocol))
    && (o.starttls == Some(TlsEstablished) ==> UpgradeSeen(records) && o.established == Some(true))
    && (o.gaps == [] ==> o.certificate.Some? && o.tlsVersion.Some? && Whole(First(records, {ConnLog}), o.protocol))
    && |Select(records, {SslLog, TlsLog})| <= 1
    && Sourced(records, certs, o.sources)
  }

  ghost predicate Sourced(records: seq<Record>, certs: map<string, Record>, sources: set<Source>) {
    OwnSources(records) <= sources && forall s | s in sources :: s in OwnSources(records) || Listed(certs, s)
  }

  /** The pieces an observation is put together from. */
  lemma ObservedParts(run: Import, uid: string, records: seq<Record>, certs: map<string, Record>,
                      hashes: map<string, string>, names: set<string>, base: Record, hint: Option<EmailProtocol>)
    requires Observe(run, uid, records, certs, hashes, names, base, hint).Ok?
    ensures
      var conn, smtp, tls := First(records, {ConnLog}), First(records, {SmtpLog}), First(records, {SslLog, TlsLog});
      var o := Observe(run, uid, records, certs, hashes, names, base, hint).value;
      var events := Select(records, {MailentLog});
      && EarlyGaps(ProtocolOf(names), conn).Ok? && EventFacts(events).Ok? && TlsOf(tls, certs, hashes).Ok?
      && Upgraded(o.timeline, smtp).Ok? && |Select(records, {SslLog, TlsLog})| <= 1
      && FlowOf(base) == Ok(o.flow) && GetTime(if tls.Some? then tls.value else base, "ts") == Ok(o.at)
      && GetTime(base, "ts").Ok? && o.id == run.idOf(GetTime(base, "ts").value, o.flow)
      && var early, facts, t :=
           EarlyGaps(ProtocolOf(names), conn).value, EventFacts(events).value, TlsOf(tls, certs, hashes).value;
      && o.protocol == ProtocolOf(names) && o.hint == hint && o.timeline == SortByTime(facts.timeline)
      && o.tlsVersion == t.version && o.cipher == t.cipher
      && o.cipherId == (if t.cipher.Some? then facts.cipherId else None)
      && o.keyExchange == KeyExchangeOf(facts.keyExchange, t.version, t.cipher)
      && o.certificate == (if t.leaf.Described? then Some(t.leaf.seen) else None)
      && MaybeBoolean(tls, "established").Ok?
      && o.established == Or(MaybeBoolean(tls, "established").value,
                             if "tls_established" in Kinds(o.timeline) then Some(true) else None)
      && o.starttls == Reconstruct(o.timeline, Upgraded(o.timeline, smtp).value, o.established, early == [])
      && o.sources == OwnSources(records) + (if t.leaf.Described? then {t.leaf.source} else {})
      && o.gaps == early + GapIf(t.leaf.Unnamed?, FingerprintUnavailable) + GapIf(t.version.None?, TlsUnavailable)
           + GapIf(!t.leaf.Described?, CertificateUnavailable) + GapIf(events == [], EventsUnavailable)
  {
    hide First, EarlyGaps, EventFacts, SortByTime, MaybeBoolean, Or, Upgraded, TlsOf, Select, GetTime, FlowOf, Kinds,
         GapIf, Reconstruct, KeyExchangeOf, Valid, ProtocolOf, OwnSources;
  }

  // ---------- which connections are refused ----------

  ghost predicate EventReadable(e: Record) {
    && Required(e, "kind").Ok? && GetTime(e, "ts").Ok?
    && (Required(e, "kind") == Ok("tls_server_hello") ==> CipherId(e).Ok?)
  }

  lemma {:induction false} FactsReadable(events: seq<Record>)
    ensures EventFacts(events).Ok? <==> forall i | 0 <= i < |events| :: EventReadable(events[i])
  {
    if events != [] {
      var front := events[..|events| - 1];
      FactsReadable(front);
      hide Required, GetTime, CipherId;
      assert forall i | 0 <= i < |front| :: front[i] == events[i];
    }
  }

  /** The fields an observation is made from are there when they must be, and of the right kind when they are. */
  ghost predicate FieldsReadable(records: seq<Record>, certs: map<string, Record>, hashes: map<string, string>,
                                 base: Record)
  {
    var conn, smtp, tls := First(records, {ConnLog}), First(records, {SmtpLog}), First(records, {SslLog, TlsLog});
    var events := Select(records, {MailentLog});
    && (conn.Some? ==>
          && GetText(conn.value, "history").Ok? && GetNumber(conn.value, "missed_bytes").Ok?
          && GetText(conn.value, "conn_state").Ok?)
    && (forall i | 0 <= i < |events| :: EventReadable(events[i]))
    && (smtp.Some? && !KindLogged(events, "starttls_accepted") ==> GetBoolean(smtp.value, "tls").Ok?)
    && (tls.Some? ==>
          && GetBoolean(tls.value, "established").Ok? && GetText(tls.value, "version").Ok?
          && GetText(tls.value, "cipher").Ok? && LeafOf(tls.value, certs, hashes).Ok?)
    && GetTime(if tls.Some? then tls.value else base, "ts").Ok? && GetTime(base, "ts").Ok? && FlowOf(base).Ok?
  }

  /** What is asked of the values themselves. */
  ghost predicate ValuesValid(run: Import, records: seq<Record>, certs: map<string, Record>,
                              hashes: map<string, string>, flow: Flow)
  {
    && run.sensorNamed && run.zeekVersionNamed && run.isIp(flow.srcIp) && run.isIp(flow.dstIp)
    && var tls := First(records, {SslLog, TlsLog});
    tls.Some? && LeafOf(tls.value, certs, hashes).Ok? ==> LeafValid(LeafOf(tls.value, certs, hashes).value)
  }

  /**
    An observation is made exactly when the fields can be read, there is at most one TLS line, and the values are valid;
    in every other case the capture is refused.
   */
  lemma ObservedExactly(run: Import, uid: string, records: seq<Record>, certs: map<string, Record>,
                        hashes: map<string, string>, names: set<string>, base: Record, hint: Option<EmailProtocol>)
    ensures Observe(run, uid, records, certs, hashes, names, base, hint).Ok? <==>
      && FieldsReadable(records, certs, hashes, base) && |Select(records, {SslLog, TlsLog})| <= 1
      && ValuesValid(run, records, certs, hashes, FlowOf(base).value)
  {
    hide Observe, First, Select, FlowOf, LeafOf, FieldsReadable, PartsReadable, LeafValid;
    PartsAreFields(records, certs, hashes, base, names);
    PartsSuffice(run, uid, records, certs, hashes, names, base, hint);
    FlowPorts(base);
    if PartsReadable(records, certs, hashes, base, names) { LeafOfParts(records, certs, hashes, base, names); }
  }

  ghost predicate PartsReadable(records: seq<Record>, certs: map<string, Record>, hashes: map<string, string>,
                                base: Record, names: set<string>)
  {
    var conn, smtp, tls := First(records, {ConnLog}), First(records, {SmtpLog}), First(records, {SslLog, TlsLog});
    var facts := EventFacts(Select(records, {MailentLog}));
    && EarlyGaps(ProtocolOf(names), conn).Ok? && facts.Ok? && MaybeBoolean(tls, "established").Ok?
    && Upgraded(SortByTime(facts.value.timeline), smtp).Ok? && TlsOf(tls, certs, hashes).Ok?
    && GetTime(if tls.Some? then tls.value else base, "ts").Ok? && FlowOf(base).Ok? && GetTime(base, "ts").Ok?
  }

  lemma PartsAreFields(records: seq<Record>, certs: map<string, Record>, hashes: map<string, string>, base: Record,
                       names: set<string>)
    ensures PartsReadable(records, certs, hashes, base, names) <==> FieldsReadable(records, certs, hashes, base)
  {
    var events := Select(records, {MailentLog});
    FactsReadable(events);
    if EventFacts(events).Ok? { TimelineKinds(events, "starttls_accepted"); }
    hide First, Select, EventFacts, SortByTime, Kinds, LeafOf, FlowOf, GetTime, ProtocolOf, VersionOf, GetText,
         GetBoolean, GetNumber, KindLogged, EventReadable, GapIf;
  }

  /** The described certificate is in order. */
  ghost predicate LeafValid(leaf: Leaf) {
    leaf.Described? ==>
      && |leaf.seen.fingerprint| == 64 && (forall x | x in leaf.seen.fingerprint :: x in "0123456789abcdefABCDEF")
      && leaf.seen.validity.notBefore <= leaf.seen.validity.notAfter
  }

  lemma PartsSuffice(run: Import, uid: string, records: seq<Record>, certs: map<string, Record>,
                     hashes: map<string, string>, names: set<string>, base: Record, hint: Option<EmailProtocol>)
    ensures Observe(run, uid, records, certs, hashes, names, base, hint).Ok? <==>
      && PartsReadable(records, certs, hashes, base, names) && |Select(records, {SslLog, TlsLog})| <= 1
      && run.sensorNamed && run.zeekVersionNamed
      && run.isIp(FlowOf(base).value.srcIp) && run.isIp(FlowOf(base).value.dstIp)
      && FlowOf(base).value.srcPort > 0 && FlowOf(base).value.dstPort > 0
      && LeafValid(TlsOf(First(records, {SslLog, TlsLog}), certs, hashes).value.leaf)
  {
    forall o { ValidExactly(run, o); }
    hide First, Select, EventFacts, SortByTime, KeyExchangeOf, Kinds, FlowOf, GetTime, OwnSources, Reconstruct,
         ProtocolOf, EarlyGaps, Upgraded, TlsOf, MaybeBoolean, Valid, GapIf, Or;
  }

  lemma LeafOfParts(records: seq<Record>, certs: map<string, Record>, hashes: map<string, string>, base: Record,
                    names: set<string>)
    requires PartsReadable(records, certs, hashes, base, names)
    ensures FlowOf(base).Ok?
    ensures var tls := First(records, {SslLog, TlsLog});
      LeafValid(TlsOf(tls, certs, hashes).value.leaf)
      <==> (tls.Some? && LeafOf(tls.value, certs, hashes).Ok? ==> LeafValid(LeafOf(tls.value, certs, hashes).value))
  {
    hide First, Select, EventFacts, SortByTime, LeafOf, FlowOf, GetTime, ProtocolOf, VersionOf, GetText, EarlyGaps,
         Upgraded, MaybeBoolean;
  }

  lemma FlowPorts(r: Record)
    ensures FlowOf(r).Ok? ==> FlowOf(r).value.srcPort > 0 && FlowOf(r).value.dstPort > 0
  {
    hide GetText;
  }

  lemma ObserveReadsSession(run: Import, uid: string, records: seq<Record>, certs: map<string, Record>,
                            hashes: map<string, string>, names: set<string>, base: Record, hint: Option<EmailProtocol>)
    requires Observe(run, uid, records, certs, hashes, names, base, hint).Ok?
    ensures SessionRead(records, certs, hashes, Observe(run, uid, records, certs, hashes, names, base, hint).value)
  {
    hide Observe, First, Select, EventFacts, SortByTime, KeyExchangeOf, Kinds, LeafOf, EarlyGaps, Upgraded, FlowOf,
         GetTime, OwnSources, Reconstruct, ProtocolOf, VersionOf, GetText, GetBoolean, GetStrings, CertificateRead,
         TimelineRead, KeyExchangeRead, KindLogged, NamesKeyExchange, LastNamed, CipherId, LastHello;
    ObservedParts(run, uid, records, certs, hashes, names, base, hint);
    var o := Observe(run, uid, records, certs, hashes, names, base, hint).value;
    var tls, events := First(records, {SslLog, TlsLog}), Select(records, {MailentLog});
    var facts := EventFacts(events).value;
    if o.tlsVersion.Some? { VersionIsCanonical(MaybeText(tls, "version").value.value); }
    FactsCipherId(events);
    FactsKeyExchange(events);
    KeyExchangeIsRead(events, facts.keyExchange, o.tlsVersion, o.cipher, o);
    TimelineIsRead(events);
    TimelineKinds(events, "tls_established");
    if o.certificate.Some? { LeafIsRead(tls.value, certs, hashes); }
  }

  lemma TimelineKinds(events: seq<Record>, kind: string)
    requires EventFacts(events).Ok?
    ensures kind in Kinds(SortByTime(EventFacts(events).value.timeline)) <==> KindLogged(events, kind)
  {
    FactsKinds(events, kind);
    SortMembers(EventFacts(events).value.timeline);
    SameKinds(SortByTime(EventFacts(events).value.timeline), EventFacts(events).value.timeline);
  }

  lemma ObserveReadsGaps(run: Import, uid: string, records: seq<Record>, certs: map<string, Record>,
                         hashes: map<string, string>, names: set<string>, base: Record, hint: Option<EmailProtocol>)
    requires Observe(run, uid, records, certs, hashes, names, base, hint).Ok?
    ensures GapsRead(records, certs, Observe(run, uid, records, certs, hashes, names, base, hint).value)
  {
    hide Observe, First, Select, EventFacts, SortByTime, KeyExchangeOf, Kinds, TlsOf, EarlyGaps, Upgraded, FlowOf,
         GetTime, OwnSources, Reconstruct, ProtocolOf, Shaken, Closed, LostBytes, LeafListed;
    ObservedParts(run, uid, records, certs, hashes, names, base, hint);
    EarlyGapsRead(ProtocolOf(names), First(records, {ConnLog}));
    LeafKind(First(records, {SslLog, TlsLog}), certs, hashes);
  }

  lemma IsPlaced(run: Import, records: seq<Record>, o: Observation, base: Record, start: Time)
    requires Some(base) == Or(First(records, {ConnLog}),
      Or(First(records, {SmtpLog}), First(records, {SslLog, TlsLog})))
    requires FlowOf(base) == Ok(o.flow) && GetTime(base, "ts") == Ok(start) && o.id == run.idOf(start, o.flow)
    requires var tls := First(records, {SslLog, TlsLog});
      GetTime(if tls.Some? then tls.value else base, "ts") == Ok(o.at)
    requires Hint(Some(base)) == Ok(o.hint)
    ensures PlacedBy(run, records, o)
  {
    FlowExactly(base, o.flow);
    PortExactly(base, "id.resp_p", o.flow.dstPort);
    hide First, GetTime, GetText, FlowOf, Port;
  }

  lemma ObserveReadsVerdict(run: Import, uid: string, records: seq<Record>, certs: map<string, Record>,
                            hashes: map<string, string>, names: set<string>, base: Record, hint: Option<EmailProtocol>)
    requires Observe(run, uid, records, certs, hashes, names, base, hint).Ok?
    ensures VerdictRead(records, Observe(run, uid, records, certs, hashes, names, base, hint).value)
  {
    hide Observe, First, EarlyGaps, EventFacts, SortByTime, Upgraded, TlsOf, Select, GetTime, FlowOf, Kinds,
         KeyExchangeOf, ProtocolOf, UpgradeSeen, KindLogged, Reconstruct, LoggedKinds, Highest;
    ObservedParts(run, uid, records, certs, hashes, names, base, hint);
    var o := Observe(run, uid, records, certs, hashes, names, base, hint).value;
    var events, conn := Select(records, {MailentLog}), First(records, {ConnLog});
    var early := EarlyGaps(ProtocolOf(names), conn).value;
    KindsAreLogged(events);
    forall kind { TimelineKinds(events, kind); }
    UpgradedIsSeen(records, o.timeline);
    EarlyGapsRead(ProtocolOf(names), conn);
    VerdictIsHighest(o.timeline, UpgradeSeen(records), o.established, early == []);
    NoneEarly(early, o.gaps);
  }

  lemma NoneEarly(early: seq<Gap>, gaps: seq<Gap>)
    requires forall g :: g in early <==> g in gaps && EarlyGap(g)
    ensures early == [] <==> forall g | g in gaps :: !EarlyGap(g)
  {
    if early != [] { assert early[0] in early; }
  }

  lemma ObserveIsBacked(run: Import, uid: string, records: seq<Record>, certs: map<string, Record>,
                        hashes: map<string, string>, names: set<string>, base: Record, hint: Option<EmailProtocol>)
    requires Observe(run, uid, records, certs, hashes, names, base, hint).Ok?
    requires Some(base) == Or(First(records, {ConnLog}),
      Or(First(records, {SmtpLog}), First(records, {SslLog, TlsLog})))
    requires Hint(Some(base)) == Ok(hint)
    ensures Backed(run, records, certs, hashes, Observe(run, uid, records, certs, hashes, names, base, hint).value)
  {
    hide Observe, First, EarlyGaps, EventFacts, SortByTime, MaybeBoolean, Upgraded, TlsOf, Select, GetTime, FlowOf,
         Kinds, KeyExchangeOf, ProtocolOf, Hint, Whole, UpgradeSeen, KindLogged, SessionRead, GapsRead, Sourced,
         VerdictRead;
    ObservedParts(run, uid, records, certs, hashes, names, base, hint);
    ObserveReadsSession(run, uid, records, certs, hashes, names, base, hint);
    ObserveReadsGaps(run, uid, records, certs, hashes, names, base, hint);
    var o := Observe(run, uid, records, certs, hashes, names, base, hint).value;
    var events, conn, smtp := Select(records, {MailentLog}), First(records, {ConnLog}), First(records, {SmtpLog});
    if EarlyGaps(ProtocolOf(names), conn).value == [] { NoGapsIsWhole(ProtocolOf(names), conn); }
    assert forall up, est, whole ::
      && (Reconstruct(o.timeline, up, est, whole) == Some(AdvertisedNotUsed) ==> whole)
      && (Reconstruct(o.timeline, up, est, whole) == Some(TlsEstablished) ==> up && est == Some(true));
    forall kind { TimelineKinds(events, kind); }
    UpgradedIsSeen(records, o.timeline);
    ObserveReadsVerdict(run, uid, records, certs, hashes, names, base, hint);
    LeafIsListed(First(records, {SslLog, TlsLog}), certs, hashes);
    SourcesAre(records, certs, TlsOf(First(records, {SslLog, TlsLog}), certs, hashes).value);
    IsPlaced(run, records, o, base, GetTime(base, "ts").value);
    assert o.gaps == [] ==> EarlyGaps(ProtocolOf(names), conn).value == [];
    assert Sourced(records, certs, o.sources);
    assert o.starttls == Some(TlsEstablished) ==> UpgradeSeen(records) && o.established == Some(true);
  }

  lemma SourcesAre(records: seq<Record>, certs: map<string, Record>, t: Tls)
    requires t.leaf.Described? ==> Listed(certs, t.leaf.source)
    ensures Sourced(records, certs, OwnSources(records) + if t.leaf.Described? then {t.leaf.source} else {})
  {
    hide Listed;
  }

  /** Every observation is backed by its connection's lines. */
  lemma ObservationIsBacked(run: Import, uid: string, records: seq<Record>, certs: map<string, Record>,
                            hashes: map<string, string>,
                            o: Observation)
    requires Connection(run, uid, records, certs, hashes) == Ok(Some(o))
    ensures Backed(run, records, certs, hashes, o)
  {
    hide First, Select, Hint, Or, Observe, Names, Backed;
    var conn, smtp, tls := First(records, {ConnLog}), First(records, {SmtpLog}), First(records, {SslLog, TlsLog});
    var names, base := Names(Select(records, {MailentLog}), smtp, conn).value.value, Or(conn, Or(smtp, tls));
    ObserveIsBacked(run, uid, records, certs, hashes, names, base.value, Hint(base).value);
  }

  ghost predicate Listed(certs: map<string, Record>, source: Source) {
    exists key :: key in certs && certs[key].source == source
  }

  lemma LeafIsListed(tls: Option<Record>, certs: map<string, Record>, hashes: map<string, string>)
    ensures var t := TlsOf(tls, certs, hashes); t.Ok? && t.value.leaf.Described? ==> Listed(certs, t.value.leaf.source)
  {
    hide GetText, GetStrings, Describe, VersionOf;
  }

  lemma SameKinds(a: seq<Event>, b: seq<Event>)
    requires forall x :: x in a <==> x in b
    ensures Kinds(a) == Kinds(b)
  {}
}
