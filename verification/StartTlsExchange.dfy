/**
  The STARTTLS exchange (section 4 of RFC 3207) against an arbitrary peer. Every write, the
  connection attempt and the handshake may succeed, fail, or outlast the overall deadline, which
  leaves the evidence as it stood at that moment.
 */
module StartTlsExchange {
  import opened Domain
  import opened SmtpReply
  import opened SmtpConnection
  import opened ProbeExecution
  import opened RemediationRecord

  const CODE_220: seq<byte> := [50, 50, 48]
  const CODE_250: seq<byte> := [50, 53, 48]
  const STARTTLS: seq<byte> := [83, 84, 65, 82, 84, 84, 76, 83]

  predicate StartsWith(line: seq<byte>, code: seq<byte>) { code <= line }

  /** Capability texts: what follows the code and separator, for lines that have any. */
  function Capabilities(lines: seq<seq<byte>>): seq<seq<byte>> {
    if lines == [] then []
    else if |lines[0]| >= 4 then [lines[0][4..]] + Capabilities(lines[1..])
    else Capabilities(lines[1..])
  }

  function Upper(b: byte): byte { if 97 <= b <= 122 then b - 32 else b }

  predicate EqIgnoreCase(a: seq<byte>, b: seq<byte>) {
    |a| == |b| && forall i | 0 <= i < |a| :: Upper(a[i]) == Upper(b[i])
  }

  predicate AdvertisesStartTls(capabilities: seq<seq<byte>>) {
    exists i | 0 <= i < |capabilities| :: EqIgnoreCase(capabilities[i], STARTTLS)
  }

  function Join(lines: seq<seq<byte>>): seq<byte> {
    if lines == [] then [] else if |lines| == 1 then lines[0] else lines[0] + [SPACE] + Join(lines[1..])
  }

  // ---------- what the peer's bytes say ----------

  datatype Wire = Wire(bytes: seq<byte>, end: End, limits: Limits)
  {
    function Next(): Parsed { Parse(bytes, end, limits.maxLineBytes, limits.maxLines, None) }

    function Rest(): Wire { this.(bytes := bytes[Next().used..]) }

    predicate Greets() { Next().Reply? && StartsWith(Next().lines[0], CODE_220) }

    predicate Answers() { Greets() && Rest().Next().Reply? && StartsWith(Rest().Next().lines[0], CODE_250) }

    predicate Advertises() { Answers() && AdvertisesStartTls(Capabilities(Rest().Next().lines)) }

    predicate Replies() { Advertises() && Rest().Rest().Next().Reply? }

    predicate Accepts() { Replies() && StartsWith(Rest().Rest().Next().lines[0], CODE_220) }
  }

  // ---------- the client ----------

  datatype Step = Ehlo | StartTls | PlainQuit | Handshake | TlsQuit

  datatype Io = Completed | IoFailed(error: ProbeError) | CutOff

  datatype HandshakeEnd = Established | NotEstablished | HandshakeFailed(error: ProbeError) | HandshakeCutOff

  function ReplyFailure(e: ReplyError): Io {
    match e
    case IoFailure => IoFailed(IoError)
    case Deadline => CutOff
    case _ => IoFailed(ProtocolError)
  }

  /** The commands a client of this kind may have sent, in order, at any moment. */
  predicate AllowedTrace(plain: bool, sent: seq<Step>) {
    if plain
    then
      || sent <= [Ehlo, PlainQuit]
      || sent <= [Ehlo, StartTls, PlainQuit]
      || sent <= [Ehlo, StartTls, Handshake, TlsQuit]
    else sent <= [Handshake]
  }

  predicate NoTlsFacts(r: ProbeResult) {
    r.tlsVersion.None? && r.cipherSuite.None? && r.certificate.None?
    && r.certificateHostnameValid.None? && r.certificateTrusted.None?
  }

  /** The evidence agrees with the commands sent and with the bytes the peer had delivered. */
  ghost predicate Consistent(plain: bool, wire: Wire, r: ProbeResult, sent: seq<Step>) {
    && AllowedTrace(plain, sent)
    && r.tlsChallenges == []
    && (!NoTlsFacts(r) ==> Handshake in sent)
    && (r.smtpGreeting.Some? ==> plain && wire.Greets() && r.smtpGreeting.value == Join(wire.Next().lines))
    && (r.ehloCapabilities != [] ==>
      plain && wire.Answers() && r.ehloCapabilities == Capabilities(wire.Rest().Next().lines))
    && (sent != [] && plain ==> wire.Greets())
    && (StartTls in sent ==> wire.Advertises())
    && (Handshake in sent && plain ==> wire.Accepts())
    && match r.starttls
       case NotReached => sent == [] || (plain && (sent == [Ehlo] || sent == [Ehlo, StartTls]))
       case NotAdvertised => plain && sent == [Ehlo, PlainQuit] && wire.Answers() && !wire.Advertises()
       case AdvertisedAndRejected =>
         sent == [Ehlo, StartTls, PlainQuit] && wire.Replies() && !wire.Accepts() && r.error.Some?
       case AcceptedHandshakeFailed =>
         (sent == [Ehlo, StartTls] || sent == [Ehlo, StartTls, Handshake]) && wire.Accepts()
       case AdvertisedAndAccepted =>
         sent == [Ehlo, StartTls, Handshake, TlsQuit] && wire.Accepts() && r.tlsVersion.Some?
       case ImplicitTls => !plain
  }

  /** The reply did not come, or came with another code, and the client gave up for that reason. */
  ghost predicate StoppedBy(p: Parsed, outcome: Io) {
    match p
    case Reply(_, _) => outcome == IoFailed(ProtocolError)
    case Refusal(e, _) =>
      if e == Deadline then outcome == CutOff
      else outcome == IoFailed(if e == IoFailure then IoError else ProtocolError)
  }

  /**
    What comes of a client whose connection and writes all complete, from the peer's bytes alone: how far it gets, what
    it records, and how it ends. `left` is what is in its buffer when STARTTLS has been accepted.
   */
  ghost predicate GotFar(wire: Wire, left: seq<byte>, end: Option<HandshakeEnd>, outcome: Io, r: ProbeResult,
                         sent: seq<Step>)
  {
    if !wire.Greets() then
      sent == [] && r.smtpGreeting.None? && r.starttls == NotReached && StoppedBy(wire.Next(), outcome)
    else
      && r.smtpGreeting == Some(Join(wire.Next().lines))
      && if !wire.Answers() then
           sent == [Ehlo] && r.ehloCapabilities == [] && r.starttls == NotReached
           && StoppedBy(wire.Rest().Next(), outcome)
         else
           && r.ehloCapabilities == Capabilities(wire.Rest().Next().lines)
           && if !wire.Advertises() then
                sent == [Ehlo, PlainQuit] && r.starttls == NotAdvertised && outcome == Completed
              else if !wire.Replies() then
                sent == [Ehlo, StartTls] && r.starttls == NotReached && StoppedBy(wire.Rest().Rest().Next(), outcome)
              else if !wire.Accepts() then
                sent == [Ehlo, StartTls, PlainQuit] && r.starttls == AdvertisedAndRejected && outcome == Completed
              else if left != [] then
                sent == [Ehlo, StartTls] && r.starttls == AcceptedHandshakeFailed && outcome == IoFailed(ProtocolError)
              else
                && sent == [Ehlo, StartTls, Handshake] + (if end == Some(Established) then [TlsQuit] else [])
                && r.starttls == (if end == Some(Established) then AdvertisedAndAccepted else AcceptedHandshakeFailed)
                && EndsAs(end, outcome)
  }

  /** The handshake decides how the exchange ends. */
  ghost predicate EndsAs(end: Option<HandshakeEnd>, outcome: Io) {
    match end
    case None => false
    case Some(Established) => outcome == Completed
    case Some(NotEstablished) => outcome == Completed
    case Some(HandshakeFailed(e)) => outcome == IoFailed(e)
    case Some(HandshakeCutOff) => outcome == CutOff
  }

  predicate Fresh(r: ProbeResult) { r == Unavailable(None).(resolvedIp := r.resolvedIp) }

  /** The error text is independent of what the evidence claims, and can only confirm a rejection. */
  lemma NotingAnError(plain: bool, wire: Wire, r: ProbeResult, sent: seq<Step>)
    requires Consistent(plain, wire, r, sent)
    ensures forall text :: Consistent(plain, wire, r.(error := Some(text)), sent)
    ensures r.tlsChallenges == [] && (plain ==> r.starttls != ImplicitTls)
    ensures !plain ==> r.starttls in {NotReached, ImplicitTls}
    ensures r.starttls == AdvertisedAndRejected ==> r.error.Some?
  {}

  lemma HowFarIgnoresErrors(wire: Wire, left: seq<byte>, end: Option<HandshakeEnd>, outcome: Io, r: ProbeResult,
                            sent: seq<Step>)
    ensures forall text ::
      GotFar(wire, left, end, outcome, r.(error := Some(text)), sent) == GotFar(wire, left, end, outcome, r, sent)
  {
    hide Parse, Join, Capabilities, AdvertisesStartTls, StartsWith;
  }

  lemma PlainTraces()
    ensures AllowedTrace(true, []) && AllowedTrace(true, [Ehlo]) && AllowedTrace(true, [Ehlo, PlainQuit])
    ensures AllowedTrace(true, [Ehlo, StartTls]) && AllowedTrace(true, [Ehlo, StartTls, PlainQuit])
    ensures AllowedTrace(true, [Ehlo, StartTls, Handshake]) && AllowedTrace(true, [Ehlo, StartTls, Handshake, TlsQuit])
    ensures AllowedTrace(false, []) && AllowedTrace(false, [Handshake])
  {}

  class Client {
    var result: ProbeResult
    var sent: seq<Step>
    var conn: Connection
    /** What was left in the plaintext buffer when the handshake started. */
    ghost var plaintextLeft: seq<byte>
    /** The connection or a write did not complete. */
    ghost var broke: bool
    /** The deadline struck while connecting or writing. */
    ghost var late: bool
    /** How the handshake ended, if there was one. */
    ghost var ended: Option<HandshakeEnd>

    constructor (conn: Connection)
      ensures result == Unavailable(None) && sent == [] && this.conn == conn && plaintextLeft == []
      ensures !broke && !late && ended == None
    {
      result, sent, plaintextLeft, broke, late, ended := Unavailable(None), [], [], false, false, None;
      this.conn := conn;
    }

    /** A command is counted as sent from the moment its write starts. */
    method Send(step: Step) returns (io: Io)
      modifies this`sent, this`broke, this`late
      ensures sent == old(sent) + [step]
      ensures broke == (old(broke) || !io.Completed?) && late == (old(late) || io.CutOff?)
    {
      sent := sent + [step];
      io := *;
      broke, late := broke || !io.Completed?, late || io.CutOff?;
    }

    /** Connecting and asking for the peer's address. */
    method Connect() returns (io: Io)
      modifies this`result, this`broke, this`late
      ensures result == old(result).(resolvedIp := result.resolvedIp)
      ensures io.Completed? ==> result.resolvedIp.Some?
      ensures broke == (old(broke) || !io.Completed?) && late == (old(late) || io.CutOff?)
    {
      io := *;
      broke, late := broke || !io.Completed?, late || io.CutOff?;
      if io.Completed? {
        var address: string := *;
        result := result.(resolvedIp := Some(address));
      }
    }

    /**
      The handshake: it may fail before or after the facts of the negotiated session are recorded,
      be refused with an error noted, or be established.
     */
    method PerformHandshake() returns (end: HandshakeEnd)
      modifies this`result, this`sent, this`plaintextLeft, this`ended
      ensures sent == old(sent) + [Handshake] && plaintextLeft == conn.buffer && ended == Some(end)
      ensures result == old(result).(error := result.error, tlsVersion := result.tlsVersion,
        cipherSuite := result.cipherSuite, certificate := result.certificate,
        certificateHostnameValid := result.certificateHostnameValid, certificateTrusted := result.certificateTrusted)
      ensures end.Established? ==> result.tlsVersion.Some?
      ensures end.NotEstablished? ==> result == old(result).(error := result.error) && result.error.Some?
    {
      sent := sent + [Handshake];
      plaintextLeft := conn.buffer;
      end := *;
      ended := Some(end);
      if end.NotEstablished? {
        result := result.(error := Some("TLS handshake failed"));
      } else {
        var recorded: bool := *;
        if end.Established? || recorded {
          var version: TlsVersion := *;
          var cipher: Option<string>, certificate: Option<Validity>, matches: Option<bool>, trusted: bool := *, *, *, *;
          result := result.(tlsVersion := Some(version), cipherSuite := cipher, certificateTrusted := Some(trusted),
                            certificate := certificate, certificateHostnameValid := matches);
        }
      }
    }

    /** The greeting and the capabilities are on record. */
    ghost predicate HasGreeted(wire: Wire, r: ProbeResult) {
      && wire.Advertises() && r.smtpGreeting == Some(Join(wire.Next().lines))
      && r.ehloCapabilities == Capabilities(wire.Rest().Next().lines)
    }

    /** Greeting and EHLO; `go` when STARTTLS is advertised. */
    method Hello(limits: Limits) returns (outcome: Io, go: bool)
      requires conn.Valid() && Fresh(result) && sent == [] && plaintextLeft == [] && !late
      modifies this, conn
      ensures conn == old(conn) && plaintextLeft == [] && NoTlsFacts(result)
      ensures Consistent(true, Wire(old(conn.Flat()), conn.end, limits), result, sent)
      ensures go ==>
        var wire := Wire(old(conn.Flat()), conn.end, limits);
        && conn.Valid() && Wire(conn.Flat(), conn.end, limits) == wire.Rest().Rest()
        && wire.Advertises() && sent == [Ehlo] && result.starttls.NotReached?
      ensures !go && outcome.Completed? ==> result.starttls.NotAdvertised?
      ensures late ==> !go && outcome == CutOff
      ensures ended == old(ended) && (old(broke) ==> broke) && result.resolvedIp == old(result.resolvedIp)
      ensures var wire := Wire(old(conn.Flat()), conn.end, limits);
        !broke ==> if go then HasGreeted(wire, result)
                   else !wire.Advertises() && GotFar(wire, [], None, outcome, result, sent)
    {
      hide Parse, Join, Capabilities, AdvertisesStartTls, EqIgnoreCase, StartsWith, Concat, AllowedTrace;
      ghost var wire := Wire(conn.Flat(), conn.end, limits);
      PlainTraces();
      go := false;
      var greeting, error := conn.ReadReply(limits);
      if error.Some? { return ReplyFailure(error.value), false; }
      if !StartsWith(greeting[0], CODE_220) { return IoFailed(ProtocolError), false; }
      result := result.(smtpGreeting := Some(Join(greeting)));
      outcome := Send(Ehlo);
      assert sent == [Ehlo];
      if !outcome.Completed? { return; }
      assert wire.Rest() == Wire(conn.Flat(), conn.end, limits);
      var capabilities;
      capabilities, error := conn.ReadReply(limits);
      if error.Some? { return ReplyFailure(error.value), false; }
      if !StartsWith(capabilities[0], CODE_250) { return IoFailed(ProtocolError), false; }
      result := result.(ehloCapabilities := Capabilities(capabilities));
      if !AdvertisesStartTls(result.ehloCapabilities) {
        result := result.(starttls := NotAdvertised);
        outcome := Send(PlainQuit);
        assert sent == [Ehlo, PlainQuit];
        return;
      }
      go := true;
    }

    /** The plaintext dialogue, up to the peer's answer to STARTTLS. */
    method Negotiate(limits: Limits) returns (outcome: Io, accepted: bool)
      requires conn.Valid() && Fresh(result) && sent == [] && plaintextLeft == [] && !late
      modifies this, conn
      ensures conn == old(conn) && plaintextLeft == [] && NoTlsFacts(result)
      ensures Consistent(true, Wire(old(conn.Flat()), conn.end, limits), result, sent)
      ensures accepted ==> result.starttls.AcceptedHandshakeFailed? && sent == [Ehlo, StartTls]
                           && Wire(old(conn.Flat()), conn.end, limits).Accepts()
      ensures !accepted && outcome.Completed? ==> result.starttls in {NotAdvertised, AdvertisedAndRejected}
      ensures !accepted && outcome.Completed? && result.error.None? ==> result.starttls.NotAdvertised?
      ensures late ==> !accepted && outcome == CutOff
      ensures ended == old(ended) && (old(broke) ==> broke) && result.resolvedIp == old(result.resolvedIp)
      ensures var wire := Wire(old(conn.Flat()), conn.end, limits);
        !broke ==> if accepted then HasGreeted(wire, result)
                   else !wire.Accepts() && GotFar(wire, [], None, outcome, result, sent)
      ensures accepted ==>
        conn.Valid() && conn.Flat() == Wire(old(conn.Flat()), conn.end, limits).Rest().Rest().Rest().bytes
    {
      hide Parse, Join, Capabilities, AdvertisesStartTls, EqIgnoreCase, StartsWith, Concat, AllowedTrace;
      PlainTraces();
      var go;
      outcome, go := Hello(limits);
      accepted := false;
      if !go { return; }
      outcome := Send(StartTls);
      assert sent == [Ehlo, StartTls];
      if !outcome.Completed? { return; }
      var reply, error := conn.ReadReply(limits);
      if error.Some? { return ReplyFailure(error.value), false; }
      if !StartsWith(reply[0], CODE_220) {
        result := result.(starttls := AdvertisedAndRejected);
        result := result.(error := Some("STARTTLS rejected"));
        outcome := Send(PlainQuit);
        assert sent == [Ehlo, StartTls, PlainQuit];
        return;
      }
      result := result.(starttls := AcceptedHandshakeFailed);
      accepted := true;
    }

    /** `exchange`: `plain` for SMTP with STARTTLS, otherwise TLS from the first byte. */
    method Exchange(plain: bool, limits: Limits) returns (outcome: Io, ghost left: seq<byte>)
      requires conn.Valid() && conn.buffer == [] && result == Unavailable(None) && sent == [] && plaintextLeft == []
      requires !broke && !late && ended == None
      modifies this, conn
      ensures !broke && plain ==> GotFar(Wire(old(conn.Flat()), conn.end, limits), left, ended, outcome, result, sent)
      ensures !broke && !plain ==> sent == [Handshake] && result.starttls == ImplicitTls && EndsAs(ended, outcome)
      ensures late ==> outcome == CutOff
      ensures !broke ==> result.resolvedIp.Some?
      ensures left != [] ==>
        && plain && Wire(old(conn.Flat()), conn.end, limits).Accepts()
        && left <= Wire(old(conn.Flat()), conn.end, limits).Rest().Rest().Rest().bytes
      ensures conn == old(conn)
      ensures Consistent(plain, Wire(old(conn.Flat()), conn.end, limits), result, sent)
      ensures plaintextLeft == []
      ensures outcome.Completed? ==>
        result.starttls in {NotAdvertised, AdvertisedAndRejected, AcceptedHandshakeFailed, AdvertisedAndAccepted,
          ImplicitTls}
      ensures outcome.Completed? && result.starttls == AcceptedHandshakeFailed ==>
        result.error.Some? && NoTlsFacts(result)
      ensures outcome.Completed? && result.error.None? ==> result.starttls == NotAdvertised || result.tlsVersion.Some?
    {
      hide Parse, Join, Capabilities, AdvertisesStartTls, EqIgnoreCase, StartsWith, Concat, AllowedTrace;
      ghost var wire := Wire(conn.Flat(), conn.end, limits);
      PlainTraces();
      left := [];
      outcome := Connect();
      if !outcome.Completed? { return; }
      if plain {
        var accepted;
        outcome, accepted := Negotiate(limits);
        if !accepted { return; }
      } else {
        result := result.(starttls := ImplicitTls);
      }
      left := conn.buffer;
      if conn.buffer != [] { return IoFailed(ProtocolError), left; }
      if !plain {
        result := result.(starttls := ImplicitTls);
      }
      var end := PerformHandshake();
      assert sent == if plain then [Ehlo, StartTls, Handshake] else [Handshake];
      match end
      case HandshakeFailed(e) => return IoFailed(e), left;
      case HandshakeCutOff => return CutOff, left;
      case NotEstablished => return Completed, left;
      case Established =>
        if plain {
          result := result.(starttls := AdvertisedAndAccepted);
          var goodbye := Send(TlsQuit);
          assert sent == [Ehlo, StartTls, Handshake, TlsQuit];
          if goodbye.CutOff? { return CutOff, left; }
        }
        return Completed, left;
    }

    /** `timed_probe`: a failure or the deadline hands back the evidence collected so far. */
    method TimedProbe(plain: bool, limits: Limits)
        returns (response: Response, ghost outcome: Io, ghost left: seq<byte>)
      requires conn.Valid() && conn.buffer == [] && result == Unavailable(None) && sent == [] && plaintextLeft == []
      requires !broke && !late && ended == None
      modifies this, conn
      ensures !broke && plain ==>
        GotFar(Wire(old(conn.Flat()), old(conn.end), limits), left, ended, outcome, result, sent)
      ensures !broke && !plain ==> sent == [Handshake] && result.starttls == ImplicitTls && EndsAs(ended, outcome)
      ensures late ==> outcome == CutOff
      ensures outcome == Completed <==> response.Delivered?
      ensures outcome.IoFailed? ==> response.Partial? && response.error == outcome.error
      ensures outcome.CutOff? ==> response.Partial? && response.error == TimeoutError
      ensures response.HasEvidence() && response.evidence == result && result.tlsChallenges == []
      ensures Consistent(plain, Wire(old(conn.Flat()), old(conn.end), limits), result, sent)
      ensures plaintextLeft == []
      ensures response.Partial? ==> result.error.Some?
      ensures OutcomeOf(response) == Success && plain ==> result.starttls in {NotAdvertised, AdvertisedAndAccepted}
      ensures OutcomeOf(response) == Success ==> result.starttls == NotAdvertised || result.tlsVersion.Some?
    {
      hide Consistent, Parse, Concat, GotFar;
      ghost var wire := Wire(conn.Flat(), conn.end, limits);
      var io;
      io, left := Exchange(plain, limits);
      outcome := io;
      HowFarIgnoresErrors(wire, left, ended, outcome, result, sent);
      NotingAnError(plain, wire, result, sent);
      match io
      case Completed => response := Delivered(result);
      case IoFailed(e) =>
        result := result.(error := Some("probe failed"));
        response := Partial(e, result);
      case CutOff =>
        result := result.(error := Some("probe timed out"));
        response := Partial(TimeoutError, result);
    }
  }

  // ---------- what is kept of a reply ----------

  /** The capabilities are what follows code and separator, on the lines that reach that far. */
  lemma {:induction false} CapabilitiesExactly(lines: seq<seq<byte>>)
    ensures forall c :: c in Capabilities(lines) <==> exists l :: l in lines && |l| >= 4 && l[4..] == c
    ensures (forall l | l in lines :: |l| >= 4) ==>
      |Capabilities(lines)| == |lines| && forall i | 0 <= i < |lines| :: Capabilities(lines)[i] == lines[i][4..]
  {
    if lines != [] {
      CapabilitiesExactly(lines[1..]);
      assert forall l :: l in lines <==> l == lines[0] || l in lines[1..];
    }
  }

  /** The greeting is kept as its lines with a space (32) between them. */
  lemma {:induction false} JoinExactly(a: seq<seq<byte>>, b: seq<seq<byte>>)
    ensures forall line :: Join([line]) == line
    ensures a != [] && b != [] ==> Join(a + b) == Join(a) + [32] + Join(b)
    decreases |a|
  {
    if |a| > 1 && b != [] {
      JoinExactly(a[1..], b);
      assert (a + b)[1..] == a[1..] + b;
    } else if |a| == 1 && b != [] {
      assert (a + b)[1..] == b;
    }
  }

  // ---------- servers that offer the upgrade ----------

  /** The word STARTTLS, in any mix of letter cases. */
  ghost predicate SpellsStartTls(text: seq<byte>) {
    |text| == 8 && forall i | 0 <= i < 8 ::
      text[i] as int == "STARTTLS"[i] as int || text[i] as int == "starttls"[i] as int
  }

  lemma AdvertisedExactly(capabilities: seq<seq<byte>>)
    ensures AdvertisesStartTls(capabilities) <==> exists i :: 0 <= i < |capabilities| && SpellsStartTls(capabilities[i])
  {
    forall i | 0 <= i < |capabilities|
      ensures EqIgnoreCase(capabilities[i], STARTTLS) <==> SpellsStartTls(capabilities[i]) {}
  }

  /** A printed line that offers the upgrade is among the capabilities read from the reply. */
  lemma {:induction false} OfferIsRead(code: seq<byte>, texts: seq<seq<byte>>, i: nat)
    requires |code| == 3 && i < |texts| && SpellsStartTls(texts[i])
    ensures AdvertisesStartTls(Capabilities(Shown(code, texts)))
  {
    var capabilities := Capabilities(Shown(code, texts));
    if i == 0 {
      var line := code + [if |texts| == 1 then SPACE else DASH] + texts[0];
      assert TrailingSpace(line) == 0 && line[4..] == texts[0];
      assert capabilities[0] == texts[0];
      assert SpellsStartTls(capabilities[0]);
      AdvertisedExactly(capabilities);
    } else {
      OfferIsRead(code, texts[1..], i - 1);
      var more := Capabilities(Shown(code, texts[1..]));
      assert capabilities == more || capabilities[1..] == more;
      AdvertisedExactly(more);
      AdvertisedExactly(capabilities);
      var k :| 0 <= k < |more| && SpellsStartTls(more[k]);
      assert more[k] in capabilities;
    }
  }

  /**
    A server that greets with 220, answers EHLO with 250 and a line offering STARTTLS, and then says 220, is one whose
    upgrade is accepted, whatever else its replies say; nothing but what follows the third reply is left unread.
   */
  lemma UpgradeIsAccepted(greeting: seq<seq<byte>>, answer: seq<seq<byte>>, reply: seq<seq<byte>>, i: nat,
                          rest: seq<byte>, end: End, limits: Limits)
    requires Printable([50, 50, 48], greeting, limits.maxLineBytes, limits.maxLines)
    requires Printable([50, 53, 48], answer, limits.maxLineBytes, limits.maxLines)
    requires Printable([50, 50, 48], reply, limits.maxLineBytes, limits.maxLines)
    requires i < |answer| && SpellsStartTls(answer[i])
    ensures
      var said := Print([50, 50, 48], greeting) + Print([50, 53, 48], answer) + Print([50, 50, 48], reply);
      var wire := Wire(said + rest, end, limits);
      wire.Accepts() && wire.Rest().Rest().Rest().bytes == rest
  {
    hide Parse, Print, Shown, Capabilities, AdvertisesStartTls, PrintableText, ValidCode, SpellsStartTls, StartsWith;
    var hello, ready: seq<byte> := [50, 50, 48], [50, 53, 48];
    var first, second := Print(hello, greeting), Print(ready, answer);
    var third := Print(hello, reply);
    var wire := Wire(first + second + third + rest, end, limits);
    assert wire.bytes == first + (second + (third + rest));
    ReplyIsRead(wire, hello, greeting, second + (third + rest));
    ReplyIsRead(wire.Rest(), ready, answer, third + rest);
    ReplyIsRead(wire.Rest().Rest(), hello, reply, rest);
    OfferIsRead(ready, answer, i);
    AcceptsIs(wire);
  }

  lemma ReplyIsRead(wire: Wire, code: seq<byte>, texts: seq<seq<byte>>, rest: seq<byte>)
    requires Printable(code, texts, wire.limits.maxLineBytes, wire.limits.maxLines)
    requires wire.bytes == Print(code, texts) + rest
    ensures wire.Next().Reply? && wire.Next().lines == Shown(code, texts) && code <= wire.Next().lines[0]
    ensures wire.Rest() == wire.(bytes := rest)
  {
    PrintedParses(code, texts, rest, wire.end, wire.limits.maxLineBytes, wire.limits.maxLines, None);
    ShownCode(code, texts);
    hide Parse, Print, Shown, Printable;
  }

  lemma AcceptsIs(wire: Wire)
    requires wire.Next().Reply? && [50, 50, 48] <= wire.Next().lines[0]
    requires wire.Rest().Next().Reply? && [50, 53, 48] <= wire.Rest().Next().lines[0]
    requires AdvertisesStartTls(Capabilities(wire.Rest().Next().lines))
    requires wire.Rest().Rest().Next().Reply? && [50, 50, 48] <= wire.Rest().Rest().Next().lines[0]
    ensures wire.Accepts()
  {
    hide Parse, Capabilities, AdvertisesStartTls;
  }

  lemma ShownCode(code: seq<byte>, texts: seq<seq<byte>>)
    requires ValidCode(code) && texts != []
    ensures code <= Shown(code, texts)[0]
  {
    TrimmedKeepsCode(code + [if |texts| == 1 then SPACE else DASH] + texts[0]);
  }

  /**
    The verdict on STARTTLS rests on what the peer's bytes said: "fixed" only after a full upgrade,
    "still present" only after a complete answer that omitted or refused it, never after a stream
    that broke off.
   */
  lemma StartTlsVerdictIsBacked(subject: Subject, run: ProbeRun, wire: Wire, sent: seq<Step>)
    requires subject.condition == StartTlsAvailable && run.result.Some?
    requires Consistent(true, wire, run.result.value, sent)
    ensures VerifyRemediation(subject, run) == VerifiedFixed ==>
              wire.Accepts() && sent == [Ehlo, StartTls, Handshake, TlsQuit]
    ensures VerifyRemediation(subject, run) == StillPresent ==>
              if sent == [Ehlo, PlainQuit] then wire.Answers() && !wire.Advertises()
              else wire.Replies() && !wire.Accepts()
  {
    VerifiedExactly(subject, run);
  }
}
