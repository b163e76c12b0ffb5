/** One line of a Zeek JSON log and the checked accessors the normaliser reads it through. */
module ZeekRecord {
  import opened Domain

  /** A JSON value; numbers written without a fraction or exponent are integers. */
  datatype Value =
    | Null | Text(text: string) | Integer(i: int) | Decimal(r: real) | Boolean(b: bool)
    | Array(items: seq<Value>) | Nested

  datatype Log = ConnLog | FilesLog | MailentLog | SmtpLog | SslLog | TlsLog | X509Log

  datatype Source = Source(log: Log, line: nat)

  datatype Record = Record(source: Source, value: map<string, Value>)

  datatype Error =
    | BadField(source: Source, key: string) | TooManyConnections | NoFlowRecord(uid: string)
    | MultipleTls(uid: string) | Invalid(reason: string)

  datatype Result<+T> = Ok(value: T) | Err(error: Error)
  {
    predicate IsFailure() { Err? }

    function PropagateFailure<U>(): Result<U>
      requires Err?
    {
      Err(error)
    }

    function Extract(): T
      requires Ok?
    {
      value
    }
  }

  datatype Flow = Flow(srcIp: string, srcPort: nat, dstIp: string, dstPort: nat)

  function Bad<T>(r: Record, key: string): Result<T> { Err(BadField(r.source, key)) }

  predicate Missing(r: Record, key: string) { key !in r.value || r.value[key].Null? }

  function GetText(r: Record, key: string): Result<Option<string>> {
    if Missing(r, key) then Ok(None)
    else match r.value[key] case Text(s) => Ok(Some(s)) case _ => Bad(r, key)
  }

  function Required(r: Record, key: string): Result<string> {
    var t :- GetText(r, key);
    if t.None? then Bad(r, key) else Ok(t.value)
  }

  function GetNumber(r: Record, key: string): Result<Option<real>> {
    if Missing(r, key) then Ok(None)
    else match r.value[key] case Integer(i) => Ok(Some(i as real)) case Decimal(d) => Ok(Some(d)) case _ => Bad(r, key)
  }

  function GetBoolean(r: Record, key: string): Result<Option<bool>> {
    if Missing(r, key) then Ok(None)
    else match r.value[key] case Boolean(b) => Ok(Some(b)) case _ => Bad(r, key)
  }

  function GetStrings(r: Record, key: string): Result<seq<string>> {
    if Missing(r, key) then Ok([])
    else
      match r.value[key]
      case Array(items) =>
        if forall i | 0 <= i < |items| :: items[i].Text?
        then Ok(seq(|items|, i requires 0 <= i < |items| && items[i].Text? => items[i].text))
        else Bad(r, key)
      case _ => Bad(r, key)
  }

  /** Nearest integer, halves away from zero. */
  function Round(x: real): int { if x >= 0.0 then (x + 0.5).Floor else -(0.5 - x).Floor }

  /** The nearest integer; a tie goes away from zero. */
  lemma RoundIsNearest(x: real)
    ensures -0.5 <= Round(x) as real - x <= 0.5
    ensures Round(x) as real - x == 0.5 ==> x >= 0.0
    ensures x - Round(x) as real == 0.5 ==> x < 0.0
  {}

  function GetTime(r: Record, key: string): Result<Time> {
    var n :- GetNumber(r, key);
    if n.None? || n.value < -62167219200.0 || n.value > 253402300799.0 then Bad(r, key)
    else Ok(Round(n.value * 1000000000.0))
  }

  /** `as_u64` followed by a conversion to 16 bits: an integer outside 64 bits is no integer at all. */
  function Unsigned(r: Record, key: string): Option<nat> {
    if key in r.value && r.value[key].Integer? && 0 <= r.value[key].i < 0x1_0000_0000_0000_0000
    then Some(r.value[key].i) else None
  }

  function Port(r: Record, key: string): Result<nat> {
    var n := Unsigned(r, key);
    if n.Some? && 0 < n.value < 0x1_0000 then Ok(n.value) else Bad(r, key)
  }

  /** The field is an integer between the bounds. */
  ghost predicate HasInteger(r: Record, key: string, low: int, high: int, n: int) {
    key in r.value && r.value[key] == Integer(n) && low <= n <= high
  }

  lemma PortExactly(r: Record, key: string, n: nat)
    ensures Port(r, key) == Ok(n) <==> HasInteger(r, key, 1, 65535, n)
  {}

  function FlowOf(r: Record): Result<Flow> {
    var srcIp :- Required(r, "id.orig_h");
    var srcPort :- Port(r, "id.orig_p");
    var dstIp :- Required(r, "id.resp_h");
    var dstPort :- Port(r, "id.resp_p");
    Ok(Flow(srcIp, srcPort, dstIp, dstPort))
  }

  /** The flow is read exactly when both addresses are texts and both ports are ports. */
  ghost predicate FlowRead(r: Record, flow: Flow) {
    && GetText(r, "id.orig_h") == Ok(Some(flow.srcIp)) && GetText(r, "id.resp_h") == Ok(Some(flow.dstIp))
    && HasInteger(r, "id.orig_p", 1, 65535, flow.srcPort) && HasInteger(r, "id.resp_p", 1, 65535, flow.dstPort)
  }

  lemma FlowExactly(r: Record, flow: Flow)
    ensures FlowOf(r) == Ok(flow) <==> FlowRead(r, flow)
  {
    hide GetText, Port, HasInteger;
    PortExactly(r, "id.orig_p", flow.srcPort);
    PortExactly(r, "id.resp_p", flow.dstPort);
  }
}
