/** The JavaScript values the bot reads from the OLT's JSON replies, reduced to the
    fields its code inspects. A field that is absent (`undefined`) is `None`. */
module Wire {
  import opened Wrappers
  import opened Strings
  import opened Arrays

  /** A JSON scalar the code compares or renders: a string or an integral number. */
  datatype JsValue = JStr(str: string) | JNum(num: int)

  /** JavaScript truthiness: the empty string and zero are falsy. */
  predicate Truthy(v: JsValue) {
    match v
    case JStr(s) => s != ""
    case JNum(n) => n != 0
  }

  /** `${v}` */
  function ValueText(v: JsValue): string {
    match v
    case JStr(s) => s
    case JNum(n) => IntToString(n)
  }

  /** `parseInt(v, 10)`, with `None` for `NaN`. */
  function ParseIntValue(v: JsValue): Option<int> {
    match v
    case JStr(s) => ParseInt(s)
    case JNum(n) => Some(n)
  }

  /** `parseInt` of an optional field: `parseInt(undefined)` is `NaN`. */
  function ParseIntField(v: Option<JsValue>): Option<int> {
    match v
    case None => None
    case Some(x) => ParseIntValue(x)
  }

  lemma ParseIntOfNumber(n: int)
    ensures ParseIntValue(JNum(n)) == Some(n) && ParseIntValue(JStr(IntToString(n))) == Some(n)
  {
    ParseIntRoundTrip(n);
  }

  /** The field is present and truthy. */
  predicate Has(o: Option<string>) {
    o.Some? && o.value != ""
  }

  predicate HasValue(o: Option<JsValue>) {
    o.Some? && Truthy(o.value)
  }

  /** `o || fallback` for an optional string field. */
  function Or(o: Option<string>, fallback: string): string {
    if Has(o) then o.value else fallback
  }

  /** `${o}`: an absent field renders as 'undefined'. */
  function Text(o: Option<string>): string {
    if o.Some? then o.value else "undefined"
  }

  /** `o ? o.toLowerCase() : ''` */
  function LowerOrEmpty(o: Option<string>): string {
    if Has(o) then Lower(o.value) else ""
  }

  /** `${o || fallback}` for an optional scalar field. */
  function OrText(o: Option<JsValue>, fallback: string): string {
    if HasValue(o) then ValueText(o.value) else fallback
  }

  /** A `receive_power` reading as the code sees it after `parseFloat`: the
      placeholder '-', a number of hundredths of a dBm, or text that parses to `NaN`
      (the empty string among them). */
  datatype RxReading = Dash | Reading(centi: int) | NotNumber

  /** One object of an OLT table or detail reply, with the keys the bot reads. */
  datatype Row = Row(
    ontSn: Option<string>,        // ont_sn (GPON serial number)
    ontName: Option<string>,      // ont_name
    macAddr: Option<string>,      // macaddr (EPON)
    sn: Option<string>,           // sn
    onuName: Option<string>,      // onu_name (EPON)
    portId: Option<JsValue>,      // port_id
    ontId: Option<JsValue>,       // ont_id
    onuId: Option<JsValue>,       // onu_id
    authState: Option<JsValue>,   // auth_state
    rstate: Option<JsValue>,      // rstate
    runState: Option<string>,     // run_state
    status: Option<string>,       // status
    identifier: Option<JsValue>,  // identifier (GPON routing key)
    receivePower: Option<RxReading>, // receive_power
    description: Option<string>)  // ont_description / onu_desc

  const EmptyRow := Row(None, None, None, None, None, None, None, None, None, None, None, None, None, None, None)

  function Pick<T>(a: Option<T>, b: Option<T>): Option<T> {
    if b.Some? then b else a
  }

  /** `{...a, ...b}`: every key present in `b` takes its value from `b`. */
  function Overlay(a: Row, b: Row): Row {
    Row(Pick(a.ontSn, b.ontSn), Pick(a.ontName, b.ontName), Pick(a.macAddr, b.macAddr),
        Pick(a.sn, b.sn), Pick(a.onuName, b.onuName), Pick(a.portId, b.portId),
        Pick(a.ontId, b.ontId), Pick(a.onuId, b.onuId), Pick(a.authState, b.authState),
        Pick(a.rstate, b.rstate), Pick(a.runState, b.runState), Pick(a.status, b.status),
        Pick(a.identifier, b.identifier), Pick(a.receivePower, b.receivePower),
        Pick(a.description, b.description))
  }

  /** The value a key has after a spread: the right object's when it has the key,
      otherwise the left object's. */
  predicate SpreadKey<T(==)>(left: Option<T>, right: Option<T>, merged: Option<T>) {
    (right.Some? ==> merged == right) && (right.None? ==> merged == left)
  }

  /** After a spread, every key comes from the right object exactly when it has it
      there. */
  lemma OverlayKeys(a: Row, b: Row)
    ensures SpreadKey(a.ontSn, b.ontSn, Overlay(a, b).ontSn)
    ensures SpreadKey(a.ontName, b.ontName, Overlay(a, b).ontName)
    ensures SpreadKey(a.macAddr, b.macAddr, Overlay(a, b).macAddr)
    ensures SpreadKey(a.sn, b.sn, Overlay(a, b).sn)
    ensures SpreadKey(a.onuName, b.onuName, Overlay(a, b).onuName)
    ensures SpreadKey(a.portId, b.portId, Overlay(a, b).portId)
    ensures SpreadKey(a.ontId, b.ontId, Overlay(a, b).ontId)
    ensures SpreadKey(a.onuId, b.onuId, Overlay(a, b).onuId)
    ensures SpreadKey(a.authState, b.authState, Overlay(a, b).authState)
    ensures SpreadKey(a.rstate, b.rstate, Overlay(a, b).rstate)
    ensures SpreadKey(a.runState, b.runState, Overlay(a, b).runState)
    ensures SpreadKey(a.status, b.status, Overlay(a, b).status)
    ensures SpreadKey(a.identifier, b.identifier, Overlay(a, b).identifier)
    ensures SpreadKey(a.receivePower, b.receivePower, Overlay(a, b).receivePower)
    ensures SpreadKey(a.description, b.description, Overlay(a, b).description)
  {
  }

  /** Spreading an empty object changes nothing, and an object spread over itself
      is unchanged. */
  lemma OverlayIdentity(a: Row)
    ensures Overlay(a, EmptyRow) == a && Overlay(EmptyRow, a) == a
    ensures Overlay(a, a) == a
  {
  }

  /** `parseInt(row.port_id) === port` for the parsed port `port`: `NaN` equals nothing. */
  function OnPort(port: Option<int>): Row -> bool {
    (row: Row) => port.Some? && ParseIntField(row.portId) == port
  }

  /** The rows of the requested port (`parseInt(ponPort, 10)`), or all rows when no
      port is given. */
  function PortRows(rows: seq<Row>, ponPort: Option<JsValue>): (r: seq<Row>)
    ensures ponPort.None? ==> r == rows
    ensures ponPort.Some? ==> forall i :: 0 <= i < |r| ==> OnPort(ParseIntValue(ponPort.value))(r[i])
    ensures ponPort.Some? ==> forall x :: x in r <==> x in rows && OnPort(ParseIntValue(ponPort.value))(x)
  {
    if ponPort.None? then rows else Filter(rows, OnPort(ParseIntValue(ponPort.value)))
  }

  /** `o && o.toLowerCase() === term`: a present, non-empty field equal to the term
      after lower-casing. */
  predicate KeyMatch(o: Option<string>, term: string) {
    Has(o) && Lower(o.value) == term
  }

  /** What `result.data.data` holds: nothing (a falsy value), an array of rows, or one
      object. */
  datatype Payload = NoPayload | RowsPayload(rows: seq<Row>) | RecordPayload(record: Row)

  /** The JSON body of an OLT reply (`result.data`). */
  datatype Body = Body(message: Option<string>, status: Option<string>, code: Option<JsValue>, payload: Payload)

  /** An axios response; `data` is its parsed body. */
  datatype Reply = Reply(data: Option<Body>)

  /** The message of a `TypeError` the engine throws when the code reads a property
      of `undefined` or calls an array method on a non-array; the model does not
      reproduce the engine's wording. */
  const TypeErrorMessage := "TypeError"

  /** The marker message the OLT uses to reject a stale session token. */
  const TokenCheckFailed := "Token Check Failed"

  /** `result?.data?.message === "Token Check Failed"` */
  predicate IsTokenRejection(r: Reply) {
    r.data.Some? && r.data.value.message == Some(TokenCheckFailed)
  }

  /** `resp.data?.message || 'Unknown error'` */
  function ReplyMessage(r: Reply): string {
    if r.data.Some? then Or(r.data.value.message, "Unknown error") else "Unknown error"
  }

  /** The not-found reply of both clients' reboot and rename. */
  function NotFoundText(gpon: bool, onuName: string): string {
    "Maaf, ONU \"" + onuName + "\" tidak ditemukan.\nGunakan "
    + (if gpon then "Serial Number" else "MAC Address") + " atau nama ONU untuk pencarian."
  }

  /** The three ways the OLT acknowledges a command in its reply body. */
  predicate MessageSuccess(b: Body) {
    b.message == Some("Success") || b.message == Some("success")
  }

  predicate StatusSuccess(b: Body) {
    b.status == Some("success")
  }

  /** `code === 1`: the number one, not the string "1". */
  predicate CodeOne(b: Body) {
    b.code == Some(JNum(1))
  }

  /** `resp.data && (message is 'Success'/'success' || status === 'success' || code === 1)` */
  predicate Acknowledged(r: Reply) {
    r.data.Some? && (MessageSuccess(r.data.value) || StatusSuccess(r.data.value) || CodeOne(r.data.value))
  }

  /** The configured `OLT_TYPE`, as `oltType && oltType.toUpperCase()` decides it. */
  datatype Family = Gpon | Epon | Other

  function FamilyOf(oltType: Option<string>): Family {
    if Has(oltType) && Upper(oltType.value) == "GPON" then Gpon
    else if Has(oltType) && Upper(oltType.value) == "EPON" then Epon
    else Other
  }

  /** The four status marks the bot attaches to an ONU. */
  datatype Icon = OnlineMark | OfflineMark | InitialMark | UnknownMark

  function IconText(i: Icon): string {
    match i
    case OnlineMark => "\U{2705}"
    case OfflineMark => "\U{274C}"
    case InitialMark => "\U{26A0}\U{FE0F}"
    case UnknownMark => "\U{2753}"
  }

  /** The bot's own ONU record `{sn, name, status, port, rstate}`; `rstate` is `None`
      when it is `undefined` or not a number. */
  datatype Onu = Onu(sn: string, name: string, status: Icon, port: string, rstate: Option<int>)
}
