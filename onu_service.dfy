/** The ONU logic of `src/services/onuService.js`: reading the ONU tables, turning
    their rows into the bot's ONU records, the port listing, the detail lookup with
    its enrichment requests, the status and signal wording of the detail text, and
    the reboot and rename commands. Every HTTP request is a parameter holding its
    outcome. */
module OnuService {
  import opened Wrappers
  import opened Strings
  import opened Wire
  import opened Arrays
  import SystemService

  // ---------------------------------------------------------------- tables

  const TableErrorPrefix := "Tidak dapat mengambil data tabel ONU: "

  /** `result.data.data` of a reply, `NoPayload` when either level is missing. */
  function PayloadOf(r: Reply): Payload {
    if r.data.Some? then r.data.value.payload else NoPayload
  }

  /** `getOnuTable()` given the outcome of its GET: a truthy `result.data.data` as it
      is, an empty array otherwise, and a thrown error rethrown with the table
      prefix. */
  function OnuTable(table: Result<Reply>): (r: Result<Payload>)
    ensures r.Err? <==> table.Err?
    ensures table.Err? ==> r.error.message == TableErrorPrefix + table.error.message
    ensures r.Ok? ==> r.value != NoPayload
    ensures r.Ok? && PayloadOf(table.value) != NoPayload ==> r.value == PayloadOf(table.value)
  {
    match table
    case Err(e) => Err(Error(TableErrorPrefix + e.message))
    case Ok(reply) =>
      if PayloadOf(reply) != NoPayload then Ok(PayloadOf(reply)) else Ok(RowsPayload([]))
  }

  /** `getOfflineOnus()` on a GPON OLT given the outcome of `GET /ontinfo_table`: a
      thrown error is swallowed and, like a falsy payload, gives an empty array. */
  function OfflineOnus(offline: Result<Reply>): (p: Payload)
    ensures p != NoPayload
    ensures offline.Err? ==> p == RowsPayload([])
    ensures offline.Ok? && PayloadOf(offline.value) != NoPayload ==> p == PayloadOf(offline.value)
  {
    if offline.Ok? && PayloadOf(offline.value) != NoPayload then PayloadOf(offline.value)
    else RowsPayload([])
  }

  // ---------------------------------------------------------------- ONU records

  /** The rstate code a status mark stands for (`normalizeOnuStates`). */
  function IconState(i: Icon): int {
    match i
    case OnlineMark => 1
    case OfflineMark => 2
    case InitialMark => 0
    case UnknownMark => 3
  }

  /** The status mark every formatter pairs with an rstate code. */
  function StateIcon(k: int): Icon {
    if k == 1 then OnlineMark
    else if k == 2 then OfflineMark
    else if k == 0 then InitialMark
    else UnknownMark
  }

  lemma IconStateRoundTrip(i: Icon, k: int)
    ensures StateIcon(IconState(i)) == i
    ensures 0 <= k <= 3 ==> IconState(StateIcon(k)) == k
  {
  }

  /** What both formatters promise of a record: a numeric rstate among the four codes
      and the status mark of that code. */
  predicate WellFormed(o: Onu) {
    o.rstate.Some? && 0 <= o.rstate.value <= 3 && o.status == StateIcon(o.rstate.value)
  }

  /** The code `formatGponOnus` gives a row: `auth_state` when present (1 online, 0
      initial, anything else offline), else `rstate` when present (0, 1, 2, anything
      else unknown), else the lower-cased `run_state` when present, else unknown. */
  function GponState(row: Row): (k: int)
    ensures 0 <= k <= 3
  {
    if row.authState.Some? then
      var a := ParseIntValue(row.authState.value);
      if a == Some(1) then 1 else if a == Some(0) then 0 else 2
    else if row.rstate.Some? then
      var s := ParseIntValue(row.rstate.value);
      if s == Some(0) then 0 else if s == Some(1) then 1 else if s == Some(2) then 2 else 3
    else if row.runState.Some? then
      var t := Lower(row.runState.value);
      if t == "online" || t == "up" then 1
      else if t == "offline" || t == "down" then 2
      else if t == "initial" then 0
      else 3
    else 3
  }

  /** A row counts as online exactly when the first of its three state fields that is
      present says so. */
  lemma GponOnlineIff(row: Row)
    ensures GponState(row) == 1 <==>
      (row.authState.Some? && ParseIntValue(row.authState.value) == Some(1))
      || (row.authState.None? && row.rstate.Some? && ParseIntValue(row.rstate.value) == Some(1))
      || (row.authState.None? && row.rstate.None? && row.runState.Some?
          && (Lower(row.runState.value) == "online" || Lower(row.runState.value) == "up"))
  {
  }

  /** A present `auth_state` decides alone and is never unknown; a present `rstate`
      overrides `run_state`. */
  lemma GponStatePrecedence(row: Row, rstate: Option<JsValue>, runState: Option<string>)
    ensures row.authState.Some? ==>
      GponState(row.(rstate := rstate, runState := runState)) == GponState(row) && GponState(row) != 3
    ensures row.authState.None? && row.rstate.Some? ==>
      GponState(row.(runState := runState)) == GponState(row)
  {
  }

  function FormatGponRow(row: Row): (o: Onu)
    ensures WellFormed(o) && o.rstate == Some(GponState(row))
    ensures o.sn == Or(row.ontSn, "-") && o.name == Or(row.ontName, "-")
  {
    var k := GponState(row);
    Onu(Or(row.ontSn, "-"), Or(row.ontName, "-"), StateIcon(k),
        OrText(row.portId, "-") + "/" + OrText(row.ontId, "-"), Some(k))
  }

  /** `formatGponOnus(rows)`: one record per row, in order. */
  function FormatGponOnus(rows: seq<Row>): (r: seq<Onu>)
    ensures |r| == |rows|
    ensures forall i :: 0 <= i < |r| ==> r[i] == FormatGponRow(rows[i]) && WellFormed(r[i])
  {
    seq(|rows|, i requires 0 <= i < |rows| => FormatGponRow(rows[i]))
  }

  /** The code `formatEponOnus` gives a row from its lower-cased `status`. */
  function EponState(row: Row): (k: int)
    ensures 0 <= k <= 3
  {
    var t := LowerOrEmpty(row.status);
    if t == "online" || t == "up" || t == "registered" then 1
    else if t == "offline" || t == "down" then 2
    else if t == "initial" then 0
    else 3
  }

  /** The offline report and the ONU list read an EPON status the same way: the report
      lists a row exactly when it has a status the list does not mark online. */
  lemma EponOfflineAgrees(row: Row)
    ensures SystemService.EponOffline(row) <==> Has(row.status) && EponState(row) != 1
  {
    assert Has(row.status) <==> LowerOrEmpty(row.status) != "";
  }

  /** A GPON table row without `auth_state` that the offline report lists as offline
      (or initial) is marked offline (or initial) in the ONU list. */
  lemma GponOfflineAgrees(row: Row)
    requires row.authState.None?
    ensures SystemService.GponOffline(row) ==> GponState(row) == 2
    ensures SystemService.GponInitial(row) ==> GponState(row) == 0
  {
  }

  function FormatEponRow(row: Row): (o: Onu)
    ensures WellFormed(o) && o.rstate == Some(EponState(row))
    ensures o.sn == Or(row.macAddr, Or(row.sn, "-")) && o.name == Or(row.onuName, Or(row.ontName, "-"))
  {
    var k := EponState(row);
    Onu(Or(row.macAddr, Or(row.sn, "-")), Or(row.onuName, Or(row.ontName, "-")), StateIcon(k),
        OrText(row.portId, "-") + "/" + OrText(row.onuId, "-"), Some(k))
  }

  /** `formatEponOnus(rows)`: one record per row, in order. */
  function FormatEponOnus(rows: seq<Row>): (r: seq<Onu>)
    ensures |r| == |rows|
    ensures forall i :: 0 <= i < |r| ==> r[i] == FormatEponRow(rows[i]) && WellFormed(r[i])
  {
    seq(|rows|, i requires 0 <= i < |rows| => FormatEponRow(rows[i]))
  }

  /** One record after `normalizeOnuStates`: a missing rstate is derived from the mark,
      a present one is kept (`Number` of a number is that number). */
  function Normalized(o: Onu): (n: Onu)
    ensures n.rstate.Some? && n.sn == o.sn && n.name == o.name && n.status == o.status && n.port == o.port
    ensures o.rstate.None? ==> n.rstate == Some(IconState(o.status)) && WellFormed(n)
    ensures WellFormed(o) ==> n == o
  {
    if o.rstate.None? then o.(rstate := Some(IconState(o.status))) else o
  }

  /** `normalizeOnuStates(list)`: the records are updated where they are. */
  method NormalizeOnuStates(a: array<Onu>)
    modifies a
    ensures forall i :: 0 <= i < a.Length ==> a[i] == Normalized(old(a[i]))
  {
    var i := 0;
    while i < a.Length
      invariant 0 <= i <= a.Length
      invariant forall j :: 0 <= j < i ==> a[j] == Normalized(old(a[j]))
      invariant forall j :: i <= j < a.Length ==> a[j] == old(a[j])
    {
      a[i] := Normalized(a[i]);
      i := i + 1;
    }
  }

  // ---------------------------------------------------------------- listing

  /** The rows of the auth endpoint when it answered with a non-empty array. */
  function AuthRows(auth: Result<Reply>): Option<seq<Row>> {
    if auth.Ok? && PayloadOf(auth.value).RowsPayload? && |PayloadOf(auth.value).rows| > 0
    then Some(PayloadOf(auth.value).rows) else None
  }

  /** The formatted offline-table records of the port, when that table is a non-empty
      array. */
  function OfflineExtra(ponPort: Option<JsValue>, offline: Result<Reply>): seq<Onu> {
    var p := OfflineOnus(offline);
    if p.RowsPayload? && |p.rows| > 0 then FormatGponOnus(PortRows(p.rows, ponPort)) else []
  }

  /** `new Set(list.map(onu => onu.sn))` */
  function SnsOf(list: seq<Onu>): set<string> {
    set o | o in list :: o.sn
  }

  function NotIn(sns: set<string>): Onu -> bool {
    (o: Onu) => o.sn !in sns
  }

  /** `getGponOnus(ponPort)` given the outcomes of the auth GET (sent only for a given
      port), the table GET and the offline-table GET. A non-empty auth answer is used
      unfiltered; otherwise the port's table records come first, then the offline
      records whose serial the table did not list. A failing table, or one that is not
      an array, gives an empty list. */
  function GponOnus(ponPort: Option<JsValue>, auth: Result<Reply>, table: Result<Reply>,
                    offline: Result<Reply>): seq<Onu> {
    if ponPort.Some? && AuthRows(auth).Some? then FormatGponOnus(AuthRows(auth).value)
    else
      match OnuTable(table)
      case Err(_) => []
      case Ok(p) =>
        if !p.RowsPayload? then []
        else
          var primary := FormatGponOnus(PortRows(p.rows, ponPort));
          primary + Filter(OfflineExtra(ponPort, offline), NotIn(SnsOf(primary)))
  }

  /** The table records of the port. */
  function PrimaryOnus(ponPort: Option<JsValue>, p: Payload): seq<Onu>
    requires p.RowsPayload?
  {
    FormatGponOnus(PortRows(p.rows, ponPort))
  }

  /** The merge loop: the set of known serials is built once, before the loop. */
  method MergeOffline(primary: seq<Onu>, extra: seq<Onu>) returns (list: seq<Onu>)
    ensures list == primary + Filter(extra, NotIn(SnsOf(primary)))
  {
    list := primary;
    var existingSns := SnsOf(primary);
    ghost var keep := NotIn(existingSns);
    var i := 0;
    while i < |extra|
      invariant 0 <= i <= |extra|
      invariant list == primary + Filter(extra[..i], keep)
    {
      MergeStep(primary, extra, i, keep);
      if extra[i].sn !in existingSns {
        list := list + [extra[i]];
      }
      i := i + 1;
    }
    assert extra[..i] == extra;
  }

  /** One more offline record considered: it is appended exactly when it passes. */
  lemma MergeStep(primary: seq<Onu>, extra: seq<Onu>, i: nat, keep: Onu -> bool)
    requires i < |extra|
    ensures primary + Filter(extra[..i + 1], keep)
            == primary + Filter(extra[..i], keep) + (if keep(extra[i]) then [extra[i]] else [])
  {
    assert extra[..i + 1] == extra[..i] + [extra[i]];
    FilterSnoc(extra[..i], extra[i], keep);
  }

  method GetGponOnus(ponPort: Option<JsValue>, auth: Result<Reply>, table: Result<Reply>,
                     offline: Result<Reply>) returns (list: seq<Onu>)
    ensures list == GponOnus(ponPort, auth, table, offline)
  {
    if ponPort.Some? && AuthRows(auth).Some? {
      return FormatGponOnus(AuthRows(auth).value);
    }
    var t := OnuTable(table);
    if t.Err? || !t.value.RowsPayload? {
      return [];
    }
    list := PrimaryOnus(ponPort, t.value);
    var extra := OfflineExtra(ponPort, offline);
    if |extra| > 0 {
      list := MergeOffline(list, extra);
    } else {
      assert Filter(extra, NotIn(SnsOf(list))) == [];
    }
  }

  /** The merged list opens with the table records; every record after them is an
      offline record whose serial the table did not list, and such a record keeps all
      its copies, since the set of known serials is not updated while merging. */
  lemma GponOnusMerge(ponPort: Option<JsValue>, rows: seq<Row>, offline: Result<Reply>, o: Onu)
    ensures var primary := FormatGponOnus(PortRows(rows, ponPort));
      var list := primary + Filter(OfflineExtra(ponPort, offline), NotIn(SnsOf(primary)));
      list[..|primary|] == primary
      && (forall x :: x in list[|primary|..] ==> x in OfflineExtra(ponPort, offline) && x.sn !in SnsOf(primary))
      && (o.sn !in SnsOf(primary) ==> multiset(list)[o] == multiset(OfflineExtra(ponPort, offline))[o])
  {
    var primary := FormatGponOnus(PortRows(rows, ponPort));
    var extra := OfflineExtra(ponPort, offline);
    var added := Filter(extra, NotIn(SnsOf(primary)));
    var list := primary + added;
    assert list[|primary|..] == added;
    if o.sn !in SnsOf(primary) {
      FilterKeepsCopies(extra, NotIn(SnsOf(primary)), o);
      assert o !in primary;
      assert multiset(list) == multiset(primary) + multiset(added);
    }
  }

  /** `getEponOnus(ponPort)` given the outcome of the table GET. */
  function EponOnus(ponPort: Option<JsValue>, table: Result<Reply>): seq<Onu> {
    match OnuTable(table)
    case Err(_) => []
    case Ok(p) => if p.RowsPayload? then FormatEponOnus(PortRows(p.rows, ponPort)) else []
  }

  /** The list `getAllOnus` sorts. */
  function RawOnus(gpon: bool, ponPort: Option<JsValue>, auth: Result<Reply>, table: Result<Reply>,
                   offline: Result<Reply>): seq<Onu> {
    if gpon then GponOnus(ponPort, auth, table, offline) else EponOnus(ponPort, table)
  }

  lemma RawOnusWellFormed(gpon: bool, ponPort: Option<JsValue>, auth: Result<Reply>, table: Result<Reply>,
                          offline: Result<Reply>)
    ensures forall o :: o in RawOnus(gpon, ponPort, auth, table, offline) ==> WellFormed(o)
  {
    if gpon && !(ponPort.Some? && AuthRows(auth).Some?) {
      var t := OnuTable(table);
      if t.Ok? && t.value.RowsPayload? {
        var primary := FormatGponOnus(PortRows(t.value.rows, ponPort));
        var added := Filter(OfflineExtra(ponPort, offline), NotIn(SnsOf(primary)));
        assert forall o :: o in added ==> o in OfflineExtra(ponPort, offline);
      }
    }
  }

  /** `(a, b) => a.name.localeCompare(b.name)` read as "a may stay in front of b",
      for the collation order `nameLe`. */
  function ByName(nameLe: (string, string) -> bool): (Onu, Onu) -> bool {
    (a: Onu, b: Onu) => nameLe(a.name, b.name)
  }

  lemma ByNameTotal(nameLe: (string, string) -> bool)
    requires Total(nameLe)
    ensures Total(ByName(nameLe))
  {
    forall a: Onu, b: Onu
      ensures ByName(nameLe)(a, b) || ByName(nameLe)(b, a)
    {
      assert nameLe(a.name, b.name) || nameLe(b.name, a.name);
    }
  }

  function NormalizeAll(list: seq<Onu>): (r: seq<Onu>)
    ensures |r| == |list|
  {
    seq(|list|, i requires 0 <= i < |list| => Normalized(list[i]))
  }

  /** `getAllOnus(ponPort)`: the family's list, normalised, sorted by name. */
  function AllOnus(gpon: bool, ponPort: Option<JsValue>, auth: Result<Reply>, table: Result<Reply>,
                   offline: Result<Reply>, nameLe: (string, string) -> bool): seq<Onu> {
    Sort(NormalizeAll(RawOnus(gpon, ponPort, auth, table, offline)), ByName(nameLe))
  }

  method GetAllOnus(gpon: bool, ponPort: Option<JsValue>, auth: Result<Reply>, table: Result<Reply>,
                    offline: Result<Reply>, nameLe: (string, string) -> bool) returns (list: seq<Onu>)
    ensures list == AllOnus(gpon, ponPort, auth, table, offline, nameLe)
  {
    var raw: seq<Onu>;
    if gpon {
      raw := GetGponOnus(ponPort, auth, table, offline);
    } else {
      raw := EponOnus(ponPort, table);
    }
    var a := new Onu[|raw|](i requires 0 <= i < |raw| => raw[i]);
    NormalizeOnuStates(a);
    assert a[..] == NormalizeAll(raw);
    list := Sort(a[..], ByName(nameLe));
  }

  /** The returned list holds exactly the family's records, each well formed (so
      normalising changed none of them), ordered by name for a total collation. */
  lemma AllOnusSpec(gpon: bool, ponPort: Option<JsValue>, auth: Result<Reply>, table: Result<Reply>,
                    offline: Result<Reply>, nameLe: (string, string) -> bool)
    ensures var raw := RawOnus(gpon, ponPort, auth, table, offline);
      var list := AllOnus(gpon, ponPort, auth, table, offline, nameLe);
      multiset(list) == multiset(raw)
      && (forall o :: o in list ==> WellFormed(o))
      && (Total(nameLe) ==> Sorted(list, ByName(nameLe)))
  {
    var raw := RawOnus(gpon, ponPort, auth, table, offline);
    RawOnusWellFormed(gpon, ponPort, auth, table, offline);
    assert NormalizeAll(raw) == raw by {
      forall i | 0 <= i < |raw|
        ensures NormalizeAll(raw)[i] == raw[i]
      {
        assert raw[i] in raw;
      }
    }
    var list := AllOnus(gpon, ponPort, auth, table, offline, nameLe);
    assert forall o :: o in list ==> o in multiset(list);
    if Total(nameLe) {
      ByNameTotal(nameLe);
      SortSorted(raw, ByName(nameLe));
    }
  }

  // ---------------------------------------------------------------- detail

  const DetailErrorPrefix := "Tidak dapat mengambil detail ONU: "

  function DetailNotFoundText(gpon: bool, onuName: string): string {
    "Maaf, ONU \"" + onuName + "\" tidak ditemukan.\n"
    + "Gunakan " + (if gpon then "Serial Number (SN)" else "MAC Address") + " atau nama ONU untuk pencarian."
  }

  /** What `getOnuDetail` hands to the detail template: the found row, marked when it
      came from the offline table, or the not-found reply. */
  datatype Detail = Found(row: Row, fromOffline: bool) | Missing(text: string)

  /** The GPON search: `ont_sn` or `ont_name`, lower-cased, equals the term. */
  function GponKey(term: string): Row -> bool {
    (row: Row) => KeyMatch(row.ontSn, term) || KeyMatch(row.ontName, term)
  }

  /** The EPON search: `macaddr` or `onu_name`, lower-cased, equals the term. */
  function EponKey(term: string): Row -> bool {
    (row: Row) => KeyMatch(row.macAddr, term) || KeyMatch(row.onuName, term)
  }

  function Key(gpon: bool, term: string): Row -> bool {
    if gpon then GponKey(term) else EponKey(term)
  }

  /** `rows.find(p)` */
  function FindRow(rows: seq<Row>, p: Row -> bool): (r: Option<Row>)
    ensures r.Some? <==> exists i :: 0 <= i < |rows| && p(rows[i])
    ensures r.Some? ==> r.value in rows && p(r.value)
  {
    match Find(rows, p)
    case None => None
    case Some(i) => Some(rows[i])
  }

  /** `finding = {...finding, ...resp.data.data}` when the reply carries a truthy
      payload. Spreading an array adds only index keys, which the row does not
      model. */
  function Absorb(row: Row, reply: Reply): Row {
    match PayloadOf(reply)
    case RecordPayload(extra) => Overlay(row, extra)
    case _ => row
  }

  /** The enrichment requests of one `try` block, in order: a thrown request ends the
      block and keeps what was merged so far. */
  function Enrich(row: Row, steps: seq<Result<Reply>>): Row
    decreases |steps|
  {
    if steps == [] || steps[0].Err? then row
    else Enrich(Absorb(row, steps[0].value), steps[1..])
  }

  /** The `finding = {...finding, ...}` rebinding across the requests of one `try`
      block, stopping at the first thrown one. */
  method EnrichFinding(row: Row, steps: seq<Result<Reply>>) returns (finding: Row)
    ensures finding == Enrich(row, steps)
  {
    finding := row;
    var i := 0;
    while i < |steps| && steps[i].Ok?
      invariant 0 <= i <= |steps|
      invariant Enrich(finding, steps[i..]) == Enrich(row, steps)
      decreases |steps| - i
    {
      assert steps[i..][1..] == steps[i + 1..];
      finding := Absorb(finding, steps[i].value);
      i := i + 1;
    }
  }

  lemma OverlayAssoc(a: Row, b: Row, c: Row)
    ensures Overlay(Overlay(a, b), c) == Overlay(a, Overlay(b, c))
  {
  }

  /** Enriching a row is spreading, over it, what the same replies make of an empty
      object: every key the replies do not supply keeps the table's value. */
  lemma {:induction false} EnrichIsOverlay(row: Row, steps: seq<Result<Reply>>)
    ensures Enrich(row, steps) == Overlay(row, Enrich(EmptyRow, steps))
    decreases |steps|
  {
    if steps == [] || steps[0].Err? {
      assert Overlay(row, EmptyRow) == row;
    } else {
      var r := steps[0].value;
      EnrichIsOverlay(Absorb(row, r), steps[1..]);
      EnrichIsOverlay(Absorb(EmptyRow, r), steps[1..]);
      match PayloadOf(r)
      case RecordPayload(extra) =>
        assert Overlay(EmptyRow, extra) == extra;
        OverlayAssoc(row, extra, Enrich(EmptyRow, steps[1..]));
      case _ =>
    }
  }

  /** The replies after the first thrown request are never merged. */
  lemma {:induction false} EnrichStops(row: Row, steps: seq<Result<Reply>>, k: nat)
    requires k < |steps| && steps[k].Err?
    ensures Enrich(row, steps) == Enrich(row, steps[..k])
    decreases k
  {
    if k > 0 && steps[0].Ok? {
      assert steps[1..][k - 1] == steps[k];
      EnrichStops(Absorb(row, steps[0].value), steps[1..], k - 1);
      assert steps[1..][..k - 1] == steps[..k][1..];
    }
  }

  /** `getOnuDetail(onuName)` given the outcomes of the table GET, the offline-table
      GET (GPON, asked only when the table has no match), the enrichment GETs of the
      first `try` block (GPON base, optical, version; EPON base, optical diagnose) and
      the EPON's second optical-diagnose GET. A failing or non-array table is thrown
      with the detail prefix. */
  function OnuDetail(gpon: bool, onuName: string, table: Result<Reply>, offline: Result<Reply>,
                     first: seq<Result<Reply>>, second: Result<Reply>): Result<Detail> {
    var term := Lower(onuName);
    match OnuTable(table)
    case Err(e) => Err(Error(DetailErrorPrefix + e.message))
    case Ok(p) =>
      if !p.RowsPayload? then Err(Error(DetailErrorPrefix + TypeErrorMessage))
      else
        match FindRow(p.rows, Key(gpon, term))
        case Some(row) =>
          Ok(Found(if gpon then Enrich(row, first) else Enrich(Enrich(row, first), [second]), false))
        case None =>
          if !gpon then Ok(Missing(DetailNotFoundText(gpon, onuName)))
          else
            var off := OfflineOnus(offline);
            var hit := if off.RowsPayload? then FindRow(off.rows, GponKey(term)) else None;
            if hit.Some? then Ok(Found(hit.value, true)) else Ok(Missing(DetailNotFoundText(gpon, onuName)))
  }

  /** A table match is enriched, keeping every key the enrichment replies leave out; a
      row from the offline table is used unenriched, only on GPON, and only when the
      table had no match; the not-found reply comes exactly when neither table has a
      matching row. */
  lemma OnuDetailOutcomes(gpon: bool, onuName: string, rows: seq<Row>, offline: Result<Reply>,
                          first: seq<Result<Reply>>, second: Result<Reply>)
    ensures var d := OnuDetail(gpon, onuName, Ok(Reply(Some(Body(None, None, None, RowsPayload(rows))))), offline, first, second);
      var hit := FindRow(rows, Key(gpon, Lower(onuName)));
      var off := OfflineOnus(offline);
      d.Ok?
      && (hit.Some? ==>
            d.value.Found? && !d.value.fromOffline
            && d.value.row == Overlay(hit.value, if gpon then Enrich(EmptyRow, first) else Enrich(Enrich(EmptyRow, first), [second])))
      && (d.value.Found? && d.value.fromOffline ==>
          gpon && hit.None? && off.RowsPayload? && d.value.row in off.rows && GponKey(Lower(onuName))(d.value.row))
      && (d.value.Missing? <==> hit.None? && !(gpon && off.RowsPayload? && FindRow(off.rows, GponKey(Lower(onuName))).Some?))
  {
    var hit := FindRow(rows, Key(gpon, Lower(onuName)));
    if hit.Some? {
      if gpon {
        EnrichIsOverlay(hit.value, first);
      } else {
        EnrichIsOverlay(hit.value, first);
        EnrichIsOverlay(Enrich(hit.value, first), [second]);
        EnrichIsOverlay(Enrich(EmptyRow, first), [second]);
        OverlayAssoc(hit.value, Enrich(EmptyRow, first), Enrich(EmptyRow, [second]));
      }
    }
  }

  /** An empty payload from the table counts as an empty array: nothing is found. */
  lemma DetailOfEmptyTable(gpon: bool, onuName: string, reply: Reply, first: seq<Result<Reply>>, second: Result<Reply>)
    requires PayloadOf(reply) == NoPayload
    ensures !gpon ==> OnuDetail(gpon, onuName, Ok(reply), Err(Error("")), first, second) == Ok(Missing(DetailNotFoundText(gpon, onuName)))
  {
  }

  /** `getStatusText(rstate)`: a string is read as a word, a number as a code. */
  function StatusText(rstate: Option<JsValue>): (text: string)
    ensures rstate.Some? && rstate.value.JStr? ==>
      text in {"Online", "Offline", "Initial", rstate.value.str}
    ensures !(rstate.Some? && rstate.value.JStr?) ==> text in {"Online", "Offline", "Initial", "Unknown"}
  {
    match rstate
    case None => "Unknown"
    case Some(JStr(s)) =>
      var t := Lower(s);
      if t == "online" || t == "up" || t == "true" then "Online"
      else if t == "offline" || t == "down" || t == "false" then "Offline"
      else if t == "initial" then "Initial"
      else s
    case Some(JNum(n)) =>
      if n == 0 then "Initial" else if n == 1 then "Online" else if n == 2 then "Offline" else "Unknown"
  }

  /** The codes 0, 1 and 2 say what the marks of the ONU list say; a numeric string is
      not read as a code but returned as it is. */
  lemma StatusTextOfCodes(k: int)
    ensures 0 <= k <= 2 ==> StatusText(Some(JNum(k))) == StatusText(Some(JStr(
      if k == 1 then "online" else if k == 2 then "offline" else "initial")))
    ensures k < 0 || k > 2 ==> StatusText(Some(JNum(k))) == "Unknown"
    ensures StatusText(Some(JStr(IntToString(k)))) == IntToString(k)
  {
    var s := IntToString(k);
    IntToStringChars(k);
    assert Lower("online") == "online" && Lower("offline") == "offline" && Lower("initial") == "initial";
    if |s| > 0 {
      assert Lower(s)[0] == s[0];
    }
  }

  /** The wording `getSignalQuality` picks for a receive power. */
  datatype Quality = Excellent | Fine | Fair | Weak | Poor | Critical | Undetermined

  function QualityText(q: Quality): string {
    match q
    case Excellent => "Hasil pengukuran SANGAT BAIK"
    case Fine => "Hasil pengukuran BAIK"
    case Fair => "Hasil pengukuran CUKUP"
    case Weak => "Hasil pengukuran KURANG BAIK"
    case Poor => "Hasil pengukuran BURUK"
    case Critical => "Hasil pengukuran Sangat BURUK"
    case Undetermined => "Tidak dapat menentukan kualitas sinyal"
  }

  /** `getSignalQuality(rx)` with the power in hundredths of a dBm: at least -10,
      -17, -20, -24, -27 dBm in turn. */
  function SignalQuality(rx: Option<RxReading>): Quality {
    if rx.None? || !rx.value.Reading? then Undetermined
    else
      var c := rx.value.centi;
      if c >= -1000 then Excellent
      else if c >= -1700 then Fine
      else if c >= -2000 then Fair
      else if c >= -2400 then Weak
      else if c >= -2700 then Poor
      else Critical
  }

  function QualityRank(q: Quality): nat {
    match q
    case Critical => 0
    case Poor => 1
    case Weak => 2
    case Fair => 3
    case Fine => 4
    case Excellent => 5
    case Undetermined => 0
  }

  /** `Undetermined` exactly for a missing, placeholder or unparsable reading; each
      verdict covers its band of powers. */
  lemma SignalBands(rx: Option<RxReading>)
    ensures SignalQuality(rx) == Undetermined <==> rx.None? || !rx.value.Reading?
    ensures rx.Some? && rx.value.Reading? ==> var c := rx.value.centi;
      (SignalQuality(rx) == Excellent <==> c >= -1000)
      && (SignalQuality(rx) == Fine <==> -1700 <= c < -1000)
      && (SignalQuality(rx) == Fair <==> -2000 <= c < -1700)
      && (SignalQuality(rx) == Weak <==> -2400 <= c < -2000)
      && (SignalQuality(rx) == Poor <==> -2700 <= c < -2400)
      && (SignalQuality(rx) == Critical <==> c < -2700)
  {
  }

  /** A stronger signal never gets a worse verdict. */
  lemma SignalMonotone(c1: int, c2: int)
    requires c1 <= c2
    ensures QualityRank(SignalQuality(Some(Reading(c1)))) <= QualityRank(SignalQuality(Some(Reading(c2))))
  {
  }

  // ---------------------------------------------------------------- reboot and rename

  /** The bodies of the commands sent to the OLT; `SaveQuery` is the save that follows
      an acknowledged rename. */
  datatype Command =
    | InfoSet(identifier: Option<int>, flags: int, ontName: string, description: string)
    | ConfigSet(portId: Option<JsValue>, onuId: Option<JsValue>, flags: int, fecMode: int, onuName: Option<string>)
    | SaveQuery

  /** The commands sent, in order, and the text returned (the service never throws
      from these two). */
  datatype Outcome = Outcome(commands: seq<Command>, text: string)

  /** The ONU a command acts on: the row its texts describe and the identifier the
      GPON command carries. */
  datatype Target = Target(display: Row, identifier: Option<JsValue>)

  /** The search of `rebootOnu` and `changeOnuName` with the term `term`. On GPON the
      table row is preferred for display but the identifier is always the offline
      table's; calling `find` on a non-array throws. */
  function LocateTarget(gpon: bool, term: string, table: Result<Reply>, offline: Result<Reply>): Result<Option<Target>> {
    match OnuTable(table)
    case Err(e) => Err(e)
    case Ok(p) =>
      if !p.RowsPayload? then Err(Error(TypeErrorMessage))
      else if !gpon then
        var hit := FindRow(p.rows, EponKey(term));
        if hit.Some? then Ok(Some(Target(hit.value, None))) else Ok(None)
      else
        var hit := FindRow(p.rows, GponKey(term));
        var off := OfflineOnus(offline);
        if !off.RowsPayload? then Err(Error(TypeErrorMessage))
        else
          var offHit := FindRow(off.rows, GponKey(term));
          if hit.None? && offHit.None? then Ok(None)
          else Ok(Some(Target(if hit.Some? then hit.value else offHit.value,
                              if offHit.Some? then offHit.value.identifier else None)))
  }

  /** No row has an empty key, so a blank name finds nothing. */
  lemma BlankFindsNothing(gpon: bool, onuName: string, table: Result<Reply>, offline: Result<Reply>)
    requires IsBlank(onuName)
    ensures LocateTarget(gpon, Lower(Trim(onuName)), table, offline).Ok? ==>
      LocateTarget(gpon, Lower(Trim(onuName)), table, offline).value.None?
  {
    assert Lower(Trim(onuName)) == "";
    match OnuTable(table)
    case Err(_) =>
    case Ok(p) =>
      if p.RowsPayload? {
        EmptyTermFindsNothing(p.rows);
        var off := OfflineOnus(offline);
        if off.RowsPayload? {
          EmptyTermFindsNothing(off.rows);
        }
      }
  }

  /** A present key is non-empty, and so is its lower-cased form. */
  lemma EmptyTermFindsNothing(rows: seq<Row>)
    ensures FindRow(rows, GponKey("")).None? && FindRow(rows, EponKey("")).None?
  {
    forall i | 0 <= i < |rows|
      ensures !GponKey("")(rows[i]) && !EponKey("")(rows[i])
    {
      var r := rows[i];
      if Has(r.ontSn) { assert |Lower(r.ontSn.value)| > 0; }
      if Has(r.ontName) { assert |Lower(r.ontName.value)| > 0; }
      if Has(r.macAddr) { assert |Lower(r.macAddr.value)| > 0; }
      if Has(r.onuName) { assert |Lower(r.onuName.value)| > 0; }
    }
  }

  /** The GPON target's identifier comes from the offline table even when the main
      table has the row; a row only in the main table is sent without one. */
  lemma GponTargetSelection(term: string, rows: seq<Row>, offRows: seq<Row>)
    ensures var t := LocateTarget(true, term, Ok(Reply(Some(Body(None, None, None, RowsPayload(rows))))),
                                  Ok(Reply(Some(Body(None, None, None, RowsPayload(offRows))))));
      var hit := FindRow(rows, GponKey(term));
      var offHit := FindRow(offRows, GponKey(term));
      t.Ok?
      && (t.value.None? <==> hit.None? && offHit.None?)
      && (t.value.Some? ==>
          t.value.value.display == (if hit.Some? then hit.value else offHit.value)
          && t.value.value.identifier == (if offHit.Some? then offHit.value.identifier else None))
  {
    if offRows == [] {
      assert OfflineOnus(Ok(Reply(Some(Body(None, None, None, RowsPayload(offRows)))))) == RowsPayload([]);
    }
  }

  /** The GPON acknowledgement: the message or the code, not `status`. */
  predicate GponAcknowledged(r: Reply) {
    r.data.Some? && (MessageSuccess(r.data.value) || CodeOne(r.data.value))
  }

  predicate ServiceAcknowledged(gpon: bool, r: Reply) {
    if gpon then GponAcknowledged(r) else Acknowledged(r)
  }

  /** A GPON reply is read more strictly than an EPON one: `status: 'success'` alone
      acknowledges only on EPON. */
  lemma GponAckIsStricter(r: Reply)
    ensures GponAcknowledged(r) ==> Acknowledged(r)
    ensures var s := Reply(Some(Body(None, Some("success"), None, NoPayload)));
      Acknowledged(s) && !GponAcknowledged(s)
  {
  }

  const RebootCrashPrefix := "\U{274C} Terjadi kesalahan saat reboot ONU: "
  const RenameCrashPrefix := "\U{274C} Terjadi kesalahan saat mengubah nama ONU: "

  function SerialLine(gpon: bool, f: Row): string {
    if gpon then "Serial Number: " + Or(f.ontSn, "-") else "MAC Address: " + Or(f.macAddr, "-")
  }

  /** `${finding.ont_name}` (GPON) or `${finding.onu_name}` (EPON) */
  function DisplayName(gpon: bool, f: Row): string {
    if gpon then Text(f.ontName) else Text(f.onuName)
  }

  function RebootCommand(gpon: bool, t: Target): Command {
    if gpon then InfoSet(ParseIntField(t.identifier), 4, "", "")
    else ConfigSet(t.display.portId, t.display.onuId, 1, 1, None)
  }

  function RebootReply(gpon: bool, f: Row, resp: Reply): string {
    if ServiceAcknowledged(gpon, resp) then
      "\U{2705} Perintah reboot berhasil dikirim ke ONU " + (DisplayName(gpon, f) + "\n" + SerialLine(gpon, f)
      + "\nONU akan reboot dalam beberapa saat.")
    else
      "\U{274C} Gagal melakukan reboot ONU " + (DisplayName(gpon, f) + ".\nPesan: " + ReplyMessage(resp))
  }

  /** `rebootOnu(onuName)` given the outcomes of the table GET, the offline-table GET
      (GPON) and the reboot POST. */
  function RebootOnu(gpon: bool, onuName: string, table: Result<Reply>, offline: Result<Reply>,
                     post: Result<Reply>): Outcome {
    match LocateTarget(gpon, Lower(Trim(onuName)), table, offline)
    case Err(e) => Outcome([], RebootCrashPrefix + e.message)
    case Ok(None) => Outcome([], NotFoundText(gpon, onuName))
    case Ok(Some(t)) =>
      var cmd := RebootCommand(gpon, t);
      match post
      case Err(e) => Outcome([cmd], RebootCrashPrefix + e.message)
      case Ok(resp) => Outcome([cmd], RebootReply(gpon, t.display, resp))
  }

  /** Exactly one reboot command goes out, with the reboot flag, when and only when the
      ONU is found; an answered command reports success exactly when the family's
      acknowledgement holds; a blank name sends nothing. */
  lemma RebootOutcomes(gpon: bool, onuName: string, table: Result<Reply>, offline: Result<Reply>, post: Result<Reply>)
    ensures var o := RebootOnu(gpon, onuName, table, offline, post);
      var loc := LocateTarget(gpon, Lower(Trim(onuName)), table, offline);
      (o.commands != [] <==> loc.Ok? && loc.value.Some?)
      && (o.commands != [] ==>
            o.commands == [RebootCommand(gpon, loc.value.value)] && o.commands[0].flags == (if gpon then 4 else 1))
      && (loc.Ok? && loc.value.Some? && post.Ok? ==>
          (StartsWith(o.text, "\U{2705}") <==> ServiceAcknowledged(gpon, post.value)))
      && (IsBlank(onuName) ==> o.commands == [])
  {
    var loc := LocateTarget(gpon, Lower(Trim(onuName)), table, offline);
    if loc.Ok? && loc.value.Some? && post.Ok? {
      var f := loc.value.value.display;
      var resp := post.value;
      var text := RebootReply(gpon, f, resp);
      StartsWithChar(text, '\U{2705}');
      if ServiceAcknowledged(gpon, resp) {
        HeadOfConcat("\U{2705} Perintah reboot berhasil dikirim ke ONU ", DisplayName(gpon, f) + "\n"
          + SerialLine(gpon, f) + "\nONU akan reboot dalam beberapa saat.");
      } else {
        HeadOfConcat("\U{274C} Gagal melakukan reboot ONU ", DisplayName(gpon, f) + ".\nPesan: " + ReplyMessage(resp));
      }
    }
    if IsBlank(onuName) {
      BlankFindsNothing(gpon, onuName, table, offline);
    }
  }

  function RenameCommand(gpon: bool, t: Target, newName: string): Command {
    if gpon then InfoSet(ParseIntField(t.identifier), 8, newName, "")
    else ConfigSet(t.display.portId, t.display.onuId, 8, 1, Some(newName))
  }

  /** `${saveResult}`, or the warning for a save that threw. */
  function SaveNote(save: Result<Reply>): string {
    match SystemService.SaveConfiguration(save)
    case Ok(text) => text
    case Err(e) => "\U{26A0}\U{FE0F} Peringatan: " + e.message
  }

  function RenameDone(gpon: bool, f: Row, newName: string, save: Result<Reply>): string {
    RenameHeadline(gpon, f, newName) + SaveNote(save)
  }

  /** The lines of the success reply above the save's note. */
  function RenameHeadline(gpon: bool, f: Row, newName: string): string {
    "\U{2705} Berhasil mengubah nama ONU dari \"" + (DisplayName(gpon, f) + "\" menjadi \"" + newName + "\"\n"
    + SerialLine(gpon, f) + "\n\n")
  }

  function RenameFailed(gpon: bool, f: Row, resp: Reply): string {
    "\U{274C} Gagal mengubah nama ONU " + (DisplayName(gpon, f) + ".\nPesan: " + ReplyMessage(resp))
  }

  /** `changeOnuName(onuName, newName)` given the outcomes of the table GET, the
      offline-table GET (GPON), the rename POST and the save GET (sent only after an
      acknowledged rename). */
  function ChangeOnuName(gpon: bool, onuName: string, newName: string, table: Result<Reply>,
                         offline: Result<Reply>, post: Result<Reply>, save: Result<Reply>): Outcome {
    RenameLocated(gpon, onuName, newName, LocateTarget(gpon, Lower(Trim(onuName)), table, offline), post, save)
  }

  /** The rename once the search has given `loc`. */
  function RenameLocated(gpon: bool, onuName: string, newName: string, loc: Result<Option<Target>>,
                         post: Result<Reply>, save: Result<Reply>): Outcome {
    match loc
    case Err(e) => Outcome([], RenameCrashPrefix + e.message)
    case Ok(None) => Outcome([], NotFoundText(gpon, onuName))
    case Ok(Some(t)) =>
      var cmd := RenameCommand(gpon, t, newName);
      match post
      case Err(e) => Outcome([cmd], RenameCrashPrefix + e.message)
      case Ok(resp) => RenameAnswered(gpon, t, newName, resp, save)
  }

  /** The rename of a found ONU once the OLT has answered it. */
  function RenameAnswered(gpon: bool, t: Target, newName: string, resp: Reply, save: Result<Reply>): Outcome {
    var cmd := RenameCommand(gpon, t, newName);
    if ServiceAcknowledged(gpon, resp) then Outcome([cmd, SaveQuery], RenameDone(gpon, t.display, newName, save))
    else Outcome([cmd], RenameFailed(gpon, t.display, resp))
  }

  /** The success reply opens with the success mark and, after a save that threw,
      ends with the save's error in a warning. */
  lemma RenameDoneReads(gpon: bool, f: Row, newName: string, save: Result<Reply>)
    ensures StartsWith(RenameDone(gpon, f, newName, save), "\U{2705}")
    ensures save.Err? ==>
      Contains(RenameDone(gpon, f, newName, save), "\U{26A0}\U{FE0F} Peringatan: " + SystemService.SaveErrorPrefix + save.error.message)
  {
    var head := RenameHeadline(gpon, f, newName);
    var w := SaveNote(save);
    HeadOfConcat("\U{2705} Berhasil mengubah nama ONU dari \"", DisplayName(gpon, f) + "\" menjadi \"" + newName
      + "\"\n" + SerialLine(gpon, f) + "\n\n");
    HeadOfConcat(head, w);
    StartsWithChar(head + w, '\U{2705}');
    ContainsSuffix(head, w);
    if save.Err? {
      assert w == "\U{26A0}\U{FE0F} Peringatan: " + SystemService.SaveErrorPrefix + save.error.message;
    }
  }

  /** An answered rename of a found ONU: the save follows exactly an acknowledgement,
      and the reply then is a success even when the save throws, with the save's
      error in a warning. */
  lemma RenameAck(gpon: bool, t: Target, newName: string, resp: Reply, save: Result<Reply>)
    ensures var o := RenameAnswered(gpon, t, newName, resp, save);
      (|o.commands| == 2 <==> ServiceAcknowledged(gpon, resp))
      && (StartsWith(o.text, "\U{2705}") <==> ServiceAcknowledged(gpon, resp))
      && (|o.commands| == 2 ==>
            o.commands[1] == SaveQuery && StartsWith(o.text, "\U{2705}")
            && (save.Err? ==> Contains(o.text, "\U{26A0}\U{FE0F} Peringatan: " + SystemService.SaveErrorPrefix + save.error.message)))
  {
    RenameDoneReads(gpon, t.display, newName, save);
    if !ServiceAcknowledged(gpon, resp) {
      var text := RenameFailed(gpon, t.display, resp);
      HeadOfConcat("\U{274C} Gagal mengubah nama ONU ", DisplayName(gpon, t.display) + ".\nPesan: " + ReplyMessage(resp));
      StartsWithChar(text, '\U{2705}');
    }
  }

  /** A rename goes out only for a found ONU and carries the new name; an answered
      one is read as `RenameAck` states; a blank name sends nothing. */
  lemma RenameOutcomes(gpon: bool, onuName: string, newName: string, table: Result<Reply>,
                       offline: Result<Reply>, post: Result<Reply>, save: Result<Reply>)
    ensures var o := ChangeOnuName(gpon, onuName, newName, table, offline, post, save);
      var loc := LocateTarget(gpon, Lower(Trim(onuName)), table, offline);
      (o.commands != [] <==> loc.Ok? && loc.value.Some?)
      && (o.commands != [] ==>
            o.commands[0] == RenameCommand(gpon, loc.value.value, newName)
            && (if gpon then o.commands[0].ontName == newName else o.commands[0].onuName == Some(newName)))
      && (loc.Ok? && loc.value.Some? && post.Ok? ==>
            o == RenameAnswered(gpon, loc.value.value, newName, post.value, save))
      && (IsBlank(onuName) ==> o.commands == [])
  {
    RenameLocatedOutcomes(gpon, onuName, newName, LocateTarget(gpon, Lower(Trim(onuName)), table, offline), post, save);
    if IsBlank(onuName) {
      BlankFindsNothing(gpon, onuName, table, offline);
    }
  }

  lemma RenameLocatedOutcomes(gpon: bool, onuName: string, newName: string, loc: Result<Option<Target>>,
                              post: Result<Reply>, save: Result<Reply>)
    ensures var o := RenameLocated(gpon, onuName, newName, loc, post, save);
      (o.commands != [] <==> loc.Ok? && loc.value.Some?)
      && (o.commands != [] ==>
            o.commands[0] == RenameCommand(gpon, loc.value.value, newName)
            && (if gpon then o.commands[0].ontName == newName else o.commands[0].onuName == Some(newName)))
      && (loc.Ok? && loc.value.Some? && post.Ok? ==>
            o == RenameAnswered(gpon, loc.value.value, newName, post.value, save))
  {
  }
}
