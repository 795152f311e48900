/** The PON-port commands of `src/handlers/systemHandlers.js`: the argument check of
    `/pon` and `/showpon`, the four status counts, the summary line built with `+=`,
    the per-ONU listing, and the status groups of `/showpon`. The service answers are
    parameters: `ponStatus` is the text `getPonStatus()` returns and `onusOf(n)` the
    list `getAllOnus(n)` resolves to. */
module SystemHandlers {
  import opened Wrappers
  import opened Strings
  import opened Arrays
  import opened Wire
  import opened ChatContext
  import opened OnuHandlers
  import OnuService

  // ---------------------------------------------------------------- the port argument

  /** What a port argument asks for: every port (a blank argument), nothing (an
      argument `parseInt` reads as `NaN`), or one port. */
  datatype PonRequest = AllPorts | BadPort | Port(n: int)

  /** `!ponPort || ponPort.trim() === ''`, then `parseInt(ponPort.trim(), 10)`. */
  function PonRequestOf(arg: string): PonRequest {
    if IsBlank(arg) then AllPorts
    else match ParseInt(Trim(arg))
      case None => BadPort
      case Some(n) => Port(n)
  }

  /** A rendered text without white space at either end is its own trim. */
  lemma TrimOfUnspaced(s: string)
    requires s != [] && !IsJsSpace(s[0]) && !IsJsSpace(s[|s| - 1])
    ensures Trim(s) == s
  {
    assert TrimStart(s) == s;
  }

  /** Every port number typed as `${n}` is read back as that port. */
  lemma PortArgumentRoundTrip(n: int)
    ensures PonRequestOf(IntToString(n)) == Port(n)
  {
    var s := IntToString(n);
    IntToStringChars(n);
    assert s != [];
    TrimOfUnspaced(s);
    ParseIntRoundTrip(n);
  }

  /** A blank argument always asks for every port, and an argument whose text does
      not start (after white space) with digits is rejected. */
  lemma PonRequestCases(arg: string)
    ensures PonRequestOf(arg) == AllPorts <==> IsBlank(arg)
    ensures PonRequestOf(arg) == BadPort <==> !IsBlank(arg) && ParseInt(Trim(arg)).None?
    ensures PonRequestOf(arg).Port? ==> ParseInt(Trim(arg)) == Some(PonRequestOf(arg).n)
  {
  }

  // ---------------------------------------------------------------- status counts

  /** `Number(onu.rstate) === k || (onu.rstate === undefined && onu.status === mark)` */
  function InState(k: int): Onu -> bool {
    (o: Onu) => o.rstate == Some(k) || (o.rstate.None? && o.status == OnuService.StateIcon(k))
  }

  /** `onuList.filter(...).length` for state `k`. */
  function Count(list: seq<Onu>, k: int): nat {
    |Filter(list, InState(k))|
  }

  /** The four counts, in the order the summary names them. */
  datatype Tally = Tally(online: nat, offline: nat, initial: nat, unknown: nat)

  function TallyOf(list: seq<Onu>): Tally {
    Tally(Count(list, 1), Count(list, 2), Count(list, 0), Count(list, 3))
  }

  function Sum(t: Tally): nat {
    t.online + t.offline + t.initial + t.unknown
  }

  /** A record whose state is one of the four codes, or is given by its mark. */
  predicate Coded(o: Onu) {
    o.rstate.None? || 0 <= o.rstate.value <= 3
  }

  /** No record is counted twice, so the counts never sum past the length; when every
      record is coded, each is counted exactly once. */
  lemma {:induction false} CountsPartition(list: seq<Onu>)
    ensures Sum(TallyOf(list)) <= |list|
    ensures (forall i :: 0 <= i < |list| ==> Coded(list[i])) ==> Sum(TallyOf(list)) == |list|
    decreases |list|
  {
    if list != [] {
      CountsPartition(list[1..]);
      var o := list[0];
      if o.rstate.None? {
        assert InState(1)(o) ==> !InState(2)(o) && !InState(0)(o) && !InState(3)(o);
        assert InState(2)(o) ==> !InState(0)(o) && !InState(3)(o);
        assert InState(0)(o) ==> !InState(3)(o);
        assert InState(1)(o) || InState(2)(o) || InState(0)(o) || InState(3)(o);
      }
    }
  }

  /** Every record `getAllOnus` returns is well formed, so its counts add up to the
      length of its list. */
  lemma ServiceCountsAddUp(list: seq<Onu>)
    requires forall o :: o in list ==> OnuService.WellFormed(o)
    ensures Sum(TallyOf(list)) == |list|
  {
    assert forall i :: 0 <= i < |list| ==> list[i] in list;
    CountsPartition(list);
  }

  // ---------------------------------------------------------------- the summary line

  /** `parts.join(sep)` */
  function JoinWith(parts: seq<string>, sep: string): string {
    if |parts| == 0 then ""
    else if |parts| == 1 then parts[0]
    else JoinWith(parts[..|parts| - 1], sep) + sep + parts[|parts| - 1]
  }

  lemma JoinWithSnoc(parts: seq<string>, x: string, sep: string)
    ensures JoinWith(parts + [x], sep) == (if parts == [] then x else JoinWith(parts, sep) + sep + x)
  {
    assert (parts + [x])[..|parts|] == parts;
  }

  /** A join starts with the first character of its first part. */
  lemma {:induction false} JoinWithHead(parts: seq<string>, sep: string)
    requires |parts| > 0 && parts[0] != ""
    ensures JoinWith(parts, sep) != "" && JoinWith(parts, sep)[0] == parts[0][0]
    decreases |parts|
  {
    if |parts| > 1 {
      var init := parts[..|parts| - 1];
      JoinWithHead(init, sep);
      assert (JoinWith(init, sep) + sep + parts[|parts| - 1])[0] == JoinWith(init, sep)[0];
    }
  }

  function Labeled(name: string, n: nat): string {
    name + ": " + IntToString(n)
  }

  /** The part a category contributes: none when its count is zero. */
  function Part(name: string, n: nat): seq<string> {
    if n > 0 then [Labeled(name, n)] else []
  }

  /** The non-zero categories in the order Online, Offline, Initial, Unknown. */
  function StatusParts(t: Tally): seq<string> {
    Part("Online", t.online) + Part("Offline", t.offline) + Part("Initial", t.initial) + Part("Unknown", t.unknown)
  }

  predicate AllZero(t: Tally) {
    t.online == 0 && t.offline == 0 && t.initial == 0 && t.unknown == 0
  }

  /** The counts line of the summary: the non-zero categories joined by ' | ', or
      'Status: Unknown' when there is none. */
  function CountLine(t: Tally): string {
    JoinWith(StatusParts(t), " | ") + (if AllZero(t) then "Status: Unknown" else "")
  }

  function SummaryHead(port: int, total: nat): string {
    "PON " + IntToString(port) + " - Ditemukan " + IntToString(total) + " ONU\n"
  }

  const SummaryTail := "\n\nMengirim daftar ONU"

  function StatusMessage(port: int, total: nat, t: Tally): string {
    SummaryHead(port, total) + CountLine(t) + SummaryTail
  }

  /** One `if (n > 0) { if (earlier) statusMessage += ' | '; statusMessage += ... }`
      step: the text so far is the head and the join of the parts so far, and
      `earlier` says whether there is any. */
  method AddCategory(message: string, ghost head: string, ghost parts: seq<string>, name: string, n: nat, earlier: bool)
    returns (next: string)
    requires message == head + JoinWith(parts, " | ") && (earlier <==> parts != [])
    ensures next == head + JoinWith(parts + Part(name, n), " | ")
  {
    next := message;
    if n > 0 {
      if earlier {
        next := next + " | ";
      }
      next := next + Labeled(name, n);
      JoinWithSnoc(parts, Labeled(name, n), " | ");
    } else {
      assert parts + Part(name, n) == parts;
    }
  }

  /** The `statusMessage +=` steps of the summary: each non-zero category after the
      first is preceded by ' | '. */
  method ComposeStatus(port: int, total: nat, t: Tally) returns (statusMessage: string)
    ensures statusMessage == StatusMessage(port, total, t)
  {
    var head := SummaryHead(port, total);
    statusMessage := AddCategory(head, head, [], "Online", t.online, false);
    ghost var parts := Part("Online", t.online);
    statusMessage := AddCategory(statusMessage, head, parts, "Offline", t.offline, t.online > 0);
    parts := parts + Part("Offline", t.offline);
    statusMessage := AddCategory(statusMessage, head, parts, "Initial", t.initial, t.online > 0 || t.offline > 0);
    parts := parts + Part("Initial", t.initial);
    statusMessage := AddCategory(statusMessage, head, parts, "Unknown", t.unknown,
                                 t.online > 0 || t.offline > 0 || t.initial > 0);
    parts := parts + Part("Unknown", t.unknown);
    assert parts == StatusParts(t);
    ghost var joined := JoinWith(parts, " | ");
    if t.online == 0 && t.offline == 0 && t.initial == 0 && t.unknown == 0 {
      ConcatAssoc(head, joined, "Status: Unknown");
      statusMessage := statusMessage + "Status: Unknown";
    } else {
      assert joined + "" == joined;
    }
    assert statusMessage == head + CountLine(t);
    statusMessage := statusMessage + SummaryTail;
  }

  /** 'Status: Unknown' is the counts line exactly when all four counts are zero. */
  lemma StatusUnknownIff(t: Tally)
    ensures CountLine(t) == "Status: Unknown" <==> AllZero(t)
  {
    var parts := StatusParts(t);
    if !AllZero(t) {
      var first := if t.online > 0 then "Online" else if t.offline > 0 then "Offline"
                   else if t.initial > 0 then "Initial" else "Unknown";
      var n := if t.online > 0 then t.online else if t.offline > 0 then t.offline
               else if t.initial > 0 then t.initial else t.unknown;
      assert parts[0] == Labeled(first, n);
      assert parts[0][0] == first[0] && first[0] != 'S';
      JoinWithHead(parts, " | ");
      assert CountLine(t) == JoinWith(parts, " | ");
      assert CountLine(t)[0] != "Status: Unknown"[0];
    }
  }

  /** The counts line names as many categories as there are non-zero counts, each
      with its count, in the fixed order. */
  lemma StatusPartsOrdered(t: Tally)
    ensures var parts := StatusParts(t);
      |parts| == (if t.online > 0 then 1 else 0) + (if t.offline > 0 then 1 else 0)
                 + (if t.initial > 0 then 1 else 0) + (if t.unknown > 0 then 1 else 0)
      && (t.online > 0 ==> parts[0] == Labeled("Online", t.online))
      && (t.unknown > 0 ==> parts[|parts| - 1] == Labeled("Unknown", t.unknown))
  {
  }

  /** For a non-empty list from the service, the summary never says 'Status: Unknown'. */
  lemma ServiceSummaryKnown(list: seq<Onu>)
    requires |list| > 0 && forall o :: o in list ==> OnuService.WellFormed(o)
    ensures CountLine(TallyOf(list)) != "Status: Unknown"
  {
    ServiceCountsAddUp(list);
    StatusUnknownIff(TallyOf(list));
  }

  // ---------------------------------------------------------------- /pon

  function PortLoading(port: int): string {
    "\U{23F3} Mengambil data ONU untuk PON port " + IntToString(port) + "..."
  }

  function NoOnuOnPort(port: int): string {
    "Tidak ada ONU yang ditemukan di PON port " + IntToString(port) + "."
  }

  function PortDone(port: int): string {
    "\U{2705} Selesai menampilkan data ONU untuk PON port " + IntToString(port) + "."
  }

  const BadPonText := "\U{26A0}\U{FE0F} Nomor port PON harus berupa angka. Contoh: /pon 1"

  /** What `handleSpecificPonPort` sends: the loading line, then either the not-found
      line alone or the summary, the listing and the closing line. */
  function PortReplies(port: int, list: seq<Onu>): seq<string> {
    if |list| == 0 then [PortLoading(port), NoOnuOnPort(port)]
    else [PortLoading(port), StatusMessage(port, |list|, TallyOf(list))] + ListBody(list) + [PortDone(port)]
  }

  /** An empty list gives only the not-found reply after the loading one; otherwise
      at most 100 ONU lines follow the summary, and the overflow notice comes exactly
      when there are more than 100. */
  lemma PortRepliesShape(port: int, list: seq<Onu>)
    ensures var r := PortReplies(port, list);
      (|list| == 0 ==> r == [PortLoading(port), NoOnuOnPort(port)])
      && (|list| > 0 ==>
        |r| == 3 + Min(|list|, MaxToSend) + (if |list| > MaxToSend then 1 else 0)
        && r[1] == StatusMessage(port, |list|, TallyOf(list))
        && (forall i :: 0 <= i < Min(|list|, MaxToSend) ==> r[2 + i] == OnuLine(list[i]))
        && (|list| > MaxToSend ==> r[|r| - 2] == OverflowText(MaxToSend, |list|))
        && r[|r| - 1] == PortDone(port))
  {
    if |list| > 0 {
      var r := PortReplies(port, list);
      var body := ListBody(list);
      ListBodyShape(list);
      FramedShape(PortLoading(port), StatusMessage(port, |list|, TallyOf(list)), body, PortDone(port));
      assert |r| == 3 + |body|;
      forall i | 0 <= i < Min(|list|, MaxToSend)
        ensures r[2 + i] == OnuLine(list[i])
      {
        assert r[2 + i] == body[i];
      }
      if |list| > MaxToSend {
        assert r[|r| - 2] == body[|body| - 1];
      }
    }
  }

  /** Where the parts of `[a, b] + body + [c]` sit. */
  lemma FramedShape(a: string, b: string, body: seq<string>, c: string)
    ensures var r := [a, b] + body + [c];
      |r| == 3 + |body| && r[1] == b && r[|r| - 1] == c
      && (forall i :: 0 <= i < |body| ==> r[2 + i] == body[i])
  {
  }

  /** The four `filter(...).length` counts. */
  method CountStates(list: seq<Onu>) returns (t: Tally)
    ensures t == TallyOf(list)
  {
    var onlineOnus := |Filter(list, InState(1))|;
    var offlineOnus := |Filter(list, InState(2))|;
    var initialOnus := |Filter(list, InState(0))|;
    var unknownOnus := |Filter(list, InState(3))|;
    t := Tally(onlineOnus, offlineOnus, initialOnus, unknownOnus);
  }

  /** `handleSpecificPonPort(ctx, ponPort)`: the loading message is deleted once the
      list is in. */
  method HandleSpecificPonPort(ctx: Context, port: int, list: seq<Onu>)
    modifies ctx
    ensures ctx.sent == old(ctx.sent) + Plain(PortReplies(port, list))
    ensures ctx.deleted == old(ctx.deleted) + {|old(ctx.sent)|} && ctx.edits == old(ctx.edits)
  {
    var loadingMsg := ctx.Reply(PortLoading(port));
    if |list| == 0 {
      ctx.DeleteMessage(loadingMsg);
      var _ := ctx.Reply(NoOnuOnPort(port));
      return;
    }
    ctx.DeleteMessage(loadingMsg);
    var counts := CountStates(list);
    var statusMessage := ComposeStatus(port, |list|, counts);
    SendListing(ctx, statusMessage, list, PortDone(port));
    PlainSplit(old(ctx.sent), PortLoading(port), statusMessage, ListBody(list), PortDone(port));
  }

  /** What `/pon` sends for the message `msg`. */
  function PonReplies(msg: string, ponStatus: string, onusOf: int -> seq<Onu>): seq<string> {
    match PonRequestOf(AfterFirstSpace(msg))
    case AllPorts => [ponStatus]
    case BadPort => [BadPonText]
    case Port(n) => PortReplies(n, onusOf(n))
  }

  /** `/pon [port]`: no argument gives the all-ports status, a non-numeric one the
      warning alone, a number the port listing. */
  method HandlePonCommand(ctx: Context, msg: string, ponStatus: string, onusOf: int -> seq<Onu>)
    modifies ctx
    ensures ctx.sent == old(ctx.sent) + Plain(PonReplies(msg, ponStatus, onusOf))
    ensures ctx.deleted == old(ctx.deleted) + (if PonRequestOf(AfterFirstSpace(msg)).Port? then {|old(ctx.sent)|} else {})
    ensures ctx.edits == old(ctx.edits)
  {
    var request := ReadPortArgument(msg);
    match request
    case AllPorts =>
      assert PonReplies(msg, ponStatus, onusOf) == [ponStatus];
      var _ := ctx.Reply(ponStatus);
      PlainOne(ponStatus);
    case BadPort =>
      assert PonReplies(msg, ponStatus, onusOf) == [BadPonText];
      var _ := ctx.Reply(BadPonText);
      PlainOne(BadPonText);
    case Port(portNum) =>
      assert PonReplies(msg, ponStatus, onusOf) == PortReplies(portNum, onusOf(portNum));
      HandleSpecificPonPort(ctx, portNum, onusOf(portNum));
  }

  /** The argument steps both commands share: cut the argument, test it for blank,
      then parse its trim. */
  method ReadPortArgument(msg: string) returns (request: PonRequest)
    ensures request == PonRequestOf(AfterFirstSpace(msg))
  {
    var ponPort := CommandArgument(msg);
    if IsBlank(ponPort) {
      return AllPorts;
    }
    var portNum := ParseInt(Trim(ponPort));
    if portNum.None? {
      return BadPort;
    }
    return Port(portNum.value);
  }

  lemma PlainOne(text: string)
    ensures Plain([text]) == [Message(text, [])]
  {
  }

  // ---------------------------------------------------------------- /showpon

  const ShowPonPrompt := "\U{26A0}\U{FE0F} Mohon masukkan nomor port PON. Contoh: /showpon 1"
  const BadShowPonText := "\U{26A0}\U{FE0F} Nomor port PON harus berupa angka. Contoh: /showpon 1"

  /** `${onu.sn} (${onu.name})\n` */
  function GroupLine(o: Onu): string {
    o.sn + " (" + o.name + ")\n"
  }

  function GroupLines(group: seq<Onu>): (lines: seq<string>)
    ensures |lines| == |group|
    ensures forall i :: 0 <= i < |group| ==> lines[i] == GroupLine(group[i])
  {
    seq(|group|, i requires 0 <= i < |group| => GroupLine(group[i]))
  }

  function GroupHeader(title: string, group: seq<Onu>): string {
    title + " (" + IntToString(|group|) + "):\n"
  }

  /** One group's message: its header with the group's size, then one line per ONU. */
  function GroupMessage(title: string, group: seq<Onu>): string {
    GroupHeader(title, group) + Concat(GroupLines(group))
  }

  /** The `for (const onu of group) message += ...` loop. */
  method BuildGroup(title: string, group: seq<Onu>) returns (message: string)
    ensures message == GroupMessage(title, group)
  {
    var lines := GroupLines(group);
    var head := GroupHeader(title, group);
    message := head;
    var i := 0;
    while i < |group|
      invariant 0 <= i <= |group|
      invariant message == head + Concat(lines[..i])
    {
      assert lines[..i + 1][..i] == lines[..i];
      ConcatAssoc(head, Concat(lines[..i]), lines[i]);
      message := message + GroupLine(group[i]);
      i := i + 1;
    }
    assert lines[..i] == lines;
  }

  const OnlineTitle := "\U{2705} ONLINE"
  const OfflineTitle := "\U{274C} OFFLINE"
  const InitialTitle := "\U{26A0}\U{FE0F} INITIAL"

  /** The message a group contributes: none when it is empty. */
  function GroupReply(title: string, group: seq<Onu>): seq<string> {
    if |group| > 0 then [GroupMessage(title, group)] else []
  }

  /** The group messages, online, offline and initial in that order. */
  function GroupReplies(list: seq<Onu>): seq<string> {
    GroupReply(OnlineTitle, Filter(list, InState(1)))
    + GroupReply(OfflineTitle, Filter(list, InState(2)))
    + GroupReply(InitialTitle, Filter(list, InState(0)))
  }

  function ShowPonSummary(port: int, list: seq<Onu>): string {
    "PON Port " + IntToString(port) + " - Ditemukan " + IntToString(|list|) + " ONU\nOnline: "
    + IntToString(Count(list, 1)) + " | Offline: " + IntToString(Count(list, 2))
    + (if Count(list, 0) > 0 then " | Initial: " + IntToString(Count(list, 0)) else "")
    + "\n\nMengirim daftar..."
  }

  function ShowPortReplies(port: int, list: seq<Onu>): seq<string> {
    if |list| == 0 then [PortLoading(port), NoOnuOnPort(port)]
    else [PortLoading(port), ShowPonSummary(port, list)] + GroupReplies(list) + [PortDone(port)]
  }

  /** An ONU is listed in a group exactly when it is counted online, offline or
      initial, and in no more than one group; an unknown one is listed nowhere. */
  lemma GroupsPartition(list: seq<Onu>, o: Onu)
    ensures o in Filter(list, InState(1)) <==> o in list && InState(1)(o)
    ensures o in Filter(list, InState(2)) <==> o in list && InState(2)(o)
    ensures o in Filter(list, InState(0)) <==> o in list && InState(0)(o)
    ensures !(InState(1)(o) && InState(2)(o)) && !(InState(1)(o) && InState(0)(o)) && !(InState(2)(o) && InState(0)(o))
    ensures OnuService.WellFormed(o) && o.rstate == Some(3) ==>
      o !in Filter(list, InState(1)) && o !in Filter(list, InState(2)) && o !in Filter(list, InState(0))
  {
  }

  /** For a list from the service, the three groups and the unknown ONUs account for
      every record once; the group messages are as many as the non-empty groups. */
  lemma ShowPonAccounts(list: seq<Onu>)
    requires forall o :: o in list ==> OnuService.WellFormed(o)
    ensures Count(list, 1) + Count(list, 2) + Count(list, 0) == |list| - Count(list, 3)
    ensures |GroupReplies(list)| == (if Count(list, 1) > 0 then 1 else 0) + (if Count(list, 2) > 0 then 1 else 0)
                                    + (if Count(list, 0) > 0 then 1 else 0)
  {
    ServiceCountsAddUp(list);
  }

  /** Sends the non-empty groups in order. */
  method SendGroups(ctx: Context, list: seq<Onu>)
    modifies ctx
    ensures ctx.sent == old(ctx.sent) + Plain(GroupReplies(list))
    ensures ctx.deleted == old(ctx.deleted) && ctx.edits == old(ctx.edits)
  {
    var onlineList := Filter(list, InState(1));
    var offlineList := Filter(list, InState(2));
    var initialList := Filter(list, InState(0));
    ghost var before := ctx.sent;
    SendGroup(ctx, OnlineTitle, onlineList);
    SendGroup(ctx, OfflineTitle, offlineList);
    SendGroup(ctx, InitialTitle, initialList);
    PlainThree(before, GroupReply(OnlineTitle, onlineList), GroupReply(OfflineTitle, offlineList),
               GroupReply(InitialTitle, initialList));
  }

  lemma PlainThree(earlier: seq<Message>, a: seq<string>, b: seq<string>, c: seq<string>)
    ensures earlier + Plain(a) + Plain(b) + Plain(c) == earlier + Plain(a + b + c)
  {
    PlainAppend(a, b);
    PlainAppend(a + b, c);
  }

  /** `if (group.length > 0) { ... await ctx.reply(message); }` */
  method SendGroup(ctx: Context, title: string, group: seq<Onu>)
    modifies ctx
    ensures ctx.sent == old(ctx.sent) + Plain(GroupReply(title, group))
    ensures ctx.deleted == old(ctx.deleted) && ctx.edits == old(ctx.edits)
  {
    if |group| > 0 {
      var message := BuildGroup(title, group);
      var _ := ctx.Reply(message);
    }
  }

  /** What `/showpon` sends for the message `msg`. */
  function ShowPonReplies(msg: string, onusOf: int -> seq<Onu>): seq<string> {
    match PonRequestOf(AfterFirstSpace(msg))
    case AllPorts => [ShowPonPrompt]
    case BadPort => [BadShowPonText]
    case Port(n) => ShowPortReplies(n, onusOf(n))
  }

  /** Past the argument check: the loading line, then the not-found line or the
      summary, the groups and the closing line. */
  method ShowPort(ctx: Context, port: int, onuList: seq<Onu>)
    modifies ctx
    ensures ctx.sent == old(ctx.sent) + Plain(ShowPortReplies(port, onuList))
    ensures ctx.deleted == old(ctx.deleted) + {|old(ctx.sent)|} && ctx.edits == old(ctx.edits)
  {
    var loadingMsg := ctx.Reply(PortLoading(port));
    if |onuList| == 0 {
      ctx.DeleteMessage(loadingMsg);
      var _ := ctx.Reply(NoOnuOnPort(port));
      return;
    }
    ctx.DeleteMessage(loadingMsg);
    var summary := ShowPonSummary(port, onuList);
    SendGroupListing(ctx, port, summary, onuList);
    PlainSplit(old(ctx.sent), PortLoading(port), summary, GroupReplies(onuList), PortDone(port));
  }

  method SendGroupListing(ctx: Context, port: int, summary: string, list: seq<Onu>)
    modifies ctx
    ensures ctx.sent == old(ctx.sent) + Plain([summary] + GroupReplies(list) + [PortDone(port)])
    ensures ctx.deleted == old(ctx.deleted) && ctx.edits == old(ctx.edits)
  {
    ghost var before := ctx.sent;
    var _ := ctx.Reply(summary);
    SendGroups(ctx, list);
    var _ := ctx.Reply(PortDone(port));
    PlainFrame(before, summary, GroupReplies(list), PortDone(port));
  }

  /** `/showpon <port>`: a blank argument gives the prompt and a non-numeric one the
      warning, each alone. */
  method HandleShowPonCommand(ctx: Context, msg: string, onusOf: int -> seq<Onu>)
    modifies ctx
    ensures ctx.sent == old(ctx.sent) + Plain(ShowPonReplies(msg, onusOf))
    ensures ctx.deleted == old(ctx.deleted) + (if PonRequestOf(AfterFirstSpace(msg)).Port? then {|old(ctx.sent)|} else {})
    ensures ctx.edits == old(ctx.edits)
  {
    var request := ReadPortArgument(msg);
    match request
    case AllPorts =>
      var _ := ctx.Reply(ShowPonPrompt);
      PlainOne(ShowPonPrompt);
    case BadPort =>
      var _ := ctx.Reply(BadShowPonText);
      PlainOne(BadShowPonText);
    case Port(portNum) =>
      ShowPort(ctx, portNum, onusOf(portNum));
  }
}
