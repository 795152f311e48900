/** The chat side of the ONU commands in `src/handlers/onuHandlers.js`: how a command's
    argument is cut from the message, the prompts for a missing argument, the
    confirmation keyboards and their callback data, how `app.js` routes a pressed
    button back (the patterns `/reboot:(.+)/` and `/rename:([^:]+):(.+)/`, tried in
    that order, then the literal 'cancel'), the direct text search and the
    `/showall` listing. The service calls are parameters: `detail` is
    `getOnuDetail`, `reboot` is `rebootOnu`, `rename` is `changeOnuName`. */
module OnuHandlers {
  import opened Wrappers
  import opened Strings
  import opened Wire
  import opened ChatContext

  // ---------------------------------------------------------------- arguments

  /** Everything after the first space of `msg`, or nothing when it has none. */
  function AfterFirstSpace(msg: string): string {
    match IndexOf(msg, ' ')
    case None => ""
    case Some(i) => msg[i + 1..]
  }

  /** The tokens after the command: `msg.split(' ')` with its head shifted off. */
  function Params(msg: string): seq<string> {
    Split(msg, ' ')[1..]
  }

  lemma ParamsJoin(msg: string)
    ensures Join(Params(msg), ' ') == AfterFirstSpace(msg)
  {
    match IndexOf(msg, ' ')
    case None =>
      SplitSingle(msg, ' ');
    case Some(i) =>
      JoinSplit(msg[i + 1..], ' ');
  }

  /** `msgArray = msg.split(' '); msgArray.shift(); msgArray.join(' ')` */
  method CommandArgument(msg: string) returns (arg: string)
    ensures arg == AfterFirstSpace(msg)
  {
    var msgArray := Split(msg, ' ');
    msgArray := msgArray[1..];
    arg := Join(msgArray, ' ');
    ParamsJoin(msg);
  }

  function TargetKind(gpon: bool): string {
    if gpon then "Serial Number (SN)" else "MAC address"
  }

  function OnuPrompt(gpon: bool): string {
    "Mohon masukkan " + TargetKind(gpon) + " atau nama ONU. Contoh: /onu ABCD1234"
  }

  function RebootPrompt(gpon: bool): string {
    "\U{26A0}\U{FE0F} Mohon masukkan " + TargetKind(gpon) + " atau nama ONU. Contoh: /reboot ABCD1234"
  }

  function RenameUsage(gpon: bool): string {
    "\U{26A0}\U{FE0F} Format yang benar: /rename " + (if gpon then "SN/Nama ONU" else "MAC/Nama ONU") + " NAMA-BARU"
  }

  const OnuLookupError := "Maaf, terjadi kesalahan saat mencari informasi ONU. Silahkan coba lagi nanti."
  const TextLookupError := "Maaf, terjadi kesalahan saat mencari informasi. Silahkan coba lagi nanti."

  /** `/onu <name>`: a blank argument is answered with a prompt and no lookup; any
      other argument is looked up as it is, untrimmed. */
  method HandleOnuCommand(ctx: Context, gpon: bool, msg: string, detail: string -> Result<string>)
    modifies ctx
    ensures var arg := AfterFirstSpace(msg);
      ctx.sent == old(ctx.sent) + [Message(
        if IsBlank(arg) then OnuPrompt(gpon)
        else if detail(arg).Ok? then detail(arg).value else OnuLookupError, [])]
    ensures ctx.deleted == old(ctx.deleted) && ctx.edits == old(ctx.edits)
  {
    var onuName := CommandArgument(msg);
    if IsBlank(onuName) {
      var _ := ctx.Reply(OnuPrompt(gpon));
      return;
    }
    match detail(onuName)
    case Ok(text) => var _ := ctx.Reply(text);
    case Err(_) => var _ := ctx.Reply(OnuLookupError);
  }

  // ---------------------------------------------------------------- callback data

  function RebootConfirmText(onuName: string): string {
    "\U{26A0}\U{FE0F} KONFIRMASI REBOOT\n\nAnda akan melakukan reboot pada:\n" + onuName
    + "\n\nKlik tombol \"Reboot\" untuk melanjutkan."
  }

  function RenameConfirmText(onuName: string, newName: string): string {
    "\U{26A0}\U{FE0F} KONFIRMASI RENAME\n\nAnda akan mengubah nama:\n" + onuName + "\nMenjadi:\n" + newName
    + "\n\nKlik tombol \"Rename\" untuk melanjutkan."
  }

  const CancelData := "cancel"
  const CancelButton := Button("\U{274C} Batal", CancelData)

  /** `reboot:${onuName}` */
  function RebootData(onuName: string): string {
    "reboot:" + onuName
  }

  /** `rename:${onuName}:${newName}`, the encoding as written. */
  function RenameData(onuName: string, newName: string): string {
    "rename:" + onuName + ":" + newName
  }

  /** What a pressed button asks for once routed. */
  datatype Action = RebootAction(onuName: string) | RenameAction(onuName: string, newName: string)
                  | CancelAction | NoAction

  /** The longest prefix of `s` without a line terminator: what `(.+)` takes. */
  function LineRun(s: string): (r: string)
    ensures |r| <= |s| && r == s[..|r|]
    ensures forall k :: 0 <= k < |r| ==> !IsLineTerminator(r[k])
    ensures |r| < |s| ==> IsLineTerminator(s[|r|])
  {
    if s == [] || IsLineTerminator(s[0]) then "" else [s[0]] + LineRun(s[1..])
  }

  /** The longest prefix of `s` without a colon: what the greedy `([^:]+)` takes. */
  function ColonFreeRun(s: string): (r: string)
    ensures |r| <= |s| && r == s[..|r|] && ':' !in r
    ensures |r| < |s| ==> s[|r|] == ':'
  {
    if s == [] || s[0] == ':' then "" else [s[0]] + ColonFreeRun(s[1..])
  }

  lemma {:induction false} LineRunOfLineFree(s: string, rest: string)
    requires forall k :: 0 <= k < |s| ==> !IsLineTerminator(s[k])
    requires rest == [] || IsLineTerminator(rest[0])
    ensures LineRun(s + rest) == s
    decreases |s|
  {
    if s != [] {
      assert (s + rest)[1..] == s[1..] + rest;
      LineRunOfLineFree(s[1..], rest);
    } else {
      assert s + rest == rest;
    }
  }

  lemma {:induction false} ColonFreeRunOf(s: string, rest: string)
    requires ':' !in s
    requires rest == [] || rest[0] == ':'
    ensures ColonFreeRun(s + rest) == s
    decreases |s|
  {
    if s != [] {
      assert (s + rest)[1..] == s[1..] + rest;
      ColonFreeRunOf(s[1..], rest);
    } else {
      assert s + rest == rest;
    }
  }

  /** `/reboot:(.+)/` matched at position `i`: the capture runs to the first line
      terminator and must not be empty. */
  function RebootAt(data: string, i: nat): Option<string>
    requires i <= |data|
  {
    if StartsAt(data, "reboot:", i) && LineRun(data[i + 7..]) != "" then Some(LineRun(data[i + 7..])) else None
  }

  /** `/reboot:(.+)/.exec(data)`: the leftmost position from `i` on that matches. */
  function ExecReboot(data: string, i: nat): Option<string>
    requires i <= |data|
    decreases |data| - i
  {
    if RebootAt(data, i).Some? then RebootAt(data, i)
    else if i == |data| then None
    else ExecReboot(data, i + 1)
  }

  /** `/rename:([^:]+):(.+)/` matched at position `i`. Backtracking cannot shorten the
      first group usefully: the character after a shorter run is not a colon. */
  function RenameAt(data: string, i: nat): Option<(string, string)>
    requires i <= |data|
  {
    if !StartsAt(data, "rename:", i) then None
    else
      var g1 := ColonFreeRun(data[i + 7..]);
      if g1 == "" || i + 7 + |g1| == |data| then None
      else
        var g2 := LineRun(data[i + 8 + |g1|..]);
        if g2 == "" then None else Some((g1, g2))
  }

  function ExecRename(data: string, i: nat): Option<(string, string)>
    requires i <= |data|
    decreases |data| - i
  {
    if RenameAt(data, i).Some? then RenameAt(data, i)
    else if i == |data| then None
    else ExecRename(data, i + 1)
  }

  /** The routing of `app.js:66-68` as written: the reboot pattern first, then the
      rename pattern, then the literal 'cancel'. */
  function Dispatch(data: string): Action {
    match ExecReboot(data, 0)
    case Some(name) => RebootAction(name)
    case None =>
      match ExecRename(data, 0)
      case Some((o, n)) => RenameAction(o, n)
      case None => if data == CancelData then CancelAction else NoAction
  }

  /** A position where one character of `t` differs is no match of `t`. */
  lemma NotStartsAt(s: string, t: string, j: int, k: nat)
    requires k < |t| && (0 <= j + k < |s| ==> s[j + k] != t[k])
    ensures !StartsAt(s, t, j)
  {
  }

  /** Text without a lower-case 'b' holds no 'reboot:'. */
  lemma NoRebootWithoutB(s: string)
    requires 'b' !in s
    ensures forall j :: 0 <= j <= |s| ==> !StartsAt(s, "reboot:", j)
  {
    forall j | 0 <= j <= |s|
      ensures !StartsAt(s, "reboot:", j)
    {
      NotStartsAt(s, "reboot:", j, 2);
    }
  }

  lemma {:induction false} NoRebootFrom(data: string, i: nat)
    requires i <= |data|
    requires forall j :: i <= j <= |data| ==> !StartsAt(data, "reboot:", j)
    ensures ExecReboot(data, i) == None
    decreases |data| - i
  {
    if i < |data| {
      NoRebootFrom(data, i + 1);
    }
  }

  /** A reboot button is routed back to the same name, for any non-empty name without
      a line break. */
  lemma RebootRoundTrip(onuName: string)
    requires onuName != ""
    requires forall k :: 0 <= k < |onuName| ==> !IsLineTerminator(onuName[k])
    ensures Dispatch(RebootData(onuName)) == RebootAction(onuName)
  {
    var data := RebootData(onuName);
    assert data[..7] == "reboot:";
    assert data[7..] == onuName + [];
    LineRunOfLineFree(onuName, []);
  }

  /** A rename button is routed back to the same pair when the old name has no colon,
      the new name is non-empty and free of line breaks, and the data does not hold
      'reboot:' anywhere. */
  lemma RenameRoundTrip(onuName: string, newName: string)
    requires onuName != "" && ':' !in onuName
    requires newName != "" && forall k :: 0 <= k < |newName| ==> !IsLineTerminator(newName[k])
    requires forall j :: 0 <= j <= |RenameData(onuName, newName)| ==> !StartsAt(RenameData(onuName, newName), "reboot:", j)
    ensures Dispatch(RenameData(onuName, newName)) == RenameAction(onuName, newName)
  {
    var data := RenameData(onuName, newName);
    NoRebootFrom(data, 0);
    assert data[..7] == "rename:";
    assert data[7..] == onuName + (":" + newName);
    ColonFreeRunOf(onuName, ":" + newName);
    assert data[8 + |onuName|..] == newName + [];
    LineRunOfLineFree(newName, []);
  }

  lemma MacDataHasNoReboot(data: string)
    requires data == RenameData("00:11:22:33:44:55", "BUDI")
    ensures forall j :: 0 <= j <= |data| ==> !StartsAt(data, "reboot:", j)
  {
    assert data == "rename:00:11:22:33:44:55:BUDI";
    assert forall k :: 0 <= k < |data| ==> data[k] != 'b';
    NoRebootWithoutB(data);
  }

  /** As written, an old name with a colon is cut at its first colon: the rest of it
      travels with the new name. */
  lemma RenameSplitsAtColon(first: string, more: string, newName: string)
    requires first != "" && ':' !in first
    requires forall k :: 0 <= k < |more + ":" + newName| ==> !IsLineTerminator((more + ":" + newName)[k])
    requires forall j :: 0 <= j <= |RenameData(first + ":" + more, newName)| ==>
      !StartsAt(RenameData(first + ":" + more, newName), "reboot:", j)
    ensures Dispatch(RenameData(first + ":" + more, newName)) == RenameAction(first, more + ":" + newName)
  {
    assert RenameData(first + ":" + more, newName) == RenameData(first, more + ":" + newName);
    RenameRoundTrip(first, more + ":" + newName);
  }

  /** As written, renaming an EPON ONU by its MAC address routes the first octet as
      the old name and the rest of the address, with the new name, as the new name. */
  lemma RenameSplitsMac()
    ensures Dispatch(RenameData("00:11:22:33:44:55", "BUDI")) == RenameAction("00", "11:22:33:44:55:BUDI")
  {
    var data := RenameData("00:11:22:33:44:55", "BUDI");
    var more := "11:22:33:44:55";
    assert "00:11:22:33:44:55" == "00" + ":" + more;
    assert more + ":" + "BUDI" == "11:22:33:44:55:BUDI";
    MacDataHasNoReboot(data);
    RenameSplitsAtColon("00", more, "BUDI");
  }

  /** As written, a new name holding 'reboot:' turns the rename button into a reboot of
      whatever follows it. */
  lemma RenameHijackedByReboot()
    ensures Dispatch(RenameData("ONU1", "reboot:ALL")) == RebootAction("ALL")
  {
    var data := RenameData("ONU1", "reboot:ALL");
    assert data == "rename:ONU1:reboot:ALL";
    var front := data[..14];
    assert front == "rename:ONU1:re";
    assert 'b' !in front;
    forall j | 0 <= j < 12
      ensures RebootAt(data, j).None?
    {
      assert data[j + 2] == front[j + 2];
      NotStartsAt(data, "reboot:", j, 2);
    }
    assert data[12..19] == "reboot:";
    assert data[19..] == "ALL" + [];
    LineRunOfLineFree("ALL", []);
    assert RebootAt(data, 12) == Some("ALL");
    ExecRebootSkips(data, 0, 12);
  }

  lemma {:induction false} ExecRebootSkips(data: string, i: nat, j: nat)
    requires i <= j <= |data|
    requires forall k :: i <= k < j ==> RebootAt(data, k).None?
    ensures ExecReboot(data, i) == ExecReboot(data, j)
    decreases j - i
  {
    if i < j {
      ExecRebootSkips(data, i + 1, j);
    }
  }

  // ---------------------------------------------------------------- corrected routing

  /** The rename encoding with the space after the old name: a command token never
      holds a space, so the boundary is unambiguous. */
  function FixedRenameData(onuName: string, newName: string): string {
    "rename:" + onuName + " " + newName
  }

  /** Routing anchored at the start of the data: a reboot button carries the whole
      rest as the name; a rename button splits at its first space. */
  function FixedDispatch(data: string): Action {
    if StartsWith(data, "reboot:") && |data| > 7 then RebootAction(data[7..])
    else if StartsWith(data, "rename:") then
      var rest := data[7..];
      match IndexOf(rest, ' ')
      case Some(k) =>
        if 0 < k && k + 1 < |rest| then RenameAction(rest[..k], rest[k + 1..]) else NoAction
      case None => NoAction
    else if data == CancelData then CancelAction
    else NoAction
  }

  /** Every button the corrected handlers build is routed back to what it was built
      for: any non-empty reboot name, and any rename whose old name is one non-empty
      command token and whose new name is non-empty. */
  lemma FixedRoundTrip(onuName: string, newName: string)
    ensures onuName != "" ==> FixedDispatch(RebootData(onuName)) == RebootAction(onuName)
    ensures onuName != "" && ' ' !in onuName && newName != "" ==>
      FixedDispatch(FixedRenameData(onuName, newName)) == RenameAction(onuName, newName)
    ensures FixedDispatch(CancelData) == CancelAction && Dispatch(CancelData) == CancelAction
  {
    var r := RebootData(onuName);
    assert r[..7] == "reboot:" && r[7..] == onuName;
    var d := FixedRenameData(onuName, newName);
    assert d[..7] == "rename:";
    assert !StartsWith(d, "reboot:") by { assert d[2] == 'n'; }
    assert d[7..] == onuName + [' '] + newName;
    if ' ' !in onuName {
      IndexOfAfterFree(onuName, newName, ' ');
    }
    assert !StartsAt(CancelData, "reboot:", 0) && !StartsAt(CancelData, "rename:", 0);
  }

  // ---------------------------------------------------------------- confirmations

  /** `/reboot <name>`: a blank argument is answered with a prompt; otherwise the
      confirmation carries a reboot button for the argument and a cancel button. */
  method HandleRebootCommand(ctx: Context, gpon: bool, msg: string)
    modifies ctx
    ensures var arg := AfterFirstSpace(msg);
      ctx.sent == old(ctx.sent) + [
        if IsBlank(arg) then Message(RebootPrompt(gpon), [])
        else Message(RebootConfirmText(arg), [Button("\U{2705} Reboot", RebootData(arg)), CancelButton])]
    ensures ctx.deleted == old(ctx.deleted) && ctx.edits == old(ctx.edits)
  {
    var onuName := CommandArgument(msg);
    if IsBlank(onuName) {
      var _ := ctx.Reply(RebootPrompt(gpon));
      return;
    }
    ctx.ReplyWithButtons(RebootConfirmText(onuName), [Button("\U{2705} Reboot", RebootData(onuName)), CancelButton]);
  }

  /** The names `/rename` takes from its tokens: the first token and the rest joined
      by spaces; fewer than two tokens give none. */
  function RenameArguments(msg: string): Option<(string, string)> {
    var params := Params(msg);
    if |params| < 2 then None else Some((params[0], Join(params[1..], ' ')))
  }

  /** The old name is a whole token, so it holds no space, and the two names with a
      space between them are exactly the command's argument. */
  lemma RenameArgumentsSplit(msg: string)
    ensures var a := RenameArguments(msg);
      a.Some? ==> ' ' !in a.value.0 && a.value.0 + " " + a.value.1 == AfterFirstSpace(msg)
  {
    var a := RenameArguments(msg);
    if a.Some? {
      var params := Params(msg);
      SplitPiecesFree(msg, ' ');
      assert params[0] == Split(msg, ' ')[1];
      ParamsJoin(msg);
      assert Join(params, ' ') == params[0] + [' '] + Join(params[1..], ' ');
    }
  }

  /** `/rename <name> <new name>` with the corrected button encoding. */
  method HandleRenameCommand(ctx: Context, gpon: bool, msg: string)
    modifies ctx
    ensures var a := RenameArguments(msg);
      ctx.sent == old(ctx.sent) + [
        if a.None? then Message(RenameUsage(gpon), [])
        else Message(RenameConfirmText(a.value.0, a.value.1),
                     [Button("\U{2705} Rename", FixedRenameData(a.value.0, a.value.1)), CancelButton])]
    ensures ctx.deleted == old(ctx.deleted) && ctx.edits == old(ctx.edits)
  {
    var params := Split(msg, ' ');
    params := params[1..];
    if |params| < 2 {
      var _ := ctx.Reply(RenameUsage(gpon));
      return;
    }
    var onuName := params[0];
    var newName := Join(params[1..], ' ');
    ctx.ReplyWithButtons(RenameConfirmText(onuName, newName),
                         [Button("\U{2705} Rename", FixedRenameData(onuName, newName)), CancelButton]);
  }

  /** A rename confirmation is routed back to the names it shows whenever both are
      non-empty. */
  lemma RenameButtonRoundTrip(msg: string)
    requires RenameArguments(msg).Some?
    requires RenameArguments(msg).value.0 != "" && RenameArguments(msg).value.1 != ""
    ensures var a := RenameArguments(msg).value;
      FixedDispatch(FixedRenameData(a.0, a.1)) == RenameAction(a.0, a.1)
  {
    RenameArgumentsSplit(msg);
    var a := RenameArguments(msg).value;
    FixedRoundTrip(a.0, a.1);
  }

  const CancelledText := "\U{274C} Operasi dibatalkan."

  /** A pressed button, routed and handled: the reboot and rename confirmations write
      a progress line and then the service's reply over the message; cancel writes
      its notice; unrouted data does nothing. */
  method HandleCallback(ctx: Context, data: string, reboot: string -> string, rename: (string, string) -> string)
    modifies ctx
    ensures ctx.edits == old(ctx.edits) + match FixedDispatch(data)
      case RebootAction(n) => ["\U{23F3} Sedang memproses reboot untuk " + n + "...", reboot(n)]
      case RenameAction(o, n) => ["\U{23F3} Sedang mengubah nama " + o + " menjadi " + n + "...", rename(o, n)]
      case CancelAction => [CancelledText]
      case NoAction => []
    ensures ctx.sent == old(ctx.sent) && ctx.deleted == old(ctx.deleted)
  {
    match FixedDispatch(data)
    case RebootAction(n) =>
      ctx.EditMessageText("\U{23F3} Sedang memproses reboot untuk " + n + "...");
      ctx.EditMessageText(reboot(n));
    case RenameAction(o, n) =>
      ctx.EditMessageText("\U{23F3} Sedang mengubah nama " + o + " menjadi " + n + "...");
      ctx.EditMessageText(rename(o, n));
    case CancelAction =>
      ctx.EditMessageText(CancelledText);
    case NoAction =>
  }

  // ---------------------------------------------------------------- text search

  /** A message is a search unless it starts with '/'. */
  method HandleTextMessage(ctx: Context, text: string, detail: string -> Result<string>)
    modifies ctx
    ensures ctx.sent == old(ctx.sent) + (
      if StartsWith(text, "/") then []
      else [Message(if detail(text).Ok? then detail(text).value else TextLookupError, [])])
    ensures ctx.deleted == old(ctx.deleted) && ctx.edits == old(ctx.edits)
  {
    if |text| >= 1 && text[0] == '/' {
      assert text[..1] == "/";
      return;
    }
    match detail(text)
    case Ok(result) => var _ := ctx.Reply(result);
    case Err(_) => var _ := ctx.Reply(TextLookupError);
  }

  // ---------------------------------------------------------------- listing

  /** At most this many ONU lines are sent for one listing. */
  const MaxToSend := 100

  function Min(a: int, b: int): int {
    if a <= b then a else b
  }

  /** `${onu.sn} - ${onu.name}` */
  function OnuLine(o: Onu): string {
    o.sn + " - " + o.name
  }

  function OnuLines(list: seq<Onu>): (lines: seq<string>)
    ensures |lines| == |list|
    ensures forall i :: 0 <= i < |list| ==> lines[i] == OnuLine(list[i])
  {
    seq(|list|, i requires 0 <= i < |list| => OnuLine(list[i]))
  }

  /** Messages without a keyboard. */
  function Plain(texts: seq<string>): (ms: seq<Message>)
    ensures |ms| == |texts|
    ensures forall i :: 0 <= i < |texts| ==> ms[i] == Message(texts[i], [])
  {
    seq(|texts|, i requires 0 <= i < |texts| => Message(texts[i], []))
  }

  lemma PlainAppend(a: seq<string>, b: seq<string>)
    ensures Plain(a + b) == Plain(a) + Plain(b)
  {
  }

  /** Sending `a`, then the plain messages `body`, then `c` sends the plain messages
      `[a] + body + [c]`. */
  lemma PlainFrame(earlier: seq<Message>, a: string, body: seq<string>, c: string)
    ensures earlier + [Message(a, [])] + Plain(body) + [Message(c, [])] == earlier + Plain([a] + body + [c])
  {
    PlainAppend([a], body);
    PlainAppend([a] + body, [c]);
  }

  /** The loop that sends the first `count` ONU lines, one reply each. */
  method SendOnuLines(ctx: Context, list: seq<Onu>, count: nat)
    requires count <= |list|
    modifies ctx
    ensures ctx.sent == old(ctx.sent) + Plain(OnuLines(list[..count]))
    ensures ctx.deleted == old(ctx.deleted) && ctx.edits == old(ctx.edits)
  {
    var i := 0;
    while i < count
      invariant 0 <= i <= count
      invariant ctx.sent == old(ctx.sent) + Plain(OnuLines(list[..i]))
      invariant ctx.deleted == old(ctx.deleted) && ctx.edits == old(ctx.edits)
    {
      var _ := ctx.Reply(OnuLine(list[i]));
      assert OnuLines(list[..i + 1]) == OnuLines(list[..i]) + [OnuLine(list[i])];
      PlainAppend(OnuLines(list[..i]), [OnuLine(list[i])]);
      i := i + 1;
    }
  }

  function OverflowText(shown: int, total: int): string {
    "\U{26A0}\U{FE0F} Hanya menampilkan " + IntToString(shown) + " dari " + IntToString(total) + " ONU untuk menghindari flood."
  }

  /** The ONU lines of a listing and, past the limit, the overflow notice. */
  function ListBody(list: seq<Onu>): seq<string> {
    var shown := Min(|list|, MaxToSend);
    OnuLines(list[..shown]) + (if |list| > shown then [OverflowText(shown, |list|)] else [])
  }

  /** The first `min(length, 100)` ONUs get one line each, in order, and the overflow
      notice comes exactly when the list is longer than 100. */
  lemma ListBodyShape(list: seq<Onu>)
    ensures var r := ListBody(list);
      |r| == Min(|list|, MaxToSend) + (if |list| > MaxToSend then 1 else 0)
      && (forall i :: 0 <= i < Min(|list|, MaxToSend) ==> r[i] == OnuLine(list[i]))
      && (|list| > MaxToSend ==> r[|r| - 1] == OverflowText(MaxToSend, |list|))
  {
  }

  /** The per-ONU loop and the overflow notice. */
  method SendListBody(ctx: Context, list: seq<Onu>)
    modifies ctx
    ensures ctx.sent == old(ctx.sent) + Plain(ListBody(list))
    ensures ctx.deleted == old(ctx.deleted) && ctx.edits == old(ctx.edits)
  {
    var maxToSend := Min(|list|, MaxToSend);
    SendOnuLines(ctx, list, maxToSend);
    if |list| > maxToSend {
      var _ := ctx.Reply(OverflowText(maxToSend, |list|));
    }
    PlainAppend(OnuLines(list[..maxToSend]), if |list| > maxToSend then [OverflowText(maxToSend, |list|)] else []);
  }

  /** The summary, the per-ONU listing and the closing line, as `/showall` and
      `handleSpecificPonPort` send them. */
  method SendListing(ctx: Context, summary: string, list: seq<Onu>, done: string)
    modifies ctx
    ensures ctx.sent == old(ctx.sent) + Plain([summary] + ListBody(list) + [done])
    ensures ctx.deleted == old(ctx.deleted) && ctx.edits == old(ctx.edits)
  {
    ghost var before := ctx.sent;
    var _ := ctx.Reply(summary);
    SendListBody(ctx, list);
    var _ := ctx.Reply(done);
    PlainFrame(before, summary, ListBody(list), done);
  }

  /** Sending `a` and then the plain messages `[b] + body + [c]` sends the plain
      messages `[a, b] + body + [c]`. */
  lemma PlainSplit(earlier: seq<Message>, a: string, b: string, body: seq<string>, c: string)
    ensures earlier + [Message(a, [])] + Plain([b] + body + [c]) == earlier + Plain([a, b] + body + [c])
  {
    assert [a, b] + body + [c] == [a] + ([b] + body + [c]);
    PlainAppend([a], [b] + body + [c]);
  }

  const ShowAllLoading := "\U{23F3} Mengambil data semua ONU..."
  const NoOnuText := "Tidak ada ONU yang ditemukan."

  function ShowAllSummary(list: seq<Onu>): string {
    "Ditemukan " + IntToString(|list|) + " ONU. Mengirim daftar..."
  }

  function ShowAllDone(list: seq<Onu>): string {
    "\U{2705} Selesai menampilkan " + IntToString(Min(|list|, MaxToSend)) + " ONU."
  }

  /** What `/showall` sends for the list `getAllOnus()` returned: an empty list gives
      only the not-found reply after the loading one. */
  function ShowAllReplies(list: seq<Onu>): seq<string> {
    if |list| == 0 then [ShowAllLoading, NoOnuText]
    else [ShowAllLoading, ShowAllSummary(list)] + ListBody(list) + [ShowAllDone(list)]
  }

  /** `/showall`: the loading message is deleted once the list is in. */
  method HandleShowAllCommand(ctx: Context, list: seq<Onu>)
    modifies ctx
    ensures ctx.sent == old(ctx.sent) + Plain(ShowAllReplies(list))
    ensures ctx.deleted == old(ctx.deleted) + {|old(ctx.sent)|} && ctx.edits == old(ctx.edits)
  {
    var loadingMsg := ctx.Reply(ShowAllLoading);
    if |list| == 0 {
      ctx.DeleteMessage(loadingMsg);
      var _ := ctx.Reply(NoOnuText);
      return;
    }
    ctx.DeleteMessage(loadingMsg);
    SendListing(ctx, ShowAllSummary(list), list, ShowAllDone(list));
    PlainSplit(old(ctx.sent), ShowAllLoading, ShowAllSummary(list), ListBody(list), ShowAllDone(list));
  }
}
