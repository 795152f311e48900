/** The system-level logic of `src/services/systemService.js`: how the OLT's family is
    recognised from its system information, how `device_type` and uptime values are
    rendered, which ONUs the offline-device report lists, and how a configuration save
    is acknowledged. */
module SystemService {
  import opened Wrappers
  import opened Strings
  import opened Wire
  import opened Arrays

  // ---------------------------------------------------------------- OLT type

  /** The fields of the `/board?info=system` record that the type detection and the
      device-type line read. */
  datatype SystemInfo = SystemInfo(
    productName: Option<string>,      // product_name
    deviceModel: Option<string>,      // device_model
    vendor: Option<string>,           // vendor
    sysVer: Option<string>,           // sys_ver
    softwareVersion: Option<string>,  // software_version
    deviceType: Option<JsValue>)      // device_type

  datatype OltType = EponType | GponType | UnknownType

  function TypeText(t: OltType): string {
    match t
    case EponType => "EPON"
    case GponType => "GPON"
    case UnknownType => "Unknown"
  }

  /** `(info.product_name || info.device_model || '').toLowerCase()` */
  function ModelText(info: SystemInfo): string {
    Lower(Or(info.productName, Or(info.deviceModel, "")))
  }

  /** `(info.vendor || '').toLowerCase()` */
  function VendorText(info: SystemInfo): string {
    Lower(Or(info.vendor, ""))
  }

  /** `(info.sys_ver || info.software_version || '').toLowerCase()` */
  function VersionText(info: SystemInfo): string {
    Lower(Or(info.sysVer, Or(info.softwareVersion, "")))
  }

  /** The model or the vendor names the family. */
  predicate NameClue(info: SystemInfo, family: string) {
    Contains(ModelText(info), family) || Contains(VendorText(info), family)
  }

  /** The software version names the family; it is read only for a model that calls
      itself an OLT. */
  predicate VersionClue(info: SystemInfo, family: string) {
    Contains(ModelText(info), "olt") && Contains(VersionText(info), family)
  }

  /** `info.device_type.toString().toLowerCase()` for a truthy `device_type`. */
  function DeviceTypeKey(info: SystemInfo): Option<string> {
    if HasValue(info.deviceType) then Some(Lower(ValueText(info.deviceType.value))) else None
  }

  /** The device type is the family's numeric code or mentions the family (the test
      for equality with the family's name is subsumed by the test for mentioning it). */
  predicate DeviceClue(info: SystemInfo, code: string, family: string) {
    DeviceTypeKey(info).Some? && (DeviceTypeKey(info).value == code || Contains(DeviceTypeKey(info).value, family))
  }

  /** Some source of information gives the OLT's family away. */
  predicate AnyClue(info: SystemInfo) {
    NameClue(info, "epon") || NameClue(info, "gpon") || VersionClue(info, "epon") || VersionClue(info, "gpon")
    || DeviceClue(info, "1", "epon") || DeviceClue(info, "2", "gpon")
  }

  /** `detectOltType(info)`: the model and vendor first, EPON before GPON; then the
      software version of a model called an OLT; then `device_type`. */
  function DetectOltType(info: SystemInfo): (t: OltType)
    ensures NameClue(info, "epon") ==> t == EponType
    ensures !NameClue(info, "epon") && NameClue(info, "gpon") ==> t == GponType
    ensures !NameClue(info, "epon") && !NameClue(info, "gpon") && VersionClue(info, "epon") ==> t == EponType
    ensures (!NameClue(info, "epon") && !NameClue(info, "gpon") && !VersionClue(info, "epon")
             && VersionClue(info, "gpon")) ==> t == GponType
    ensures (!NameClue(info, "epon") && !NameClue(info, "gpon") && !VersionClue(info, "epon")
             && !VersionClue(info, "gpon") && DeviceClue(info, "1", "epon")) ==> t == EponType
    ensures (!NameClue(info, "epon") && !NameClue(info, "gpon") && !VersionClue(info, "epon")
             && !VersionClue(info, "gpon") && !DeviceClue(info, "1", "epon")
             && DeviceClue(info, "2", "gpon")) ==> t == GponType
    ensures t == UnknownType <==> !AnyClue(info)
  {
    if NameClue(info, "epon") then EponType
    else if NameClue(info, "gpon") then GponType
    else if VersionClue(info, "epon") then EponType
    else if VersionClue(info, "gpon") then GponType
    else if DeviceClue(info, "1", "epon") then EponType
    else if DeviceClue(info, "2", "gpon") then GponType
    else UnknownType
  }

  /** `device_type` is consulted last: whenever the model, vendor or version already
      decides the family, any other `device_type` gives the same answer. */
  lemma DeviceTypeConsultedLast(info: SystemInfo, other: Option<JsValue>)
    requires NameClue(info, "epon") || NameClue(info, "gpon") || VersionClue(info, "epon") || VersionClue(info, "gpon")
    ensures DetectOltType(info.(deviceType := other)) == DetectOltType(info)
  {
    var info' := info.(deviceType := other);
    assert ModelText(info') == ModelText(info) && VendorText(info') == VendorText(info);
    assert VersionText(info') == VersionText(info);
  }

  /** The `Device Type:` line's value: the numeric codes 1 and 2 (as numbers or
      strings) are named, any other present value is shown as it is, and an absent one
      is 'Unknown'. */
  function DeviceTypeText(deviceType: Option<JsValue>): (text: string)
    ensures deviceType.None? ==> text == "Unknown"
    ensures deviceType == Some(JNum(1)) || deviceType == Some(JStr("1")) ==> text == "EPON"
    ensures deviceType == Some(JNum(2)) || deviceType == Some(JStr("2")) ==> text == "GPON"
    ensures deviceType.Some? && deviceType.value !in {JNum(1), JStr("1"), JNum(2), JStr("2")} ==>
      text == ValueText(deviceType.value)
  {
    match deviceType
    case None => "Unknown"
    case Some(v) =>
      if v == JNum(1) || v == JStr("1") then "EPON"
      else if v == JNum(2) || v == JStr("2") then "GPON"
      else ValueText(v)
  }

  /** A rendered integer never reads as a family name. */
  lemma NumberIsNoFamilyName(n: int)
    ensures IntToString(n) != "EPON" && IntToString(n) != "GPON"
  {
    IntToStringChars(n);
    var t := IntToString(n);
    assert |t| > 0 ==> IsDigit(t[0]) || t[0] == '-';
    assert "EPON"[0] == 'E' && "GPON"[0] == 'G';
  }

  /** When the device type alone decides, the detected family and the `Device Type:`
      line agree. */
  lemma DeviceTypeTextAgrees(info: SystemInfo)
    requires !(NameClue(info, "epon") || NameClue(info, "gpon") || VersionClue(info, "epon") || VersionClue(info, "gpon"))
    ensures DeviceTypeText(info.deviceType) == "EPON" ==> DetectOltType(info) == EponType
    ensures DeviceTypeText(info.deviceType) == "GPON" ==> DetectOltType(info) == GponType
  {
    if info.deviceType.Some? {
      var v := info.deviceType.value;
      if v.JNum? {
        NumberIsNoFamilyName(v.num);
      }
      if v == JNum(1) || v == JStr("1") {
        assert Lower("1") == "1";
        assert DeviceClue(info, "1", "epon");
      } else if v == JNum(2) || v == JStr("2") {
        assert Lower("2") == "2";
        assert Lower("2") != "1";
        StartsWithChar("2", 'e');
        NotContainsByHead("2", "epon");
        assert DeviceClue(info, "2", "gpon");
      } else if v == JStr("EPON") {
        assert Lower("EPON") == "epon";
        assert StartsAt("epon", "epon", 0);
        assert DeviceClue(info, "1", "epon");
      } else if v == JStr("GPON") {
        assert Lower("GPON") == "gpon";
        NotContainsByHead("gpon", "epon");
        assert StartsAt("gpon", "gpon", 0);
        assert DeviceClue(info, "2", "gpon");
      }
    }
  }

  const MismatchLine := "\U{26A0}\U{FE0F} WARNING: Configured OLT type does not match actual device!"

  /** `oltType && typeText !== 'Unknown' && oltType.toUpperCase() !== typeText` */
  predicate MismatchWarning(oltType: Option<string>, typeText: string) {
    Has(oltType) && typeText != "Unknown" && Upper(oltType.value) != typeText
  }

  /** The lines appended after `Uptime:` in the system-information text. */
  function InfoTrailer(oltType: Option<string>, typeText: string): (lines: seq<string>)
    ensures lines != [] <==> MismatchWarning(oltType, typeText)
    ensures lines != [] ==> lines[|lines| - 1] == MismatchLine
  {
    if MismatchWarning(oltType, typeText) then ["", MismatchLine] else []
  }

  function FamilyFor(t: OltType): Family {
    match t
    case EponType => Epon
    case GponType => Gpon
    case UnknownType => Other
  }

  /** The warning is shown exactly when a type is configured, one is detected, and the
      configured family (compared case-insensitively) is not the detected one. */
  lemma WarningIffFamilyDiffers(oltType: Option<string>, info: SystemInfo)
    ensures var t := DetectOltType(info);
      MismatchWarning(oltType, TypeText(t)) <==> Has(oltType) && t != UnknownType && FamilyOf(oltType) != FamilyFor(t)
  {
  }

  // ---------------------------------------------------------------- uptime

  /** JavaScript's `%`, whose remainder takes the sign of the dividend. */
  function JsRem(a: int, b: int): int
    requires b > 0
  {
    if a >= 0 then a % b else -((-a) % b)
  }

  /** `${v}` of a `parseInt` result: 'NaN' for `NaN`. */
  function NumText(o: Option<int>): string {
    if o.Some? then IntToString(o.value) else "NaN"
  }

  /** `v > 0`, which is false for `NaN`. */
  predicate Positive(o: Option<int>) {
    o.Some? && o.value > 0
  }

  /** The layout every parsing path of `formatUptime` produces: each positive day,
      hour and minute part with its unit, then the seconds, which are always shown. */
  function UptimeLayout(days: Option<int>, hours: Option<int>, minutes: Option<int>, seconds: Option<int>): string {
    UnitPart(days, " days ") + UnitPart(hours, " hours ") + UnitPart(minutes, " minutes ")
    + (NumText(seconds) + " seconds")
  }

  /** `${v} <unit> ` when `v > 0`, else nothing. */
  function UnitPart(o: Option<int>, unit: string): string {
    if Positive(o) then IntToString(o.value) + unit else ""
  }

  /** The numeric decomposition of `Math.floor(uptime)` seconds. Dafny's `/` with a
      positive divisor is `Math.floor` of the quotient; `%` is JavaScript's. */
  function Days(n: int): int { n / 86400 }
  function Hours(n: int): int { JsRem(n, 86400) / 3600 }
  function Minutes(n: int): int { JsRem(n, 3600) / 60 }
  function Seconds(n: int): int { JsRem(n, 60) }

  function SecondsLayout(n: int): string {
    UptimeLayout(Some(Days(n)), Some(Hours(n)), Some(Minutes(n)), Some(Seconds(n)))
  }

  /** The parts add back up to the seconds, and each part below a day is in range. */
  lemma UptimeDecomposition(n: int)
    requires n >= 0
    ensures Days(n) * 86400 + Hours(n) * 3600 + Minutes(n) * 60 + Seconds(n) == n
    ensures Days(n) >= 0 && 0 <= Hours(n) < 24 && 0 <= Minutes(n) < 60 && 0 <= Seconds(n) < 60
  {
    var r := n % 86400;
    HourRemainder(n);
    MinuteRemainder(n);
    assert n == Days(n) * 86400 + r;
    assert r == Hours(n) * 3600 + r % 3600;
    assert n % 3600 == Minutes(n) * 60 + n % 60;
  }

  /** A day is a whole number of hours. */
  lemma HourRemainder(n: int)
    requires n >= 0
    ensures (n % 86400) % 3600 == n % 3600
  {
    var r := n % 86400;
    assert n == n / 86400 * 86400 + r;
    assert r == r / 3600 * 3600 + r % 3600;
    RemainderUnique(n, n / 86400 * 24 + r / 3600, r % 3600, 3600);
  }

  /** An hour is a whole number of minutes. */
  lemma MinuteRemainder(n: int)
    requires n >= 0
    ensures (n % 3600) % 60 == n % 60
  {
    var r := n % 3600;
    assert n == n / 3600 * 3600 + r;
    assert r == r / 60 * 60 + r % 60;
    RemainderUnique(n, n / 3600 * 60 + r / 60, r % 60, 60);
  }

  /** The remainder by `b` is the only `t` in `[0, b)` with `n == k * b + t`; here `b`
      is one of the two constants of the uptime decomposition. */
  lemma RemainderUnique(n: int, k: int, t: int, b: int)
    requires b == 60 || b == 3600
    requires 0 <= t < b && n == k * b + t
    ensures n % b == t
  {
    if b == 60 {
      var x := k - n / 60;
      assert 60 * x == n % 60 - t;
    } else {
      var x := k - n / 3600;
      assert 3600 * x == n % 3600 - t;
    }
  }

  /** What `formatUptime` is given: nothing, a number of seconds (already floored), or
      a string. */
  datatype Uptime = NoUptime | SecondsUp(n: int) | TextUp(s: string)

  /** `Number(s)` of a string that is an optionally signed decimal integer once
      trimmed; every other string counts as `NaN` here. */
  function NumberText(s: string): Option<int> {
    var t := Trim(s);
    if |t| > 1 && (t[0] == '-' || t[0] == '+') && AllDigits(t[1..]) then
      Some(if t[0] == '-' then -(DigitsValue(t[1..]) as int) else DigitsValue(t[1..]) as int)
    else if |t| > 0 && AllDigits(t) then Some(DigitsValue(t))
    else None
  }

  predicate MentionsUnit(s: string) {
    Contains(s, "day") || Contains(s, "hour") || Contains(s, "minute") || Contains(s, "second")
  }

  /** The four pieces of a 'd,h,m,s' string all start with a number. */
  predicate CommaParts(s: string) {
    var parts := Split(s, ',');
    Contains(s, ",") && |parts| == 4 && ParseInt(parts[0]).Some? && ParseInt(parts[1]).Some?
    && ParseInt(parts[2]).Some? && ParseInt(parts[3]).Some?
  }

  /** `formatUptime` of a non-empty string: a 'd,h,m,s' string, then any already
      formatted text (returned as it is), then an 'H:M:S' string, then a number of
      seconds; anything else is returned as it is. A blank string passes the `isNaN`
      test but `parseFloat` gives `NaN`, which renders as 'NaN'. */
  function TextUptime(s: string): string {
    if CommaParts(s) then
      var parts := Split(s, ',');
      UptimeLayout(ParseInt(parts[0]), ParseInt(parts[1]), ParseInt(parts[2]), ParseInt(parts[3]))
    else if MentionsUnit(s) then s
    else if |Split(s, ':')| == 3 then
      var tp := Split(s, ':');
      UptimeLayout(None, ParseInt(tp[0]), ParseInt(tp[1]), ParseInt(tp[2]))
    else if IsBlank(s) then "NaN"
    else match NumberText(s)
      case Some(n) => SecondsLayout(n)
      case None => s
  }

  /** `formatUptime(uptime)`: a falsy value is 'Unknown'. */
  function UptimeText(u: Uptime): string {
    match u
    case NoUptime => "Unknown"
    case SecondsUp(n) => if n == 0 then "Unknown" else SecondsLayout(n)
    case TextUp(s) => if s == "" then "Unknown" else TextUptime(s)
  }

  /** The `result +=` sequence shared by every parsing path of `formatUptime`. */
  method ComposeUptime(days: Option<int>, hours: Option<int>, minutes: Option<int>, seconds: Option<int>)
    returns (result: string)
    ensures result == UptimeLayout(days, hours, minutes, seconds)
  {
    result := "";
    if Positive(days) {
      result := result + (IntToString(days.value) + " days ");
    }
    assert result == UnitPart(days, " days ");
    if Positive(hours) {
      result := result + (IntToString(hours.value) + " hours ");
    }
    assert result == UnitPart(days, " days ") + UnitPart(hours, " hours ");
    if Positive(minutes) {
      result := result + (IntToString(minutes.value) + " minutes ");
    }
    assert result == UnitPart(days, " days ") + UnitPart(hours, " hours ") + UnitPart(minutes, " minutes ");
    result := result + (NumText(seconds) + " seconds");
  }

  /** `formatUptime(uptime)` (src/services/systemService.js:334-414). */
  method FormatUptime(u: Uptime) returns (text: string)
    ensures text == UptimeText(u)
  {
    if u.NoUptime? || u == SecondsUp(0) || u == TextUp("") {
      return "Unknown";
    }
    var seconds: int;
    if u.TextUp? {
      var s := u.s;
      if Contains(s, ",") {
        var parts := Split(s, ',');
        if |parts| == 4 {
          var days := ParseInt(parts[0]);
          var hours := ParseInt(parts[1]);
          var minutes := ParseInt(parts[2]);
          var secs := ParseInt(parts[3]);
          if days.Some? && hours.Some? && minutes.Some? && secs.Some? {
            text := ComposeUptime(days, hours, minutes, secs);
            return;
          }
        }
      }
      if Contains(s, "day") || Contains(s, "hour") || Contains(s, "minute") || Contains(s, "second") {
        return s;
      }
      var timeParts := Split(s, ':');
      if |timeParts| == 3 {
        text := ComposeUptime(None, ParseInt(timeParts[0]), ParseInt(timeParts[1]), ParseInt(timeParts[2]));
        return;
      }
      if IsBlank(s) {
        return "NaN";
      }
      var number := NumberText(s);
      if number.None? {
        return s;
      }
      seconds := number.value;
    } else {
      seconds := u.n;
    }
    text := ComposeUptime(Some(Days(seconds)), Some(Hours(seconds)), Some(Minutes(seconds)), Some(Seconds(seconds)));
  }

  /** None of a rendered integer's characters is anything but a digit or a minus. */
  lemma NotInNumber(i: int, c: char)
    requires !IsDigit(c) && c != '-'
    ensures c !in IntToString(i)
  {
    IntToStringChars(i);
  }

  lemma NotInNumText(o: Option<int>, c: char)
    requires !IsDigit(c) && c != '-' && c != 'N' && c != 'a'
    ensures c !in NumText(o)
  {
    if o.Some? {
      NotInNumber(o.value, c);
    }
  }

  lemma NotInUnitPart(o: Option<int>, unit: string, c: char)
    requires !IsDigit(c) && c != '-' && c !in unit
    ensures c !in UnitPart(o, unit)
  {
    if o.Some? {
      NotInNumber(o.value, c);
    }
  }

  /** A laid-out uptime has no comma and mentions seconds, so formatting it again
      returns it unchanged. */
  lemma LayoutIsFixed(days: Option<int>, hours: Option<int>, minutes: Option<int>, seconds: Option<int>)
    ensures var r := UptimeLayout(days, hours, minutes, seconds);
      r != "" && TextUptime(r) == r
  {
    var r := UptimeLayout(days, hours, minutes, seconds);
    var p1, p2, p3 := UnitPart(days, " days "), UnitPart(hours, " hours "), UnitPart(minutes, " minutes ");
    var n := NumText(seconds);
    var tail := n + " seconds";
    NotInUnitPart(days, " days ", ',');
    NotInUnitPart(hours, " hours ", ',');
    NotInUnitPart(minutes, " minutes ", ',');
    NotInNumText(seconds, ',');
    assert ',' !in tail;
    assert ',' !in p1 + p2 + p3;
    assert r == p1 + p2 + p3 + tail;
    ContainsChar(r, ',');
    assert !CommaParts(r);
    assert tail[|n| + 1..|n| + 7] == "second";
    assert StartsAt(tail, "second", |n| + 1);
    ContainsInRight(p1 + p2 + p3, tail, "second");
    assert MentionsUnit(r);
  }

  /** A word without commas, colons, unit letters, digits or white space at its ends is
      returned as it is. */
  lemma PlainWordIsFixed(w: string)
    requires w != "" && !IsJsSpace(w[0]) && !IsJsSpace(w[|w| - 1]) && !IsDigit(w[0])
    requires w[0] != '-' && w[0] != '+'
    requires ',' !in w && ':' !in w && 'd' !in w && 'h' !in w && 'm' !in w && 's' !in w
    ensures TextUptime(w) == w
  {
    ContainsChar(w, ',');
    NotContainsByHead(w, "day");
    NotContainsByHead(w, "hour");
    NotContainsByHead(w, "minute");
    NotContainsByHead(w, "second");
    SplitSingle(w, ':');
    assert TrimStart(w) == w;
    assert TrimEnd(w) == w;
  }

  /** `formatUptime` is idempotent: formatting its own output changes nothing. */
  lemma UptimeIdempotent(u: Uptime)
    ensures UptimeText(TextUp(UptimeText(u))) == UptimeText(u)
  {
    var t := UptimeText(u);
    match u
    case NoUptime =>
      PlainWordIsFixed("Unknown");
    case SecondsUp(n) =>
      if n == 0 {
        PlainWordIsFixed("Unknown");
      } else {
        LayoutIsFixed(Some(Days(n)), Some(Hours(n)), Some(Minutes(n)), Some(Seconds(n)));
      }
    case TextUp(s) =>
      if s == "" {
        PlainWordIsFixed("Unknown");
      } else {
        TextUptimeIdempotent(s);
      }
    assert t != "" && TextUptime(t) == t;
  }

  /** Formatting a non-empty text twice is formatting it once, and never gives the
      empty text. */
  lemma TextUptimeIdempotent(s: string)
    ensures TextUptime(s) != "" || s == ""
    ensures TextUptime(s) != "" ==> TextUptime(TextUptime(s)) == TextUptime(s)
  {
    if CommaParts(s) {
      var parts := Split(s, ',');
      LayoutIsFixed(ParseInt(parts[0]), ParseInt(parts[1]), ParseInt(parts[2]), ParseInt(parts[3]));
    } else if MentionsUnit(s) {
    } else if |Split(s, ':')| == 3 {
      var tp := Split(s, ':');
      LayoutIsFixed(None, ParseInt(tp[0]), ParseInt(tp[1]), ParseInt(tp[2]));
    } else if IsBlank(s) {
      PlainWordIsFixed("NaN");
    } else if NumberText(s).Some? {
      var n := NumberText(s).value;
      LayoutIsFixed(Some(Days(n)), Some(Hours(n)), Some(Minutes(n)), Some(Seconds(n)));
    }
  }

  /** The 'd,h,m,s' rendering of four integers. */
  function CommaForm(d: int, h: int, m: int, s: int): string {
    Join([IntToString(d), IntToString(h), IntToString(m), IntToString(s)], ',')
  }

  /** The 'H:M:S' rendering of three integers. */
  function ColonForm(h: int, m: int, s: int): string {
    Join([IntToString(h), IntToString(m), IntToString(s)], ':')
  }

  lemma CommaFormParses(d: int, h: int, m: int, s: int)
    ensures TextUptime(CommaForm(d, h, m, s)) == UptimeLayout(Some(d), Some(h), Some(m), Some(s))
  {
    var parts := [IntToString(d), IntToString(h), IntToString(m), IntToString(s)];
    NotInNumber(d, ',');
    NotInNumber(h, ',');
    NotInNumber(m, ',');
    NotInNumber(s, ',');
    SplitJoin(parts, ',');
    var t := CommaForm(d, h, m, s);
    assert t == IntToString(d) + [','] + Join(parts[1..], ',');
    assert ',' in t;
    ContainsChar(t, ',');
    ParseIntRoundTrip(d);
    ParseIntRoundTrip(h);
    ParseIntRoundTrip(m);
    ParseIntRoundTrip(s);
  }

  lemma ColonFormParses(h: int, m: int, s: int)
    ensures TextUptime(ColonForm(h, m, s)) == UptimeLayout(None, Some(h), Some(m), Some(s))
  {
    var parts := [IntToString(h), IntToString(m), IntToString(s)];
    var t := ColonForm(h, m, s);
    assert parts[1..] == [IntToString(m), IntToString(s)];
    assert parts[1..][1..] == [IntToString(s)];
    assert Join([IntToString(s)], ':') == IntToString(s);
    assert Join([IntToString(m), IntToString(s)], ':') == IntToString(m) + [':'] + IntToString(s);
    assert t == IntToString(h) + [':'] + (IntToString(m) + [':'] + IntToString(s));
    NotInNumber(h, ':');
    NotInNumber(m, ':');
    NotInNumber(s, ':');
    SplitJoin(parts, ':');
    NotInNumber(h, ','); NotInNumber(m, ','); NotInNumber(s, ',');
    ContainsChar(t, ',');
    NotInNumber(h, 'd'); NotInNumber(m, 'd'); NotInNumber(s, 'd');
    NotInNumber(h, 'h'); NotInNumber(m, 'h'); NotInNumber(s, 'h');
    NotInNumber(h, 'm'); NotInNumber(m, 'm'); NotInNumber(s, 'm');
    NotInNumber(h, 's'); NotInNumber(m, 's'); NotInNumber(s, 's');
    NotContainsByHead(t, "day");
    NotContainsByHead(t, "hour");
    NotContainsByHead(t, "minute");
    NotContainsByHead(t, "second");
    ParseIntRoundTrip(h);
    ParseIntRoundTrip(m);
    ParseIntRoundTrip(s);
  }

  /** The three input forms share one layout: a positive number of seconds, its
      'd,h,m,s' rendering and, below a day, its 'H:M:S' rendering all format alike. */
  lemma UptimeFormsAgree(n: int)
    requires n > 0
    ensures UptimeText(TextUp(CommaForm(Days(n), Hours(n), Minutes(n), Seconds(n)))) == UptimeText(SecondsUp(n))
    ensures n < 86400 ==> UptimeText(TextUp(ColonForm(Hours(n), Minutes(n), Seconds(n)))) == UptimeText(SecondsUp(n))
  {
    CommaFormParses(Days(n), Hours(n), Minutes(n), Seconds(n));
    ColonFormParses(Hours(n), Minutes(n), Seconds(n));
    var t := ColonForm(Hours(n), Minutes(n), Seconds(n));
    assert t == IntToString(Hours(n)) + [':'] + Join([IntToString(Minutes(n)), IntToString(Seconds(n))], ':');
    var c := CommaForm(Days(n), Hours(n), Minutes(n), Seconds(n));
    assert c == IntToString(Days(n)) + [','] + Join([IntToString(Hours(n)), IntToString(Minutes(n)), IntToString(Seconds(n))], ',');
  }

  // ---------------------------------------------------------------- offline devices

  const OfflineHeader := "\nDevice Offline\n"
  const OfflineErrorText := "\nTidak dapat mengambil informasi device offline.\n"

  function NoOfflineText(ponPort: JsValue): string {
    "\nTidak ada device offline di PON port " + ValueText(ponPort) + ".\n"
  }

  /** GPON: `rstate === 2` (offline) and `rstate === 0` (initial), numbers only. */
  predicate GponOffline(row: Row) { row.rstate == Some(JNum(2)) }
  predicate GponInitial(row: Row) { row.rstate == Some(JNum(0)) }

  predicate GponListed(row: Row) { GponOffline(row) || GponInitial(row) }

  /** EPON: the lower-cased status is non-empty and not a connected state. */
  predicate EponOffline(row: Row) {
    var status := LowerOrEmpty(row.status);
    status != "" && status != "online" && status != "up" && status != "registered"
  }

  function OfflineLine(gpon: bool, row: Row): string {
    if gpon then Or(row.ontSn, "Unknown") + " - " + Or(row.ontName, "Unknown") + "\n"
    else Or(row.macAddr, "Unknown") + " - " + Or(row.onuName, "Unknown") + "\n"
  }

  /** One line per row, in order. */
  function Lines(gpon: bool, rows: seq<Row>): (lines: seq<string>)
    ensures |lines| == |rows|
  {
    seq(|rows|, i requires 0 <= i < |rows| => OfflineLine(gpon, rows[i]))
  }

  function Listing(gpon: bool, rows: seq<Row>): string {
    Concat(Lines(gpon, rows))
  }

  /** What a report lists for port-filtered rows: GPON offline rows then initial rows,
      EPON offline rows. */
  function OfflineRows(gpon: bool, rows: seq<Row>): seq<Row> {
    if gpon then Filter(rows, GponOffline) + Filter(rows, GponInitial) else Filter(rows, EponOffline)
  }

  /** `getOfflineDeviceInfo(ponPort)` given the outcome of its one GET. */
  function OfflineReport(gpon: bool, ponPort: Option<JsValue>, resp: Result<Reply>): string {
    match resp
    case Err(_) => OfflineErrorText
    case Ok(r) =>
      if r.data.None? || r.data.value.payload.NoPayload? then ""
      else if r.data.value.payload.RecordPayload? then OfflineErrorText
      else RowsReport(gpon, ponPort, PortRows(r.data.value.payload.rows, ponPort))
  }

  /** The report on the port-filtered rows. */
  function RowsReport(gpon: bool, ponPort: Option<JsValue>, rows: seq<Row>): string {
    var listed := OfflineRows(gpon, rows);
    if |listed| > 0 then OfflineHeader + Listing(gpon, listed)
    else if ponPort.Some? then NoOfflineText(ponPort.value)
    else ""
  }

  lemma ListingAppend(gpon: bool, a: seq<Row>, b: seq<Row>)
    ensures Listing(gpon, a + b) == Listing(gpon, a) + Listing(gpon, b)
  {
    assert Lines(gpon, a + b) == Lines(gpon, a) + Lines(gpon, b);
    ConcatAppend(Lines(gpon, a), Lines(gpon, b));
  }

  /** The `for ... result +=` loop over one list of rows. */
  method AppendListing(gpon: bool, prefix: string, rows: seq<Row>) returns (result: string)
    ensures result == prefix + Listing(gpon, rows)
  {
    var lines := Lines(gpon, rows);
    result := prefix;
    var i := 0;
    while i < |rows|
      invariant 0 <= i <= |rows|
      invariant result == prefix + Concat(lines[..i])
    {
      assert lines[..i + 1][..i] == lines[..i];
      ConcatAssoc(prefix, Concat(lines[..i]), lines[i]);
      result := result + OfflineLine(gpon, rows[i]);
      i := i + 1;
    }
    assert lines[..i] == lines;
  }

  /** `getOfflineDeviceInfo(ponPort)` (src/services/systemService.js:203-290): the port
      filter, then the `result +=` loops over the offline (and, for GPON, initial)
      rows. */
  method OfflineDeviceInfo(gpon: bool, ponPort: Option<JsValue>, resp: Result<Reply>) returns (result: string)
    ensures result == OfflineReport(gpon, ponPort, resp)
  {
    if resp.Err? {
      return OfflineErrorText;
    }
    var r := resp.value;
    if r.data.None? || r.data.value.payload.NoPayload? {
      return "";
    }
    if r.data.value.payload.RecordPayload? {
      return OfflineErrorText;
    }
    var onuData := PortRows(r.data.value.payload.rows, ponPort);
    result := ReportRows(gpon, ponPort, onuData);
  }

  /** The filters and `for` loops of one branch of `getOfflineDeviceInfo`. */
  method ReportRows(gpon: bool, ponPort: Option<JsValue>, onuData: seq<Row>) returns (result: string)
    ensures result == RowsReport(gpon, ponPort, onuData)
  {
    var offline := if gpon then Filter(onuData, GponOffline) else Filter(onuData, EponOffline);
    var initial := if gpon then Filter(onuData, GponInitial) else [];
    assert OfflineRows(gpon, onuData) == offline + initial;
    if |offline| > 0 || |initial| > 0 {
      result := AppendListing(gpon, OfflineHeader, offline);
      result := AppendListing(gpon, result, initial);
      ListingAppend(gpon, offline, initial);
      ConcatAssoc(OfflineHeader, Listing(gpon, offline), Listing(gpon, initial));
      return;
    }
    if ponPort.Some? {
      return NoOfflineText(ponPort.value);
    }
    return "";
  }

  /** On GPON the report lists each row of the port with `rstate` 2 or 0 once: the
      offline ones first, then the initial ones, and no other row. */
  lemma GponReportRows(rows: seq<Row>)
    ensures var listed := OfflineRows(true, rows);
      |listed| == |Filter(rows, GponListed)|
      && (forall i :: 0 <= i < |listed| ==> GponOffline(listed[i]) || GponInitial(listed[i]))
      && (forall i, j :: 0 <= i < j < |listed| && GponInitial(listed[i]) ==> GponInitial(listed[j]))
  {
    FilterDisjointCount(rows, GponOffline, GponInitial, GponListed);
    var a := Filter(rows, GponOffline);
    var listed := a + Filter(rows, GponInitial);
    forall i, j | 0 <= i < j < |listed| && GponInitial(listed[i]) ensures GponInitial(listed[j]) {
    }
  }

  /** The 'no offline device' line is given only for a requested port; without one,
      a report with nothing to list is empty. */
  lemma NoOfflineLineNeedsPort(gpon: bool, resp: Result<Reply>)
    ensures var t := OfflineReport(gpon, None, resp);
      t == "" || t == OfflineErrorText || StartsWith(t, OfflineHeader)
  {
    var t := OfflineReport(gpon, None, resp);
    if resp.Ok? && resp.value.data.Some? && resp.value.data.value.payload.RowsPayload? {
      var listed := OfflineRows(gpon, resp.value.data.value.payload.rows);
      if |listed| > 0 {
        assert t == OfflineHeader + Listing(gpon, listed);
        assert t[..|OfflineHeader|] == OfflineHeader;
      }
    }
  }

  // ---------------------------------------------------------------- configuration save

  const SavedText := "Konfigurasi berhasil disimpan."
  const SaveErrorPrefix := "Tidak dapat menyimpan konfigurasi: "

  function SaveFailedText(r: Reply): string {
    "Gagal menyimpan konfigurasi. Pesan: " + ReplyMessage(r)
  }

  /** `saveConfiguration()` given the outcome of `GET /system_save`: any of the three
      acknowledgements counts, a reported failure is returned as text, and a thrown
      error is rethrown with the save prefix. */
  function SaveConfiguration(resp: Result<Reply>): (r: Result<string>)
    ensures r == Ok(SavedText) <==> resp.Ok? && Acknowledged(resp.value)
    ensures r.Err? <==> resp.Err?
    ensures resp.Err? ==> r.error.message == SaveErrorPrefix + resp.error.message
    ensures resp.Ok? && !Acknowledged(resp.value) ==> r == Ok(SaveFailedText(resp.value))
    ensures resp.Ok? && !Acknowledged(resp.value) && resp.value.data.Some? && Has(resp.value.data.value.message) ==>
      r == Ok("Gagal menyimpan konfigurasi. Pesan: " + resp.value.data.value.message.value)
    ensures resp.Ok? && resp.value.data.None? ==> r == Ok("Gagal menyimpan konfigurasi. Pesan: " + "Unknown error")
  {
    match resp
    case Err(e) => Err(Error(SaveErrorPrefix + e.message))
    case Ok(reply) =>
      if Acknowledged(reply) then Ok(SavedText)
      else
        HeadOfConcat("Gagal menyimpan konfigurasi. Pesan: ", ReplyMessage(reply));
        Ok(SaveFailedText(reply))
  }
}
