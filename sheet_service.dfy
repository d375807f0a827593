/** Tenant lookup, configuration normalisation and the open/closed rule (app/services/sheet_service.py). */
module Sheets {
  import opened Common
  import opened Dicts

  /** One record of a configuration table: column name to cell. */
  type Row = map<string, Cell>

  /** A normalised key/value table; a row without the key column contributes the key None. */
  type Table = Dict<Cell, Cell>

  /** The four raw tables a configuration backend delivers. */
  datatype RawTables = RawTables(settings: seq<Row>, schedule: seq<Row>, prompts: seq<Row>, repairScope: seq<Row>)

  datatype TenantConfig = TenantConfig(settings: Table, schedule: seq<Row>, prompts: Table, repairScope: Table)

  const DefaultTenant := "bluefone_cannonhill"

  /** `row.get(col)`. */
  function Column(row: Row, col: string): Cell {
    if col in row then row[col] else None
  }

  // ------------------------------------------------------------------ tenant resolution

  /** The dialled number as looked up: stripped, and "" when it is None or empty. */
  function CleanNumber(toNumber: Cell): string {
    if Truthy(toNumber) then Strip(toNumber.value) else ""
  }

  /** `resolve_tenant_by_phone`: an exact match on the cleaned number; a miss, or a mapping to "",
      gives the default tenant. It is total, so it never raises. */
  function ResolveTenant(phoneToTenant: Dict<string, string>, toNumber: Cell): (tenant: string)
    ensures tenant != ""
    ensures tenant == DefaultTenant || Get(phoneToTenant, CleanNumber(toNumber)) == Some(tenant)
    ensures CleanNumber(toNumber) !in Keys(phoneToTenant) ==> tenant == DefaultTenant
    ensures forall t :: Get(phoneToTenant, CleanNumber(toNumber)) == Some(t) && t != "" ==> tenant == t
  {
    var hit := Get(phoneToTenant, CleanNumber(toNumber));
    if hit.Some? && hit.value != "" then hit.value else DefaultTenant
  }

  /** Surrounding whitespace on the dialled number never changes the tenant. */
  lemma ResolveIgnoresSurroundingSpace(phoneToTenant: Dict<string, string>, number: string)
    ensures ResolveTenant(phoneToTenant, Some(number)) == ResolveTenant(phoneToTenant, Some(Strip(number)))
  {
    StripIdempotent(number);
    if Strip(number) == "" {
      assert CleanNumber(Some(number)) == "";
    }
  }

  // ------------------------------------------------------------------ normalisation

  /** The (key, value) pair `_normalize_config` assigns for one row. */
  function RowPair(row: Row, keyCol: string, valCol: string): (Cell, Cell) {
    (Column(row, keyCol), Column(row, valCol))
  }

  /** The pairs of all rows, in row order. */
  function RowPairs(rows: seq<Row>, keyCol: string, valCol: string): (ps: seq<(Cell, Cell)>)
    ensures |ps| == |rows|
    ensures forall i :: 0 <= i < |rows| ==> ps[i] == RowPair(rows[i], keyCol, valCol)
  {
    seq(|rows|, i requires 0 <= i < |rows| => RowPair(rows[i], keyCol, valCol))
  }

  /** The dict the source builds by assigning `d[row.get(keyCol)] = row.get(valCol)` row by row. */
  function Fold(rows: seq<Row>, keyCol: string, valCol: string): (t: Table)
    ensures forall k :: k in Keys(t) ==> exists i :: 0 <= i < |rows| && Column(rows[i], keyCol) == k
  {
    var ps := RowPairs(rows, keyCol, valCol);
    assert forall i :: 0 <= i < |ps| ==> ps[i].0 == Column(rows[i], keyCol);
    FromPairsKeys(ps);
    FromPairs(ps)
  }

  /** Last write wins: the value under a key is the value column of the last row carrying it, and a
      key no row carries is absent. */
  lemma FoldLastWriteWins(rows: seq<Row>, keyCol: string, valCol: string, k: Cell, i: nat)
    requires i < |rows| && Column(rows[i], keyCol) == k
    requires forall j :: i < j < |rows| ==> Column(rows[j], keyCol) != k
    ensures Get(Fold(rows, keyCol, valCol), k) == Some(Column(rows[i], valCol))
  {
    assert LastPairFor(RowPairs(rows, keyCol, valCol), k, i);
  }

  /** A key is present exactly when some row carries it in its key column. */
  lemma FoldHasKey(rows: seq<Row>, keyCol: string, valCol: string, k: Cell)
    ensures Get(Fold(rows, keyCol, valCol), k).None? <==> (forall i :: 0 <= i < |rows| ==> Column(rows[i], keyCol) != k)
  {
    FromPairsHasKey(RowPairs(rows, keyCol, valCol), k);
  }

  /** The normalisation loop for one key/value table. */
  method FoldRows(rows: seq<Row>, keyCol: string, valCol: string) returns (d: Table)
    ensures d == Fold(rows, keyCol, valCol)
  {
    d := EmptyDict();
    var i := 0;
    while i < |rows|
      invariant 0 <= i <= |rows|
      invariant PutAll(d, RowPairs(rows[i..], keyCol, valCol)) == Fold(rows, keyCol, valCol)
    {
      var row := rows[i];
      RowPairsStep(rows, i, keyCol, valCol);
      PutAllStep(d, RowPairs(rows[i..], keyCol, valCol));
      d := Put(d, Column(row, keyCol), Column(row, valCol));
      i := i + 1;
    }
  }

  /** The pairs from row i on are the pair of row i, then the pairs from row i + 1 on. */
  lemma RowPairsStep(rows: seq<Row>, i: nat, keyCol: string, valCol: string)
    requires i < |rows|
    ensures RowPairs(rows[i..], keyCol, valCol) == [RowPair(rows[i], keyCol, valCol)] + RowPairs(rows[i + 1..], keyCol, valCol)
  {
    var ps := RowPairs(rows[i..], keyCol, valCol);
    assert ps[1..] == RowPairs(rows[i + 1..], keyCol, valCol);
    assert ps == [ps[0]] + ps[1..];
  }

  lemma PutAllStep(d: Table, ps: seq<(Cell, Cell)>)
    requires ps != []
    ensures PutAll(d, ps) == PutAll(Put(d, ps[0].0, ps[0].1), ps[1..])
  {
  }

  /** What `_normalize_config` returns: settings and repair scope take the `value` column, prompts the
      `text` column, and the schedule is the row list itself. */
  function Normalized(raw: RawTables): (config: TenantConfig)
    ensures config.schedule == raw.schedule
  {
    TenantConfig(Fold(raw.settings, "key", "value"), raw.schedule,
                 Fold(raw.prompts, "key", "text"), Fold(raw.repairScope, "key", "value"))
  }

  method NormalizeConfig(raw: RawTables) returns (config: TenantConfig)
    ensures config == Normalized(raw)
  {
    var settings := FoldRows(raw.settings, "key", "value");
    var schedule := raw.schedule;
    var prompts := FoldRows(raw.prompts, "key", "text");
    var repair := FoldRows(raw.repairScope, "key", "value");
    config := TenantConfig(settings, schedule, prompts, repair);
  }

  // ------------------------------------------------------------------ the open/closed rule

  datatype Weekday = Mon | Tue | Wed | Thu | Fri | Sat | Sun

  /** `strftime("%a")` in the C locale. */
  function Abbrev(d: Weekday): string {
    match d
    case Mon => "Mon" case Tue => "Tue" case Wed => "Wed" case Thu => "Thu"
    case Fri => "Fri" case Sat => "Sat" case Sun => "Sun"
  }

  /** Seconds since midnight in the tenant's zone. */
  type TimeOfDay = t: nat | t < 86400

  /** `str(settings.get(key, default)).upper() == "TRUE"`, with the default given as its truth value. */
  function SettingFlag(settings: Table, key: string, default: bool): bool {
    match Get(settings, Some(key))
    case None => default
    case Some(c) => IsTrueText(c)
  }

  /** The same test on a schedule row. */
  function RowFlag(row: Row, col: string, default: bool): bool {
    if col in row then IsTrueText(row[col]) else default
  }

  /** An absent flag takes its default; a present one is TRUE only when its text is "true" in some
      letter case, so a malformed value is false whatever the default. */
  lemma {:induction false} FlagDefaults(settings: Table, key: string, default: bool)
    ensures Some(key) !in Keys(settings) ==> SettingFlag(settings, key, default) == default
    ensures Some(key) in Keys(settings) ==>
      (SettingFlag(settings, key, default) <==> exists s :: ReadsTrue(s) && Get(settings, Some(key)) == Some(Some(s)))
  {
    var g := Get(settings, Some(key));
    if g.Some? {
      IsTrueTextIff(g.value);
    }
  }

  /** "true" in any mix of letter case. */
  predicate ReadsTrue(s: string) {
    |s| == 4 && s[0] in "tT" && s[1] in "rR" && s[2] in "uU" && s[3] in "eE"
  }

  /** `next(row for row in schedule if row.get("day") == day)`: the index of the first row for the day. */
  function FirstRule(schedule: seq<Row>, day: string): (r: Option<nat>)
    ensures r.Some? ==> r.value < |schedule| && Column(schedule[r.value], "day") == Some(day)
    ensures forall j :: 0 <= j < |schedule| && (r.None? || j < r.value) ==> Column(schedule[j], "day") != Some(day)
  {
    if schedule == [] then None
    else if Column(schedule[0], "day") == Some(day) then Some(0)
    else
      match FirstRule(schedule[1..], day)
      case None => None
      case Some(i) => Some(i + 1)
  }

  predicate TwoDigitHour(a: char, b: char) {
    (a == '2' && '0' <= b <= '3') || ((a == '0' || a == '1') && IsDigit(b))
  }

  /** The minute part of `%H:%M` after hour h: one digit, or two digits 00 to 59, and nothing after. */
  function MinuteField(h: nat, m: string): (r: Option<nat>)
    requires h < 24
    ensures r.Some? ==> r.value < 86400 && r.value % 60 == 0
  {
    if |m| == 1 && IsDigit(m[0]) then Some(h * 3600 + DigitValue(m[0]) * 60)
    else if |m| == 2 && '0' <= m[0] <= '5' && IsDigit(m[1]) then
      Some(h * 3600 + (10 * DigitValue(m[0]) + DigitValue(m[1])) * 60)
    else None
  }

  /** `datetime.strptime(s, "%H:%M").time()` in seconds since midnight, or None where it raises.
      The hour is one digit, or two digits 00 to 23. */
  function ParseHourMinute(s: string): (r: Option<nat>)
    ensures r.Some? ==> r.value < 86400 && r.value % 60 == 0
  {
    if |s| >= 2 && IsDigit(s[0]) && s[1] == ':' then MinuteField(DigitValue(s[0]), s[2..])
    else if |s| >= 3 && TwoDigitHour(s[0], s[1]) && s[2] == ':' then
      MinuteField(10 * DigitValue(s[0]) + DigitValue(s[1]), s[3..])
    else None
  }

  /** A cell given to strptime: None raises as well. */
  function ParseCell(c: Cell): Option<nat> {
    match c
    case None => None
    case Some(s) => ParseHourMinute(s)
  }

  function Pad2(n: nat): string
    requires n < 100
  {
    [DigitChar(n / 10), DigitChar(n % 10)]
  }

  /** Every time a schedule is written with, HH:MM, parses back to that hour and minute. */
  lemma ParseHourMinuteRoundTrip(h: nat, m: nat)
    requires h < 24 && m < 60
    ensures ParseHourMinute(Pad2(h) + ":" + Pad2(m)) == Some(h * 3600 + m * 60)
  {
    var s := Pad2(h) + ":" + Pad2(m);
    assert s[0] == DigitChar(h / 10) && s[1] == DigitChar(h % 10) && s[2] == ':';
    assert DigitValue(s[0]) == h / 10 && DigitValue(s[1]) == h % 10;
    assert s[3..] == Pad2(m);
    assert DigitValue(s[3]) == m / 10 && DigitValue(s[4]) == m % 10;
    assert !(s[1] == ':');
  }

  /** 23:59, the default end of a window, in seconds since midnight. */
  const LastMinute := 23 * 3600 + 59 * 60

  /** The two default texts parse to midnight and to 23:59. */
  lemma DefaultsParse()
    ensures ParseCell(Some("00:00")) == Some(0) && ParseCell(Some("23:59")) == Some(LastMinute)
  {
    ParseHourMinuteRoundTrip(0, 0);
    ParseHourMinuteRoundTrip(23, 59);
    assert Pad2(0) + ":" + Pad2(0) == "00:00";
    assert Pad2(23) + ":" + Pad2(59) == "23:59";
  }

  /** The window test of a matched, enabled day rule: start and end default to 00:00 and 23:59 when
      absent, a present value that does not parse gives `fallback`, and otherwise the store is open
      from start to end inclusive, compared to the second. */
  function WithinWindow(rule: Row, now: TimeOfDay, fallback: bool): (open: bool)
    ensures ("start" in rule && ParseCell(rule["start"]).None?) || ("end" in rule && ParseCell(rule["end"]).None?) ==>
      open == fallback
    ensures "start" in rule && ParseCell(rule["start"]).Some? && "end" in rule && ParseCell(rule["end"]).Some? ==>
      (open <==> ParseCell(rule["start"]).value <= now <= ParseCell(rule["end"]).value)
    ensures "start" !in rule && "end" !in rule ==> (open <==> now <= LastMinute)
    ensures "start" !in rule && "end" in rule && ParseCell(rule["end"]).Some? ==>
      (open <==> now <= ParseCell(rule["end"]).value)
    ensures "start" in rule && ParseCell(rule["start"]).Some? && "end" !in rule ==>
      (open <==> ParseCell(rule["start"]).value <= now <= LastMinute)
  {
    DefaultsParse();
    var start := if "start" in rule then rule["start"] else Some("00:00");
    var end := if "end" in rule then rule["end"] else Some("23:59");
    match (ParseCell(start), ParseCell(end))
    case (Some(a), Some(b)) => a <= now <= b
    case _ => fallback
  }

  /** `is_store_open` for the tenant's current weekday and time of day. */
  function IsStoreOpen(config: TenantConfig, day: Weekday, now: TimeOfDay): (open: bool)
    ensures SettingFlag(config.settings, "manual_mode", false) ==>
      open == SettingFlag(config.settings, "manual_enabled", true)
    ensures open ==>
      (|| SettingFlag(config.settings, "manual_mode", false)
       || FirstRule(config.schedule, Abbrev(day)).None?
       || RowFlag(config.schedule[FirstRule(config.schedule, Abbrev(day)).value], "enabled", true))
  {
    var settings := config.settings;
    var defaultEnabled := SettingFlag(settings, "default_enabled", true);
    if SettingFlag(settings, "manual_mode", false) then SettingFlag(settings, "manual_enabled", true)
    else
      match FirstRule(config.schedule, Abbrev(day))
      case None => defaultEnabled
      case Some(i) =>
        var rule := config.schedule[i];
        if !RowFlag(rule, "enabled", true) then false
        else WithinWindow(rule, now, defaultEnabled)
  }

  predicate ManualMode(config: TenantConfig) {
    SettingFlag(config.settings, "manual_mode", false)
  }

  /** Manual mode overrides everything: the answer is `manual_enabled`, whatever the schedule and time. */
  lemma ManualOverride(config: TenantConfig, schedule: seq<Row>, day: Weekday, now: TimeOfDay)
    requires ManualMode(config)
    ensures IsStoreOpen(config, day, now) == SettingFlag(config.settings, "manual_enabled", true)
    ensures IsStoreOpen(config.(schedule := schedule), day, now) == IsStoreOpen(config, day, now)
  {
  }

  /** Without manual mode the first rule for the day decides: a disabled rule closes the store,
      otherwise the window test applies; with no rule for the day the answer is `default_enabled`. */
  lemma FirstRuleDecides(config: TenantConfig, day: Weekday, now: TimeOfDay, i: nat)
    requires !ManualMode(config)
    requires i < |config.schedule| && Column(config.schedule[i], "day") == Some(Abbrev(day))
    requires forall j :: 0 <= j < i ==> Column(config.schedule[j], "day") != Some(Abbrev(day))
    ensures IsStoreOpen(config, day, now) ==
      (RowFlag(config.schedule[i], "enabled", true)
       && WithinWindow(config.schedule[i], now, SettingFlag(config.settings, "default_enabled", true)))
  {
    var r := FirstRule(config.schedule, Abbrev(day));
    assert r == Some(i);
  }

  lemma NoRuleGivesDefault(config: TenantConfig, day: Weekday, now: TimeOfDay)
    requires !ManualMode(config)
    requires forall j :: 0 <= j < |config.schedule| ==> Column(config.schedule[j], "day") != Some(Abbrev(day))
    ensures IsStoreOpen(config, day, now) == SettingFlag(config.settings, "default_enabled", true)
  {
    assert FirstRule(config.schedule, Abbrev(day)).None?;
  }

  lemma {:induction false} FirstRuleAppend(schedule: seq<Row>, extra: seq<Row>, day: string)
    requires FirstRule(schedule, day).Some?
    ensures FirstRule(schedule + extra, day) == FirstRule(schedule, day)
  {
    if Column(schedule[0], "day") != Some(day) {
      assert (schedule + extra)[1..] == schedule[1..] + extra;
      FirstRuleAppend(schedule[1..], extra, day);
    }
  }

  /** Duplicate rules for a day that come after its first rule never matter. */
  lemma LaterRulesIgnored(config: TenantConfig, extra: seq<Row>, day: Weekday, now: TimeOfDay)
    requires FirstRule(config.schedule, Abbrev(day)).Some?
    ensures IsStoreOpen(config.(schedule := config.schedule + extra), day, now) == IsStoreOpen(config, day, now)
  {
    FirstRuleAppend(config.schedule, extra, Abbrev(day));
    var i := FirstRule(config.schedule, Abbrev(day)).value;
    assert (config.schedule + extra)[i] == config.schedule[i];
  }

  /** With start and end that parse, the window is inclusive at both ends and counts seconds: the last
      open instant is second 0 of the end minute, and a start after the end closes the whole day. */
  lemma WindowInclusive(rule: Row, now: TimeOfDay, fallback: bool, a: nat, b: nat)
    requires "start" in rule && ParseCell(rule["start"]) == Some(a)
    requires "end" in rule && ParseCell(rule["end"]) == Some(b)
    ensures WithinWindow(rule, now, fallback) <==> a <= now <= b
    ensures a > b ==> !WithinWindow(rule, now, fallback)
    ensures now == b + 30 ==> !WithinWindow(rule, now, fallback)
  {
  }

  /** A start or end that is present but does not parse, the empty string included, gives the fallback. */
  lemma UnparsableWindowFallsBack(rule: Row, now: TimeOfDay, fallback: bool)
    requires ("start" in rule && ParseCell(rule["start"]).None?) || ("end" in rule && ParseCell(rule["end"]).None?)
    ensures WithinWindow(rule, now, fallback) == fallback
  {
  }

  lemma EmptyTimeDoesNotParse()
    ensures ParseCell(Some("")).None? && ParseCell(None).None?
    ensures ParseHourMinute("24:00").None? && ParseHourMinute("9:60").None? && ParseHourMinute("09:00 ").None?
  {
  }

  /** Start and end default one by one: a rule from 09:00 with no end column is open in the evening
      up to 23:59:00, and one with no start column up to 12:00 is open from midnight. */
  lemma DefaultWindow(fallback: bool)
    ensures var rule: Row := map["day" := Some("Mon"), "start" := Some("09:00")];
      WithinWindow(rule, 20 * 3600, fallback) && WithinWindow(rule, LastMinute, fallback)
      && !WithinWindow(rule, LastMinute + 1, fallback) && !WithinWindow(rule, 8 * 3600, fallback)
    ensures var rule: Row := map["day" := Some("Mon"), "end" := Some("12:00")];
      WithinWindow(rule, 0, fallback) && !WithinWindow(rule, 12 * 3600 + 1, fallback)
  {
    ParseHourMinuteRoundTrip(9, 0);
    ParseHourMinuteRoundTrip(12, 0);
    assert Pad2(9) + ":" + Pad2(0) == "09:00";
    assert Pad2(12) + ":" + Pad2(0) == "12:00";
  }
}
