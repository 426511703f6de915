/**
 The settings file: what is written for the settings in use, and what is read from any text. Lower
 casing and the text of floating-point numbers are parameters.
 */
module Settings {
  import opened Core
  import opened Text

  datatype Language = System | SimplifiedChinese | English
  {
    function Code(): string {
      match this
      case System => "system"
      case SimplifiedChinese => "zh-CN"
      case English => "en"
    }
  }

  function LanguageOf(code: string): Language {
    if code == "zh-CN" then SimplifiedChinese else if code == "en" then English else System
  }

  datatype AppSettings = AppSettings(
    language: Language, speedUnitBits: bool, ipv6Enabled: bool,
    windowWidth: real, windowHeight: real, windowX: real, windowY: real, windowMaximized: bool,
    globalRule: ProcessRule, nameRules: map<string, ProcessRule>, expanded: set<string>)

  const DEFAULT_SETTINGS := AppSettings(System, true, true, 1180.0, 700.0, -1.0, -1.0, false, DEFAULT_RULE, map[], {})

  /** The parts of the standard library the file format depends on. */
  datatype Codec = Codec(lower: string -> string, showFloat: real -> string, readFloat: string -> Option<real>)

  // ---------------------------------------------------------------- rule fields

  datatype Field =
    | BlockAll | LimitDownload | DownloadKbps | LimitUpload | UploadKbps | Adaptive
    | DownloadLoss | UploadLoss | DownloadDelay | UploadDelay

  function FieldName(f: Field): string {
    match f
    case BlockAll => "block_all"
    case LimitDownload => "limit_download"
    case DownloadKbps => "download_kbps"
    case LimitUpload => "limit_upload"
    case UploadKbps => "upload_kbps"
    case Adaptive => "adaptive"
    case DownloadLoss => "download_loss_basis_points"
    case UploadLoss => "upload_loss_basis_points"
    case DownloadDelay => "download_delay_ms"
    case UploadDelay => "upload_delay_ms"
  }

  /** All fields in the order they are written. */
  const FIELDS: seq<Field> :=
    [BlockAll, LimitDownload, DownloadKbps, LimitUpload, UploadKbps, Adaptive, DownloadLoss, UploadLoss,
      DownloadDelay, UploadDelay]

  type Fields = map<string, string>

  function Get(fields: Fields, f: Field): Option<string> {
    if FieldName(f) in fields then Some(fields[FieldName(f)]) else None
  }

  predicate ParseBool(value: string) {
    value == "1" || value == "true" || value == "yes"
  }

  function BoolText(b: bool): string {
    if b then "true" else "false"
  }

  function ParseDelayMs(value: string): Option<nat> {
    var text := Trim(value);
    if text == "" || !AllDigits(text) then None
    else
      match ParseUnsigned(text, 0x1_0000_0000)
      case None => None
      case Some(ms) => if ms > MAX_DELAY_MS then None else Some(ms)
  }

  function ReadBool(fields: Fields, f: Field): bool {
    Get(fields, f).Some? && ParseBool(Get(fields, f).value)
  }

  function ReadKbps(fields: Fields, f: Field): nat {
    if Get(fields, f).Some? then ParseUnsigned(Get(fields, f).value, 0x1_0000_0000).GetOr(0) else 0
  }

  function ReadLoss(fields: Fields, f: Field): Option<nat> {
    if Get(fields, f).None? then None
    else
      match ParseUnsigned(Get(fields, f).value, 0x1_0000)
      case None => None
      case Some(points) => if points <= 10_000 then Some(points) else None
  }

  function ReadDelay(fields: Fields, f: Field): Option<nat> {
    if Get(fields, f).None? then None else ParseDelayMs(Get(fields, f).value)
  }

  function ParseRuleFields(fields: Fields): ProcessRule {
    ProcessRule(
      ReadBool(fields, BlockAll), ReadBool(fields, LimitDownload), ReadKbps(fields, DownloadKbps),
      ReadBool(fields, LimitUpload), ReadKbps(fields, UploadKbps), ReadBool(fields, Adaptive),
      ReadLoss(fields, DownloadLoss), ReadLoss(fields, UploadLoss),
      ReadDelay(fields, DownloadDelay), ReadDelay(fields, UploadDelay), 0.0, 0.0)
  }

  function Shown(n: Option<nat>): Option<string> {
    if n.Some? then Some(Decimal(n.value)) else None
  }

  /** The text written for a field; optional fields that are not set are not written. */
  function FieldValue(rule: ProcessRule, f: Field): Option<string> {
    match f
    case BlockAll => Some(BoolText(rule.blockAll))
    case LimitDownload => Some(BoolText(rule.limitDownload))
    case DownloadKbps => Some(Decimal(rule.downloadKbps))
    case LimitUpload => Some(BoolText(rule.limitUpload))
    case UploadKbps => Some(Decimal(rule.uploadKbps))
    case Adaptive => Some(BoolText(rule.adaptive))
    case DownloadLoss => Shown(rule.downloadLoss)
    case UploadLoss => Shown(rule.uploadLoss)
    case DownloadDelay => Shown(rule.downloadDelay)
    case UploadDelay => Shown(rule.uploadDelay)
  }

  // ---------------------------------------------------------------- writing

  function Pair(key: string, value: string): string {
    key + "=" + value
  }

  function FieldLines(prefix: string, rule: ProcessRule, fields: seq<Field>): seq<string> {
    if fields == [] then []
    else
      var before := FieldLines(prefix, rule, fields[..|fields| - 1]);
      var f := fields[|fields| - 1];
      match FieldValue(rule, f)
      case None => before
      case Some(value) => before + [Pair(prefix + "." + FieldName(f), value)]
  }

  /** A rule that restricts nothing is not written, except for the global one. */
  function RuleLines(prefix: string, rule: ProcessRule): seq<string> {
    if !rule.HasAnyRule() && prefix != "global" then [] else FieldLines(prefix, rule, FIELDS)
  }

  function HeaderLines(codec: Codec, s: AppSettings): seq<string> {
    ["# FlowBrake settings",
     Pair("language", s.language.Code()),
     Pair("speed_unit_bits", BoolText(s.speedUnitBits)),
     Pair("ipv6_enabled", BoolText(s.ipv6Enabled)),
     Pair("window_width", codec.showFloat(s.windowWidth)),
     Pair("window_height", codec.showFloat(s.windowHeight)),
     Pair("window_x", codec.showFloat(s.windowX)),
     Pair("window_y", codec.showFloat(s.windowY)),
     Pair("window_maximized", BoolText(s.windowMaximized))]
  }

  function ExpandedLines(expanded: seq<string>): seq<string> {
    if expanded == [] then [] else [Pair("expanded", Join(expanded, ","))]
  }

  function NameLines(rules: map<string, ProcessRule>, names: seq<string>): seq<string>
    requires forall i :: 0 <= i < |names| ==> names[i] in rules
  {
    if names == [] then []
    else
      var name := names[|names| - 1];
      NameLines(rules, names[..|names| - 1]) + RuleLines("rule." + name, rules[name])
  }

  /** `listing` holds each element of `all` once, in some order. */
  ghost predicate Lists(listing: seq<string>, all: set<string>) {
    && (forall i, j :: 0 <= i < j < |listing| ==> listing[i] != listing[j])
    && (forall i :: 0 <= i < |listing| ==> listing[i] in all)
    && (forall x :: x in all ==> x in listing)
  }

  /** Everything that is written; the code lists names in sorted order, here any order will do. */
  function AllLines(codec: Codec, s: AppSettings, expanded: seq<string>, names: seq<string>): seq<string>
    requires forall i :: 0 <= i < |names| ==> names[i] in s.nameRules
  {
    HeaderLines(codec, s) + ExpandedLines(expanded) + RuleLines("global", s.globalRule) + NameLines(s.nameRules, names)
  }

  function ToContents(codec: Codec, s: AppSettings, expanded: seq<string>, names: seq<string>): string
    requires forall i :: 0 <= i < |names| ==> names[i] in s.nameRules
  {
    Join(AllLines(codec, s, expanded, names), "\n") + "\n"
  }

  // ---------------------------------------------------------------- reading

  datatype Key =
    | LanguageKey | SpeedUnitKey | Ipv6Key | WidthKey | HeightKey | XKey | YKey | MaximizedKey | ExpandedKey
    | RuleKey(name: string, field: string)
    | UnknownKey

  function KeyOf(codec: Codec, key: string): Key {
    if key == "language" then LanguageKey
    else if key == "speed_unit_bits" then SpeedUnitKey
    else if key == "ipv6_enabled" then Ipv6Key
    else if key == "window_width" then WidthKey
    else if key == "window_height" then HeightKey
    else if key == "window_x" then XKey
    else if key == "window_y" then YKey
    else if key == "window_maximized" then MaximizedKey
    else if key == "expanded" then ExpandedKey
    else if "global." <= key then RuleKey("global", key[|"global."|..])
    else if "rule." <= key then
      match RSplitOnce(key[|"rule."|..], '.')
      case None => UnknownKey
      case Some(parts) =>
        var name := codec.lower(Trim(parts.before));
        if name == "" then UnknownKey else RuleKey(name, Trim(parts.after))
    else UnknownKey
  }

  function Clamp(x: real, low: real, high: real): real {
    if x < low then low else if x > high then high else x
  }

  function ExpandedOf(codec: Codec, value: string): set<string> {
    set piece | piece in SplitAll(value, ',') && Trim(piece) != "" :: codec.lower(Trim(piece))
  }

  type Entries = map<string, Fields>

  /** Settings read so far, and the rule fields collected for each name. */
  datatype Draft = Draft(settings: AppSettings, entries: Entries)

  function FieldsFor(entries: Entries, name: string): Fields {
    if name in entries then entries[name] else map[]
  }

  function Assign(codec: Codec, d: Draft, key: Key, value: string): Draft {
    var s := d.settings;
    match key
    case LanguageKey => d.(settings := s.(language := LanguageOf(value)))
    case SpeedUnitKey => d.(settings := s.(speedUnitBits := ParseBool(value)))
    case Ipv6Key => d.(settings := s.(ipv6Enabled := ParseBool(value)))
    case WidthKey =>
      var read := codec.readFloat(value);
      d.(settings := s.(windowWidth := if read.Some? then Clamp(read.value, 900.0, 10000.0) else s.windowWidth))
    case HeightKey =>
      var read := codec.readFloat(value);
      d.(settings := s.(windowHeight := if read.Some? then Clamp(read.value, 500.0, 10000.0) else s.windowHeight))
    case XKey => d.(settings := s.(windowX := codec.readFloat(value).GetOr(s.windowX)))
    case YKey => d.(settings := s.(windowY := codec.readFloat(value).GetOr(s.windowY)))
    case MaximizedKey => d.(settings := s.(windowMaximized := ParseBool(value)))
    case ExpandedKey => d.(settings := s.(expanded := ExpandedOf(codec, value)))
    case RuleKey(name, field) => d.(entries := d.entries[name := FieldsFor(d.entries, name)[field := value]])
    case UnknownKey => d
  }

  function ReadLine(codec: Codec, d: Draft, text: string): Draft {
    var line := Trim(text);
    if line == "" || line[0] == '#' then d
    else
      match SplitOnce(line, '=')
      case None => d
      case Some(parts) => Assign(codec, d, KeyOf(codec, Trim(parts.before)), Trim(parts.after))
  }

  function ReadLines(codec: Codec, d: Draft, lines: seq<string>): Draft {
    if lines == [] then d else ReadLine(codec, ReadLines(codec, d, lines[..|lines| - 1]), lines[|lines| - 1])
  }

  function Conclude(d: Draft): AppSettings {
    d.settings.(
      globalRule := if "global" in d.entries then ParseRuleFields(d.entries["global"]) else d.settings.globalRule,
      nameRules := map name | name in d.entries && name != "global" && ParseRuleFields(d.entries[name]).HasAnyRule()
                     :: ParseRuleFields(d.entries[name]))
  }

  function FromContents(codec: Codec, contents: string): AppSettings {
    Conclude(ReadLines(codec, Draft(DEFAULT_SETTINGS, map[]), Lines(contents)))
  }

  // ---------------------------------------------------------------- as the program runs

  method AppendRuleLines(lines: seq<string>, prefix: string, rule: ProcessRule) returns (all: seq<string>)
    ensures all == lines + RuleLines(prefix, rule)
  {
    all := lines;
    if !rule.HasAnyRule() && prefix != "global" {
      return;
    }
    for i := 0 to |FIELDS|
      invariant all == lines + FieldLines(prefix, rule, FIELDS[..i])
    {
      assert FIELDS[..i + 1][..i] == FIELDS[..i];
      var value := FieldValue(rule, FIELDS[i]);
      if value.Some? {
        all := all + [Pair(prefix + "." + FieldName(FIELDS[i]), value.value)];
      }
    }
    assert FIELDS[..|FIELDS|] == FIELDS;
  }

  method WriteSettings(codec: Codec, s: AppSettings, expanded: seq<string>, names: seq<string>)
      returns (contents: string)
    requires forall i :: 0 <= i < |names| ==> names[i] in s.nameRules
    ensures contents == ToContents(codec, s, expanded, names)
  {
    hide HeaderLines, RuleLines, Pair, Join;
    var lines := HeaderLines(codec, s);
    if expanded != [] {
      lines := lines + [Pair("expanded", Join(expanded, ","))];
    }
    assert lines == HeaderLines(codec, s) + ExpandedLines(expanded);
    lines := AppendRuleLines(lines, "global", s.globalRule);
    ghost var start := lines;
    assert lines == start + NameLines(s.nameRules, names[..0]);
    for i := 0 to |names|
      invariant lines == start + NameLines(s.nameRules, names[..i])
    {
      assert names[..i + 1][..i] == names[..i];
      lines := AppendRuleLines(lines, "rule." + names[i], s.nameRules[names[i]]);
    }
    assert names[..|names|] == names;
    contents := Join(lines, "\n") + "\n";
  }

  method AssignKey(codec: Codec, settings: AppSettings, entries: Entries, key: Key, value: string)
      returns (s: AppSettings, e: Entries)
    ensures Draft(s, e) == Assign(codec, Draft(settings, entries), key, value)
  {
    s, e := settings, entries;
    match key {
      case LanguageKey => s := s.(language := LanguageOf(value));
      case SpeedUnitKey => s := s.(speedUnitBits := ParseBool(value));
      case Ipv6Key => s := s.(ipv6Enabled := ParseBool(value));
      case WidthKey =>
        var width := codec.readFloat(value);
        if width.Some? { s := s.(windowWidth := Clamp(width.value, 900.0, 10000.0)); }
      case HeightKey =>
        var height := codec.readFloat(value);
        if height.Some? { s := s.(windowHeight := Clamp(height.value, 500.0, 10000.0)); }
      case XKey =>
        var x := codec.readFloat(value);
        if x.Some? { s := s.(windowX := x.value); }
      case YKey =>
        var y := codec.readFloat(value);
        if y.Some? { s := s.(windowY := y.value); }
      case MaximizedKey => s := s.(windowMaximized := ParseBool(value));
      case ExpandedKey => s := s.(expanded := ExpandedOf(codec, value));
      case RuleKey(name, field) => e := e[name := FieldsFor(e, name)[field := value]];
      case UnknownKey =>
    }
  }

  method ReadSettings(codec: Codec, contents: string) returns (s: AppSettings)
    ensures s == FromContents(codec, contents)
  {
    hide KeyOf, Assign, ParseRuleFields, Trim, SplitOnce;
    var settings := DEFAULT_SETTINGS;
    var entries: Entries := map[];
    var lines := Lines(contents);
    for i := 0 to |lines|
      invariant Draft(settings, entries) == ReadLines(codec, Draft(DEFAULT_SETTINGS, map[]), lines[..i])
    {
      assert lines[..i + 1][..i] == lines[..i];
      var line := Trim(lines[i]);
      if line == "" || line[0] == '#' {
        continue;
      }
      var parts := SplitOnce(line, '=');
      if parts.None? {
        continue;
      }
      settings, entries := AssignKey(codec, settings, entries, KeyOf(codec, Trim(parts.value.before)),
        Trim(parts.value.after));
    }
    assert lines[..|lines|] == lines;
    s := ConcludeRules(settings, entries);
  }

  method ConcludeRules(settings: AppSettings, entries: Entries) returns (s: AppSettings)
    ensures s == Conclude(Draft(settings, entries))
  {
    hide ParseRuleFields;
    s := settings;
    var rest := entries;
    if "global" in entries {
      s := s.(globalRule := ParseRuleFields(entries["global"]));
      rest := entries - {"global"};
    }
    s := s.(nameRules := map name | name in rest && ParseRuleFields(rest[name]).HasAnyRule() ::
      ParseRuleFields(rest[name]));
  }
}
