/**
 What a line of the settings file means: which setting or which field of which rule it changes, and
 to what. The keys and values are spelled out here as they stand in existing files.
 */
module SettingsKeys {
  import opened Core
  import opened Text
  import opened Settings
  import opened SettingsRoundTrip

  // ---------------------------------------------------------------- lines with white space

  /** White space: tab to carriage return, the space, and the spaces and separators of Unicode. */
  predicate White(c: char) {
    var n := c as int;
    || 9 <= n <= 13 || n == 32 || n == 0x85 || n == 0xA0 || n == 0x1680 || 0x2000 <= n <= 0x200A
    || n == 0x2028 || n == 0x2029 || n == 0x202F || n == 0x205F || n == 0x3000
  }

  ghost predicate Blank(s: string) {
    forall i :: 0 <= i < |s| ==> White(s[i])
  }

  lemma WhiteIsTrimmed(c: char)
    ensures White(c) == IsWhitespace(c)
  {
  }

  lemma {:induction false} TrimStartPadded(a: string, s: string)
    requires Blank(a) && (s == "" || !IsWhitespace(s[0]))
    ensures TrimStart(a + s) == s
  {
    if a == "" {
      assert a + s == s;
    } else {
      WhiteIsTrimmed(a[0]);
      assert (a + s)[1..] == a[1..] + s;
      TrimStartPadded(a[1..], s);
    }
  }

  lemma {:induction false} TrimEndPadded(s: string, b: string)
    requires Blank(b) && (s == "" || !IsWhitespace(s[|s| - 1]))
    ensures TrimEnd(s + b) == s
  {
    if b == "" {
      assert s + b == s;
    } else {
      WhiteIsTrimmed(b[|b| - 1]);
      assert (s + b)[..|s + b| - 1] == s + b[..|b| - 1];
      TrimEndPadded(s, b[..|b| - 1]);
    }
  }

  lemma TrimPadded(a: string, s: string, b: string)
    requires Blank(a) && Blank(b) && Trimmed(s)
    ensures Trim(a + s + b) == s
  {
    if s == "" {
      assert a + s + b == (a + b) + "";
      TrimStartPadded(a + b, "");
    } else {
      assert a + s + b == a + (s + b);
      TrimStartPadded(a, s + b);
      TrimEndPadded(s, b);
    }
  }

  /** White space before, around and behind a key and its value. */
  datatype Spacing = Spacing(before: string, left: string, right: string, after: string)
  {
    ghost predicate IsBlank() {
      Blank(before) && Blank(left) && Blank(right) && Blank(after)
    }
  }

  function Line(sp: Spacing, key: string, value: string): string {
    sp.before + key + sp.left + "=" + sp.right + value + sp.after
  }

  /** A key as it stands left of the first `=`, and a value, both without white space at the ends. */
  ghost predicate Fits(sp: Spacing, key: string, value: string) {
    sp.IsBlank() && key != "" && Trimmed(key) && key[0] != '#' && '=' !in key && Trimmed(value)
  }

  lemma CoreOfLine(sp: Spacing, key: string, value: string) returns (core: string, left: string, right: string)
    requires Fits(sp, key, value)
    ensures Trim(Line(sp, key, value)) == core && core != "" && core[0] != '#'
    ensures SplitOnce(core, '=') == Some(Parts(left, right)) && Trim(left) == key && Trim(right) == value
  {
    left, right := key + sp.left, if value == "" then "" else sp.right + value;
    core := left + ['='] + right;
    var after := if value == "" then sp.right + sp.after else sp.after;
    CoreIs(sp, key, value, core, after);
    assert '=' !in left;
    hide Trim, Line, Fits;
    TrimPadded(sp.before, core, after);
    SplitOnceOf(left, '=', right);
    TrimLeft(key, sp.left);
    if value == "" { TrimLeft("", ""); } else { TrimRight(sp.right, value); }
  }

  lemma CoreIs(sp: Spacing, key: string, value: string, core: string, after: string)
    requires Fits(sp, key, value)
    requires core == key + sp.left + ['='] + if value == "" then "" else sp.right + value
    requires after == if value == "" then sp.right + sp.after else sp.after
    ensures Line(sp, key, value) == sp.before + core + after
    ensures core != "" && core[0] != '#' && Trimmed(core) && Blank(after)
  {
    assert core[0] == key[0] && core[|core| - 1] == if value == "" then '=' else value[|value| - 1];
  }

  lemma TrimLeft(s: string, b: string)
    requires Blank(b) && Trimmed(s)
    ensures Trim(s + b) == s
  {
    TrimPadded("", s, b);
    assert "" + s + b == s + b;
  }

  lemma TrimRight(a: string, s: string)
    requires Blank(a) && Trimmed(s)
    ensures Trim(a + s) == s
  {
    TrimPadded(a, s, "");
    assert a + s + "" == a + s;
  }

  lemma LineAssigns(codec: Codec, d: Draft, sp: Spacing, key: string, value: string)
    requires Fits(sp, key, value)
    ensures ReadLine(codec, d, Line(sp, key, value)) == Assign(codec, d, KeyOf(codec, key), value)
  {
    hide Trim, SplitOnce, KeyOf, Assign, Line, Fits;
    var core, left, right := CoreOfLine(sp, key, value);
  }

  /** Blank lines, comments and lines without `=` change nothing. */
  lemma SkippedLine(codec: Codec, d: Draft, a: string, text: string, b: string)
    requires Blank(a) && Blank(b) && Trimmed(text)
    requires text == "" || text[0] == '#' || '=' !in text
    ensures ReadLine(codec, d, a + text + b) == d
  {
    TrimPadded(a, text, b);
    hide Trim;
  }

  // ---------------------------------------------------------------- the settings

  predicate Yes(value: string) {
    value in {"1", "true", "yes"}
  }

  /** What is read, brought into the range; a value that is no number leaves the setting as it was. */
  function Within(read: Option<real>, low: real, high: real, was: real): real {
    match read
    case None => was
    case Some(x) => if x > high then high else if x < low then low else x
  }

  /** The settings after `key = value`, for a key that does not belong to a rule. */
  function SettingGiven(codec: Codec, s: AppSettings, key: string, value: string): AppSettings {
    AppSettings(
      if key != "language" then s.language
      else if value == "zh-CN" then SimplifiedChinese else if value == "en" then English else System,
      if key == "speed_unit_bits" then Yes(value) else s.speedUnitBits,
      if key == "ipv6_enabled" then Yes(value) else s.ipv6Enabled,
      if key == "window_width" then Within(codec.readFloat(value), 900.0, 10000.0, s.windowWidth) else s.windowWidth,
      if key == "window_height" then Within(codec.readFloat(value), 500.0, 10000.0, s.windowHeight) else s.windowHeight,
      if key == "window_x" && codec.readFloat(value).Some? then codec.readFloat(value).value else s.windowX,
      if key == "window_y" && codec.readFloat(value).Some? then codec.readFloat(value).value else s.windowY,
      if key == "window_maximized" then Yes(value) else s.windowMaximized,
      s.globalRule, s.nameRules,
      if key == "expanded" then ExpandedOf(codec, value) else s.expanded)
  }

  predicate SwitchKey(key: string) {
    || key == "language" || key == "speed_unit_bits" || key == "ipv6_enabled"
    || key == "window_maximized" || key == "expanded"
  }

  lemma SwitchAssigned(codec: Codec, d: Draft, key: string, value: string)
    requires SwitchKey(key)
    ensures Assign(codec, d, KeyOf(codec, key), value) == d.(settings := SettingGiven(codec, d.settings, key, value))
  {
    hide ExpandedOf, RSplitOnce, Trim;
  }

  lemma OtherAssigned(codec: Codec, d: Draft, key: string, value: string)
    requires !SwitchKey(key) && !("global." <= key) && !("rule." <= key)
    ensures Assign(codec, d, KeyOf(codec, key), value) == d.(settings := SettingGiven(codec, d.settings, key, value))
  {
    hide ExpandedOf, RSplitOnce, Trim;
  }

  lemma SettingAssigned(codec: Codec, d: Draft, key: string, value: string)
    requires !("global." <= key) && !("rule." <= key)
    ensures Assign(codec, d, KeyOf(codec, key), value) == d.(settings := SettingGiven(codec, d.settings, key, value))
  {
    hide *;
    if SwitchKey(key) { SwitchAssigned(codec, d, key, value); } else { OtherAssigned(codec, d, key, value); }
  }

  /**
   A line whose key belongs to no rule changes the setting it names, to what its value says, and
   nothing else; an unknown key changes nothing.
   */
  lemma SettingLine(codec: Codec, d: Draft, sp: Spacing, key: string, value: string)
    requires Fits(sp, key, value) && !("global." <= key) && !("rule." <= key)
    ensures ReadLine(codec, d, Line(sp, key, value)) == d.(settings := SettingGiven(codec, d.settings, key, value))
  {
    hide *;
    LineAssigns(codec, d, sp, key, value);
    SettingAssigned(codec, d, key, value);
  }

  // ---------------------------------------------------------------- the rules

  /** A rule field's key up to the last dot: for all traffic, or for the program whose name follows. */
  datatype Owner = Everything | Program(left: string, text: string, right: string)
  {
    function Prefix(): string {
      match this
      case Everything => "global."
      case Program(left, text, right) => "rule." + left + text + right + "."
    }

    function Name(codec: Codec): string {
      match this
      case Everything => "global"
      case Program(_, text, _) => codec.lower(text)
    }

    ghost predicate IsOne(codec: Codec) {
      Program? ==> Blank(left) && Blank(right) && Trimmed(text) && '=' !in text && codec.lower(text) != ""
    }
  }

  /** The name of a field: what follows the last dot. */
  predicate FieldText(field: string) {
    field != "" && Trimmed(field) && '=' !in field && '.' !in field
  }

  lemma OwnerKey(codec: Codec, owner: Owner, field: string)
    requires owner.IsOne(codec) && FieldText(field)
    ensures var key := owner.Prefix() + field;
      && key != "" && Trimmed(key) && key[0] != '#' && '=' !in key
      && KeyOf(codec, key) == RuleKey(owner.Name(codec), field)
  {
    hide KeyOf, FieldText, Blank;
    match owner
    case Everything => EverythingKey(codec, field);
    case Program(left, text, right) => ProgramKey(codec, left, text, right, field);
  }

  lemma EverythingKey(codec: Codec, field: string)
    requires FieldText(field)
    ensures var key := "global." + field;
      && key != "" && Trimmed(key) && key[0] != '#' && '=' !in key
      && KeyOf(codec, key) == RuleKey("global", field)
  {
    hide KeyOf;
    var key := "global." + field;
    assert key[0] == 'g' && key[|key| - 1] == field[|field| - 1];
    GlobalText(field);
    KeyOfEverything(codec, key, field);
  }

  lemma GlobalText(field: string)
    ensures var key := "global." + field; "global." <= key && key[|"global."|..] == field
  {
    var key := "global." + field;
    assert key[..7] == "global.";
  }

  lemma KeyOfEverything(codec: Codec, key: string, field: string)
    requires "global." <= key && key[|"global."|..] == field
    ensures KeyOf(codec, key) == RuleKey("global", field)
  {
    hide RSplitOnce, Trim;
    assert key[0] == "global."[0] == 'g';
  }

  lemma ProgramKeyText(left: string, text: string, right: string, field: string)
    requires Blank(left) && Blank(right) && '=' !in text && FieldText(field)
    ensures var key := "rule." + left + text + right + "." + field;
      && key != "" && Trimmed(key) && key[0] != '#' && '=' !in key
      && "rule." <= key && key[|"rule."|..] == (left + text + right) + ['.'] + field
  {
    var key := "rule." + left + text + right + "." + field;
    assert key[0] == 'r' && key[|key| - 1] == field[|field| - 1];
    assert '=' !in left && '=' !in right;
  }

  lemma ProgramKey(codec: Codec, left: string, text: string, right: string, field: string)
    requires Blank(left) && Blank(right) && Trimmed(text) && '=' !in text && codec.lower(text) != "" && FieldText(field)
    ensures var key := "rule." + left + text + right + "." + field;
      && key != "" && Trimmed(key) && key[0] != '#' && '=' !in key
      && KeyOf(codec, key) == RuleKey(codec.lower(text), field)
  {
    hide Trim, RSplitOnce, KeyOf, Blank;
    ProgramKeyText(left, text, right, field);
    RSplitOnceOf(left + text + right, '.', field);
    TrimPadded(left, text, right);
    TrimOfTrimmed(field);
    KeyOfProgram(codec, "rule." + left + text + right + "." + field, left + text + right, field);
  }

  lemma KeyOfProgram(codec: Codec, key: string, name: string, field: string)
    requires "rule." <= key && RSplitOnce(key[|"rule."|..], '.') == Some(Parts(name, field))
    requires Trim(field) == field && codec.lower(Trim(name)) != ""
    ensures KeyOf(codec, key) == RuleKey(codec.lower(Trim(name)), field)
  {
    hide RSplitOnce, Trim;
    assert key[0] == "rule."[0] == 'r';
  }

  /** The rule the settings hold under a name; a program without one has the rule that sets nothing. */
  function RuleNamed(s: AppSettings, name: string): ProcessRule {
    if name == "global" then s.globalRule else if name in s.nameRules then s.nameRules[name] else DEFAULT_RULE
  }

  /** A number of at most `most`. */
  function Number(value: string, most: nat): Option<nat> {
    ParseUnsigned(value, most + 1)
  }

  /** A number written in digits only. */
  function PlainNumber(value: string, most: nat): Option<nat> {
    if exists i :: 0 <= i < |value| && !('0' <= value[i] <= '9') then None else Number(value, most)
  }

  /** The rule after one of its fields has been given a value; a field with any other name is ignored. */
  function FieldGiven(rule: ProcessRule, field: string, value: string): ProcessRule {
    if field == "block_all" then rule.(blockAll := Yes(value))
    else if field == "limit_download" then rule.(limitDownload := Yes(value))
    else if field == "download_kbps" then rule.(downloadKbps := Number(value, 0xFFFF_FFFF).GetOr(0))
    else if field == "limit_upload" then rule.(limitUpload := Yes(value))
    else if field == "upload_kbps" then rule.(uploadKbps := Number(value, 0xFFFF_FFFF).GetOr(0))
    else if field == "adaptive" then rule.(adaptive := Yes(value))
    else if field == "download_loss_basis_points" then rule.(downloadLoss := Number(value, 10_000))
    else if field == "upload_loss_basis_points" then rule.(uploadLoss := Number(value, 10_000))
    else if field == "download_delay_ms" then rule.(downloadDelay := PlainNumber(value, 5000))
    else if field == "upload_delay_ms" then rule.(uploadDelay := PlainNumber(value, 5000))
    else rule
  }

  lemma ReadsDelay(value: string)
    requires Trimmed(value)
    ensures ParseDelayMs(value) == PlainNumber(value, 5000)
  {
    TrimOfTrimmed(value);
    hide Trim;
    if i :| 0 <= i < |value| && !('0' <= value[i] <= '9') {
      assert !IsDigit(value[i]) && !AllDigits(value);
    } else {
      assert AllDigits(value);
    }
  }

  lemma ReadsLoss(value: string)
    ensures Number(value, 10_000) ==
      match ParseUnsigned(value, 0x1_0000)
      case None => None
      case Some(n) => if n <= 10_000 then Some(n) else None
  {
  }

  function WithValue(rule: ProcessRule, f: Field, value: string): ProcessRule {
    match f
    case BlockAll => rule.(blockAll := Yes(value))
    case LimitDownload => rule.(limitDownload := Yes(value))
    case DownloadKbps => rule.(downloadKbps := Number(value, 0xFFFF_FFFF).GetOr(0))
    case LimitUpload => rule.(limitUpload := Yes(value))
    case UploadKbps => rule.(uploadKbps := Number(value, 0xFFFF_FFFF).GetOr(0))
    case Adaptive => rule.(adaptive := Yes(value))
    case DownloadLoss => rule.(downloadLoss := Number(value, 10_000))
    case UploadLoss => rule.(uploadLoss := Number(value, 10_000))
    case DownloadDelay => rule.(downloadDelay := PlainNumber(value, 5000))
    case UploadDelay => rule.(uploadDelay := PlainNumber(value, 5000))
  }

  lemma ReadsUpdated(fields: Fields, f: Field, value: string, g: Field)
    requires Trimmed(value)
    ensures var after := fields[FieldName(f) := value];
      && ReadBool(after, g) == (if f == g then Yes(value) else ReadBool(fields, g))
      && ReadKbps(after, g) == (if f == g then Number(value, 0xFFFF_FFFF).GetOr(0) else ReadKbps(fields, g))
      && ReadLoss(after, g) == (if f == g then Number(value, 10_000) else ReadLoss(fields, g))
      && ReadDelay(after, g) == (if f == g then PlainNumber(value, 5000) else ReadDelay(fields, g))
  {
    GetUpdated(fields, f, value, g);
    ReadsDelay(value);
    ReadsLoss(value);
    hide Get, ParseDelayMs, ParseUnsigned, PlainNumber, FieldName;
  }

  lemma ParsedWith(fields: Fields, f: Field, value: string)
    requires Trimmed(value)
    ensures ParseRuleFields(fields[FieldName(f) := value]) == WithValue(ParseRuleFields(fields), f, value)
  {
    hide ReadBool, ReadKbps, ReadLoss, ReadDelay, FieldName, Number, PlainNumber, Yes;
    ReadsUpdated(fields, f, value, BlockAll);
    ReadsUpdated(fields, f, value, LimitDownload);
    ReadsUpdated(fields, f, value, DownloadKbps);
    ReadsUpdated(fields, f, value, LimitUpload);
    ReadsUpdated(fields, f, value, UploadKbps);
    ReadsUpdated(fields, f, value, Adaptive);
    ReadsUpdated(fields, f, value, DownloadLoss);
    ReadsUpdated(fields, f, value, UploadLoss);
    ReadsUpdated(fields, f, value, DownloadDelay);
    ReadsUpdated(fields, f, value, UploadDelay);
  }

  lemma GivenIs(rule: ProcessRule, f: Field, value: string)
    ensures FieldGiven(rule, FieldName(f), value) == WithValue(rule, f, value)
  {
    hide Number, PlainNumber, Yes;
    match f
    case BlockAll => assert FieldName(f) == "block_all";
    case LimitDownload => assert FieldName(f) == "limit_download";
    case DownloadKbps => assert FieldName(f) == "download_kbps";
    case LimitUpload => assert FieldName(f) == "limit_upload";
    case UploadKbps => assert FieldName(f) == "upload_kbps";
    case Adaptive => assert FieldName(f) == "adaptive";
    case DownloadLoss => assert FieldName(f) == "download_loss_basis_points";
    case UploadLoss => assert FieldName(f) == "upload_loss_basis_points";
    case DownloadDelay => assert FieldName(f) == "download_delay_ms";
    case UploadDelay => assert FieldName(f) == "upload_delay_ms";
  }

  predicate AnyName(field: string) {
    || field == "block_all" || field == "limit_download" || field == "download_kbps" || field == "limit_upload"
    || field == "upload_kbps" || field == "adaptive" || field == "download_loss_basis_points"
    || field == "upload_loss_basis_points" || field == "download_delay_ms" || field == "upload_delay_ms"
  }

  lemma NotAName(fields: Fields, field: string, value: string)
    requires !AnyName(field)
    ensures ParseRuleFields(fields[field := value]) == ParseRuleFields(fields)
    ensures forall rule :: FieldGiven(rule, field, value) == rule
  {
    forall f: Field ensures Get(fields[field := value], f) == Get(fields, f) {
      NameOfField(f);
      assert FieldName(f) != field by { hide FieldName; }
    }
    hide Get, FieldName, Number, PlainNumber, Yes, ParseUnsigned, ParseDelayMs;
  }

  lemma NameOfField(f: Field)
    ensures AnyName(FieldName(f))
  {
    match f
    case BlockAll =>
    case LimitDownload =>
    case DownloadKbps =>
    case LimitUpload =>
    case UploadKbps =>
    case Adaptive =>
    case DownloadLoss =>
    case UploadLoss =>
    case DownloadDelay =>
    case UploadDelay =>
  }

  lemma NamedField(field: string) returns (f: Field)
    requires AnyName(field)
    ensures FieldName(f) == field
  {
    f := if field == "block_all" then BlockAll else if field == "limit_download" then LimitDownload
         else if field == "download_kbps" then DownloadKbps else if field == "limit_upload" then LimitUpload
         else if field == "upload_kbps" then UploadKbps else if field == "adaptive" then Adaptive
         else if field == "download_loss_basis_points" then DownloadLoss
         else if field == "upload_loss_basis_points" then UploadLoss
         else if field == "download_delay_ms" then DownloadDelay else UploadDelay;
  }

  /** The rule collected from the fields, after one of them has been given a value. */
  lemma ParsedGiven(fields: Fields, field: string, value: string)
    requires Trimmed(value)
    ensures ParseRuleFields(fields[field := value]) == FieldGiven(ParseRuleFields(fields), field, value)
  {
    hide *;
    if AnyName(field) {
      var f := NamedField(field);
      ParsedWith(fields, f, value);
      GivenIs(ParseRuleFields(fields), f, value);
    } else {
      NotAName(fields, field, value);
    }
  }

  /** The draft a file leads to; the rule for everything is only set at its end. */
  ghost predicate Reached(d: Draft) {
    d.settings.globalRule == DEFAULT_RULE
  }

  lemma ConcludedRule(d: Draft, name: string)
    requires Reached(d)
    ensures RuleNamed(Conclude(d), name) == ParseRuleFields(FieldsFor(d.entries, name))
  {
    assert ParseRuleFields(map[]) == DEFAULT_RULE;
    var rule := ParseRuleFields(FieldsFor(d.entries, name));
    assert rule.adjustedDownload == 0.0 && rule.adjustedUpload == 0.0;
    if !rule.HasAnyRule() { assert rule == DEFAULT_RULE; }
    hide ParseRuleFields;
  }

  /**
   Whatever has been read before, a line for a field of a rule changes exactly that field of that
   rule, to what its value says. Every other rule and every other setting stays as it was.
   */
  lemma RuleLine(codec: Codec, d: Draft, owner: Owner, field: string, sp: Spacing, value: string, other: string)
    requires Reached(d) && owner.IsOne(codec) && FieldText(field) && sp.IsBlank() && Trimmed(value)
    ensures var r := ReadLine(codec, d, Line(sp, owner.Prefix() + field, value));
      var name := owner.Name(codec);
      && Reached(r)
      && RuleNamed(Conclude(r), name) == FieldGiven(RuleNamed(Conclude(d), name), field, value)
      && (other != name ==> RuleNamed(Conclude(r), other) == RuleNamed(Conclude(d), other))
      && Conclude(r).(globalRule := DEFAULT_RULE, nameRules := map[])
           == Conclude(d).(globalRule := DEFAULT_RULE, nameRules := map[])
  {
    RuleAssigned(codec, d, owner, field, sp, value);
    var name := owner.Name(codec);
    var r := ReadLine(codec, d, Line(sp, owner.Prefix() + field, value));
    hide ReadLine, Line, FieldText, Owner.Prefix, Owner.Name, Owner.IsOne, ParseRuleFields, FieldGiven, RuleNamed,
      Spacing.IsBlank, Conclude;
    ParsedGiven(FieldsFor(d.entries, name), field, value);
    ConcludedRule(d, name);
    ConcludedRule(r, name);
    ConcludedRule(d, other);
    ConcludedRule(r, other);
    ConcludedElsewhere(d);
    ConcludedElsewhere(r);
  }

  lemma RuleAssigned(codec: Codec, d: Draft, owner: Owner, field: string, sp: Spacing, value: string)
    requires owner.IsOne(codec) && FieldText(field) && sp.IsBlank() && Trimmed(value)
    ensures var name := owner.Name(codec);
      ReadLine(codec, d, Line(sp, owner.Prefix() + field, value))
        == d.(entries := d.entries[name := FieldsFor(d.entries, name)[field := value]])
  {
    hide *;
    var key := owner.Prefix() + field;
    OwnerKey(codec, owner, field);
    KeyFits(sp, key, value);
    LineAssigns(codec, d, sp, key, value);
    FieldAssigns(codec, d, owner.Name(codec), field, value);
  }

  lemma KeyFits(sp: Spacing, key: string, value: string)
    requires key != "" && Trimmed(key) && key[0] != '#' && '=' !in key && sp.IsBlank() && Trimmed(value)
    ensures Fits(sp, key, value)
  {
    hide Spacing.IsBlank, Trimmed;
  }

  lemma FieldAssigns(codec: Codec, d: Draft, name: string, field: string, value: string)
    ensures Assign(codec, d, RuleKey(name, field), value)
      == d.(entries := d.entries[name := FieldsFor(d.entries, name)[field := value]])
  {
  }

  lemma ConcludedElsewhere(d: Draft)
    ensures Conclude(d).(globalRule := DEFAULT_RULE, nameRules := map[])
      == d.settings.(globalRule := DEFAULT_RULE, nameRules := map[])
  {
    hide ParseRuleFields;
  }

  /** A key of a rule without a dot behind the name is ignored. */
  lemma DotlessLine(codec: Codec, d: Draft, sp: Spacing, rest: string, value: string)
    requires Fits(sp, "rule." + rest, value) && '.' !in rest
    ensures ReadLine(codec, d, Line(sp, "rule." + rest, value)) == d
  {
    hide Fits, Line, ReadLine, Trim;
    LineAssigns(codec, d, sp, "rule." + rest, value);
    var key := "rule." + rest;
    assert key[0] == 'r' && key[..5] == "rule." && key[5..] == rest;
    assert LastIndexAfter(rest, '.') == 0;
  }

  /** So is one without a name before the dot. */
  lemma NamelessLine(codec: Codec, d: Draft, sp: Spacing, left: string, field: string, value: string)
    requires codec.lower("") == "" && Blank(left) && FieldText(field)
    requires Fits(sp, "rule." + left + "." + field, value)
    ensures ReadLine(codec, d, Line(sp, "rule." + left + "." + field, value)) == d
  {
    var key := "rule." + left + "." + field;
    LineAssigns(codec, d, sp, key, value);
    hide *;
    NamelessKeyText(left, field);
    RSplitOnceOf(left, '.', field);
    TrimLeft("", left);
    assert "" + left == left;
    NamelessKey(codec, key, left, field);
    UnknownAssigns(codec, d, value);
  }

  lemma NamelessKeyText(left: string, field: string)
    requires FieldText(field)
    ensures var key := "rule." + left + "." + field; "rule." <= key && key[|"rule."|..] == left + ['.'] + field
    ensures Trimmed("") && '.' !in field
  {
    var key := "rule." + left + "." + field;
    assert key[..5] == "rule.";
  }

  lemma UnknownAssigns(codec: Codec, d: Draft, value: string)
    ensures Assign(codec, d, UnknownKey, value) == d
  {
  }

  lemma NamelessKey(codec: Codec, key: string, name: string, field: string)
    requires "rule." <= key && RSplitOnce(key[|"rule."|..], '.') == Some(Parts(name, field))
    requires codec.lower(Trim(name)) == ""
    ensures KeyOf(codec, key) == UnknownKey
  {
    hide RSplitOnce, Trim;
    assert key[0] == "rule."[0] == 'r';
  }
}
