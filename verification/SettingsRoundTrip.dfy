/** Reading back what was written gives the same settings, and whatever is read can be written and read again. */
module SettingsRoundTrip {
  import opened Core
  import opened Text
  import opened Settings

  // ---------------------------------------------------------------- settings that can be written

  predicate RuleInRange(rule: ProcessRule) {
    && rule.downloadKbps < 0x1_0000_0000 && rule.uploadKbps < 0x1_0000_0000
    && rule.downloadLoss.GetOr(0) <= 10_000 && rule.uploadLoss.GetOr(0) <= 10_000
    && rule.downloadDelay.GetOr(0) <= MAX_DELAY_MS && rule.uploadDelay.GetOr(0) <= MAX_DELAY_MS
    && rule.adjustedDownload == 0.0 && rule.adjustedUpload == 0.0
  }

  /** A name as the program keeps it: trimmed, on one line, in lower case. */
  predicate NameText(codec: Codec, name: string) {
    name != "" && Trimmed(name) && '\n' !in name && codec.lower(name) == name
  }

  predicate FloatText(codec: Codec, x: real) {
    var text := codec.showFloat(x);
    Trimmed(text) && '\n' !in text && codec.readFloat(text) == Some(x)
  }

  predicate WindowInRange(codec: Codec, s: AppSettings) {
    && 900.0 <= s.windowWidth <= 10000.0 && 500.0 <= s.windowHeight <= 10000.0
    && FloatText(codec, s.windowWidth) && FloatText(codec, s.windowHeight)
    && FloatText(codec, s.windowX) && FloatText(codec, s.windowY)
  }

  predicate RuleWritable(codec: Codec, name: string, rule: ProcessRule) {
    NameText(codec, name) && '=' !in name && RuleInRange(rule) && rule.HasAnyRule()
  }

  predicate ExpandedWritable(codec: Codec, name: string) {
    NameText(codec, name) && ',' !in name
  }

  /** Settings whose every part has a place in the file, leaving aside a rule for the name `global`. */
  ghost predicate Writable(codec: Codec, s: AppSettings) {
    && WindowInRange(codec, s)
    && RuleInRange(s.globalRule)
    && (forall name :: name in s.nameRules ==> RuleWritable(codec, name, s.nameRules[name]))
    && (forall name :: name in s.expanded ==> ExpandedWritable(codec, name))
  }

  // ---------------------------------------------------------------- one line

  predicate PlainKey(key: string) {
    key != "" && Trimmed(key) && key[0] != '#' && '=' !in key && '\n' !in key
  }

  predicate PlainValue(value: string) {
    Trimmed(value) && '\n' !in value
  }

  lemma PairIsLine(key: string, value: string)
    requires PlainKey(key) && PlainValue(value)
    ensures IsLine(Pair(key, value)) && Trimmed(Pair(key, value)) && Pair(key, value) != ""
      && Pair(key, value)[0] == key[0]
  {
    var line := Pair(key, value);
    assert line[|line| - 1] == if value == "" then '=' else value[|value| - 1];
  }

  lemma ReadPair(codec: Codec, d: Draft, key: string, value: string)
    requires PlainKey(key) && PlainValue(value)
    ensures ReadLine(codec, d, Pair(key, value)) == Assign(codec, d, KeyOf(codec, key), value)
  {
    hide KeyOf, Assign;
    PairIsLine(key, value);
    TrimOfTrimmed(Pair(key, value));
    TrimOfTrimmed(key);
    TrimOfTrimmed(value);
    SplitOnceOf(key, '=', value);
    assert Pair(key, value) == key + ['='] + value;
    hide Trim, SplitOnce;
  }

  lemma {:induction false} ReadLinesConcat(codec: Codec, d: Draft, a: seq<string>, b: seq<string>)
    ensures ReadLines(codec, d, a + b) == ReadLines(codec, ReadLines(codec, d, a), b)
  {
    if b == [] {
      assert a + b == a;
    } else {
      assert (a + b)[..|a + b| - 1] == a + b[..|b| - 1];
      ReadLinesConcat(codec, d, a, b[..|b| - 1]);
    }
    hide ReadLine;
  }

  lemma ReadOneMore(codec: Codec, d: Draft, lines: seq<string>, line: string)
    ensures ReadLines(codec, d, lines + [line]) == ReadLine(codec, ReadLines(codec, d, lines), line)
  {
    assert (lines + [line])[..|lines|] == lines;
    hide ReadLine;
  }

  // ---------------------------------------------------------------- rule fields

  predicate LowerCaseName(text: string) {
    text != "" && forall i :: 0 <= i < |text| ==> 'a' <= text[i] <= 'z' || text[i] == '_'
  }

  lemma LowerCaseIsPlain(text: string)
    requires LowerCaseName(text)
    ensures PlainKey(text) && '.' !in text
  {
  }

  lemma FieldNameIsPlain(f: Field)
    ensures PlainKey(FieldName(f)) && '.' !in FieldName(f)
  {
    assert LowerCaseName(FieldName(f));
    LowerCaseIsPlain(FieldName(f));
    hide FieldName, PlainKey;
  }

  lemma FieldNamesDiffer(f: Field, g: Field)
    requires f != g
    ensures FieldName(f) != FieldName(g)
  {
    assert |FieldName(f)| != |FieldName(g)|;
  }

  lemma GetUpdated(fields: Fields, f: Field, value: string, g: Field)
    ensures Get(fields[FieldName(f) := value], g) == if g == f then Some(value) else Get(fields, g)
  {
    if g != f { FieldNamesDiffer(f, g); }
    hide FieldName;
  }

  lemma GlobalKey(codec: Codec, f: Field)
    ensures PlainKey("global" + "." + FieldName(f))
    ensures KeyOf(codec, "global" + "." + FieldName(f)) == RuleKey("global", FieldName(f))
  {
    FieldNameIsPlain(f);
    hide FieldName;
    var key := "global" + "." + FieldName(f);
    assert key[0] == 'g' && key[|"global."|..] == FieldName(f) && key[..7] == "global.";
    assert key[|key| - 1] == FieldName(f)[|FieldName(f)| - 1];
  }

  lemma RuleKeyText(name: string, field: string)
    requires name != "" && field != ""
    ensures var key := "rule." + name + "." + field;
      && "rule." <= key && key[|"rule."|..] == name + ['.'] + field
      && key[0] == 'r' && key[|key| - 1] == field[|field| - 1]
      && (forall c :: c in key ==> c in name || c in field || c in "rule.")
  {
  }

  lemma KeyOfRule(codec: Codec, key: string, name: string, field: string)
    requires "rule." <= key && RSplitOnce(key[|"rule."|..], '.') == Some(Parts(name, field))
    requires Trim(name) == name && Trim(field) == field && codec.lower(name) == name && name != ""
    ensures KeyOf(codec, key) == RuleKey(name, field)
  {
    assert key[0] == "rule."[0] == 'r';
    hide RSplitOnce, Trim;
  }

  lemma NameKey(codec: Codec, name: string, f: Field)
    requires NameText(codec, name) && '=' !in name
    ensures PlainKey("rule." + name + "." + FieldName(f))
    ensures KeyOf(codec, "rule." + name + "." + FieldName(f)) == RuleKey(name, FieldName(f))
  {
    hide RSplitOnce, Trim, FieldName, KeyOf;
    FieldNameIsPlain(f);
    RSplitOnceOf(name, '.', FieldName(f));
    TrimOfTrimmed(name);
    TrimOfTrimmed(FieldName(f));
    RuleKeyText(name, FieldName(f));
    KeyOfRule(codec, "rule." + name + "." + FieldName(f), name, FieldName(f));
  }

  /** The prefix under which the fields of a rule are written, and the name they are read under. */
  ghost predicate Names(codec: Codec, prefix: string, name: string) {
    || (prefix == "global" && name == "global")
    || (prefix == "rule." + name && NameText(codec, name) && '=' !in name)
  }

  lemma NamesKey(codec: Codec, prefix: string, name: string, f: Field)
    requires Names(codec, prefix, name)
    ensures PlainKey(prefix + "." + FieldName(f))
    ensures KeyOf(codec, prefix + "." + FieldName(f)) == RuleKey(name, FieldName(f))
  {
    if prefix == "global" && name == "global" { GlobalKey(codec, f); } else { NameKey(codec, name, f); }
    hide KeyOf, FieldName, PlainKey;
  }

  lemma FieldValueIsPlain(rule: ProcessRule, f: Field)
    ensures FieldValue(rule, f).Some? ==> PlainValue(FieldValue(rule, f).value)
  {
    forall n: nat ensures PlainValue(Decimal(n)) { DecimalIsText(n); }
    hide Decimal;
  }

  /** What has been collected for `name` shows exactly the first `n` fields of the rule. */
  ghost predicate Shows(fields: Fields, rule: ProcessRule, n: nat)
    requires n <= |FIELDS|
  {
    forall f :: Get(fields, f) == if f in FIELDS[..n] then FieldValue(rule, f) else None
  }

  ghost predicate SameElsewhere(a: Entries, b: Entries, name: string) {
    forall other :: other != name ==> (other in a <==> other in b) && (other in a ==> a[other] == b[other])
  }

  lemma AllFields(f: Field)
    ensures f in FIELDS
    ensures forall i, j :: 0 <= i < j < |FIELDS| ==> FIELDS[i] != FIELDS[j]
  {
    match f
    case BlockAll => assert FIELDS[0] == f;
    case LimitDownload => assert FIELDS[1] == f;
    case DownloadKbps => assert FIELDS[2] == f;
    case LimitUpload => assert FIELDS[3] == f;
    case UploadKbps => assert FIELDS[4] == f;
    case Adaptive => assert FIELDS[5] == f;
    case DownloadLoss => assert FIELDS[6] == f;
    case UploadLoss => assert FIELDS[7] == f;
    case DownloadDelay => assert FIELDS[8] == f;
    case UploadDelay => assert FIELDS[9] == f;
  }

  lemma ShowsNext(before: Fields, after: Fields, rule: ProcessRule, n: nat)
    requires n < |FIELDS| && Shows(before, rule, n)
    requires var value := FieldValue(rule, FIELDS[n]);
      after == if value.Some? then before[FieldName(FIELDS[n]) := value.value] else before
    ensures Shows(after, rule, n + 1)
  {
    AllFields(FIELDS[n]);
    assert FIELDS[..n + 1] == FIELDS[..n] + [FIELDS[n]];
    forall f ensures Get(after, f) == if f in FIELDS[..n + 1] then FieldValue(rule, f) else None {
      if FieldValue(rule, FIELDS[n]).Some? { GetUpdated(before, FIELDS[n], FieldValue(rule, FIELDS[n]).value, f); }
    }
    hide Get, FieldValue, FieldName;
  }

  /** One more field of a rule is read. */
  lemma ReadField(codec: Codec, b: Draft, prefix: string, name: string, rule: ProcessRule, n: nat)
    requires Names(codec, prefix, name) && n < |FIELDS| && Shows(FieldsFor(b.entries, name), rule, n)
    requires FieldValue(rule, FIELDS[n]).Some?
    ensures var r := ReadLine(codec, b, Pair(prefix + "." + FieldName(FIELDS[n]), FieldValue(rule, FIELDS[n]).value));
      r.settings == b.settings && SameElsewhere(r.entries, b.entries, name)
        && Shows(FieldsFor(r.entries, name), rule, n + 1)
  {
    hide Shows, ReadLine, KeyOf, FieldName, FieldValue, PlainKey, PlainValue, Names;
    var f := FIELDS[n];
    var value := FieldValue(rule, f).value;
    NamesKey(codec, prefix, name, f);
    FieldValueIsPlain(rule, f);
    ReadPair(codec, b, prefix + "." + FieldName(f), value);
    ShowsNext(FieldsFor(b.entries, name), FieldsFor(b.entries, name)[FieldName(f) := value], rule, n);
  }

  lemma SkipField(fields: Fields, rule: ProcessRule, n: nat)
    requires n < |FIELDS| && Shows(fields, rule, n) && FieldValue(rule, FIELDS[n]).None?
    ensures Shows(fields, rule, n + 1)
  {
    ShowsNext(fields, fields, rule, n);
    hide Shows, FieldValue;
  }

  lemma NoFieldLines(codec: Codec, d: Draft, prefix: string, rule: ProcessRule)
    ensures ReadLines(codec, d, FieldLines(prefix, rule, FIELDS[..0])) == d
    ensures Shows(map[], rule, 0)
  {
    assert FIELDS[..0] == [];
    hide FieldValue, FieldName, FIELDS;
  }

  lemma {:induction false} ReadFieldLines(codec: Codec, d: Draft, prefix: string, name: string, rule: ProcessRule,
        n: nat)
    requires Names(codec, prefix, name) && name !in d.entries && n <= |FIELDS|
    ensures var r := ReadLines(codec, d, FieldLines(prefix, rule, FIELDS[..n]));
      && r.settings == d.settings
      && SameElsewhere(r.entries, d.entries, name)
      && Shows(FieldsFor(r.entries, name), rule, n)
  {
    hide Shows, FieldLines, ReadLines, ReadLine, FieldName, FieldValue, Names, FIELDS;
    if n == 0 {
      NoFieldLines(codec, d, prefix, rule);
    } else {
      hide FieldsFor;
      var k := n - 1;
      var before := FieldLines(prefix, rule, FIELDS[..k]);
      var b := ReadLines(codec, d, before);
      ReadFieldLines(codec, d, prefix, name, rule, k);
      FieldLinesStep(prefix, rule, n);
      if FieldValue(rule, FIELDS[k]).Some? {
        var line := Pair(prefix + "." + FieldName(FIELDS[k]), FieldValue(rule, FIELDS[k]).value);
        ReadOneMore(codec, d, before, line);
        ReadField(codec, b, prefix, name, rule, k);
      } else {
        assert before + [] == before;
        SkipField(FieldsFor(b.entries, name), rule, k);
      }
    }
  }

  lemma FieldLinesStep(prefix: string, rule: ProcessRule, n: nat)
    requires 0 < n <= |FIELDS|
    ensures var f := FIELDS[n - 1];
      FieldLines(prefix, rule, FIELDS[..n]) == FieldLines(prefix, rule, FIELDS[..n - 1])
        + if FieldValue(rule, f).Some? then [Pair(prefix + "." + FieldName(f), FieldValue(rule, f).value)] else []
  {
    assert FIELDS[..n][..n - 1] == FIELDS[..n - 1] && FIELDS[..n][n - 1] == FIELDS[n - 1];
    hide FieldValue, FieldName;
  }

  // ---------------------------------------------------------------- values

  lemma BoolOfText(b: bool)
    ensures ParseBool(BoolText(b)) == b
  {
    assert "false"[0] == 'f';
  }

  lemma DelayOfDecimal(n: nat)
    requires n <= MAX_DELAY_MS
    ensures ParseDelayMs(Decimal(n)) == Some(n)
  {
    DecimalIsText(n);
    TrimOfTrimmed(Decimal(n));
    ParseOfDecimal(n, 0x1_0000_0000);
    hide Decimal, Trim, ParseUnsigned;
  }

  lemma ShowsAll(fields: Fields, rule: ProcessRule, f: Field)
    requires Shows(fields, rule, |FIELDS|)
    ensures Get(fields, f) == FieldValue(rule, f)
  {
    AllFields(f);
    assert FIELDS[..|FIELDS|] == FIELDS;
    hide Get, FieldValue;
  }

  lemma LossOfShown(fields: Fields, f: Field, loss: Option<nat>)
    requires Get(fields, f) == Shown(loss) && loss.GetOr(0) <= 10_000
    ensures ReadLoss(fields, f) == loss
  {
    ParseOfDecimal(loss.GetOr(0), 0x1_0000);
    hide ParseUnsigned, Decimal, Get;
  }

  lemma DelayOfShown(fields: Fields, f: Field, delay: Option<nat>)
    requires Get(fields, f) == Shown(delay) && delay.GetOr(0) <= MAX_DELAY_MS
    ensures ReadDelay(fields, f) == delay
  {
    DelayOfDecimal(delay.GetOr(0));
    hide ParseDelayMs, Decimal, Get;
  }

  lemma KbpsOfShown(fields: Fields, f: Field, kbps: nat)
    requires Get(fields, f) == Some(Decimal(kbps)) && kbps < 0x1_0000_0000
    ensures ReadKbps(fields, f) == kbps
  {
    ParseOfDecimal(kbps, 0x1_0000_0000);
    hide ParseUnsigned, Decimal, Get;
  }

  lemma BoolOfShown(fields: Fields, f: Field, b: bool)
    requires Get(fields, f) == Some(BoolText(b))
    ensures ReadBool(fields, f) == b
  {
    BoolOfText(b);
    hide ParseBool, BoolText, Get;
  }

  /** Fields that show a whole rule in range are read as that rule. */
  lemma ParseOfShown(fields: Fields, rule: ProcessRule)
    requires Shows(fields, rule, |FIELDS|) && RuleInRange(rule)
    ensures ParseRuleFields(fields) == rule
  {
    hide Shows, ReadBool, ReadKbps, ReadLoss, ReadDelay, Get, Decimal, BoolText;
    forall f ensures Get(fields, f) == FieldValue(rule, f) { ShowsAll(fields, rule, f); }
    BoolOfShown(fields, BlockAll, rule.blockAll);
    BoolOfShown(fields, LimitDownload, rule.limitDownload);
    KbpsOfShown(fields, DownloadKbps, rule.downloadKbps);
    BoolOfShown(fields, LimitUpload, rule.limitUpload);
    KbpsOfShown(fields, UploadKbps, rule.uploadKbps);
    BoolOfShown(fields, Adaptive, rule.adaptive);
    LossOfShown(fields, DownloadLoss, rule.downloadLoss);
    LossOfShown(fields, UploadLoss, rule.uploadLoss);
    DelayOfShown(fields, DownloadDelay, rule.downloadDelay);
    DelayOfShown(fields, UploadDelay, rule.uploadDelay);
  }

  // ---------------------------------------------------------------- all rules

  lemma ReadRule(codec: Codec, d: Draft, prefix: string, name: string, rule: ProcessRule)
    requires Names(codec, prefix, name) && name !in d.entries && (rule.HasAnyRule() || prefix == "global")
    ensures var r := ReadLines(codec, d, RuleLines(prefix, rule));
      && r.settings == d.settings
      && SameElsewhere(r.entries, d.entries, name)
      && name in r.entries && Shows(r.entries[name], rule, |FIELDS|)
  {
    var r := ReadLines(codec, d, RuleLines(prefix, rule));
    ReadFieldLines(codec, d, prefix, name, rule, |FIELDS|);
    assert FIELDS[..|FIELDS|] == FIELDS;
    ShowsAll(FieldsFor(r.entries, name), rule, BlockAll);
    assert Get(map[], BlockAll).None?;
    hide ReadLines, FieldLines, Shows, Names, Get;
  }

  /** The entries hold the global rule and the rules of the first `n` names, and nothing else. */
  ghost predicate Collected(entries: Entries, s: AppSettings, names: seq<string>, n: nat)
    requires n <= |names|
  {
    && (forall x :: x in entries <==> x == "global" || x in names[..n])
    && "global" in entries && Shows(entries["global"], s.globalRule, |FIELDS|)
    && (forall i :: 0 <= i < n ==>
      names[i] in entries && names[i] in s.nameRules && Shows(entries[names[i]], s.nameRules[names[i]], |FIELDS|))
  }

  ghost predicate NamesListed(codec: Codec, s: AppSettings, names: seq<string>) {
    && Lists(names, s.nameRules.Keys) && "global" !in names
    && forall i :: 0 <= i < |names| ==> RuleWritable(codec, names[i], s.nameRules[names[i]])
  }

  lemma CollectOne(before: Entries, after: Entries, s: AppSettings, names: seq<string>, n: nat)
    requires n < |names| && Lists(names, s.nameRules.Keys) && "global" !in names
    requires Collected(before, s, names, n) && SameElsewhere(after, before, names[n])
    requires names[n] in after && Shows(after[names[n]], s.nameRules[names[n]], |FIELDS|)
    ensures Collected(after, s, names, n + 1)
  {
    hide Shows, FIELDS;
    assert names[..n + 1] == names[..n] + [names[n]];
    assert names[n] in names;
    forall i | 0 <= i < n ensures names[i] != names[n] {}
  }

  lemma {:induction false} ReadNames(codec: Codec, d: Draft, s: AppSettings, names: seq<string>, n: nat)
    requires n <= |names| && NamesListed(codec, s, names) && Collected(d.entries, s, names, 0)
    ensures var r := ReadLines(codec, d, NameLines(s.nameRules, names[..n]));
      r.settings == d.settings && Collected(r.entries, s, names, n)
  {
    hide RuleLines, Collected, ReadLine, Shows, FIELDS;
    if n == 0 {
      assert names[..0] == [];
    } else {
      var k := n - 1;
      var name := names[k];
      assert names[..n][..k] == names[..k] && names[..n][k] == name;
      ReadNames(codec, d, s, names, k);
      var before := NameLines(s.nameRules, names[..k]);
      var b := ReadLines(codec, d, before);
      ReadLinesConcat(codec, d, before, RuleLines("rule." + name, s.nameRules[name]));
      assert name !in b.entries by { NotYetCollected(b.entries, s, names, k); }
      ReadRule(codec, b, "rule." + name, name, s.nameRules[name]);
      var r := ReadLines(codec, b, RuleLines("rule." + name, s.nameRules[name]));
      CollectOne(b.entries, r.entries, s, names, k);
      hide ReadLines, NamesListed, Names;
    }
  }

  lemma NotYetCollected(entries: Entries, s: AppSettings, names: seq<string>, n: nat)
    requires n < |names| && Lists(names, s.nameRules.Keys) && "global" !in names && Collected(entries, s, names, n)
    ensures names[n] !in entries
  {
    assert names[n] in names;
    hide Shows, FIELDS;
  }

  /** Collected rules are concluded to be the rules that were written. */
  lemma ConcludeCollected(d: Draft, codec: Codec, s: AppSettings, names: seq<string>)
    requires NamesListed(codec, s, names) && RuleInRange(s.globalRule) && Collected(d.entries, s, names, |names|)
    ensures Conclude(d) == d.settings.(globalRule := s.globalRule, nameRules := s.nameRules)
  {
    hide ParseRuleFields, Shows, FIELDS;
    assert names[..|names|] == names;
    ParseOfShown(d.entries["global"], s.globalRule);
    forall name | name in s.nameRules
      ensures name in d.entries && name != "global" && ParseRuleFields(d.entries[name]) == s.nameRules[name]
    {
      var i :| 0 <= i < |names| && names[i] == name;
      ParseOfShown(d.entries[name], s.nameRules[name]);
    }
    forall name | name in d.entries && name != "global" ensures name in s.nameRules {
      assert name in names;
    }
    assert Conclude(d).nameRules == s.nameRules;
  }

  // ---------------------------------------------------------------- the other lines

  lemma HeaderKeys(codec: Codec)
    ensures PlainKey("language") && KeyOf(codec, "language") == LanguageKey
    ensures PlainKey("speed_unit_bits") && KeyOf(codec, "speed_unit_bits") == SpeedUnitKey
    ensures PlainKey("ipv6_enabled") && KeyOf(codec, "ipv6_enabled") == Ipv6Key
  {
    assert LowerCaseName("language") && LowerCaseName("speed_unit_bits");
    LowerCaseIsPlain("language");
    LowerCaseIsPlain("speed_unit_bits");
  }

  lemma LaterKeys(codec: Codec)
    ensures PlainKey("window_maximized") && KeyOf(codec, "window_maximized") == MaximizedKey
    ensures PlainKey("expanded") && KeyOf(codec, "expanded") == ExpandedKey
  {
    assert LowerCaseName("window_maximized") && LowerCaseName("expanded");
    LowerCaseIsPlain("window_maximized");
    LowerCaseIsPlain("expanded");
  }

  lemma SizeKeys(codec: Codec)
    ensures PlainKey("window_width") && KeyOf(codec, "window_width") == WidthKey
    ensures PlainKey("window_height") && KeyOf(codec, "window_height") == HeightKey
  {
    assert LowerCaseName("window_width") && LowerCaseName("window_height");
    LowerCaseIsPlain("window_width");
    LowerCaseIsPlain("window_height");
  }

  lemma PositionKeys(codec: Codec)
    ensures PlainKey("window_x") && KeyOf(codec, "window_x") == XKey
    ensures PlainKey("window_y") && KeyOf(codec, "window_y") == YKey
  {
    assert LowerCaseName("window_x") && LowerCaseName("window_y");
    LowerCaseIsPlain("window_x");
    LowerCaseIsPlain("window_y");
  }

  lemma BoolTextIsPlain(b: bool)
    ensures PlainValue(BoolText(b))
  {
    BoolOfText(b);
    assert LowerCaseName(BoolText(b));
    LowerCaseIsPlain(BoolText(b));
  }

  lemma LanguageOfCode(l: Language)
    ensures LanguageOf(l.Code()) == l && PlainValue(l.Code())
  {
    assert "system"[0] == 's' && "zh-CN"[0] == 'z' && "en"[0] == 'e';
  }

  lemma CommentIsSkipped(codec: Codec, d: Draft)
    ensures ReadLine(codec, d, "# FlowBrake settings") == d && IsLine("# FlowBrake settings")
  {
    var line := "# FlowBrake settings";
    assert line[0] == '#' && line[|line| - 1] == 's';
    TrimOfTrimmed(line);
    hide Trim;
  }

  lemma ReadNextPair(codec: Codec, d: Draft, lines: seq<string>, key: string, value: string)
    requires PlainKey(key) && PlainValue(value)
    ensures ReadLines(codec, d, lines + [Pair(key, value)])
      == Assign(codec, ReadLines(codec, d, lines), KeyOf(codec, key), value)
  {
    hide ReadLine, PlainKey, PlainValue;
    ReadOneMore(codec, d, lines, Pair(key, value));
    ReadPair(codec, ReadLines(codec, d, lines), key, value);
  }

  function WithHeader(d: Draft, s: AppSettings): Draft {
    d.(settings := s.(globalRule := d.settings.globalRule, nameRules := d.settings.nameRules,
      expanded := d.settings.expanded))
  }

  function SwitchLines(s: AppSettings): seq<string> {
    ["# FlowBrake settings", Pair("language", s.language.Code()), Pair("speed_unit_bits", BoolText(s.speedUnitBits)),
     Pair("ipv6_enabled", BoolText(s.ipv6Enabled))]
  }

  lemma ReadSwitches(codec: Codec, d: Draft, s: AppSettings)
    ensures ReadLines(codec, d, SwitchLines(s))
      == d.(settings := d.settings.(language := s.language, speedUnitBits := s.speedUnitBits,
        ipv6Enabled := s.ipv6Enabled))
  {
    var l0 := ["# FlowBrake settings"];
    var l1 := l0 + [Pair("language", s.language.Code())];
    var l2 := l1 + [Pair("speed_unit_bits", BoolText(s.speedUnitBits))];
    var l3 := l2 + [Pair("ipv6_enabled", BoolText(s.ipv6Enabled))];
    assert l3 == SwitchLines(s);
    hide ReadLine, ReadLines, KeyOf, PlainKey, Pair, SwitchLines, LanguageOf, ParseBool, BoolText, Trimmed;
    FirstLineIsSkipped(codec, d);
    HeaderKeys(codec);
    LanguageOfCode(s.language);
    BoolIs(s.speedUnitBits);
    BoolIs(s.ipv6Enabled);
    ReadNextPair(codec, d, l0, "language", s.language.Code());
    ReadNextPair(codec, d, l1, "speed_unit_bits", BoolText(s.speedUnitBits));
    ReadNextPair(codec, d, l2, "ipv6_enabled", BoolText(s.ipv6Enabled));
  }

  function WindowLines(codec: Codec, s: AppSettings): seq<string> {
    [Pair("window_width", codec.showFloat(s.windowWidth)), Pair("window_height", codec.showFloat(s.windowHeight)),
     Pair("window_x", codec.showFloat(s.windowX)), Pair("window_y", codec.showFloat(s.windowY))]
  }

  lemma AssignWindow(codec: Codec, d: Draft, s: AppSettings)
    requires WindowInRange(codec, s)
    ensures Assign(codec, d, WidthKey, codec.showFloat(s.windowWidth))
      == d.(settings := d.settings.(windowWidth := s.windowWidth))
    ensures Assign(codec, d, HeightKey, codec.showFloat(s.windowHeight))
      == d.(settings := d.settings.(windowHeight := s.windowHeight))
    ensures Assign(codec, d, XKey, codec.showFloat(s.windowX)) == d.(settings := d.settings.(windowX := s.windowX))
    ensures Assign(codec, d, YKey, codec.showFloat(s.windowY)) == d.(settings := d.settings.(windowY := s.windowY))
  {
    hide Trimmed;
  }

  lemma WindowTexts(codec: Codec, s: AppSettings)
    requires WindowInRange(codec, s)
    ensures PlainValue(codec.showFloat(s.windowWidth)) && PlainValue(codec.showFloat(s.windowHeight))
    ensures PlainValue(codec.showFloat(s.windowX)) && PlainValue(codec.showFloat(s.windowY))
  {
    hide Trimmed;
  }

  lemma ReadWindow(codec: Codec, d: Draft, s: AppSettings)
    requires WindowInRange(codec, s)
    ensures ReadLines(codec, d, WindowLines(codec, s))
      == d.(settings := d.settings.(windowWidth := s.windowWidth, windowHeight := s.windowHeight,
        windowX := s.windowX, windowY := s.windowY))
  {
    var l1 := [] + [Pair("window_width", codec.showFloat(s.windowWidth))];
    var l2 := l1 + [Pair("window_height", codec.showFloat(s.windowHeight))];
    var l3 := l2 + [Pair("window_x", codec.showFloat(s.windowX))];
    var l4 := l3 + [Pair("window_y", codec.showFloat(s.windowY))];
    assert l4 == WindowLines(codec, s);
    var d0 := d;
    assert ReadLines(codec, d, []) == d0;
    hide *;
    SizeKeys(codec);
    PositionKeys(codec);
    WindowTexts(codec, s);
    ReadNextPair(codec, d, [], "window_width", codec.showFloat(s.windowWidth));
    AssignWindow(codec, d0, s);
    var d1 := d0.(settings := d0.settings.(windowWidth := s.windowWidth));
    ReadNextPair(codec, d, l1, "window_height", codec.showFloat(s.windowHeight));
    AssignWindow(codec, d1, s);
    var d2 := d1.(settings := d1.settings.(windowHeight := s.windowHeight));
    ReadNextPair(codec, d, l2, "window_x", codec.showFloat(s.windowX));
    AssignWindow(codec, d2, s);
    var d3 := d2.(settings := d2.settings.(windowX := s.windowX));
    ReadNextPair(codec, d, l3, "window_y", codec.showFloat(s.windowY));
    AssignWindow(codec, d3, s);
  }

  lemma HeaderParts(codec: Codec, s: AppSettings)
    ensures HeaderLines(codec, s)
      == SwitchLines(s) + WindowLines(codec, s) + [Pair("window_maximized", BoolText(s.windowMaximized))]
  {
    hide Pair, BoolText;
  }

  lemma ReadHeader(codec: Codec, d: Draft, s: AppSettings)
    requires WindowInRange(codec, s)
    ensures ReadLines(codec, d, HeaderLines(codec, s)) == WithHeader(d, s)
  {
    hide ReadLine, ReadLines, KeyOf, PlainKey, PlainValue, Pair, HeaderLines, SwitchLines, WindowLines,
      ParseBool, BoolText, WindowInRange;
    HeaderParts(codec, s);
    ReadSwitches(codec, d, s);
    ReadLinesConcat(codec, d, SwitchLines(s), WindowLines(codec, s));
    ReadWindow(codec, ReadLines(codec, d, SwitchLines(s)), s);
    LaterKeys(codec);
    BoolIs(s.windowMaximized);
    ReadNextPair(codec, d, SwitchLines(s) + WindowLines(codec, s), "window_maximized", BoolText(s.windowMaximized));
  }

  lemma BoolIs(b: bool)
    ensures PlainValue(BoolText(b)) && ParseBool(BoolText(b)) == b
  {
    BoolTextIsPlain(b);
    BoolOfText(b);
  }

  lemma FirstLineIsSkipped(codec: Codec, d: Draft)
    ensures ReadLines(codec, d, ["# FlowBrake settings"]) == d
  {
    CommentIsSkipped(codec, d);
    ReadOneMore(codec, d, [], "# FlowBrake settings");
    assert [] + ["# FlowBrake settings"] == ["# FlowBrake settings"];
    hide ReadLine;
  }

  ghost predicate ExpandedListed(codec: Codec, s: AppSettings, expanded: seq<string>) {
    Lists(expanded, s.expanded) && forall i :: 0 <= i < |expanded| ==> ExpandedWritable(codec, expanded[i])
  }

  lemma {:induction false} JoinIsPlain(codec: Codec, names: seq<string>)
    requires names != [] && forall i :: 0 <= i < |names| ==> ExpandedWritable(codec, names[i])
    ensures Join(names, ",") != "" && PlainValue(Join(names, ","))
  {
    if |names| > 1 {
      JoinIsPlain(codec, names[1..]);
      var rest := Join(names[1..], ",");
      var all := Join(names, ",");
      assert all == names[0] + "," + rest;
      assert all[|all| - 1] == rest[|rest| - 1];
    }
  }

  lemma ExpandedOfJoin(codec: Codec, s: AppSettings, expanded: seq<string>)
    requires ExpandedListed(codec, s, expanded) && expanded != []
    ensures ExpandedOf(codec, Join(expanded, ",")) == s.expanded
  {
    SplitAllOfJoin(expanded, ',');
    forall i | 0 <= i < |expanded| ensures Trim(expanded[i]) == expanded[i] { TrimOfTrimmed(expanded[i]); }
    hide Trim, SplitAll, Join;
    var pieces := SplitAll(Join(expanded, ","), ',');
    assert pieces == expanded;
    forall name | name in s.expanded ensures name in ExpandedOf(codec, Join(expanded, ",")) {
      var i :| 0 <= i < |expanded| && expanded[i] == name;
      assert expanded[i] in pieces && Trim(expanded[i]) != "" && codec.lower(Trim(expanded[i])) == name;
    }
  }

  lemma ReadExpanded(codec: Codec, d: Draft, s: AppSettings, expanded: seq<string>)
    requires ExpandedListed(codec, s, expanded) && d.settings.expanded == {}
    ensures ReadLines(codec, d, ExpandedLines(expanded)) == d.(settings := d.settings.(expanded := s.expanded))
  {
    hide ReadLine, KeyOf, Pair, ExpandedOf, PlainKey, PlainValue, Join;
    if expanded == [] {
      assert s.expanded == {};
    } else {
      LaterKeys(codec);
      JoinIsPlain(codec, expanded);
      ExpandedOfJoin(codec, s, expanded);
      ReadNextPair(codec, d, [], "expanded", Join(expanded, ","));
      assert [] + [Pair("expanded", Join(expanded, ","))] == ExpandedLines(expanded);
    }
  }

  // ---------------------------------------------------------------- every line is one line

  ghost predicate AllAreLines(lines: seq<string>) {
    forall i :: 0 <= i < |lines| ==> IsLine(lines[i])
  }

  lemma {:induction false} FieldLinesAreLines(codec: Codec, prefix: string, name: string, rule: ProcessRule,
        fields: seq<Field>)
    requires Names(codec, prefix, name)
    ensures AllAreLines(FieldLines(prefix, rule, fields))
  {
    hide IsLine, FieldValue, FieldName, Names, PlainKey, PlainValue, Pair;
    if fields != [] {
      FieldLinesAreLines(codec, prefix, name, rule, fields[..|fields| - 1]);
      var f := fields[|fields| - 1];
      NamesKey(codec, prefix, name, f);
      FieldValueIsPlain(rule, f);
      if FieldValue(rule, f).Some? { PairIsLine(prefix + "." + FieldName(f), FieldValue(rule, f).value); }
    }
  }

  lemma {:induction false} NameLinesAreLines(codec: Codec, s: AppSettings, names: seq<string>)
    requires forall i :: 0 <= i < |names| ==>
      names[i] in s.nameRules && RuleWritable(codec, names[i], s.nameRules[names[i]])
    ensures AllAreLines(NameLines(s.nameRules, names))
  {
    hide IsLine, FieldLines, FIELDS;
    if names != [] {
      var name := names[|names| - 1];
      NameLinesAreLines(codec, s, names[..|names| - 1]);
      FieldLinesAreLines(codec, "rule." + name, name, s.nameRules[name], FIELDS);
    }
  }

  lemma HeaderLinesAreLines(codec: Codec, s: AppSettings)
    requires WindowInRange(codec, s)
    ensures AllAreLines(HeaderLines(codec, s))
  {
    hide IsLine, KeyOf, PlainKey, Pair, BoolText, Trimmed;
    CommentIsSkipped(codec, Draft(DEFAULT_SETTINGS, map[]));
    HeaderKeys(codec);
    SizeKeys(codec);
    PositionKeys(codec);
    LaterKeys(codec);
    LanguageOfCode(s.language);
    BoolIs(s.speedUnitBits);
    BoolIs(s.ipv6Enabled);
    BoolIs(s.windowMaximized);
    PairIsLine("language", s.language.Code());
    PairIsLine("speed_unit_bits", BoolText(s.speedUnitBits));
    PairIsLine("ipv6_enabled", BoolText(s.ipv6Enabled));
    PairIsLine("window_width", codec.showFloat(s.windowWidth));
    PairIsLine("window_height", codec.showFloat(s.windowHeight));
    PairIsLine("window_x", codec.showFloat(s.windowX));
    PairIsLine("window_y", codec.showFloat(s.windowY));
    PairIsLine("window_maximized", BoolText(s.windowMaximized));
  }

  lemma ExpandedLinesAreLines(codec: Codec, s: AppSettings, expanded: seq<string>)
    requires ExpandedListed(codec, s, expanded)
    ensures AllAreLines(ExpandedLines(expanded))
  {
    hide IsLine, KeyOf, PlainKey, PlainValue, Pair, Join;
    if expanded != [] {
      LaterKeys(codec);
      JoinIsPlain(codec, expanded);
      PairIsLine("expanded", Join(expanded, ","));
    }
  }

  ghost predicate Listed(codec: Codec, s: AppSettings, expanded: seq<string>, names: seq<string>) {
    ExpandedListed(codec, s, expanded) && NamesListed(codec, s, names)
  }

  lemma AllLinesAreLines(codec: Codec, s: AppSettings, expanded: seq<string>, names: seq<string>)
    requires WindowInRange(codec, s) && Listed(codec, s, expanded, names)
    ensures AllAreLines(AllLines(codec, s, expanded, names))
  {
    hide IsLine, HeaderLines, ExpandedLines, FieldLines, NameLines, FIELDS;
    HeaderLinesAreLines(codec, s);
    ExpandedLinesAreLines(codec, s, expanded);
    FieldLinesAreLines(codec, "global", "global", s.globalRule, FIELDS);
    NameLinesAreLines(codec, s, names);
  }

  // ---------------------------------------------------------------- the round trip

  lemma ReadGlobal(codec: Codec, d: Draft, s: AppSettings, names: seq<string>)
    requires d.entries == map[]
    ensures var r := ReadLines(codec, d, RuleLines("global", s.globalRule));
      r.settings == d.settings && Collected(r.entries, s, names, 0)
  {
    ReadRule(codec, d, "global", "global", s.globalRule);
    hide ReadLines, RuleLines, Shows, FIELDS;
  }

  /** Reading what was written, for rules listed in any order, gives the settings back. */
  lemma RoundTrip(codec: Codec, s: AppSettings, expanded: seq<string>, names: seq<string>)
    requires Writable(codec, s) && "global" !in s.nameRules
    requires Lists(expanded, s.expanded) && Lists(names, s.nameRules.Keys)
    ensures FromContents(codec, ToContents(codec, s, expanded, names)) == s
  {
    assert Listed(codec, s, expanded, names);
    assert WindowInRange(codec, s) && RuleInRange(s.globalRule);
    hide Writable, Lists, ReadLines, HeaderLines, ExpandedLines, RuleLines, NameLines, WindowInRange,
      RuleInRange, Collected, Conclude, Join, Lines, IsLine;
    var lines := AllLines(codec, s, expanded, names);
    AllLinesAreLines(codec, s, expanded, names);
    LinesOfJoin(lines);
    var d0 := Draft(DEFAULT_SETTINGS, map[]);
    var a, b, c, e := HeaderLines(codec, s), ExpandedLines(expanded), RuleLines("global", s.globalRule),
      NameLines(s.nameRules, names);
    ReadHeader(codec, d0, s);
    var d1 := ReadLines(codec, d0, a);
    ReadLinesConcat(codec, d0, a, b);
    ReadExpanded(codec, d1, s, expanded);
    var d2 := ReadLines(codec, d1, b);
    ReadLinesConcat(codec, d0, a + b, c);
    ReadGlobal(codec, d2, s, names);
    var d3 := ReadLines(codec, d2, c);
    ReadLinesConcat(codec, d0, a + b + c, e);
    assert names[..|names|] == names;
    ReadNames(codec, d3, s, names, |names|);
    ConcludeCollected(ReadLines(codec, d3, e), codec, s, names);
    hide Listed;
  }

  /** No text gives a rule for the name `global`: its entry is the global rule. */
  lemma NoRuleNamedGlobal(codec: Codec, contents: string)
    ensures "global" !in FromContents(codec, contents).nameRules
  {
    hide ReadLines, ParseRuleFields;
  }

  /** Of the settings with a place in the file, exactly those without a rule named `global` are read back. */
  lemma RoundTripExactly(codec: Codec, s: AppSettings, expanded: seq<string>, names: seq<string>)
    requires Writable(codec, s) && Lists(expanded, s.expanded) && Lists(names, s.nameRules.Keys)
    ensures FromContents(codec, ToContents(codec, s, expanded, names)) == s <==> "global" !in s.nameRules
  {
    NoRuleNamedGlobal(codec, ToContents(codec, s, expanded, names));
    if "global" !in s.nameRules { RoundTrip(codec, s, expanded, names); }
    hide FromContents, ToContents, Writable;
  }
}
