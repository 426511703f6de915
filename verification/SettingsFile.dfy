/**
 Whole settings files: a file is a list of lines, each of which has the meaning `SettingsKeys` gives
 it, on top of the lines before it; and the lines the program writes, spelled out.
 */
module SettingsFile {
  import opened Core
  import opened Text
  import opened Settings
  import opened SettingsRoundTrip
  import opened SettingsKeys

  // ---------------------------------------------------------------- the last line of a file

  /** A text to which another line can be added. */
  predicate Ended(text: string) {
    text == "" || text[|text| - 1] == '\n'
  }

  /** A line with or without a line ending of either kind. */
  predicate OneLine(line: string, ending: string) {
    && line != "" && '\n' !in line
    && (ending == "" || ((ending == "\n" || ending == "\r\n") && line[|line| - 1] != '\r'))
  }

  lemma OnlyLine(line: string, ending: string)
    requires OneLine(line, ending)
    ensures Lines(line + ending) == [line]
  {
    if ending == "" {
      assert line + ending == line;
    } else {
      var text := if ending == "\n" then line else line + ['\r'];
      assert line + ending == text + ['\n'] + "";
      IndexAfter(text, '\n', "");
      NoLines();
      assert StripReturn(text) == line;
    }
  }

  lemma {:induction false} LinesLast(text: string, line: string, ending: string)
    requires Ended(text) && OneLine(line, ending)
    ensures Lines(text + line + ending) == Lines(text) + [line]
    decreases |text|
  {
    hide OneLine, StripReturn, Lines, IndexOf;
    if text == "" {
      assert text + line + ending == line + ending;
      OnlyLine(line, ending);
      NoLines();
    } else {
      var i := IndexOf(text, '\n');
      var first, rest := text[..i], text[i + 1..];
      FirstOf(text, first, rest, line + ending);
      assert text + line + ending == text + (line + ending);
      LinesLast(rest, line, ending);
      assert rest + line + ending == rest + (line + ending);
      assert [StripReturn(first)] + (Lines(rest) + [line]) == [StripReturn(first)] + Lines(rest) + [line];
    }
  }

  lemma FirstOf(text: string, first: string, rest: string, more: string)
    requires text != "" && Ended(text)
    requires IndexOf(text, '\n') < |text|
    requires first == text[..IndexOf(text, '\n')] && rest == text[IndexOf(text, '\n') + 1..]
    ensures Lines(text) == [StripReturn(first)] + Lines(rest)
    ensures Lines(text + more) == [StripReturn(first)] + Lines(rest + more)
    ensures Ended(rest)
  {
    hide Lines, StripReturn;
    assert text == first + ['\n'] + rest;
    assert text + more == first + ['\n'] + (rest + more);
    LinesFrom(first, rest);
    LinesFrom(first, rest + more);
  }

  lemma LinesFrom(first: string, rest: string)
    requires '\n' !in first
    ensures Lines(first + ['\n'] + rest) == [StripReturn(first)] + Lines(rest)
  {
    IndexAfter(first, '\n', rest);
    hide StripReturn;
  }

  /** What a file has led to before its rules are concluded. */
  function DraftOf(codec: Codec, contents: string): Draft {
    ReadLines(codec, Draft(DEFAULT_SETTINGS, map[]), Lines(contents))
  }

  lemma DraftLast(codec: Codec, contents: string, line: string, ending: string)
    requires Ended(contents) && OneLine(line, ending)
    ensures DraftOf(codec, contents + line + ending) == ReadLine(codec, DraftOf(codec, contents), line)
    ensures FromContents(codec, contents) == Conclude(DraftOf(codec, contents))
    ensures FromContents(codec, contents + line + ending) == Conclude(DraftOf(codec, contents + line + ending))
  {
    hide Ended, OneLine, Lines, ReadLine, ReadLines, Conclude;
    LinesLast(contents, line, ending);
    ReadOneMore(codec, Draft(DEFAULT_SETTINGS, map[]), Lines(contents), line);
  }

  lemma LineKeepsReached(codec: Codec, d: Draft, line: string)
    requires Reached(d)
    ensures Reached(ReadLine(codec, d, line))
  {
    hide Trim, SplitOnce, KeyOf, ExpandedOf, Clamp;
  }

  lemma {:induction false} LinesReach(codec: Codec, lines: seq<string>)
    ensures Reached(ReadLines(codec, Draft(DEFAULT_SETTINGS, map[]), lines))
  {
    hide ReadLine;
    if lines != [] {
      var n := |lines| - 1;
      LinesReach(codec, lines[..n]);
      LineKeepsReached(codec, ReadLines(codec, Draft(DEFAULT_SETTINGS, map[]), lines[..n]), lines[n]);
    }
  }

  /** The settings of an empty file. */
  lemma EmptyFile(codec: Codec)
    ensures FromContents(codec, "") == AppSettings(
      System, true, true, 1180.0, 700.0, -1.0, -1.0, false,
      ProcessRule(false, false, 0, false, 0, false, None, None, None, None, 0.0, 0.0), map[], {})
  {
    assert Lines("") == [];
    hide ReadLine, ParseRuleFields;
  }

  /**
   A further line for a field of a rule changes exactly that field of that rule, to what its value
   says; every other rule and every other setting of the file stays as it was.
   */
  lemma LastRuleLine(codec: Codec, contents: string, owner: Owner, field: string, sp: Spacing, value: string,
        ending: string, other: string)
    requires owner.IsOne(codec) && FieldText(field) && sp.IsBlank() && Trimmed(value)
    requires Ended(contents) && OneLine(Line(sp, owner.Prefix() + field, value), ending)
    ensures var before := FromContents(codec, contents);
      var after := FromContents(codec, contents + Line(sp, owner.Prefix() + field, value) + ending);
      var name := owner.Name(codec);
      && RuleNamed(after, name) == FieldGiven(RuleNamed(before, name), field, value)
      && (other != name ==> RuleNamed(after, other) == RuleNamed(before, other))
      && after.(globalRule := DEFAULT_RULE, nameRules := map[])
           == before.(globalRule := DEFAULT_RULE, nameRules := map[])
  {
    var line := Line(sp, owner.Prefix() + field, value);
    LinesReach(codec, Lines(contents));
    assert Reached(DraftOf(codec, contents)) by { hide Reached, ReadLines, Lines; }
    hide *;
    DraftLast(codec, contents, line, ending);
    RuleLine(codec, DraftOf(codec, contents), owner, field, sp, value, other);
  }

  lemma SettingConcluded(codec: Codec, d: Draft, key: string, value: string)
    ensures Conclude(d.(settings := SettingGiven(codec, d.settings, key, value)))
      == SettingGiven(codec, Conclude(d), key, value)
  {
    var c := Conclude(d);
    hide ParseRuleFields, SettingGiven;
    assert c == d.settings.(globalRule := c.globalRule, nameRules := c.nameRules);
    SettingElsewhere(codec, d.settings, key, value, c.globalRule, c.nameRules);
  }

  /** Settings and rules do not influence each other. */
  lemma SettingElsewhere(codec: Codec, s: AppSettings, key: string, value: string, all: ProcessRule,
        rules: map<string, ProcessRule>)
    ensures SettingGiven(codec, s.(globalRule := all, nameRules := rules), key, value)
      == SettingGiven(codec, s, key, value).(globalRule := all, nameRules := rules)
    ensures SettingGiven(codec, s, key, value).globalRule == s.globalRule
  {
    hide ExpandedOf, Yes, Within;
  }

  /** A further line with any other key changes the setting it names, and nothing else. */
  lemma LastSettingLine(codec: Codec, contents: string, sp: Spacing, key: string, value: string, ending: string)
    requires Fits(sp, key, value) && !("global." <= key) && !("rule." <= key)
    requires Ended(contents) && OneLine(Line(sp, key, value), ending)
    ensures FromContents(codec, contents + Line(sp, key, value) + ending)
      == SettingGiven(codec, FromContents(codec, contents), key, value)
  {
    hide *;
    DraftLast(codec, contents, Line(sp, key, value), ending);
    SettingLine(codec, DraftOf(codec, contents), sp, key, value);
    SettingConcluded(codec, DraftOf(codec, contents), key, value);
  }

  /** A further blank line, comment or line without `=` changes nothing. */
  lemma LastSkippedLine(codec: Codec, contents: string, a: string, text: string, b: string, ending: string)
    requires Blank(a) && Blank(b) && Trimmed(text) && (text == "" || text[0] == '#' || '=' !in text)
    requires Ended(contents) && OneLine(a + text + b, ending)
    ensures FromContents(codec, contents + (a + text + b) + ending) == FromContents(codec, contents)
  {
    SkippedLine(codec, DraftOf(codec, contents), a, text, b);
    hide *;
    DraftLast(codec, contents, a + text + b, ending);
  }

  // ---------------------------------------------------------------- lists of names

  /** A name in the list of expanded programs, with the white space around it. */
  datatype Piece = Piece(left: string, text: string, right: string)
  {
    function Whole(): string {
      left + text + right
    }

    ghost predicate IsOne() {
      Blank(left) && Blank(right) && Trimmed(text) && ',' !in text
    }
  }

  function Wholes(pieces: seq<Piece>): seq<string> {
    seq(|pieces|, i requires 0 <= i < |pieces| => pieces[i].Whole())
  }

  lemma WholesAre(pieces: seq<Piece>)
    requires forall i :: 0 <= i < |pieces| ==> pieces[i].IsOne()
    ensures Without(Wholes(pieces), ',')
    ensures forall i :: 0 <= i < |pieces| ==> Trim(Wholes(pieces)[i]) == pieces[i].text
  {
    forall i | 0 <= i < |pieces|
      ensures ',' !in Wholes(pieces)[i] && Trim(Wholes(pieces)[i]) == pieces[i].text
    {
      assert pieces[i].IsOne();
      TrimPadded(pieces[i].left, pieces[i].text, pieces[i].right);
    }
    hide Trim;
  }

  /** The expanded programs are the names between the commas, trimmed and in lower case, empty ones left out. */
  lemma ExpandedMeans(codec: Codec, pieces: seq<Piece>, name: string)
    requires pieces != [] && forall i :: 0 <= i < |pieces| ==> pieces[i].IsOne()
    ensures name in ExpandedOf(codec, Join(Wholes(pieces), ",")) <==>
      exists i :: 0 <= i < |pieces| && pieces[i].text != "" && codec.lower(pieces[i].text) == name
  {
    var wholes := Wholes(pieces);
    var value := Join(wholes, ",");
    WholesAre(pieces);
    assert [','] == ",";
    SplitAllOfJoin(wholes, ',');
    hide Trim, SplitAll, Join, Piece.IsOne, Wholes, Without;
    assert |wholes| == |pieces| by { WholesLength(pieces); }
    if name in ExpandedOf(codec, value) {
      var piece :| piece in SplitAll(value, ',') && Trim(piece) != "" && codec.lower(Trim(piece)) == name;
      var i :| 0 <= i < |wholes| && wholes[i] == piece;
      assert pieces[i].text != "" && codec.lower(pieces[i].text) == name;
    }
    if i :| 0 <= i < |pieces| && pieces[i].text != "" && codec.lower(pieces[i].text) == name {
      assert wholes[i] in SplitAll(value, ',');
    }
  }

  lemma WholesLength(pieces: seq<Piece>)
    ensures |Wholes(pieces)| == |pieces|
  {
  }

  // ---------------------------------------------------------------- numbers

  function Zeros(k: nat): string {
    seq(k, i => '0')
  }

  /** An optional plus sign, any number of zeros, and the decimal digits of `n`. */
  ghost predicate Numeral(text: string, n: nat) {
    exists k: nat :: text == Zeros(k) + Decimal(n) || text == "+" + Zeros(k) + Decimal(n)
  }

  lemma {:induction false} ValueAfterZeros(k: nat, s: string)
    requires AllDigits(s)
    ensures AllDigits(Zeros(k) + s) && Value(Zeros(k) + s) == Value(s)
    decreases |s|, k
  {
    if s != "" {
      assert (Zeros(k) + s)[..k + |s| - 1] == Zeros(k) + s[..|s| - 1];
      ValueAfterZeros(k, s[..|s| - 1]);
    } else if k > 0 {
      assert (Zeros(k) + s)[..k - 1] == Zeros(k - 1) + s;
      ValueAfterZeros(k - 1, s);
    } else {
      assert Zeros(k) + s == "";
    }
  }

  lemma DecimalStep(v: nat, c: char)
    requires IsDigit(c)
    ensures v > 0 ==> Decimal(v * 10 + (c as int - '0' as int)) == Decimal(v) + [c]
    ensures v == 0 ==> Decimal(v * 10 + (c as int - '0' as int)) == [c]
    ensures Decimal(0) == "0"
  {
    var n := v * 10 + (c as int - '0' as int);
    assert n / 10 == v && n % 10 == c as int - '0' as int;
  }

  lemma {:induction false} DigitsAreNumeral(s: string) returns (k: nat)
    requires s != "" && AllDigits(s)
    ensures s == Zeros(k) + Decimal(Value(s))
    decreases |s|
  {
    hide Decimal;
    var n := |s| - 1;
    var t := s[..n];
    assert s == t + [s[n]];
    DecimalStep(Value(t), s[n]);
    if t == "" {
      k := 0;
      assert Zeros(0) + [s[n]] == s;
    } else {
      k := DigitsAreNumeral(t);
      if Value(t) == 0 {
        assert Zeros(k) + "0" == Zeros(k + 1);
        k := k + 1;
      }
    }
  }

  /** Exactly the numerals of numbers up to the bound are read, each as its number. */
  lemma NumberMeans(text: string, most: nat, n: nat)
    ensures Number(text, most) == Some(n) <==> n <= most && Numeral(text, n)
  {
    var digits := if text != "" && text[0] == '+' then text[1..] else text;
    if Number(text, most) == Some(n) {
      var k := DigitsAreNumeral(digits);
      if digits != text { assert text == "+" + Zeros(k) + Decimal(n); }
      assert Numeral(text, n);
    }
    if Numeral(text, n) {
      var k :| text == Zeros(k) + Decimal(n) || text == "+" + Zeros(k) + Decimal(n);
      ValueAfterZeros(k, Decimal(n));
      ValueOfDecimal(n);
      NumeralDigits(text, k, n);
    }
  }

  lemma NumeralDigits(text: string, k: nat, n: nat)
    requires text == Zeros(k) + Decimal(n) || text == "+" + Zeros(k) + Decimal(n)
    ensures (if text != "" && text[0] == '+' then text[1..] else text) == Zeros(k) + Decimal(n)
  {
    assert AllDigits(Decimal(n));
    assert k > 0 ==> (Zeros(k) + Decimal(n))[0] == '0';
    assert k == 0 ==> (Zeros(k) + Decimal(n))[0] == Decimal(n)[0];
  }

  /** A file with one line. */
  lemma DownloadLossFile(codec: Codec)
    ensures RuleNamed(FromContents(codec, "global." + "download_loss_basis_points" + "=" + "500"), "global")
      == DEFAULT_RULE.(downloadLoss := Some(500))
  {
    var line := "global." + "download_loss_basis_points" + "=" + "500";
    var sp := Spacing("", "", "", "");
    var field := "download_loss_basis_points";
    hide *;
    TextOfLine(line, sp, field);
    EmptyFile(codec);
    FiveHundred();
    LastRuleLine(codec, "", Everything, field, sp, "500", "", "global");
    DownloadLossGiven(RuleNamed(FromContents(codec, ""), "global"), "500");
    GlobalName(codec);
  }

  lemma TextOfLine(line: string, sp: Spacing, field: string)
    requires field == "download_loss_basis_points" && line == "global." + field + "=" + "500"
    requires sp == Spacing("", "", "", "")
    ensures line == Line(sp, Everything.Prefix() + field, "500") && "" + line + "" == line
    ensures OneLine(line, "") && Ended("") && FieldText(field) && sp.IsBlank() && Trimmed("500")
    ensures forall codec :: Everything.IsOne(codec)
  {
    PlainField(field);
    assert '\n' !in "global." && '\n' !in "=" && '\n' !in "500";
  }

  lemma PlainField(field: string)
    requires field == "download_loss_basis_points"
    ensures FieldText(field) && '\n' !in field
  {
    assert field == FieldName(DownloadLoss);
    FieldNameIsPlain(DownloadLoss);
    hide FieldName;
  }

  lemma GlobalName(codec: Codec)
    ensures Everything.Name(codec) == "global"
    ensures RuleNamed(AppSettings(
      System, true, true, 1180.0, 700.0, -1.0, -1.0, false,
      ProcessRule(false, false, 0, false, 0, false, None, None, None, None, 0.0, 0.0), map[], {}), "global")
      == DEFAULT_RULE
  {
  }

  lemma FiveHundred()
    ensures Number("500", 10_000) == Some(500)
  {
    assert Decimal(50) == "50";
    assert Zeros(0) + Decimal(500) == "500";
    NumberMeans("500", 10_000, 500);
  }

  lemma DownloadLossGiven(rule: ProcessRule, value: string)
    ensures FieldGiven(rule, "download_loss_basis_points", value) == rule.(downloadLoss := Number(value, 10_000))
  {
    GivenIs(rule, DownloadLoss, value);
    hide FieldGiven, Number;
  }

  // ---------------------------------------------------------------- writing

  function Word(b: bool): string {
    if b then "true" else "false"
  }

  function IfSet(key: string, n: Option<nat>): seq<string> {
    if n.Some? then [key + "=" + Decimal(n.value)] else []
  }

  /** The lines for a rule; a rule that sets nothing has none, except for the global one. */
  lemma RuleLinesAre(prefix: string, rule: ProcessRule)
    ensures RuleLines(prefix, rule) ==
      if prefix != "global" && rule.(adjustedDownload := 0.0, adjustedUpload := 0.0) == DEFAULT_RULE then []
      else
        [prefix + ".block_all=" + Word(rule.blockAll),
         prefix + ".limit_download=" + Word(rule.limitDownload),
         prefix + ".download_kbps=" + Decimal(rule.downloadKbps),
         prefix + ".limit_upload=" + Word(rule.limitUpload),
         prefix + ".upload_kbps=" + Decimal(rule.uploadKbps),
         prefix + ".adaptive=" + Word(rule.adaptive)]
        + IfSet(prefix + ".download_loss_basis_points", rule.downloadLoss)
        + IfSet(prefix + ".upload_loss_basis_points", rule.uploadLoss)
        + IfSet(prefix + ".download_delay_ms", rule.downloadDelay)
        + IfSet(prefix + ".upload_delay_ms", rule.uploadDelay)
  {
    hide Decimal;
    SixLines(prefix, rule);
    FourLines(prefix, rule);
    assert FIELDS[..10] == FIELDS;
    hide FieldLines, FieldValue;
  }

  lemma FieldLine(prefix: string, rule: ProcessRule, n: nat, name: string)
    requires 0 < n <= |FIELDS| && FieldName(FIELDS[n - 1]) == name
    ensures FieldLines(prefix, rule, FIELDS[..n]) == FieldLines(prefix, rule, FIELDS[..n - 1])
      + match FieldValue(rule, FIELDS[n - 1]) case None => [] case Some(value) => [prefix + ("." + name + "=") + value]
  {
    FieldLinesStep(prefix, rule, n);
    hide FieldLines, FieldValue, FieldName, FIELDS;
    assert prefix + "." + name + "=" == prefix + ("." + name + "=");
  }

  lemma SixLines(prefix: string, rule: ProcessRule)
    ensures FieldLines(prefix, rule, FIELDS[..6]) ==
      [prefix + ".block_all=" + Word(rule.blockAll),
       prefix + ".limit_download=" + Word(rule.limitDownload),
       prefix + ".download_kbps=" + Decimal(rule.downloadKbps),
       prefix + ".limit_upload=" + Word(rule.limitUpload),
       prefix + ".upload_kbps=" + Decimal(rule.uploadKbps),
       prefix + ".adaptive=" + Word(rule.adaptive)]
  {
    hide Decimal, FieldLines;
    ThreeLines(prefix, rule);
    MoreLines(prefix, rule);
    hide FIELDS;
  }

  lemma SwitchTexts()
    ensures "." + "limit_download" + "=" == ".limit_download="
    ensures "." + "download_kbps" + "=" == ".download_kbps="
    ensures "." + "limit_upload" + "=" == ".limit_upload="
    ensures "." + "upload_kbps" + "=" == ".upload_kbps="
  {
  }

  lemma MoreLines(prefix: string, rule: ProcessRule)
    ensures FieldLines(prefix, rule, FIELDS[..6]) == FieldLines(prefix, rule, FIELDS[..3]) +
      [prefix + ".limit_upload=" + Word(rule.limitUpload),
       prefix + ".upload_kbps=" + Decimal(rule.uploadKbps),
       prefix + ".adaptive=" + Word(rule.adaptive)]
  {
    hide Decimal, FieldLines;
    FieldLine(prefix, rule, 4, "limit_upload");
    FieldLine(prefix, rule, 5, "upload_kbps");
    FieldLine(prefix, rule, 6, "adaptive");
    assert "." + "adaptive" + "=" == ".adaptive=";
    SwitchTexts();
    hide FieldName;
  }

  lemma ThreeLines(prefix: string, rule: ProcessRule)
    ensures FieldLines(prefix, rule, FIELDS[..3]) ==
      [prefix + ".block_all=" + Word(rule.blockAll),
       prefix + ".limit_download=" + Word(rule.limitDownload),
       prefix + ".download_kbps=" + Decimal(rule.downloadKbps)]
  {
    hide Decimal, FieldLines;
    NoLinesYet(prefix, rule);
    FieldLine(prefix, rule, 1, "block_all");
    FieldLine(prefix, rule, 2, "limit_download");
    FieldLine(prefix, rule, 3, "download_kbps");
    assert "." + "block_all" + "=" == ".block_all=";
    SwitchTexts();
    hide FieldName;
  }

  lemma NoLinesYet(prefix: string, rule: ProcessRule)
    ensures FieldLines(prefix, rule, FIELDS[..0]) == []
  {
    assert FIELDS[..0] == [];
  }

  lemma FourLines(prefix: string, rule: ProcessRule)
    ensures FieldLines(prefix, rule, FIELDS[..10]) == FieldLines(prefix, rule, FIELDS[..6])
        + IfSet(prefix + ".download_loss_basis_points", rule.downloadLoss)
        + IfSet(prefix + ".upload_loss_basis_points", rule.uploadLoss)
        + IfSet(prefix + ".download_delay_ms", rule.downloadDelay)
        + IfSet(prefix + ".upload_delay_ms", rule.uploadDelay)
  {
    hide *;
    LossLines(prefix, rule);
    DelayLines(prefix, rule);
  }

  lemma LossLines(prefix: string, rule: ProcessRule)
    ensures FieldLines(prefix, rule, FIELDS[..8]) == FieldLines(prefix, rule, FIELDS[..6])
        + IfSet(prefix + ".download_loss_basis_points", rule.downloadLoss)
        + IfSet(prefix + ".upload_loss_basis_points", rule.uploadLoss)
  {
    hide *;
    LossFields(rule);
    OptionalLine(prefix, rule, 7, "download_loss_basis_points", rule.downloadLoss);
    OptionalLine(prefix, rule, 8, "upload_loss_basis_points", rule.uploadLoss);
    LossTexts();
  }

  lemma LossFields(rule: ProcessRule)
    ensures |FIELDS| == 10
    ensures FieldName(FIELDS[6]) == "download_loss_basis_points"
    ensures FieldName(FIELDS[7]) == "upload_loss_basis_points"
    ensures FieldValue(rule, FIELDS[6]) == Shown(rule.downloadLoss)
    ensures FieldValue(rule, FIELDS[7]) == Shown(rule.uploadLoss)
  {
  }

  lemma LossTexts()
    ensures "." + "download_loss_basis_points" == ".download_loss_basis_points"
    ensures "." + "upload_loss_basis_points" == ".upload_loss_basis_points"
  {
  }

  lemma OptionalLine(prefix: string, rule: ProcessRule, n: nat, name: string, value: Option<nat>)
    requires 0 < n <= |FIELDS| && FieldName(FIELDS[n - 1]) == name && FieldValue(rule, FIELDS[n - 1]) == Shown(value)
    ensures FieldLines(prefix, rule, FIELDS[..n])
      == FieldLines(prefix, rule, FIELDS[..n - 1]) + IfSet(prefix + ("." + name), value)
  {
    FieldLinesStep(prefix, rule, n);
    hide FieldLines, FieldValue, FieldName, FIELDS, Decimal;
    assert prefix + "." + name == prefix + ("." + name);
  }

  lemma DelayLines(prefix: string, rule: ProcessRule)
    ensures FieldLines(prefix, rule, FIELDS[..10]) == FieldLines(prefix, rule, FIELDS[..8])
        + IfSet(prefix + ".download_delay_ms", rule.downloadDelay)
        + IfSet(prefix + ".upload_delay_ms", rule.uploadDelay)
  {
    hide Decimal, FieldLines;
    OptionalLine(prefix, rule, 9, "download_delay_ms", rule.downloadDelay);
    OptionalLine(prefix, rule, 10, "upload_delay_ms", rule.uploadDelay);
    hide IfSet, FieldName;
    assert "." + "download_delay_ms" == ".download_delay_ms";
    assert "." + "upload_delay_ms" == ".upload_delay_ms";
  }

  /** The lines every file begins with. */
  lemma HeaderLinesAre(codec: Codec, s: AppSettings)
    ensures HeaderLines(codec, s) ==
      ["# FlowBrake settings",
       "language=" + (match s.language case System => "system" case SimplifiedChinese => "zh-CN" case English => "en"),
       "speed_unit_bits=" + Word(s.speedUnitBits),
       "ipv6_enabled=" + Word(s.ipv6Enabled),
       "window_width=" + codec.showFloat(s.windowWidth),
       "window_height=" + codec.showFloat(s.windowHeight),
       "window_x=" + codec.showFloat(s.windowX),
       "window_y=" + codec.showFloat(s.windowY),
       "window_maximized=" + Word(s.windowMaximized)]
  {
    assert "language" + "=" == "language=" && "speed_unit_bits" + "=" == "speed_unit_bits=";
    assert "ipv6_enabled" + "=" == "ipv6_enabled=" && "window_maximized" + "=" == "window_maximized=";
    assert "window_width" + "=" == "window_width=" && "window_height" + "=" == "window_height=";
    assert "window_x" + "=" == "window_x=" && "window_y" + "=" == "window_y=";
  }
}
