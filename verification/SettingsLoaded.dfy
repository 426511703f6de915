/** Settings read from any text at all can be written: saving and loading them again changes nothing. */
module SettingsLoaded {
  import opened Core
  import opened Text
  import opened Settings
  import opened SettingsRoundTrip

  /** Lower casing keeps names names and does nothing the second time. */
  ghost predicate LowersNames(codec: Codec) {
    && (forall t :: codec.lower(codec.lower(t)) == codec.lower(t))
    && (forall t :: t != "" && Trimmed(t) && '\n' !in t ==>
          var low := codec.lower(t);
          && low != "" && Trimmed(low) && '\n' !in low
          && ('=' !in t ==> '=' !in low) && (',' !in t ==> ',' !in low))
  }

  /** The numbers of type `floats` have a text that is read back, and only they are read. */
  ghost predicate ShowsFloats(codec: Codec, floats: real -> bool) {
    && (forall x :: floats(x) ==> FloatText(codec, x))
    && (forall t :: codec.readFloat(t).Some? ==> floats(codec.readFloat(t).value))
    && floats(900.0) && floats(500.0) && floats(10000.0) && floats(1180.0) && floats(700.0) && floats(-1.0)
  }

  // ---------------------------------------------------------------- values read are in range

  lemma {:induction false} LinesAreOneLine(text: string)
    ensures forall i :: 0 <= i < |Lines(text)| ==> '\n' !in Lines(text)[i]
    decreases |text|
  {
    if text != "" {
      var i := IndexOf(text, '\n');
      if i < |text| {
        LinesAreOneLine(text[i + 1..]);
        assert '\n' !in StripReturn(text[..i]);
      } else {
        assert text[..i] == text;
      }
    }
  }

  lemma ParsedInRange(fields: Fields)
    ensures RuleInRange(ParseRuleFields(fields))
  {
    hide Get, ParseBool, AllDigits, Value, Trim;
  }

  lemma SplitStep(text: string, c: char)
    ensures var at := IndexOf(text, c);
      && c !in text[..at]
      && (at == |text| ==> SplitAll(text, c) == [text] && c !in text)
      && (at < |text| ==> SplitAll(text, c) == [text[..at]] + SplitAll(text[at + 1..], c))
  {
    hide IndexOf;
    var at := IndexOf(text, c);
    if at == |text| { assert text[..at] == text; }
  }

  lemma {:induction false} PiecesAvoid(text: string, c: char, i: nat)
    requires i < |SplitAll(text, c)|
    ensures c !in SplitAll(text, c)[i]
    ensures forall x :: x in SplitAll(text, c)[i] ==> x in text
    decreases |text|
  {
    hide SplitAll, IndexOf;
    SplitStep(text, c);
    var at := IndexOf(text, c);
    if at < |text| && i > 0 {
      PiecesAvoid(text[at + 1..], c, i - 1);
    }
  }

  lemma ExpandedIsWritable(codec: Codec, value: string, name: string)
    requires LowersNames(codec) && '\n' !in value && name in ExpandedOf(codec, value)
    ensures ExpandedWritable(codec, name)
  {
    var piece :| piece in SplitAll(value, ',') && Trim(piece) != "" && name == codec.lower(Trim(piece));
    var i :| 0 <= i < |SplitAll(value, ',')| && SplitAll(value, ',')[i] == piece;
    PiecesAvoid(value, ',', i);
    TrimIsTrimmed(piece);
    hide Trim, SplitAll;
  }

  // ---------------------------------------------------------------- the invariant of reading

  ghost predicate Drafted(codec: Codec, floats: real -> bool, d: Draft) {
    && 900.0 <= d.settings.windowWidth <= 10000.0 && 500.0 <= d.settings.windowHeight <= 10000.0
    && floats(d.settings.windowWidth) && floats(d.settings.windowHeight)
    && floats(d.settings.windowX) && floats(d.settings.windowY)
    && d.settings.globalRule == DEFAULT_RULE
    && (forall name :: name in d.settings.expanded ==> ExpandedWritable(codec, name))
    && (forall name :: name in d.entries ==> name == "global" || (NameText(codec, name) && '=' !in name))
  }

  ghost predicate KeyFits(codec: Codec, key: Key) {
    key.RuleKey? ==> key.name == "global" || (NameText(codec, key.name) && '=' !in key.name)
  }

  lemma RuleNameFits(codec: Codec, before: string)
    requires LowersNames(codec) && '=' !in before && '\n' !in before
    requires codec.lower(Trim(before)) != "" && Trim(before) != ""
    ensures NameText(codec, codec.lower(Trim(before))) && '=' !in codec.lower(Trim(before))
  {
    TrimIsTrimmed(before);
    hide Trim;
  }

  lemma KeyOfFits(codec: Codec, key: string)
    requires LowersNames(codec) && codec.lower("") == "" && '=' !in key && '\n' !in key
    ensures KeyFits(codec, KeyOf(codec, key))
  {
    if KeyOf(codec, key).RuleKey? && "rule." <= key && !("global." <= key) {
      var rest := key[|"rule."|..];
      assert rest == key[5..];
      var parts := RSplitOnce(rest, '.').value;
      assert parts.before <= rest;
      hide KeyOf, LowersNames, Trimmed;
      RuleNameFits(codec, parts.before);
    }
    hide LowersNames, RSplitOnce, Trim, NameText;
  }

  lemma AssignKeepsDraft(codec: Codec, floats: real -> bool, d: Draft, key: Key, value: string)
    requires LowersNames(codec) && ShowsFloats(codec, floats) && Drafted(codec, floats, d) && KeyFits(codec, key)
      && '\n' !in value
    ensures Drafted(codec, floats, Assign(codec, d, key, value))
  {
    if key.ExpandedKey? {
      forall name | name in ExpandedOf(codec, value) ensures ExpandedWritable(codec, name) {
        ExpandedIsWritable(codec, value, name);
      }
    }
    hide ExpandedOf, ExpandedWritable, NameText, LowersNames, FloatText, ParseBool, LanguageOf;
  }

  lemma ReadLineKeepsDraft(codec: Codec, floats: real -> bool, d: Draft, line: string)
    requires LowersNames(codec) && codec.lower("") == "" && ShowsFloats(codec, floats)
    requires Drafted(codec, floats, d) && '\n' !in line
    ensures Drafted(codec, floats, ReadLine(codec, d, line))
  {
    hide Trim, LowersNames, ShowsFloats, Drafted, KeyFits, KeyOf, Assign;
    TrimIsTrimmed(line);
    var text := Trim(line);
    if text != "" && text[0] != '#' && SplitOnce(text, '=').Some? {
      var parts := SplitOnce(text, '=').value;
      TrimIsTrimmed(parts.before);
      TrimIsTrimmed(parts.after);
      KeyOfFits(codec, Trim(parts.before));
      AssignKeepsDraft(codec, floats, d, KeyOf(codec, Trim(parts.before)), Trim(parts.after));
    }
  }

  lemma {:induction false} ReadLinesKeepsDraft(codec: Codec, floats: real -> bool, d: Draft, lines: seq<string>)
    requires LowersNames(codec) && codec.lower("") == "" && ShowsFloats(codec, floats)
    requires Drafted(codec, floats, d) && forall i :: 0 <= i < |lines| ==> '\n' !in lines[i]
    ensures Drafted(codec, floats, ReadLines(codec, d, lines))
  {
    hide LowersNames, ShowsFloats, Drafted, ReadLine;
    if lines != [] {
      var n := |lines| - 1;
      ReadLinesKeepsDraft(codec, floats, d, lines[..n]);
      ReadLineKeepsDraft(codec, floats, ReadLines(codec, d, lines[..n]), lines[n]);
    }
  }

  lemma ConcludedIsWritable(codec: Codec, floats: real -> bool, d: Draft)
    requires ShowsFloats(codec, floats) && Drafted(codec, floats, d)
    ensures Writable(codec, Conclude(d))
  {
    forall fields ensures RuleInRange(ParseRuleFields(fields)) { ParsedInRange(fields); }
    hide ParseRuleFields, FloatText, NameText, ExpandedWritable;
  }

  /** Whatever text is read, the settings it gives have a place in the file. */
  lemma LoadedIsWritable(codec: Codec, floats: real -> bool, contents: string)
    requires LowersNames(codec) && codec.lower("") == "" && ShowsFloats(codec, floats)
    ensures Writable(codec, FromContents(codec, contents))
  {
    var d := Draft(DEFAULT_SETTINGS, map[]);
    assert Drafted(codec, floats, d);
    hide LowersNames, ShowsFloats, Drafted, Lines, ReadLines, Conclude, Writable;
    LinesAreOneLine(contents);
    ReadLinesKeepsDraft(codec, floats, d, Lines(contents));
    ConcludedIsWritable(codec, floats, ReadLines(codec, d, Lines(contents)));
  }

  /** Loading any text, saving the result and loading it again gives the same settings. */
  lemma LoadSaveLoad(codec: Codec, floats: real -> bool, contents: string, expanded: seq<string>, names: seq<string>)
    requires LowersNames(codec) && codec.lower("") == "" && ShowsFloats(codec, floats)
    requires var s := FromContents(codec, contents); Lists(expanded, s.expanded) && Lists(names, s.nameRules.Keys)
    ensures var s := FromContents(codec, contents);
      FromContents(codec, ToContents(codec, s, expanded, names)) == s
  {
    LoadedIsWritable(codec, floats, contents);
    NoRuleNamedGlobal(codec, contents);
    RoundTrip(codec, FromContents(codec, contents), expanded, names);
    hide FromContents, ToContents;
  }

  lemma WholeFloor(n: int)
    ensures (n as real).Floor == n
  {
  }

  const SIZE: nat := 0x1_0000_0000

  /** Whole numbers from -1 on, shown one too large, and letters without case. */
  function WholeText(x: real): string {
    if x >= -1.0 then Decimal(x.Floor + 1) else ""
  }

  function WholeValue(t: string): Option<real> {
    match ParseUnsigned(t, SIZE)
    case None => None
    case Some(n) => Some((n - 1) as real)
  }

  predicate IsWhole(x: real) {
    -1.0 <= x && x == x.Floor as real && x.Floor + 1 < SIZE
  }

  lemma WholeIsShown(codec: Codec, x: real)
    requires IsWhole(x) && codec.showFloat(x) == WholeText(x)
    requires codec.readFloat(WholeText(x)) == WholeValue(WholeText(x))
    ensures FloatText(codec, x)
  {
    hide Decimal, ParseUnsigned, Trimmed;
    DecimalIsText(x.Floor + 1);
    ParseOfDecimal(x.Floor + 1, SIZE);
  }

  lemma WholeIsRead(t: string)
    requires WholeValue(t).Some?
    ensures IsWhole(WholeValue(t).value)
  {
    hide AllDigits, Value;
    WholeFloor(ParseUnsigned(t, SIZE).value - 1);
  }

  lemma WholeFloats()
    ensures IsWhole(900.0) && IsWhole(500.0) && IsWhole(10000.0) && IsWhole(1180.0) && IsWhole(700.0) && IsWhole(-1.0)
  {
  }

  /** The assumptions can be met. */
  lemma AssumptionsAreMet() returns (codec: Codec, floats: real -> bool)
    ensures LowersNames(codec) && codec.lower("") == "" && ShowsFloats(codec, floats)
    ensures forall t :: codec.lower(t) == t
  {
    hide WholeText, WholeValue, IsWhole, FloatText, Trimmed;
    floats := (x: real) => IsWhole(x);
    codec := Codec((t: string) => t, (x: real) => WholeText(x), (t: string) => WholeValue(t));
    forall x | floats(x) ensures FloatText(codec, x) { WholeIsShown(codec, x); }
    forall t | codec.readFloat(t).Some? ensures floats(codec.readFloat(t).value) { WholeIsRead(t); }
    WholeFloats();
  }

  /** Default settings with a Block rule for a program of this name. */
  function Blocking(name: string): AppSettings {
    DEFAULT_SETTINGS.(nameRules := map[name := DEFAULT_RULE.(blockAll := true)])
  }

  lemma BlockingIsWritable(codec: Codec, floats: real -> bool, name: string)
    requires ShowsFloats(codec, floats) && NameText(codec, name) && '=' !in name
    ensures Writable(codec, Blocking(name))
  {
    hide FloatText, NameText;
  }

  lemma GlobalIsName(codec: Codec)
    requires codec.lower("global") == "global"
    ensures NameText(codec, "global") && '=' !in "global"
  {
    assert LowerCaseName("global");
    LowerCaseIsPlain("global");
  }

  /** Settings with a place in the file, listed in order, that are not read back: a rule for `global`. */
  lemma GlobalRuleIsLost() returns (codec: Codec, s: AppSettings)
    ensures Writable(codec, s) && s.nameRules.Keys == {"global"} && s.expanded == {}
    ensures Lists([], s.expanded) && Lists(["global"], s.nameRules.Keys)
    ensures FromContents(codec, ToContents(codec, s, [], ["global"])) != s
  {
    hide Writable, LowersNames, ShowsFloats, NameText, FromContents, ToContents, DEFAULT_RULE;
    var floats;
    codec, floats := AssumptionsAreMet();
    GlobalIsName(codec);
    s := Blocking("global");
    BlockingIsWritable(codec, floats, "global");
    assert s.nameRules.Keys == {"global"};
    RoundTripExactly(codec, s, [], ["global"]);
  }
}
