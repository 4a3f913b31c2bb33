// Which line of a hand-edited config.ini sets what: the last setting of a key
// decides (src/config/Configuration.cpp: parseConfiguration).

module ConfigurationMeaning {
  import opened Text
  import opened AudioModel
  import opened Configurations
  import opened ConfigurationFile

  // ----- Texts and their lines -----

  // Where the second line begins.
  function NextLine(text: string): nat
    requires LineEnd(text) < |text|
    ensures LineEnd(text) < NextLine(text) <= |text|
  {
    var i := LineEnd(text);
    if text[i] == '\r' && i + 1 < |text| && text[i + 1] == '\n' then i + 2 else i + 1
  }

  lemma LinesAre(text: string)
    ensures LineEnd(text) == |text| ==> LinesFrom(text) == [text] && OneLine(text)
    ensures LineEnd(text) < |text| ==> LinesFrom(text) == [text[..LineEnd(text)]] + LinesFrom(text[NextLine(text)..])
  {
    hide LineEnd;
    assert text[..|text|] == text;
  }

  lemma {:induction false} LinesJoin(text: string, rest: string)
    ensures LinesFrom(text + CRLF + rest) == LinesFrom(text) + LinesFrom(rest)
    decreases |text|
  {
    hide LinesFrom, LineEnd, NextLine;
    LinesAre(text);
    if LineEnd(text) == |text| {
      FirstLine(text, rest);
    } else {
      LinesJoin(text[NextLine(text)..], rest);
      LineGoesOn(text, rest);
    }
  }

  // The first line of a text is not changed by what follows the text.
  lemma LineGoesOn(text: string, rest: string)
    requires LineEnd(text) < |text|
    ensures LinesFrom(text + CRLF + rest)
            == [text[..LineEnd(text)]] + LinesFrom(text[NextLine(text)..] + CRLF + rest)
  {
    var s := text + CRLF + rest;
    SameEnd(text, s);
    LinesAre(s);
    NextStays(text, rest);
    hide LineEnd, LinesFrom, NextLine;
    SameParts(text, rest, LineEnd(text), NextLine(text));
  }

  lemma NextStays(text: string, rest: string)
    requires LineEnd(text) < |text| && LineEnd(text + CRLF + rest) == LineEnd(text)
    ensures NextLine(text + CRLF + rest) == NextLine(text)
  {
    var s, i := text + CRLF + rest, LineEnd(text);
    hide LineEnd;
    assert s[i] == text[i];
    if i + 1 < |text| {
      assert s[i + 1] == text[i + 1];
    } else {
      assert s[i + 1] == CRLF[0];
    }
  }

  lemma SameParts(text: string, rest: string, i: nat, next: nat)
    requires i <= |text| && next <= |text|
    ensures var s := text + CRLF + rest; s[..i] == text[..i] && s[next..] == text[next..] + CRLF + rest
  {
  }

  lemma {:induction false} SameEnd(text: string, s: string)
    requires LineEnd(text) < |text| && text <= s
    ensures LineEnd(s) == LineEnd(text)
  {
    if !IsLineBreak(text[0]) {
      SameEnd(text[1..], s[1..]);
    }
  }

  lemma {:induction false} LinesInTurn(st: ParseState, a: seq<string>, b: seq<string>)
    ensures ParseLines(st, a + b) == ParseLines(ParseLines(st, a), b)
    decreases |a|
  {
    hide ParseLine;
    if a == [] {
      assert a + b == b;
    } else {
      assert (a + b)[0] == a[0] && (a + b)[1..] == a[1..] + b;
      LinesInTurn(ParseLine(st, a[0]), a[1..], b);
    }
  }

  // A text read after another.
  lemma ReadsOn(text: string, rest: string)
    requires rest != ""
    ensures Parse(text + CRLF + rest) == ParseLines(Parse(text), LinesOf(rest))
  {
    hide ParseLine, LinesFrom, ParseLines;
    LinesJoin(text, rest);
    assert text + CRLF + rest != "";
    LinesInTurn(INITIAL, LinesFrom(text), LinesFrom(rest));
    if text == "" {
      EmptyLine();
    }
  }

  lemma EmptyLine()
    ensures ParseLines(INITIAL, LinesFrom("")) == INITIAL && Parse("") == INITIAL
  {
    hide ParseLine;
    assert LinesFrom("") == [""];
    ParseBlank(INITIAL);
    assert [""][1..] == [];
  }

  // ----- The last setting -----

  // A value that says yes or no; any other says nothing.
  function Truth(value: string, otherwise: bool): bool {
    if Lower(value) in ["true", "1", "yes", "on"] then true
    else if Lower(value) in ["false", "0", "no", "off"] then false
    else otherwise
  }

  predicate IsNumber(value: string) { value != "" && AllDigits(value) && |value| <= 18 }

  // The number, if the user can choose it.
  function Chosen(value: string, choices: seq<nat>, otherwise: nat): nat {
    if IsNumber(value) && DigitsValue(value) in choices then DigitsValue(value) else otherwise
  }

  // A key and a value as they can stand in a line of any section but the names'.
  predicate PlainSetting(section: string, key: string, value: string) {
    && Trimmed(section) && OneLine(section) && Lower(section) != "devicenames"
    && key != "" && Trimmed(key) && OneLine(key) && !Has(key, '=')
    && key[0] != ';' && key[0] != '#' && key[0] != '['
    && PlainValue(value)
  }

  // What the line of a switch does to the configuration.
  predicate SwitchSet(c: Configuration, was: Configuration, section: string, key: string, value: string) {
    && (section == "monitor" && key == "playback" ==>
          c == was.(monitorPlayback := Truth(value, was.monitorPlayback)))
    && (section == "monitor" && key == "capture" ==> c == was.(monitorCapture := Truth(value, was.monitorCapture)))
    && (section == "logging" && key == "enable" ==> c == was.(enableLogging := Truth(value, was.enableLogging)))
    && (section == "behavior" && key == "enforce" ==> c == was.(enforce := Truth(value, was.enforce)))
    && (section == "features" && key == "exclusivemodeprotection" ==>
          c == was.(exclusiveModeProtection := Truth(value, was.exclusiveModeProtection)))
    && (section == "features" && key == "formatstandardization" ==>
          c == was.(formatStandardization := Truth(value, was.formatStandardization)))
    && (section == "features" && key == "disableincompatibledevices" ==>
          c == was.(disableIncompatibleDevices := Truth(value, was.disableIncompatibleDevices)))
  }

  // What the line of a number or a text does.
  predicate ValueSet(c: Configuration, was: Configuration, section: string, key: string, value: string) {
    && (section == "monitor" && key == "checkintervalseconds" ==>
          c == was.(checkIntervalSeconds :=
                      if !IsNumber(value) then was.checkIntervalSeconds
                      else if DigitsValue(value) < 1 then 1
                      else if DigitsValue(value) > 86400 then 86400
                      else DigitsValue(value)))
    && (section == "features" && key == "samplerate" ==>
          c == was.(sampleRate := Chosen(value, [8000, 11025, 12000, 16000, 22050, 24000, 32000, 44100, 48000, 88200,
                                                 96000, 176400, 192000, 352800, 384000], was.sampleRate)))
    && (section == "features" && key == "bitdepth" ==> c == was.(bitDepth := Chosen(value, [16, 24, 32], was.bitDepth)))
    && (section == "features" && key == "disableconfirmedfor" ==> c == was.(disableConfirmedFor := value))
  }

  // What the line of the log level does: an unknown one is taken for INFO.
  predicate LevelSet(c: Configuration, was: Configuration, section: string, key: string, value: string) {
    section == "logging" && key == "level" ==> c == was.(logLevel := LevelOf(value))
  }

  function LevelOf(value: string): LogLevel {
    var v := Lower(value);
    if v == "debug" then Debug
    else if v == "info" then Info
    else if v == "warn" || v == "warning" then Warn
    else if v == "error" then Error
    else Info
  }

  lemma LevelIs(st: ParseState, section: string, key: string, value: string)
    requires Trimmed(value)
    ensures LevelSet(Assign(st, FieldOf(section, key), key, value).config, st.config, section, key, value)
  {
    assert section == "logging" && key == "level" ==> FieldOf(section, key) == LevelField;
    LevelParsed(value);
    LevelAssigned(st, key, value);
    hide FieldOf, Assign, ParseLogLevel, LevelOf;
  }

  lemma LevelParsed(value: string)
    requires Trimmed(value)
    ensures (if ParseLogLevel(value).Some? then ParseLogLevel(value).value else Info) == LevelOf(value)
  {
    assert Lower(Trim(value)) == Lower(value) by { TrimTrimmed(value); }
    hide Lower, Trim, Trimmed, TrimStart, TrimEnd, LowerChar, IsSpace;
    var v := Lower(value);
    if v == "debug" {
    } else if v == "info" {
    } else if v == "warn" || v == "warning" {
    } else if v == "error" {
    }
  }

  lemma LevelAssigned(st: ParseState, rawKey: string, value: string)
    ensures Assign(st, LevelField, rawKey, value).config
            == st.config.(logLevel := if ParseLogLevel(value).Some? then ParseLogLevel(value).value else Info)
  {
    hide ParseLogLevel, ParseBool, ParseUnsigned, IsSupportedSampleRate, IsSupportedBitDepth;
    var level := ParseLogLevel(value);
    if level.Some? {
      assert Assign(st, LevelField, rawKey, value) == st.With(st.config.(logLevel := level.value));
    }
  }

  lemma SwitchIs(st: ParseState, section: string, key: string, value: string)
    ensures SwitchSet(Assign(st, FieldOf(section, key), key, value).config, st.config, section, key, value)
  {
    SwitchNamed(section, key);
    SwitchAssigned(st, FieldOf(section, key), key, value);
    hide FieldOf, Assign, Truth;
  }

  lemma SwitchNamed(section: string, key: string)
    ensures section == "monitor" && key == "playback" ==> FieldOf(section, key) == PlaybackField
    ensures section == "monitor" && key == "capture" ==> FieldOf(section, key) == CaptureField
    ensures section == "logging" && key == "enable" ==> FieldOf(section, key) == LoggingField
    ensures section == "behavior" && key == "enforce" ==> FieldOf(section, key) == EnforceField
    ensures section == "features" && key == "exclusivemodeprotection" ==> FieldOf(section, key) == ExclusiveField
    ensures section == "features" && key == "formatstandardization" ==> FieldOf(section, key) == StandardizationField
    ensures section == "features" && key == "disableincompatibledevices" ==> FieldOf(section, key) == DisableField
  {
  }

  lemma SwitchAssigned(st: ParseState, field: Field, rawKey: string, value: string)
    ensures var c, was := Assign(st, field, rawKey, value).config, st.config;
            && (field == PlaybackField ==> c == was.(monitorPlayback := Truth(value, was.monitorPlayback)))
            && (field == CaptureField ==> c == was.(monitorCapture := Truth(value, was.monitorCapture)))
            && (field == LoggingField ==> c == was.(enableLogging := Truth(value, was.enableLogging)))
            && (field == EnforceField ==> c == was.(enforce := Truth(value, was.enforce)))
            && (field == ExclusiveField ==>
                  c == was.(exclusiveModeProtection := Truth(value, was.exclusiveModeProtection)))
            && (field == StandardizationField ==>
                  c == was.(formatStandardization := Truth(value, was.formatStandardization)))
            && (field == DisableField ==>
                  c == was.(disableIncompatibleDevices := Truth(value, was.disableIncompatibleDevices)))
  {
    TruthIs(value);
    hide ParseBool, Truth, ParseUnsigned, ParseLogLevel;
  }

  lemma TruthIs(value: string)
    ensures forall otherwise :: Truth(value, otherwise) == if ParseBool(value).Some? then ParseBool(value).value
                                                           else otherwise
  {
    hide Lower;
  }

  lemma ValueIs(st: ParseState, section: string, key: string, value: string)
    ensures ValueSet(Assign(st, FieldOf(section, key), key, value).config, st.config, section, key, value)
  {
    hide ParseBool, AllDigits, DigitsValue;
  }

  // Whatever a file says, a section and a setting put at its end decide: the
  // key's field gets the value, if it is one of the key's values, and nothing
  // else changes.
  lemma LastSettingWins(text: string, section: string, key: string, value: string)
    requires PlainSetting(section, key, value)
    ensures var was := Parse(text).config;
            var now := Parse(text + CRLF + "[" + section + "]" + CRLF + key + "=" + value).config;
            && SwitchSet(now, was, Lower(section), Lower(key), value)
            && ValueSet(now, was, Lower(section), Lower(key), value)
            && LevelSet(now, was, Lower(section), Lower(key), value)
  {
    hide Parse, ParseLine, ParseLines, LinesFrom, Lower, FieldOf, Assign, SwitchSet, ValueSet, LevelSet, IndexOf;
    var title, line := "[" + section + "]", key + "=" + value;
    var rest := title + CRLF + line;
    assert text + CRLF + "[" + section + "]" + CRLF + key + "=" + value == text + CRLF + rest;
    ReadsOn(text, rest);
    TwoLines(title, line, section, key, value);
    var st := Parse(text);
    ParseSection(st, section);
    var st1 := st.(section := Lower(section));
    ParseSetting(st1, key, value);
    BothRead(st, title, line);
    assert BeforeComment(value) == value;
    assert ApplyEntry(st1, key, value) == Assign(st1, FieldOf(Lower(section), Lower(key)), key, value);
    LowerKey(st1, FieldOf(Lower(section), Lower(key)), key, Lower(key), value);
    SwitchIs(st1, Lower(section), Lower(key), value);
    ValueIs(st1, Lower(section), Lower(key), value);
    LevelIs(st1, Lower(section), Lower(key), value);
  }

  // The spelling of a key only matters to a warning.
  lemma LowerKey(st: ParseState, field: Field, a: string, b: string, value: string)
    ensures Assign(st, field, a, value).config == Assign(st, field, b, value).config
  {
    hide ParseBool, ParseUnsigned, ParseLogLevel, IsSupportedSampleRate, IsSupportedBitDepth;
  }

  lemma TwoLines(title: string, line: string, section: string, key: string, value: string)
    requires PlainSetting(section, key, value) && title == "[" + section + "]" && line == key + "=" + value
    ensures title + CRLF + line != "" && LinesOf(title + CRLF + line) == [title, line]
    ensures GoodItem(Setting(key, value)) && GoodItem(Section(section))
  {
    hide LinesFrom, IndexOf, Lower;
    ParseSection(INITIAL, section);
    SettingLine(key, value);
    FirstLine(title, line);
    LinesAre(line);
    assert LineEnd(line) == |line|;
  }

  lemma BothRead(st: ParseState, title: string, line: string)
    ensures ParseLines(st, [title, line]) == ParseLine(ParseLine(st, title), line)
  {
    hide ParseLine;
    assert [title, line][1..] == [line] && [line][1..] == [];
    var st1 := ParseLine(st, title);
    assert ParseLines(st, [title, line]) == ParseLines(st1, [line]);
    assert ParseLines(st1, [line]) == ParseLines(ParseLine(st1, line), []);
  }
}
