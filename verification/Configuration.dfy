// config.ini: what saveConfiguration prints and what parseConfiguration makes
// of any text (src/config/Configuration.cpp).

module Configurations {
  import opened Text
  import opened AudioModel

  datatype LogLevel = Debug | Info | Warn | Error

  // The names chosen by the user, in the order of the std::map.
  type NameList = seq<(string, string)>

  datatype Configuration = Configuration(
    monitorPlayback: bool,
    monitorCapture: bool,
    checkIntervalSeconds: nat,
    enableLogging: bool,
    logLevel: LogLevel,
    enforce: bool,
    exclusiveModeProtection: bool,
    formatStandardization: bool,
    sampleRate: nat,
    bitDepth: nat,
    disableIncompatibleDevices: bool,
    disableConfirmedFor: string,
    deviceNames: NameList)

  const DEFAULT_CONFIGURATION := Configuration(
    true, true, 60, true, Info, true, true, false, 48000, 24, false, "", [])

  const MAX_INTERVAL_SECONDS: nat := 86400

  // ----- The confirmation key -----

  function FormatKey(rate: nat, bits: nat): string { Decimal(rate) + ":" + Decimal(bits) }

  function FormatTargetKey(cfg: Configuration): string { FormatKey(cfg.sampleRate, cfg.bitDepth) }

  predicate DisablePolicyConfirmed(cfg: Configuration) {
    cfg.formatStandardization && cfg.disableIncompatibleDevices && cfg.disableConfirmedFor == FormatTargetKey(cfg)
  }

  // A key belongs to one rate and one depth only.
  lemma FormatKeyInjective(rate: nat, bits: nat, rate': nat, bits': nat)
    requires FormatKey(rate, bits) == FormatKey(rate', bits')
    ensures rate == rate' && bits == bits'
  {
    hide Decimal;
    DecimalPlain(rate);
    DecimalPlain(rate');
    var a, b := Decimal(rate), Decimal(bits);
    var a', b' := Decimal(rate'), Decimal(bits');
    IndexOfFirst(a, ':', b);
    IndexOfFirst(a', ':', b');
    assert FormatKey(rate, bits) == a + [':'] + b;
    assert FormatKey(rate', bits') == a' + [':'] + b';
    assert |a| == |a'|;
    assert a == (a + [':'] + b)[..|a|] && b == (a + [':'] + b)[|a| + 1..];
    DecimalInjective(rate, rate');
    DecimalInjective(bits, bits');
  }

  lemma FormatKeyPlain(rate: nat, bits: nat)
    ensures FormatKey(rate, bits) != "" && PlainValue(FormatKey(rate, bits))
  {
    hide Decimal;
    DecimalPlain(rate);
    DecimalPlain(bits);
    assert !Has(Decimal(rate), ';') && !Has(Decimal(bits), ';');
  }

  // ----- Ordered names -----

  predicate LexLess(a: string, b: string) {
    b != "" && (a == "" || a[0] < b[0] || (a[0] == b[0] && LexLess(a[1..], b[1..])))
  }

  lemma {:induction false} LexTransitive(a: string, b: string, c: string)
    requires LexLess(a, b) && LexLess(b, c)
    ensures LexLess(a, c)
  {
    if a != "" && a[0] == b[0] && b[0] == c[0] {
      LexTransitive(a[1..], b[1..], c[1..]);
    }
  }

  lemma {:induction false} LexTotal(a: string, b: string)
    ensures a == b || LexLess(a, b) || LexLess(b, a)
    ensures !(LexLess(a, b) && LexLess(b, a)) && !LexLess(a, a)
  {
    if a == "" {
    } else {
      LexTotal(a[1..], if b == "" then "" else b[1..]);
      assert b != "" && a[0] == b[0] && a[1..] == b[1..] ==> a == b;
    }
  }

  predicate Ordered(names: NameList) {
    forall i, j :: 0 <= i < j < |names| ==> LexLess(names[i].0, names[j].0)
  }

  // names[id] = name.
  function SetName(names: NameList, id: string, name: string): (r: NameList)
    ensures forall i :: 0 <= i < |r| ==> r[i] == (id, name) || r[i] in names
  {
    if names == [] then [(id, name)]
    else if names[0].0 == id then [(id, name)] + names[1..]
    else if LexLess(id, names[0].0) then [(id, name)] + names
    else [names[0]] + SetName(names[1..], id, name)
  }

  lemma {:induction false} SetNameOrdered(names: NameList, id: string, name: string)
    requires Ordered(names)
    ensures Ordered(SetName(names, id, name))
  {
    hide LexLess;
    if names == [] {
    } else {
      var first, rest := names[0], names[1..];
      var r := SetName(rest, id, name);
      SetNameOrdered(rest, id, name);
      LexTotal(id, first.0);
      assert forall i :: 0 <= i < |rest| ==> rest[i] == names[i + 1];
      forall i | 0 <= i < |r|
        ensures LexLess(first.0, id) ==> LexLess(first.0, r[i].0)
      {
        if r[i] != (id, name) {
          var k :| 0 <= k < |rest| && rest[k] == r[i];
        }
      }
      forall i | 0 <= i < |names|
        ensures LexLess(id, first.0) ==> LexLess(id, names[i].0)
      {
        if LexLess(id, first.0) && i > 0 {
          LexTransitive(id, first.0, names[i].0);
        }
      }
    }
  }

  lemma {:induction false} SetNameLast(names: NameList, id: string, name: string)
    requires forall i :: 0 <= i < |names| ==> LexLess(names[i].0, id)
    ensures SetName(names, id, name) == names + [(id, name)]
  {
    hide LexLess;
    if names == [] {
    } else {
      LexTotal(names[0].0, id);
      SetNameLast(names[1..], id, name);
      assert names == [names[0]] + names[1..];
    }
  }

  // The kept name of an endpoint, looked up under any spelling; "" when there is none.
  function CustomDeviceName(names: NameList, endpointId: string): string {
    if names == [] then ""
    else if EqualsIgnoreCase(names[0].0, endpointId) then names[0].1
    else CustomDeviceName(names[1..], endpointId)
  }

  // ----- Reading values -----

  function ParseBool(value: string): Option<bool> {
    var v := Lower(value);
    if v == "true" || v == "1" || v == "yes" || v == "on" then Some(true)
    else if v == "false" || v == "0" || v == "no" || v == "off" then Some(false)
    else None
  }

  function ParseUnsigned(value: string): Option<nat> {
    if value == "" || !AllDigits(value) || |value| > 18 then None else Some(DigitsValue(value))
  }

  function ParseLogLevel(text: string): Option<LogLevel> {
    var t := Lower(Trim(text));
    if t == "debug" then Some(Debug)
    else if t == "info" then Some(Info)
    else if t == "warn" || t == "warning" then Some(Warn)
    else if t == "error" then Some(Error)
    else None
  }

  // Why a value was not taken, and what is used in its place.
  datatype Warning =
    | NotABoolean(key: string, value: string, fallback: bool)
    | NotANumber(value: string, interval: nat)
    | NotALevel(value: string)
    | UnsupportedRate(value: string, rate: nat)
    | UnsupportedDepth(value: string, depth: nat)

  datatype Field =
    | PlaybackField | CaptureField | IntervalField
    | LoggingField | LevelField | EnforceField
    | ExclusiveField | StandardizationField | RateField | DisableField | ConfirmedField | DepthField
    | NoField

  // Both in lower case. The source compares "section.key" with texts that
  // hold one dot each, which is comparing the two parts.
  function FieldOf(section: string, key: string): Field {
    if section == "monitor" then
      if key == "playback" then PlaybackField
      else if key == "capture" then CaptureField
      else if key == "checkintervalseconds" then IntervalField
      else NoField
    else if section == "logging" then
      if key == "enable" then LoggingField else if key == "level" then LevelField else NoField
    else if section == "behavior" then
      if key == "enforce" then EnforceField else NoField
    else if section == "features" then
      if key == "exclusivemodeprotection" then ExclusiveField
      else if key == "formatstandardization" then StandardizationField
      else if key == "samplerate" then RateField
      else if key == "disableincompatibledevices" then DisableField
      else if key == "disableconfirmedfor" then ConfirmedField
      else if key == "bitdepth" then DepthField
      else NoField
    else NoField
  }

  datatype ParseState = ParseState(section: string, config: Configuration, warnings: seq<Warning>)
  {
    function With(cfg: Configuration): ParseState { this.(config := cfg) }

    function Warned(w: Warning): ParseState { this.(warnings := warnings + [w]) }
  }

  const INITIAL := ParseState("", DEFAULT_CONFIGURATION, [])

  function AssignBool(st: ParseState, rawKey: string, value: string, current: bool, changed: bool -> Configuration)
      : ParseState {
    match ParseBool(value)
    case Some(b) => st.With(changed(b))
    case None => st.Warned(NotABoolean(rawKey, value, current))
  }

  function Clamp(n: nat): nat {
    if n < 1 then 1 else if n > MAX_INTERVAL_SECONDS then MAX_INTERVAL_SECONDS else n
  }

  function Assign(st: ParseState, field: Field, rawKey: string, value: string): ParseState {
    var cfg := st.config;
    match field
    case PlaybackField => AssignBool(st, rawKey, value, cfg.monitorPlayback, b => cfg.(monitorPlayback := b))
    case CaptureField => AssignBool(st, rawKey, value, cfg.monitorCapture, b => cfg.(monitorCapture := b))
    case IntervalField =>
      (match ParseUnsigned(value)
       case Some(n) => st.With(cfg.(checkIntervalSeconds := Clamp(n)))
       case None => st.Warned(NotANumber(value, cfg.checkIntervalSeconds)))
    case LoggingField => AssignBool(st, rawKey, value, cfg.enableLogging, b => cfg.(enableLogging := b))
    case LevelField =>
      (match ParseLogLevel(value)
       case Some(level) => st.With(cfg.(logLevel := level))
       case None => st.With(cfg.(logLevel := Info)).Warned(NotALevel(value)))
    case EnforceField => AssignBool(st, rawKey, value, cfg.enforce, b => cfg.(enforce := b))
    case ExclusiveField =>
      AssignBool(st, rawKey, value, cfg.exclusiveModeProtection, b => cfg.(exclusiveModeProtection := b))
    case StandardizationField =>
      AssignBool(st, rawKey, value, cfg.formatStandardization, b => cfg.(formatStandardization := b))
    case RateField =>
      var n := ParseUnsigned(value);
      if n.Some? && IsSupportedSampleRate(n.value) then st.With(cfg.(sampleRate := n.value))
      else st.Warned(UnsupportedRate(value, cfg.sampleRate))
    case DisableField =>
      AssignBool(st, rawKey, value, cfg.disableIncompatibleDevices, b => cfg.(disableIncompatibleDevices := b))
    case ConfirmedField => st.With(cfg.(disableConfirmedFor := value))
    case DepthField =>
      var n := ParseUnsigned(value);
      if n.Some? && IsSupportedBitDepth(n.value) then st.With(cfg.(bitDepth := n.value))
      else st.Warned(UnsupportedDepth(value, cfg.bitDepth))
    case NoField => st
  }

  // ----- Reading lines -----

  const NAMES_SECTION: string := "devicenames"

  // A value up to its inline comment.
  function BeforeComment(value: string): string {
    var i := IndexOf(value, ';');
    if i < |value| then Trim(value[..i]) else value
  }

  predicate IsCommentLine(line: string) { line == "" || line[0] == ';' || line[0] == '#' }

  predicate IsSectionLine(line: string) { line != "" && line[0] == '[' && line[|line| - 1] == ']' && |line| > 1 }

  // key=value in the current section.
  function ApplyEntry(st: ParseState, rawKey: string, value: string): ParseState {
    if st.section == NAMES_SECTION then
      if rawKey != "" && value != "" then
        st.With(st.config.(deviceNames := SetName(st.config.deviceNames, rawKey, value)))
      else st
    else
      Assign(st, FieldOf(st.section, Lower(rawKey)), rawKey, BeforeComment(value))
  }

  function SectionName(line: string): string
    requires |line| > 1
  {
    Lower(Trim(line[1..|line| - 1]))
  }

  function ParseTrimmed(st: ParseState, line: string): ParseState {
    if IsCommentLine(line) then st
    else if IsSectionLine(line) then st.(section := SectionName(line))
    else
      var eq := IndexOf(line, '=');
      if eq == |line| then st else ApplyEntry(st, Trim(line[..eq]), Trim(line[eq + 1..]))
  }

  function ParseLine(st: ParseState, line: string): ParseState { ParseTrimmed(st, Trim(line)) }

  function ParseLines(st: ParseState, lines: seq<string>): ParseState
    decreases |lines|
  {
    hide ParseLine;
    if lines == [] then st else ParseLines(ParseLine(st, lines[0]), lines[1..])
  }

  function Parse(text: string): ParseState { ParseLines(INITIAL, LinesOf(text)) }

  method ParseConfiguration(text: string) returns (config: Configuration, warnings: seq<Warning>)
    ensures Parse(text).config == config && Parse(text).warnings == warnings
    ensures Valid(config)
  {
    hide ParseTrimmed, ApplyEntry, LinesOf, Trim, IndexOf, SectionName, Valid, IsSectionLine;
    ParseIsValid(text);
    var st := INITIAL;
    var lines := LinesOf(text);
    for i := 0 to |lines|
      invariant ParseLines(st, lines[i..]) == Parse(text)
    {
      assert lines[i..][0] == lines[i] && lines[i..][1..] == lines[i + 1..];
      st := ParseOneLine(st, lines[i]);
    }
    config, warnings := st.config, st.warnings;
  }

  // The loop's body.
  method ParseOneLine(st: ParseState, raw: string) returns (next: ParseState)
    ensures next == ParseLine(st, raw)
  {
    next := st;
    var line := Trim(raw);
    hide Trim, IndexOf, Lower, SetName, Assign, FieldOf, BeforeComment;
    if line == "" || line[0] == ';' || line[0] == '#' {
      return;
    }
    if line[0] == '[' && line[|line| - 1] == ']' {
      next := st.(section := SectionName(line));
      return;
    }
    var eq := IndexOf(line, '=');
    if eq == |line| {
      return;
    }
    var rawKey, value := Trim(line[..eq]), Trim(line[eq + 1..]);
    if st.section == NAMES_SECTION {
      if rawKey != "" && value != "" {
        next := st.With(st.config.(deviceNames := SetName(st.config.deviceNames, rawKey, value)));
      }
      return;
    }
    next := Assign(st, FieldOf(st.section, Lower(rawKey)), rawKey, BeforeComment(value));
  }

  // ----- What a text can parse to -----

  // A value that printing and reading again leave alone.
  predicate PlainValue(value: string) { Trimmed(value) && OneLine(value) && !Has(value, ';') }

  predicate WellFormedName(id: string, name: string) {
    && id != "" && Trimmed(id) && OneLine(id) && !Has(id, '=') && id[0] != ';' && id[0] != '#'
    && name != "" && Trimmed(name) && OneLine(name)
    && !(id[0] == '[' && name[|name| - 1] == ']')
  }

  predicate WellFormedNames(names: NameList) {
    Ordered(names) && forall i :: 0 <= i < |names| ==> WellFormedName(names[i].0, names[i].1)
  }

  predicate Valid(cfg: Configuration) {
    && 1 <= cfg.checkIntervalSeconds <= MAX_INTERVAL_SECONDS
    && IsSupportedSampleRate(cfg.sampleRate)
    && IsSupportedBitDepth(cfg.bitDepth)
    && PlainValue(cfg.disableConfirmedFor)
    && WellFormedNames(cfg.deviceNames)
  }

  lemma BeforeCommentPlain(value: string)
    requires Trimmed(value) && OneLine(value)
    ensures PlainValue(BeforeComment(value))
  {
    var i := IndexOf(value, ';');
    hide IndexOf;
    if i < |value| {
      assert OneLine(value[..i]);
      assert !Has(value[..i], ';');
      TrimCharacters(value[..i], ';');
      hide Trim;
    }
  }

  lemma AssignValid(st: ParseState, field: Field, rawKey: string, value: string)
    requires Valid(st.config) && PlainValue(value)
    ensures Valid(Assign(st, field, rawKey, value).config)
  {
    if field == RateField || field == DepthField {
      AssignFormatValid(st, field, rawKey, value);
    } else if field == LevelField {
      AssignLevelValid(st, rawKey, value);
    } else if field == IntervalField || field == ConfirmedField {
      AssignValueValid(st, field, rawKey, value);
    } else {
      AssignBoolValid(st, field, rawKey, value);
    }
    hide Valid, Assign;
  }

  lemma AssignFormatValid(st: ParseState, field: Field, rawKey: string, value: string)
    requires Valid(st.config) && (field == RateField || field == DepthField)
    ensures Valid(Assign(st, field, rawKey, value).config)
  {
    hide ParseBool, ParseUnsigned, ParseLogLevel, WellFormedNames, PlainValue, IsSupportedSampleRate;
    hide IsSupportedBitDepth;
  }

  lemma AssignLevelValid(st: ParseState, rawKey: string, value: string)
    requires Valid(st.config)
    ensures Valid(Assign(st, LevelField, rawKey, value).config)
  {
    hide ParseBool, ParseUnsigned, ParseLogLevel, WellFormedNames, PlainValue, IsSupportedSampleRate;
    hide IsSupportedBitDepth;
    var level := ParseLogLevel(value);
    assert Assign(st, LevelField, rawKey, value).config
           == st.config.(logLevel := if level.Some? then level.value else Info) by {
      if level.Some? {
        assert Assign(st, LevelField, rawKey, value) == st.With(st.config.(logLevel := level.value));
      }
    }
    hide Assign;
  }

  lemma AssignValueValid(st: ParseState, field: Field, rawKey: string, value: string)
    requires Valid(st.config) && PlainValue(value) && (field == IntervalField || field == ConfirmedField)
    ensures Valid(Assign(st, field, rawKey, value).config)
  {
    hide ParseBool, ParseUnsigned, ParseLogLevel, WellFormedNames, PlainValue, IsSupportedSampleRate;
    hide IsSupportedBitDepth;
  }

  lemma AssignBoolValid(st: ParseState, field: Field, rawKey: string, value: string)
    requires Valid(st.config) && field != RateField && field != DepthField
    requires field != IntervalField && field != LevelField && field != ConfirmedField
    ensures Valid(Assign(st, field, rawKey, value).config)
  {
    hide ParseBool, ParseUnsigned, ParseLogLevel, WellFormedNames, PlainValue, IsSupportedSampleRate;
    hide IsSupportedBitDepth;
  }

  lemma SetNameValid(names: NameList, id: string, name: string)
    requires WellFormedNames(names) && WellFormedName(id, name)
    ensures WellFormedNames(SetName(names, id, name))
  {
    hide WellFormedName, Ordered, SetName;
    SetNameOrdered(names, id, name);
  }

  lemma EntryParts(line: string, eq: nat)
    requires Trimmed(line) && OneLine(line) && !IsCommentLine(line) && !IsSectionLine(line)
    requires eq < |line| && eq == IndexOf(line, '=')
    ensures var id, name := Trim(line[..eq]), Trim(line[eq + 1..]);
            && Trimmed(name) && OneLine(name)
            && (id != "" && name != "" ==> WellFormedName(id, name))
  {
    hide IndexOf;
    var a, b := line[..eq], line[eq + 1..];
    assert OneLine(a) && OneLine(b) && !Has(a, '=');
    TrimCharacters(a, '=');
    TrimCharacters(b, '=');
    var id, name := Trim(a), Trim(b);
    hide Trim;
    if id != "" && name != "" {
      LineEnds(line, eq);
    }
  }

  // The key starts where the line does and the value ends where it does.
  lemma LineEnds(line: string, eq: nat)
    requires Trimmed(line) && eq < |line|
    requires Trim(line[..eq]) != "" && Trim(line[eq + 1..]) != ""
    ensures Trim(line[..eq])[0] == line[0]
    ensures LastChar(Trim(line[eq + 1..])) == LastChar(line)
  {
    hide Trim, OneLine, Has;
    TrimTrimmed("");
    KeepsFirst(line[..eq]);
    KeepsLast(line[eq + 1..]);
  }

  function LastChar(s: string): char
    requires s != ""
  {
    s[|s| - 1]
  }

  lemma KeepsFirst(s: string)
    requires s != "" && !IsSpace(s[0])
    ensures Trim(s) != "" && Trim(s)[0] == s[0]
  {
    assert TrimStart(s) == s;
    TrimEndKeeps(s);
  }

  lemma {:induction false} TrimEndKeeps(s: string)
    requires s != "" && !IsSpace(s[0])
    ensures TrimEnd(s) != ""
  {
    if IsSpace(s[|s| - 1]) {
      TrimEndKeeps(s[..|s| - 1]);
    }
  }

  lemma {:induction false} KeepsLast(s: string)
    requires s != "" && !IsSpace(LastChar(s))
    ensures Trim(s) != "" && LastChar(Trim(s)) == LastChar(s)
  {
    if IsSpace(s[0]) {
      KeepsLast(s[1..]);
      assert TrimStart(s) == TrimStart(s[1..]);
    } else {
      assert TrimStart(s) == s;
      assert TrimEnd(s) == s;
    }
  }

  lemma ParseLineValid(st: ParseState, raw: string)
    requires Valid(st.config) && OneLine(raw)
    ensures Valid(ParseLine(st, raw).config)
  {
    var line := Trim(raw);
    TrimCharacters(raw, ' ');
    hide Trim, IndexOf, Assign, SetName, PlainValue, WellFormedName, WellFormedNames, BeforeComment, FieldOf, Lower;
    hide SectionName;
    var eq := IndexOf(line, '=');
    if !IsCommentLine(line) && !IsSectionLine(line) && eq < |line| {
      EntryParts(line, eq);
      var id, name := Trim(line[..eq]), Trim(line[eq + 1..]);
      if st.section == NAMES_SECTION {
        if id != "" && name != "" {
          SetNameValid(st.config.deviceNames, id, name);
        }
      } else {
        BeforeCommentPlain(name);
        AssignValid(st, FieldOf(st.section, Lower(id)), id, BeforeComment(name));
      }
    }
  }

  lemma {:induction false} ParseLinesValid(st: ParseState, lines: seq<string>)
    requires Valid(st.config) && forall i :: 0 <= i < |lines| ==> OneLine(lines[i])
    ensures Valid(ParseLines(st, lines).config)
    decreases |lines|
  {
    hide ParseLine, Valid;
    if lines == [] {
    } else {
      ParseLineValid(st, lines[0]);
      ParseLinesValid(ParseLine(st, lines[0]), lines[1..]);
    }
  }

  // Any text at all gives a configuration within its ranges.
  lemma ParseIsValid(text: string)
    ensures Valid(Parse(text).config)
  {
    hide ParseLine, ParseLines;
    assert Valid(DEFAULT_CONFIGURATION) by {
      assert SUPPORTED_SAMPLE_RATES[8] == 48000 && SUPPORTED_BIT_DEPTHS[1] == 24;
    }
    ParseLinesValid(INITIAL, LinesOf(text));
  }
}
