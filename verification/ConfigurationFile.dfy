// saveConfiguration (src/config/Configuration.cpp) and its round trip with
// parseConfiguration.

module ConfigurationFile {
  import opened Text
  import opened AudioModel
  import opened Configurations

  // ----- The lines of the file -----

  // The wording of the comments does not matter to anything proved here.
  type Remark = s: string | s != "" && s[0] == ';' && OneLine(s) witness ";"

  datatype Item =
    | Blank
    | Comment(text: Remark)
    | Section(name: string)
    | Setting(key: string, value: string)

  function Line(item: Item): string {
    match item
    case Blank => ""
    case Comment(text) => text
    case Section(name) => "[" + name + "]"
    case Setting(key, value) => key + "=" + value
  }

  function LinesFor(items: seq<Item>): (r: seq<string>)
    ensures |r| == |items| && forall i :: 0 <= i < |r| ==> r[i] == Line(items[i])
  {
    seq(|items|, i requires 0 <= i < |items| => Line(items[i]))
  }

  function BoolText(b: bool): string { if b then "true" else "false" }

  function LogLevelName(level: LogLevel): string {
    match level
    case Debug => "DEBUG"
    case Info => "INFO"
    case Warn => "WARN"
    case Error => "ERROR"
  }

  datatype Sections = FeaturesSection | MonitorSection | LoggingSection | BehaviorSection | DeviceNamesSection

  function Title(section: Sections): string {
    match section
    case FeaturesSection => "Features"
    case MonitorSection => "Monitor"
    case LoggingSection => "Logging"
    case BehaviorSection => "Behavior"
    case DeviceNamesSection => "DeviceNames"
  }

  function KeyText(field: Field): string {
    match field
    case ExclusiveField => "ExclusiveModeProtection"
    case StandardizationField => "FormatStandardization"
    case RateField => "SampleRate"
    case DepthField => "BitDepth"
    case DisableField => "DisableIncompatibleDevices"
    case ConfirmedField => "DisableConfirmedFor"
    case PlaybackField => "Playback"
    case CaptureField => "Capture"
    case IntervalField => "CheckIntervalSeconds"
    case LoggingField => "Enable"
    case LevelField => "Level"
    case EnforceField => "Enforce"
    case NoField => ""
  }

  const REMARKS: nat := 13

  function Features(cfg: Configuration, remarks: seq<Remark>): seq<Item>
    requires |remarks| == REMARKS
  {
    [Comment(remarks[0]), Comment(remarks[1]), Comment(remarks[2]), Blank,
     Section(Title(FeaturesSection)),
     Comment(remarks[3]), Setting(KeyText(ExclusiveField), BoolText(cfg.exclusiveModeProtection)),
     Comment(remarks[4]), Setting(KeyText(StandardizationField), BoolText(cfg.formatStandardization)),
     Comment(remarks[5]), Setting(KeyText(RateField), Decimal(cfg.sampleRate))]
  }

  function DisablePolicy(cfg: Configuration, remarks: seq<Remark>): seq<Item>
    requires |remarks| == REMARKS
  {
    [Comment(remarks[6]), Setting(KeyText(DepthField), Decimal(cfg.bitDepth)),
     Comment(remarks[7]), Setting(KeyText(DisableField), BoolText(cfg.disableIncompatibleDevices)),
     Comment(remarks[8]), Setting(KeyText(ConfirmedField), cfg.disableConfirmedFor)]
  }

  function Monitor(cfg: Configuration, remarks: seq<Remark>): seq<Item>
    requires |remarks| == REMARKS
  {
    [Blank, Section(Title(MonitorSection)),
     Setting(KeyText(PlaybackField), BoolText(cfg.monitorPlayback)),
     Setting(KeyText(CaptureField), BoolText(cfg.monitorCapture)),
     Comment(remarks[9]), Setting(KeyText(IntervalField), Decimal(cfg.checkIntervalSeconds))]
  }

  function LoggingAndBehavior(cfg: Configuration, remarks: seq<Remark>): seq<Item>
    requires |remarks| == REMARKS
  {
    Logging(cfg, remarks[10]) + Behavior(cfg, remarks[11])
  }

  function Logging(cfg: Configuration, remark: Remark): seq<Item> {
    [Blank, Section(Title(LoggingSection)),
     Setting(KeyText(LoggingField), BoolText(cfg.enableLogging)),
     Comment(remark), Setting(KeyText(LevelField), LogLevelName(cfg.logLevel))]
  }

  function Behavior(cfg: Configuration, remark: Remark): seq<Item> {
    [Blank, Section(Title(BehaviorSection)),
     Comment(remark), Setting(KeyText(EnforceField), BoolText(cfg.enforce))]
  }

  // Line breaks in a name become blanks.
  function CleanName(name: string): string {
    Trim(seq(|name|, i requires 0 <= i < |name| => if IsLineBreak(name[i]) then ' ' else name[i]))
  }

  function NameItems(names: NameList): (r: seq<Item>)
    ensures |r| == |names| && forall i :: 0 <= i < |r| ==> r[i] == Setting(names[i].0, CleanName(names[i].1))
  {
    seq(|names|, i requires 0 <= i < |names| => Setting(names[i].0, CleanName(names[i].1)))
  }

  function DeviceNames(cfg: Configuration, remarks: seq<Remark>): seq<Item>
    requires |remarks| == REMARKS
  {
    if cfg.deviceNames == [] then []
    else [Blank, Section(Title(DeviceNamesSection)), Comment(remarks[12])] + NameItems(cfg.deviceNames)
  }

  function Items(cfg: Configuration, remarks: seq<Remark>): seq<Item>
    requires |remarks| == REMARKS
  {
    Features(cfg, remarks) + DisablePolicy(cfg, remarks) + Monitor(cfg, remarks) + LoggingAndBehavior(cfg, remarks)
    + DeviceNames(cfg, remarks)
  }

  function SavedText(cfg: Configuration, remarks: seq<Remark>): string
    requires |remarks| == REMARKS
  {
    CrlfText(LinesFor(Items(cfg, remarks)))
  }

  // ----- One line, read back -----

  predicate GoodItem(item: Item) {
    match item
    case Blank => true
    case Comment(_) => true
    case Section(name) => Trimmed(name) && OneLine(name)
    case Setting(key, value) =>
      && key != "" && Trimmed(key) && OneLine(key) && !Has(key, '=') && key[0] != ';' && key[0] != '#'
      && Trimmed(value) && OneLine(value)
      && !(key[0] == '[' && value != "" && value[|value| - 1] == ']')
  }

  function ApplyItem(st: ParseState, item: Item): ParseState {
    match item
    case Blank => st
    case Comment(_) => st
    case Section(name) => st.(section := Lower(name))
    case Setting(key, value) => ApplyEntry(st, key, value)
  }

  function ApplyItems(st: ParseState, items: seq<Item>): ParseState
    decreases |items|
  {
    if items == [] then st else ApplyItems(ApplyItem(st, items[0]), items[1..])
  }

  lemma ParseComment(st: ParseState, text: Remark)
    ensures ParseLine(st, text) == st
  {
    hide Trim;
    KeepsFirst(text);
  }

  lemma ParseSection(st: ParseState, name: string)
    requires Trimmed(name) && OneLine(name)
    ensures ParseLine(st, "[" + name + "]") == st.(section := Lower(name))
    ensures OneLine("[" + name + "]")
  {
    var line := "[" + name + "]";
    hide Trim, Lower;
    TrimTrimmed(line);
    TrimTrimmed(name);
    assert line[1..|line| - 1] == name;
    assert forall i :: 0 <= i < |line| ==> line[i] == '[' || line[i] == ']' || line[i] == name[i - 1];
  }

  lemma SettingLine(key: string, value: string)
    requires GoodItem(Setting(key, value))
    ensures var line := key + "=" + value;
            && Trimmed(line) && OneLine(line) && !IsCommentLine(line) && !IsSectionLine(line)
            && IndexOf(line, '=') == |key| && line[..|key|] == key && line[|key| + 1..] == value
  {
    hide IndexOf;
    var line := key + "=" + value;
    IndexOfFirst(key, '=', value);
    assert key + ['='] + value == line;
    assert line[0] == key[0];
    assert value != "" ==> line[|line| - 1] == value[|value| - 1];
    assert value == "" ==> line[|line| - 1] == '=';
    forall i | 0 <= i < |line|
      ensures !IsLineBreak(line[i])
    {
      if i < |key| { assert line[i] == key[i]; }
      else if i > |key| { assert line[i] == value[i - |key| - 1]; }
    }
  }

  lemma ParseSetting(st: ParseState, key: string, value: string)
    requires GoodItem(Setting(key, value))
    ensures ParseLine(st, key + "=" + value) == ApplyEntry(st, key, value)
  {
    SettingLine(key, value);
    hide Trim, IndexOf, ApplyEntry, OneLine, Has, IsCommentLine, IsSectionLine;
    TrimTrimmed(key + "=" + value);
    TrimTrimmed(key);
    TrimTrimmed(value);
  }

  lemma ParseItem(st: ParseState, item: Item)
    requires GoodItem(item)
    ensures ParseLine(st, Line(item)) == ApplyItem(st, item)
    ensures OneLine(Line(item))
  {
    hide ParseLine, ApplyEntry, IndexOf, IsCommentLine, IsSectionLine;
    match item
    case Blank => ParseBlank(st);
    case Comment(text) => ParseComment(st, text);
    case Section(name) => ParseSection(st, name);
    case Setting(key, value) =>
      ParseSetting(st, key, value);
      SettingLine(key, value);
  }

  lemma ParseBlank(st: ParseState)
    ensures ParseLine(st, "") == st
  {
    hide Trim;
    TrimTrimmed("");
  }

  predicate GoodItems(items: seq<Item>) { forall i :: 0 <= i < |items| ==> GoodItem(items[i]) }

  lemma {:induction false} ParseItems(st: ParseState, items: seq<Item>)
    requires GoodItems(items)
    ensures ParseLines(st, LinesFor(items) + [""]) == ApplyItems(st, items)
    decreases |items|
  {
    hide ParseLine, ApplyItem, GoodItem;
    var lines := LinesFor(items) + [""];
    if items == [] {
      ParseBlank(st);
    } else {
      var rest := items[1..];
      assert lines[0] == Line(items[0]) && lines[1..] == LinesFor(rest) + [""];
      ParseItem(st, items[0]);
      assert forall i :: 0 <= i < |rest| ==> rest[i] == items[i + 1];
      ParseItems(ApplyItem(st, items[0]), rest);
    }
  }

  lemma ParseSaved(items: seq<Item>)
    requires items != [] && GoodItems(items)
    ensures Parse(CrlfText(LinesFor(items))) == ApplyItems(INITIAL, items)
  {
    hide ParseLines, Line, GoodItem, ApplyItems;
    var lines := LinesFor(items);
    forall i | 0 <= i < |lines|
      ensures OneLine(lines[i])
    {
      ParseItem(INITIAL, items[i]);
    }
    LinesOfCrlfText(lines);
    hide LinesFrom, OneLine;
    assert CrlfText(lines) != "";
    ParseItems(INITIAL, items);
  }

  // ----- Keys and values -----

  // The section and the key as the parser compares them.
  function LowerTitle(section: Sections): string {
    match section
    case FeaturesSection => "features"
    case MonitorSection => "monitor"
    case LoggingSection => "logging"
    case BehaviorSection => "behavior"
    case DeviceNamesSection => NAMES_SECTION
  }

  lemma LowerTitles(section: Sections)
    ensures Lower(Title(section)) == LowerTitle(section)
    ensures section != DeviceNamesSection ==> LowerTitle(section) != NAMES_SECTION
  {
  }

  function SectionOf(field: Field): Sections {
    match field
    case PlaybackField => MonitorSection
    case CaptureField => MonitorSection
    case IntervalField => MonitorSection
    case LoggingField => LoggingSection
    case LevelField => LoggingSection
    case EnforceField => BehaviorSection
    case _ => FeaturesSection
  }

  // A key in its section names its field.
  lemma KeyNamesField(field: Field)
    requires field != NoField
    ensures FieldOf(LowerTitle(SectionOf(field)), Lower(KeyText(field))) == field
  {
    hide FieldOf, Lower;
    match field
    case ExclusiveField => ExclusiveModeProtectionKey();
    case StandardizationField => FormatStandardizationKey();
    case RateField => SampleRateKey();
    case DepthField => BitDepthKey();
    case DisableField => DisableIncompatibleDevicesKey();
    case ConfirmedField => DisableConfirmedForKey();
    case IntervalField => CheckIntervalSecondsKey();
    case _ => ShortKeys();
  }

  lemma ReadBool(value: bool)
    ensures ParseBool(BeforeComment(BoolText(value))) == Some(value)
  {
    var text := BoolText(value);
    assert Lower(text) == text;
    assert !Has(text, ';');
    hide IndexOf, Lower;
  }

  lemma ReadNumber(n: nat)
    requires n < 1000000
    ensures ParseUnsigned(BeforeComment(Decimal(n))) == Some(n)
  {
    assert Pow10(6) == 1000000 by {
      assert Pow10(3) == 1000;
    }
    DecimalLength(n, 6);
    DecimalValue(n);
    DecimalPlain(n);
    hide Decimal, IndexOf, DigitsValue, Pow10;
    assert !Has(Decimal(n), ';');
  }

  lemma ReadLevel(level: LogLevel)
    ensures ParseLogLevel(BeforeComment(LogLevelName(level))) == Some(level)
  {
    hide IndexOf, LogLevelName, ParseLogLevel, Trim;
    LevelText(level);
    assert BeforeComment(LogLevelName(level)) == LogLevelName(level);
    LevelParses(level);
  }

  lemma LevelParses(level: LogLevel)
    ensures ParseLogLevel(LogLevelName(level)) == Some(level)
  {
    LevelText(level);
    TrimTrimmed(LogLevelName(level));
    LowerLevel(level);
    hide Lower, LowerLevelName, Trim, LogLevelName;
  }

  lemma LevelText(level: LogLevel)
    ensures !Has(LogLevelName(level), ';') && Trimmed(LogLevelName(level))
  {
  }

  function LowerLevelName(level: LogLevel): string {
    match level
    case Debug => "debug"
    case Info => "info"
    case Warn => "warn"
    case Error => "error"
  }

  lemma LowerLevel(level: LogLevel)
    ensures Lower(LogLevelName(level)) == LowerLevelName(level)
    ensures var t := LowerLevelName(level);
            (t == "debug" <==> level == Debug) && (t == "info" <==> level == Info)
            && (t == "warn" <==> level == Warn) && t != "warning" && (t == "error" <==> level == Error)
  {
  }

  lemma ExclusiveModeProtectionKey()
    ensures FieldOf("features", Lower("ExclusiveModeProtection")) == ExclusiveField
  {
    assert Lower("ExclusiveModeProtection") == "exclusivemodeprotection";
    hide Lower;
  }

  lemma FormatStandardizationKey()
    ensures FieldOf("features", Lower("FormatStandardization")) == StandardizationField
  {
    assert Lower("FormatStandardization") == "formatstandardization";
    hide Lower;
  }

  lemma DisableIncompatibleDevicesKey()
    ensures FieldOf("features", Lower("DisableIncompatibleDevices")) == DisableField
  {
    assert Lower("DisableIncompatibleDevices") == "disableincompatibledevices";
    hide Lower;
  }

  lemma SampleRateKey()
    ensures FieldOf("features", Lower("SampleRate")) == RateField
  {
    assert Lower("SampleRate") == "samplerate";
    hide Lower;
  }

  lemma BitDepthKey()
    ensures FieldOf("features", Lower("BitDepth")) == DepthField
  {
    assert Lower("BitDepth") == "bitdepth";
    hide Lower;
  }

  lemma DisableConfirmedForKey()
    ensures FieldOf("features", Lower("DisableConfirmedFor")) == ConfirmedField
  {
    assert Lower("DisableConfirmedFor") == "disableconfirmedfor";
    hide Lower;
  }

  lemma CheckIntervalSecondsKey()
    ensures FieldOf("monitor", Lower("CheckIntervalSeconds")) == IntervalField
  {
    assert Lower("CheckIntervalSeconds") == "checkintervalseconds";
    hide Lower;
  }

  lemma ShortKeys()
    ensures FieldOf("monitor", Lower("Playback")) == PlaybackField
    ensures FieldOf("monitor", Lower("Capture")) == CaptureField
    ensures FieldOf("logging", Lower("Enable")) == LoggingField && FieldOf("logging", Lower("Level")) == LevelField
    ensures FieldOf("behavior", Lower("Enforce")) == EnforceField
  {
    assert Lower("Playback") == "playback" && Lower("Capture") == "capture" && Lower("Enable") == "enable";
    assert Lower("Level") == "level" && Lower("Enforce") == "enforce";
    hide Lower;
  }

  // ----- The blocks of the file -----

  lemma {:induction false} ApplyTrace(items: seq<Item>, states: seq<ParseState>)
    requires |states| == |items| + 1
    requires forall i :: 0 <= i < |items| ==> ApplyItem(states[i], items[i]) == states[i + 1]
    ensures ApplyItems(states[0], items) == states[|items|]
    decreases |items|
  {
    hide ApplyItem;
    if items == [] {
    } else {
      var rest := states[1..];
      forall i | 0 <= i < |items[1..]|
        ensures ApplyItem(rest[i], items[1..][i]) == rest[i + 1]
      {
        assert ApplyItem(states[i + 1], items[i + 1]) == states[i + 2];
      }
      ApplyTrace(items[1..], rest);
    }
  }

  lemma {:induction false} ApplyConcat(st: ParseState, a: seq<Item>, b: seq<Item>)
    ensures ApplyItems(st, a + b) == ApplyItems(ApplyItems(st, a), b)
    decreases |a|
  {
    hide ApplyItem;
    if a == [] {
      assert a + b == b;
    } else {
      assert (a + b)[1..] == a[1..] + b;
      ApplyConcat(ApplyItem(st, a[0]), a[1..], b);
    }
  }

  predicate InSection(st: ParseState, field: Field) { field != NoField && st.section == LowerTitle(SectionOf(field)) }

  // Each setting sets its field, whatever was there.

  lemma ApplyKey(st: ParseState, field: Field, value: string)
    requires InSection(st, field)
    ensures ApplyEntry(st, KeyText(field), value) == Assign(st, field, KeyText(field), BeforeComment(value))
  {
    KeyNamesField(field);
    LowerTitles(SectionOf(field));
    hide Lower, LowerTitle, KeyText, Assign, BeforeComment, FieldOf;
  }

  lemma SetBool(st: ParseState, field: Field, value: bool)
    requires InSection(st, field)
    ensures var cfg, next := st.config, ApplyEntry(st, KeyText(field), BoolText(value));
            && (field == PlaybackField ==> next == st.With(cfg.(monitorPlayback := value)))
            && (field == CaptureField ==> next == st.With(cfg.(monitorCapture := value)))
            && (field == LoggingField ==> next == st.With(cfg.(enableLogging := value)))
            && (field == EnforceField ==> next == st.With(cfg.(enforce := value)))
            && (field == ExclusiveField ==> next == st.With(cfg.(exclusiveModeProtection := value)))
            && (field == StandardizationField ==> next == st.With(cfg.(formatStandardization := value)))
            && (field == DisableField ==> next == st.With(cfg.(disableIncompatibleDevices := value)))
  {
    hide ParseBool, BeforeComment, KeyText, ApplyEntry, BoolText;
    ReadBool(value);
    ApplyKey(st, field, BoolText(value));
  }

  lemma SetInterval(st: ParseState, n: nat)
    requires InSection(st, IntervalField) && 1 <= n <= MAX_INTERVAL_SECONDS
    ensures ApplyEntry(st, KeyText(IntervalField), Decimal(n)) == st.With(st.config.(checkIntervalSeconds := n))
  {
    hide ParseUnsigned, Decimal, BeforeComment, KeyText, ApplyEntry;
    ReadNumber(n);
    ApplyKey(st, IntervalField, Decimal(n));
  }

  lemma SetRate(st: ParseState, rate: nat)
    requires InSection(st, RateField) && IsSupportedSampleRate(rate)
    ensures ApplyEntry(st, KeyText(RateField), Decimal(rate)) == st.With(st.config.(sampleRate := rate))
  {
    hide ParseUnsigned, Decimal, BeforeComment, KeyText, ApplyEntry, IsSupportedSampleRate, InSection;
    RateIsSmall(rate);
    ReadNumber(rate);
    ApplyKey(st, RateField, Decimal(rate));
  }

  lemma RateIsSmall(rate: nat)
    requires IsSupportedSampleRate(rate)
    ensures rate < 1000000
  {
  }

  lemma SetDepth(st: ParseState, bits: nat)
    requires InSection(st, DepthField) && IsSupportedBitDepth(bits)
    ensures ApplyEntry(st, KeyText(DepthField), Decimal(bits)) == st.With(st.config.(bitDepth := bits))
  {
    assert bits < 1000000;
    hide ParseUnsigned, Decimal, BeforeComment, KeyText, ApplyEntry, IsSupportedBitDepth;
    ReadNumber(bits);
    ApplyKey(st, DepthField, Decimal(bits));
  }

  lemma SetLevel(st: ParseState, level: LogLevel)
    requires InSection(st, LevelField)
    ensures ApplyEntry(st, KeyText(LevelField), LogLevelName(level)) == st.With(st.config.(logLevel := level))
  {
    hide ParseLogLevel, LogLevelName, BeforeComment, KeyText, ApplyEntry;
    ReadLevel(level);
    ApplyKey(st, LevelField, LogLevelName(level));
  }

  lemma SetConfirmed(st: ParseState, value: string)
    requires InSection(st, ConfirmedField) && PlainValue(value)
    ensures ApplyEntry(st, KeyText(ConfirmedField), value) == st.With(st.config.(disableConfirmedFor := value))
  {
    hide IndexOf, KeyText, ApplyEntry, Trimmed, OneLine;
    ApplyKey(st, ConfirmedField, value);
  }

  lemma FeaturesBlock(cfg: Configuration, remarks: seq<Remark>)
    requires Valid(cfg) && |remarks| == REMARKS
    ensures var after := DEFAULT_CONFIGURATION.(
                exclusiveModeProtection := cfg.exclusiveModeProtection,
                formatStandardization := cfg.formatStandardization,
                sampleRate := cfg.sampleRate);
            ApplyItems(INITIAL, Features(cfg, remarks)) == ParseState(LowerTitle(FeaturesSection), after, [])
  {
    hide Title, LowerTitle, KeyText, Lower, ApplyEntry, ApplyItems, BoolText, Decimal, OneLine;
    hide IsSupportedSampleRate, IsSupportedBitDepth, PlainValue, WellFormedNames;
    var s0 := INITIAL;
    var s1 := s0.(section := LowerTitle(FeaturesSection));
    var s2 := s1.With(s1.config.(exclusiveModeProtection := cfg.exclusiveModeProtection));
    var s3 := s2.With(s2.config.(formatStandardization := cfg.formatStandardization));
    var s4 := s3.With(s3.config.(sampleRate := cfg.sampleRate));
    LowerTitles(FeaturesSection);
    SetBool(s1, ExclusiveField, cfg.exclusiveModeProtection);
    SetBool(s2, StandardizationField, cfg.formatStandardization);
    SetRate(s3, cfg.sampleRate);
    ApplyTrace(Features(cfg, remarks), [s0, s0, s0, s0, s0, s1, s1, s2, s2, s3, s3, s4]);
  }

  lemma DisablePolicyBlock(cfg: Configuration, remarks: seq<Remark>, st: ParseState)
    requires Valid(cfg) && |remarks| == REMARKS && st.section == LowerTitle(FeaturesSection)
    ensures var after := st.config.(
                bitDepth := cfg.bitDepth, disableIncompatibleDevices := cfg.disableIncompatibleDevices,
                disableConfirmedFor := cfg.disableConfirmedFor);
            ApplyItems(st, DisablePolicy(cfg, remarks)) == st.With(after)
  {
    hide LowerTitle, KeyText, Lower, ApplyEntry, ApplyItems, BoolText, Decimal, OneLine;
    hide IsSupportedSampleRate, IsSupportedBitDepth, PlainValue, WellFormedNames;
    var s1 := st.With(st.config.(bitDepth := cfg.bitDepth));
    var s2 := s1.With(s1.config.(disableIncompatibleDevices := cfg.disableIncompatibleDevices));
    var s3 := s2.With(s2.config.(disableConfirmedFor := cfg.disableConfirmedFor));
    SetDepth(st, cfg.bitDepth);
    SetBool(s1, DisableField, cfg.disableIncompatibleDevices);
    SetConfirmed(s2, cfg.disableConfirmedFor);
    ApplyTrace(DisablePolicy(cfg, remarks), [st, st, s1, s1, s2, s2, s3]);
  }

  lemma MonitorBlock(cfg: Configuration, remarks: seq<Remark>, st: ParseState)
    requires Valid(cfg) && |remarks| == REMARKS
    ensures var after := st.config.(
                monitorPlayback := cfg.monitorPlayback, monitorCapture := cfg.monitorCapture,
                checkIntervalSeconds := cfg.checkIntervalSeconds);
            ApplyItems(st, Monitor(cfg, remarks)) == ParseState(LowerTitle(MonitorSection), after, st.warnings)
  {
    hide Title, LowerTitle, KeyText, Lower, ApplyEntry, ApplyItems, BoolText, Decimal, OneLine;
    hide IsSupportedSampleRate, IsSupportedBitDepth, PlainValue, WellFormedNames;
    var s1 := st.(section := LowerTitle(MonitorSection));
    var s2 := s1.With(s1.config.(monitorPlayback := cfg.monitorPlayback));
    var s3 := s2.With(s2.config.(monitorCapture := cfg.monitorCapture));
    var s4 := s3.With(s3.config.(checkIntervalSeconds := cfg.checkIntervalSeconds));
    LowerTitles(MonitorSection);
    SetBool(s1, PlaybackField, cfg.monitorPlayback);
    SetBool(s2, CaptureField, cfg.monitorCapture);
    SetInterval(s3, cfg.checkIntervalSeconds);
    ApplyTrace(Monitor(cfg, remarks), [st, st, s1, s2, s3, s3, s4]);
  }

  lemma LoggingBlock(cfg: Configuration, remark: Remark, st: ParseState)
    ensures var after := st.config.(enableLogging := cfg.enableLogging, logLevel := cfg.logLevel);
            ApplyItems(st, Logging(cfg, remark)) == ParseState(LowerTitle(LoggingSection), after, st.warnings)
  {
    hide Title, LowerTitle, KeyText, Lower, ApplyEntry, ApplyItems, BoolText, LogLevelName, OneLine;
    var s1 := st.(section := LowerTitle(LoggingSection));
    var s2 := s1.With(s1.config.(enableLogging := cfg.enableLogging));
    var s3 := s2.With(s2.config.(logLevel := cfg.logLevel));
    LowerTitles(LoggingSection);
    SetBool(s1, LoggingField, cfg.enableLogging);
    SetLevel(s2, cfg.logLevel);
    ApplyTrace(Logging(cfg, remark), [st, st, s1, s2, s2, s3]);
  }

  lemma BehaviorBlock(cfg: Configuration, remark: Remark, st: ParseState)
    ensures var after := st.config.(enforce := cfg.enforce);
            ApplyItems(st, Behavior(cfg, remark)) == ParseState(LowerTitle(BehaviorSection), after, st.warnings)
  {
    hide Title, LowerTitle, KeyText, Lower, ApplyEntry, ApplyItems, BoolText, OneLine;
    var s1 := st.(section := LowerTitle(BehaviorSection));
    LowerTitles(BehaviorSection);
    SetBool(s1, EnforceField, cfg.enforce);
    ApplyTrace(Behavior(cfg, remark), [st, st, s1, s1, s1.With(s1.config.(enforce := cfg.enforce))]);
  }

  lemma LoggingAndBehaviorBlock(cfg: Configuration, remarks: seq<Remark>, st: ParseState)
    requires |remarks| == REMARKS
    ensures var after := st.config.(enableLogging := cfg.enableLogging, logLevel := cfg.logLevel,
                                  enforce := cfg.enforce);
            ApplyItems(st, LoggingAndBehavior(cfg, remarks))
            == ParseState(LowerTitle(BehaviorSection), after, st.warnings)
  {
    hide ApplyItems, Logging, Behavior, LowerTitle;
    LoggingBlock(cfg, remarks[10], st);
    BehaviorBlock(cfg, remarks[11], ApplyItems(st, Logging(cfg, remarks[10])));
    ApplyConcat(st, Logging(cfg, remarks[10]), Behavior(cfg, remarks[11]));
  }

  // The names are read back one by one, each after the ones before it.
  lemma {:induction false} NamesBlock(names: NameList, n: nat, st: ParseState)
    requires WellFormedNames(names) && n <= |names|
    requires st.section == NAMES_SECTION && st.config.deviceNames == names[..n]
    ensures ApplyItems(st, NameItems(names)[n..]) == st.With(st.config.(deviceNames := names))
    decreases |names| - n
  {
    if n == |names| {
      assert names[..n] == names;
    } else {
      hide WellFormedNames, ApplyItem, NameItems;
      var next := st.With(st.config.(deviceNames := names[..n + 1]));
      NamesStep(names, n, st);
      NamesBlock(names, n + 1, next);
      ApplyNext(st, NameItems(names), n);
    }
  }

  lemma ApplyNext(st: ParseState, items: seq<Item>, n: nat)
    requires n < |items|
    ensures ApplyItems(st, items[n..]) == ApplyItems(ApplyItem(st, items[n]), items[n + 1..])
  {
    hide ApplyItem;
    assert items[n..][0] == items[n] && items[n..][1..] == items[n + 1..];
  }

  lemma NamesStep(names: NameList, n: nat, st: ParseState)
    requires WellFormedNames(names) && n < |names|
    requires st.section == NAMES_SECTION && st.config.deviceNames == names[..n]
    ensures ApplyItem(st, NameItems(names)[n]) == st.With(st.config.(deviceNames := names[..n + 1]))
  {
    hide CleanName, WellFormedName, SetName, Ordered, LexLess;
    var (id, name) := names[n];
    CleanNameKept(id, name);
    NamesBefore(names, n);
    SetNameLast(names[..n], id, name);
    assert names[..n + 1] == names[..n] + [(id, name)];
  }

  lemma NamesBefore(names: NameList, n: nat)
    requires Ordered(names) && n < |names|
    ensures forall i :: 0 <= i < n ==> LexLess(names[..n][i].0, names[n].0)
  {
    hide LexLess;
  }

  lemma CleanNameKept(id: string, name: string)
    requires WellFormedName(id, name)
    ensures CleanName(name) == name && id != "" && name != "" && GoodItem(Setting(id, name))
  {
    assert seq(|name|, i requires 0 <= i < |name| => if IsLineBreak(name[i]) then ' ' else name[i]) == name;
    TrimTrimmed(name);
  }

  // ----- The round trip -----

  predicate Letters(s: string) {
    s != "" && forall i :: 0 <= i < |s| ==> 'A' <= s[i] <= 'Z' || 'a' <= s[i] <= 'z'
  }

  lemma GoodSetting(key: string, value: string)
    requires Letters(key) && Trimmed(value) && OneLine(value)
    ensures GoodItem(Setting(key, value))
  {
  }

  lemma GoodSection(name: string)
    requires Letters(name)
    ensures GoodItem(Section(name))
  {
  }

  lemma GoodBool(key: string, value: bool)
    requires Letters(key)
    ensures GoodItem(Setting(key, BoolText(value)))
  {
    assert Trimmed("true") && OneLine("true") && Trimmed("false") && OneLine("false");
    hide Trimmed, OneLine;
    GoodSetting(key, BoolText(value));
  }

  lemma GoodDecimal(key: string, n: nat)
    requires Letters(key)
    ensures GoodItem(Setting(key, Decimal(n)))
  {
    DecimalPlain(n);
    hide Trimmed, OneLine, Decimal;
    GoodSetting(key, Decimal(n));
  }

  lemma GoodLevel(key: string, level: LogLevel)
    requires Letters(key)
    ensures GoodItem(Setting(key, LogLevelName(level)))
  {
    var text := LogLevelName(level);
    assert Trimmed(text) && OneLine(text);
    hide Trimmed, OneLine, LogLevelName;
    GoodSetting(key, text);
  }

  lemma ShortKeyLetters(field: Field)
    requires field != NoField
    requires field !in {ExclusiveField, StandardizationField, DisableField, ConfirmedField}
    ensures Letters(KeyText(field))
  {
  }

  lemma LongKeyLetters(field: Field)
    requires field == ExclusiveField || field == StandardizationField
    ensures Letters(KeyText(field))
  {
  }

  lemma DisableKeyLetters(field: Field)
    requires field == DisableField || field == ConfirmedField
    ensures Letters(KeyText(field))
  {
  }

  lemma KeyLetters(field: Field)
    requires field != NoField
    ensures Letters(KeyText(field))
  {
    hide KeyText, Letters;
    if field == ExclusiveField || field == StandardizationField {
      LongKeyLetters(field);
    } else if field == DisableField || field == ConfirmedField {
      DisableKeyLetters(field);
    } else {
      ShortKeyLetters(field);
    }
  }

  lemma TitleLetters(section: Sections)
    ensures Letters(Title(section))
  {
  }

  lemma FeaturesGood(cfg: Configuration, remarks: seq<Remark>)
    requires PlainValue(cfg.disableConfirmedFor) && |remarks| == REMARKS
    ensures GoodItems(Features(cfg, remarks)) && GoodItems(DisablePolicy(cfg, remarks))
  {
    hide Letters, Decimal, BoolText, Trimmed, OneLine, KeyText, Title, GoodItem;
    TitleLetters(FeaturesSection);
    GoodSection(Title(FeaturesSection));
    forall field: Field | field != NoField { KeyLetters(field); }
    GoodBool(KeyText(ExclusiveField), cfg.exclusiveModeProtection);
    GoodBool(KeyText(StandardizationField), cfg.formatStandardization);
    GoodDecimal(KeyText(RateField), cfg.sampleRate);
    GoodDecimal(KeyText(DepthField), cfg.bitDepth);
    GoodBool(KeyText(DisableField), cfg.disableIncompatibleDevices);
    GoodSetting(KeyText(ConfirmedField), cfg.disableConfirmedFor);
    GoodQuiet(remarks);
  }

  lemma GoodQuiet(remarks: seq<Remark>)
    ensures GoodItem(Blank) && forall r: Remark :: GoodItem(Comment(r))
  {
  }

  lemma OthersGood(cfg: Configuration, remarks: seq<Remark>)
    requires |remarks| == REMARKS && WellFormedNames(cfg.deviceNames)
    ensures GoodItems(Monitor(cfg, remarks)) && GoodItems(LoggingAndBehavior(cfg, remarks))
    ensures GoodItems(DeviceNames(cfg, remarks))
  {
    hide Letters, Decimal, BoolText, LogLevelName, Trimmed, OneLine, WellFormedName, Ordered, CleanName, KeyText;
    hide Title, GoodItem;
    forall section: Sections ensures GoodItem(Section(Title(section))) {
      TitleLetters(section);
      GoodSection(Title(section));
    }
    forall field: Field | field != NoField { KeyLetters(field); }
    GoodBool(KeyText(PlaybackField), cfg.monitorPlayback);
    GoodBool(KeyText(CaptureField), cfg.monitorCapture);
    GoodDecimal(KeyText(IntervalField), cfg.checkIntervalSeconds);
    GoodBool(KeyText(LoggingField), cfg.enableLogging);
    GoodLevel(KeyText(LevelField), cfg.logLevel);
    GoodBool(KeyText(EnforceField), cfg.enforce);
    GoodQuiet(remarks);
    forall i | 0 <= i < |cfg.deviceNames|
      ensures GoodItem(NameItems(cfg.deviceNames)[i])
    {
      CleanNameKept(cfg.deviceNames[i].0, cfg.deviceNames[i].1);
    }
  }

  lemma DeviceNamesBlock(cfg: Configuration, remarks: seq<Remark>, st: ParseState)
    requires Valid(cfg) && |remarks| == REMARKS && st.config.deviceNames == []
    ensures var next := ApplyItems(st, DeviceNames(cfg, remarks));
            next.config == st.config.(deviceNames := cfg.deviceNames) && next.warnings == st.warnings
  {
    var names := cfg.deviceNames;
    LowerTitles(DeviceNamesSection);
    hide Lower, Title, IsSupportedSampleRate, IsSupportedBitDepth, WellFormedNames, PlainValue;
    if names != [] {
      var head: seq<Item> := [Blank, Section(Title(DeviceNamesSection)), Comment(remarks[12])];
      var s1 := st.(section := NAMES_SECTION);
      ApplyTrace(head, [st, st, s1, s1]);
      ApplyConcat(st, head, NameItems(names));
      NamesBlock(names, 0, s1);
      assert NameItems(names)[0..] == NameItems(names);
    }
  }

  // Reading what was written gives the same configuration, without a warning.
  lemma RoundTrip(cfg: Configuration, remarks: seq<Remark>)
    requires Valid(cfg) && |remarks| == REMARKS
    ensures var read := Parse(SavedText(cfg, remarks)); read.config == cfg && read.warnings == []
  {
    hide Parse, ApplyItem, Features, DisablePolicy, Monitor, LoggingAndBehavior, DeviceNames, GoodItem;
    var a, p, b := Features(cfg, remarks), DisablePolicy(cfg, remarks), Monitor(cfg, remarks);
    var c, d := LoggingAndBehavior(cfg, remarks), DeviceNames(cfg, remarks);
    FeaturesGood(cfg, remarks);
    OthersGood(cfg, remarks);
    FeaturesBlock(cfg, remarks);
    var s0 := ApplyItems(INITIAL, a);
    DisablePolicyBlock(cfg, remarks, s0);
    var s1 := ApplyItems(s0, p);
    MonitorBlock(cfg, remarks, s1);
    var s2 := ApplyItems(s1, b);
    LoggingAndBehaviorBlock(cfg, remarks, s2);
    var s3 := ApplyItems(s2, c);
    DeviceNamesBlock(cfg, remarks, s3);
    hide ApplyItems, Valid;
    ApplyConcat(INITIAL, a + p + b + c, d);
    ApplyConcat(INITIAL, a + p + b, c);
    ApplyConcat(INITIAL, a + p, b);
    ApplyConcat(INITIAL, a, p);
    FeaturesNotEmpty(cfg, remarks);
    ParseSaved(Items(cfg, remarks));
  }

  lemma FeaturesNotEmpty(cfg: Configuration, remarks: seq<Remark>)
    requires |remarks| == REMARKS
    ensures Features(cfg, remarks) != []
  {
  }

  // The configurations that survive writing and reading are exactly the valid
  // ones, and those are the only ones any text can give.
  lemma RoundTripIffValid(cfg: Configuration, remarks: seq<Remark>)
    requires |remarks| == REMARKS
    ensures Parse(SavedText(cfg, remarks)).config == cfg <==> Valid(cfg)
    ensures Valid(cfg) ==> Parse(SavedText(cfg, remarks)).warnings == []
  {
    hide Parse, SavedText, Valid;
    ParseIsValid(SavedText(cfg, remarks));
    if Valid(cfg) {
      RoundTrip(cfg, remarks);
    }
  }

  // ----- saveConfiguration -----

  lemma LinesForConcat(a: seq<Item>, b: seq<Item>)
    ensures LinesFor(a + b) == LinesFor(a) + LinesFor(b)
  {
    hide Line;
  }

  // The text after one more block of items.
  lemma Written(a: seq<Item>, b: seq<Item>)
    ensures CrlfText(LinesFor(a + b)) == CrlfText(LinesFor(a)) + CrlfText(LinesFor(b))
  {
    hide Line, CrlfText, LinesFor;
    LinesForConcat(a, b);
    CrlfTextConcat(LinesFor(a), LinesFor(b));
  }

  lemma WrittenOne(item: Item)
    ensures CrlfText(LinesFor([item])) == Line(item) + CRLF
  {
    hide Line;
    assert LinesFor([item]) == [Line(item)];
    assert CrlfText([Line(item)]) == Line(item) + CRLF + CrlfText([]);
  }

  method SaveConfiguration(cfg: Configuration, remarks: seq<Remark>) returns (out: string)
    requires |remarks| == REMARKS
    ensures out == SavedText(cfg, remarks)
    ensures Valid(cfg) <==> Parse(out).config == cfg
    ensures Valid(cfg) ==> Parse(out).warnings == []
  {
    hide Valid, Parse, CrlfText, Line, LinesFor, CleanName, Features, DisablePolicy, Monitor, LoggingAndBehavior;
    var fixed := Features(cfg, remarks) + DisablePolicy(cfg, remarks) + Monitor(cfg, remarks)
                 + LoggingAndBehavior(cfg, remarks);
    out := CrlfText(LinesFor(fixed));
    var names := cfg.deviceNames;
    if names == [] {
      assert Items(cfg, remarks) == fixed;
    } else {
      ghost var items := NameItems(names);
      var head: seq<Item> := [Blank, Section(Title(DeviceNamesSection)), Comment(remarks[12])];
      Written(fixed, head);
      out := out + CrlfText(LinesFor(head));
      assert fixed + head + items[..0] == fixed + head;
      for i := 0 to |names|
        invariant |items| == |names| && out == CrlfText(LinesFor(fixed + head + items[..i]))
      {
        assert fixed + head + items[..i + 1] == (fixed + head + items[..i]) + [items[i]];
        Written(fixed + head + items[..i], [items[i]]);
        WrittenOne(items[i]);
        out := out + (Line(Setting(names[i].0, CleanName(names[i].1))) + CRLF);
      }
      assert fixed + head + items[..|names|] == Items(cfg, remarks);
    }
    RoundTripIffValid(cfg, remarks);
  }
}
