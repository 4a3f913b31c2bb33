// The host's commands that change the configuration, and what a disable needs
// of them (src/service/ServiceHost.cpp).

module ServiceHosts {
  import opened Text
  import opened AudioModel
  import opened Configurations
  import opened ConfigurationFile
  import opened EndpointPolicy
  import opened EngineModel
  import opened EndpointFacts
  import opened WatchdogEngines

  // The settings chosen in the window or by the installer.
  datatype AudioSettings = AudioSettings(
    formatStandardization: bool,
    sampleRate: nat,
    bitDepth: nat,
    disableIncompatibleDevices: bool,
    confirmDisable: bool)

  predicate SupportedSettings(s: AudioSettings) {
    IsSupportedSampleRate(s.sampleRate) && IsSupportedBitDepth(s.bitDepth)
  }

  function WithSettings(cfg: Configuration, s: AudioSettings): Configuration {
    var c := cfg.(formatStandardization := s.formatStandardization, sampleRate := s.sampleRate, bitDepth := s.bitDepth,
                  disableIncompatibleDevices := s.disableIncompatibleDevices);
    if !s.disableIncompatibleDevices then c.(disableConfirmedFor := "")
    else if s.confirmDisable then c.(disableConfirmedFor := FormatTargetKey(c))
    else c
  }

  // The configuration has taken the settings, field by field: the target and
  // the switches are theirs, the confirmation goes when nothing is to be
  // disabled, is for their target when the user confirms it, and stays
  // otherwise, and everything else is as it was.
  predicate Takes(c: Configuration, was: Configuration, s: AudioSettings) {
    && c.formatStandardization == s.formatStandardization
    && c.sampleRate == s.sampleRate && c.bitDepth == s.bitDepth
    && c.disableIncompatibleDevices == s.disableIncompatibleDevices
    && c.disableConfirmedFor == (if !s.disableIncompatibleDevices then ""
                                 else if s.confirmDisable then Decimal(s.sampleRate) + ":" + Decimal(s.bitDepth)
                                 else was.disableConfirmedFor)
    && c.monitorPlayback == was.monitorPlayback && c.monitorCapture == was.monitorCapture
    && c.checkIntervalSeconds == was.checkIntervalSeconds
    && c.enableLogging == was.enableLogging && c.logLevel == was.logLevel
    && c.enforce == was.enforce && c.exclusiveModeProtection == was.exclusiveModeProtection
    && c.deviceNames == was.deviceNames
  }

  lemma SettingsTaken(cfg: Configuration, s: AudioSettings)
    ensures Takes(WithSettings(cfg, s), cfg, s)
  {
    hide Decimal;
  }

  // config.ini; a missing file means the defaults.
  function Load(file: Option<string>): Configuration {
    match file
    case None => DEFAULT_CONFIGURATION
    case Some(text) => Parse(text).config
  }

  // A name as rename() keeps it: one line, trimmed.
  function NameText(name: string): string {
    var t := Trim(name);
    Trim(seq(|t|, i requires 0 <= i < |t| => if t[i] == '\r' || t[i] == '\n' || t[i] == '\t' then ' ' else t[i]))
  }

  // The names without any spelling of an id.
  function DropName(names: NameList, id: string): NameList {
    if names == [] then []
    else (if EqualsIgnoreCase(names[0].0, id) then [] else [names[0]]) + DropName(names[1..], id)
  }

  function Renamed(cfg: Configuration, id: string, name: string): Configuration {
    var names := DropName(cfg.deviceNames, id);
    cfg.(deviceNames := if NameText(name) == "" then names else SetName(names, id, NameText(name)))
  }

  // Without a file, passes look at everything and switch exclusive mode off,
  // and leave formats and incompatible devices alone.
  lemma NoFile()
    ensures Load(None)
            == Configuration(true, true, 60, true, Info, true, true, false, 48000, 24, false, "", [])
  {
  }

  // The name kept for an endpoint under any spelling of the renamed id is the
  // new one, "" meaning none, and that of every other endpoint is what it was.
  ghost predicate OnlyRenames(names: NameList, was: NameList, id: string, name: string) {
    forall other :: CustomDeviceName(names, other)
                    == if EqualsIgnoreCase(other, id) then NameText(name) else CustomDeviceName(was, other)
  }

  lemma {:induction false} DroppedName(names: NameList, id: string, other: string)
    ensures CustomDeviceName(DropName(names, id), other)
            == if EqualsIgnoreCase(other, id) then "" else CustomDeviceName(names, other)
    ensures forall i :: 0 <= i < |DropName(names, id)| ==> !EqualsIgnoreCase(DropName(names, id)[i].0, id)
  {
    if names == [] {
    } else {
      hide Lower;
      DroppedName(names[1..], id, other);
      var rest := DropName(names[1..], id);
      if !EqualsIgnoreCase(names[0].0, id) {
        assert ([names[0]] + rest)[1..] == rest;
      } else {
        assert [] + rest == rest;
      }
    }
  }

  lemma {:induction false} AddedName(names: NameList, id: string, name: string, other: string)
    requires forall i :: 0 <= i < |names| ==> !EqualsIgnoreCase(names[i].0, id)
    ensures CustomDeviceName(SetName(names, id, name), other)
            == if EqualsIgnoreCase(other, id) then name else CustomDeviceName(names, other)
  {
    hide Lower, LexLess;
    if names == [] {
    } else {
      assert !EqualsIgnoreCase(names[0].0, id);
      assert forall i :: 0 <= i < |names[1..]| ==> names[1..][i] == names[i + 1];
      AddedName(names[1..], id, name, other);
      assert ([(id, name)] + names)[1..] == names;
      if LexLess(id, names[0].0) {
        NoneKept(names, id, other);
      } else {
        assert ([names[0]] + SetName(names[1..], id, name))[1..] == SetName(names[1..], id, name);
      }
    }
  }

  lemma {:induction false} NoneKept(names: NameList, id: string, other: string)
    requires forall i :: 0 <= i < |names| ==> !EqualsIgnoreCase(names[i].0, id)
    ensures EqualsIgnoreCase(other, id) ==> CustomDeviceName(names, other) == ""
  {
    hide Lower;
    if names == [] {
    } else {
      assert forall i :: 0 <= i < |names[1..]| ==> names[1..][i] == names[i + 1];
      assert !EqualsIgnoreCase(names[0].0, id);
      NoneKept(names[1..], id, other);
    }
  }

  lemma RenamedMeans(cfg: Configuration, id: string, name: string)
    ensures var after := Renamed(cfg, id, name);
            && after == cfg.(deviceNames := after.deviceNames)
            && OnlyRenames(after.deviceNames, cfg.deviceNames, id, name)
  {
    hide DropName, SetName, CustomDeviceName, NameText, Lower;
    var names := DropName(cfg.deviceNames, id);
    forall other: string
      ensures CustomDeviceName(Renamed(cfg, id, name).deviceNames, other)
              == if EqualsIgnoreCase(other, id) then NameText(name) else CustomDeviceName(cfg.deviceNames, other)
    {
      DroppedName(cfg.deviceNames, id, other);
      if NameText(name) != "" {
        AddedName(names, id, NameText(name), other);
      }
    }
  }

  // ----- The host -----

  datatype HostState = HostState(file: Option<string>, config: Configuration, engineConfig: Configuration)

  function Saved(st: HostState, cfg: Configuration, remarks: seq<Remark>): HostState
    requires |remarks| == REMARKS
  {
    HostState(Some(SavedText(cfg, remarks)), cfg, cfg)
  }

  function ConfigureState(st: HostState, s: AudioSettings, remarks: seq<Remark>, saveOk: bool): HostState
    requires |remarks| == REMARKS
  {
    if !SupportedSettings(s) || !saveOk then st else Saved(st, WithSettings(Load(st.file), s), remarks)
  }

  function RenameState(st: HostState, id: string, name: string, remarks: seq<Remark>, renameOk: bool, saveOk: bool)
      : HostState
    requires |remarks| == REMARKS
  {
    if id == "" || (NameText(name) != "" && !renameOk) || !saveOk then st
    else Saved(st, Renamed(Load(st.file), id, name), remarks)
  }

  function ReloadState(st: HostState): HostState { HostState(st.file, Load(st.file), Load(st.file)) }

  class ServiceHost {
    var file: Option<string>
    var config: Configuration
    const engine: WatchdogEngine

    ghost predicate Valid()
      reads this, engine, engine.store
    {
      engine.Valid()
    }

    ghost function View(): HostState
      reads this, engine
    {
      HostState(file, config, engine.config)
    }

    constructor (file: Option<string>, hasAdmin: bool)
      ensures Valid() && View() == HostState(file, Load(file), Load(file))
    {
      this.file := file;
      config := Load(file);
      engine := new WatchdogEngine(Load(file), hasAdmin);
    }

    method SaveFile(cfg: Configuration, remarks: seq<Remark>, saveOk: bool) returns (ok: bool)
      requires |remarks| == REMARKS
      modifies this`file
      ensures ok == saveOk && file == if saveOk then Some(SavedText(cfg, remarks)) else old(file)
    {
      hide Configurations.Valid, Parse, SavedText;
      ok := saveOk;
      if ok {
        var text := SaveConfiguration(cfg, remarks);
        file := Some(text);
      }
    }

    // The file, the host and the engine take the settings, and a pass follows.
    method Configure(s: AudioSettings, remarks: seq<Remark>, saveOk: bool, running: bool, endpoints: seq<AudioEndpoint>,
                     answers: seq<Answers>)
      returns (ok: bool, devices: seq<DeviceReport>)
      requires Valid() && |remarks| == REMARKS
      requires |answers| == |endpoints| && forall i :: 0 <= i < |endpoints| ==> endpoints[i].id != ""
      modifies this, engine, engine.store, engine.memory
      ensures Valid()
      ensures View() == ConfigureState(old(View()), s, remarks, saveOk)
      ensures ok <==> SupportedSettings(s) && saveOk
      ensures ok ==> Takes(config, Load(old(file)), s) && engine.config == config && Load(file) == config
      ensures !ok ==> engine.View() == old(engine.View()) && config == old(config) && file == old(file)
      ensures ok && running ==>
                var p := PassOver(SetConfigState(old(engine.View()), WithSettings(Load(old(file)), s)), FullScan,
                                  WithSettings(Load(old(file)), s), true, engine.hasAdmin, endpoints, answers);
                engine.View() == p.state && devices == p.devices
      ensures ok && !running ==>
                engine.View() == SetConfigState(old(engine.View()), WithSettings(Load(old(file)), s)) && devices == []
    {
      hide Load, WithSettings, SavedText, IsSupportedSampleRate, IsSupportedBitDepth, Takes, Configurations.Valid;
      if !IsSupportedSampleRate(s.sampleRate) || !IsSupportedBitDepth(s.bitDepth) {
        return false, [];
      }
      var cfg := WithSettings(Load(file), s);
      SettingsTaken(Load(file), s);
      LoadIsValid(file);
      SettingsAreValid(Load(file), s);
      SavedIsLoaded(cfg, remarks);
      ok := SaveFile(cfg, remarks, saveOk);
      if !ok {
        return false, [];
      }
      config := cfg;
      engine.SetConfig(cfg);
      PassKeepsConfig(engine.View(), FullScan, cfg, true, engine.hasAdmin, endpoints, answers);
      var writes, paused;
      writes, devices, paused := engine.ScanOnce(FullScan, true, running, endpoints, answers);
      ok := true;
    }

    method Rename(id: string, name: string, remarks: seq<Remark>, renameOk: bool, saveOk: bool) returns (ok: bool)
      requires Valid() && |remarks| == REMARKS
      modifies this, engine, engine.store, engine.memory
      ensures Valid()
      ensures View() == RenameState(old(View()), id, name, remarks, renameOk, saveOk)
      ensures ok ==> engine.View() == SetConfigState(old(engine.View()), Renamed(Load(old(file)), id, name))
      ensures ok ==>
                && config == Load(old(file)).(deviceNames := config.deviceNames) && engine.config == config
                && OnlyRenames(config.deviceNames, Load(old(file)).deviceNames, id, name)
                && (PlainId(id) ==> Load(file) == config)
      ensures !ok ==> engine.View() == old(engine.View())
    {
      hide Load, Trim, NameText, SavedText, SetName, EqualsIgnoreCase, OnlyRenames, PlainId, Configurations.Valid;
      RenamedMeans(Load(file), id, name);
      if PlainId(id) {
        LoadIsValid(file);
        RenamedIsValid(Load(file), id, name);
        SavedIsLoaded(Renamed(Load(file), id, name), remarks);
      }
      if id == "" {
        return false;
      }
      var cfg := Load(file);
      var text := NameText(name);
      // What is kept under this id, however it is written, goes first.
      var kept: NameList := [];
      for i := 0 to |cfg.deviceNames|
        invariant kept + DropName(cfg.deviceNames[i..], id) == DropName(cfg.deviceNames, id)
      {
        assert cfg.deviceNames[i..][0] == cfg.deviceNames[i] && cfg.deviceNames[i..][1..] == cfg.deviceNames[i + 1..];
        if !EqualsIgnoreCase(cfg.deviceNames[i].0, id) {
          kept := kept + [cfg.deviceNames[i]];
        }
      }
      assert kept == DropName(cfg.deviceNames, id);
      if text != "" {
        if !renameOk {
          return false;
        }
        kept := SetName(kept, id, text);
      }
      cfg := cfg.(deviceNames := kept);
      ok := SaveFile(cfg, remarks, saveOk);
      if !ok {
        return;
      }
      config := cfg;
      engine.SetConfig(cfg);
    }

    method ReloadConfiguration()
      requires Valid()
      modifies this, engine, engine.store, engine.memory
      ensures Valid()
      ensures View() == ReloadState(old(View()))
      ensures engine.View() == SetConfigState(old(engine.View()), Load(old(file)))
    {
      hide Load;
      config := Load(file);
      engine.SetConfig(config);
    }
  }

  lemma {:induction false} PassKeepsConfig(st: EngineState, kind: ScanKind, cfg: Configuration, interactive: bool,
                                           hasAdmin: bool, eps: seq<AudioEndpoint>, answers: seq<Answers>)
    requires |answers| == |eps|
    ensures PassOver(st, kind, cfg, interactive, hasAdmin, eps, answers).state.config == st.config
  {
    hide VisitAt;
    if eps == [] {
    } else {
      PassKeepsConfig(st, kind, cfg, interactive, hasAdmin, eps[..|eps| - 1], answers[..|eps| - 1]);
    }
  }

  // ----- Runs of the host and of the passes it shares the engine with -----

  // A pass captures the engine's configuration when it begins; its steps may
  // come at any later time, whatever else happens meanwhile.
  datatype HostOp =
    | ConfigureOp(settings: AudioSettings, remarks: seq<Remark>, saveOk: bool)
    | RenameOp(id: string, name: string, remarks: seq<Remark>, renameOk: bool, saveOk: bool)
    | ReloadOp
    | BeginPassOp(pass: nat)

  // An id as Windows reports it.
  predicate PlainId(id: string) {
    id != "" && Trimmed(id) && OneLine(id) && !Has(id, '=') && id[0] != ';' && id[0] != '#' && id[0] != '['
  }

  predicate ValidHostOp(op: HostOp) {
    match op
    case ConfigureOp(_, remarks, _) => |remarks| == REMARKS
    case RenameOp(id, _, remarks, _, _) => |remarks| == REMARKS && (id == "" || PlainId(id))
    case _ => true
  }

  // The host, the settings it has applied so far and, for each pass, the
  // configuration it captured and the settings applied until then.
  datatype HostRun = HostRun(
    state: HostState,
    applied: seq<AudioSettings>,
    passes: map<nat, (Configuration, seq<AudioSettings>)>)

  function Start(file: Option<string>): HostRun { HostRun(HostState(file, Load(file), Load(file)), [], map[]) }

  function ApplyHost(r: HostRun, op: HostOp): HostRun
    requires ValidHostOp(op)
  {
    match op
    case ConfigureOp(s, remarks, saveOk) =>
      HostRun(ConfigureState(r.state, s, remarks, saveOk),
              if SupportedSettings(s) && saveOk then r.applied + [s] else r.applied, r.passes)
    case RenameOp(id, name, remarks, renameOk, saveOk) =>
      r.(state := RenameState(r.state, id, name, remarks, renameOk, saveOk))
    case ReloadOp => r.(state := ReloadState(r.state))
    case BeginPassOp(pass) => r.(passes := r.passes[pass := (r.state.engineConfig, r.applied)])
  }

  function RunHost(file: Option<string>, ops: seq<HostOp>): HostRun
    requires forall i :: 0 <= i < |ops| ==> ValidHostOp(ops[i])
  {
    if ops == [] then Start(file) else ApplyHost(RunHost(file, ops[..|ops| - 1]), ops[|ops| - 1])
  }

  // The settings at j confirmed the key, and nothing since switched the option
  // off or confirmed another one.
  predicate ConfirmedAt(applied: seq<AudioSettings>, j: nat, key: string) {
    && j < |applied|
    && applied[j].confirmDisable && applied[j].disableIncompatibleDevices
    && FormatKey(applied[j].sampleRate, applied[j].bitDepth) == key
    && forall m :: j < m < |applied| ==>
         applied[m].disableIncompatibleDevices
         && (applied[m].confirmDisable ==> FormatKey(applied[m].sampleRate, applied[m].bitDepth) == key)
  }

  ghost predicate Provenance(cfg: Configuration, applied: seq<AudioSettings>) {
    cfg.disableConfirmedFor == "" || exists j: nat :: ConfirmedAt(applied, j, cfg.disableConfirmedFor)
  }

  ghost predicate HostInvariant(r: HostRun) {
    && Provenance(Load(r.state.file), r.applied)
    && Provenance(r.state.engineConfig, r.applied)
    && forall p :: p in r.passes ==> Provenance(r.passes[p].0, r.passes[p].1)
  }

  lemma LoadIsValid(file: Option<string>)
    ensures Configurations.Valid(Load(file))
  {
    hide Parse, Configurations.Valid;
    match file
    case None =>
      ParseIsValid("");
      ParseNothing();
    case Some(text) => ParseIsValid(text);
  }

  lemma ParseNothing()
    ensures Parse("").config == DEFAULT_CONFIGURATION
  {
  }

  lemma SettingsAreValid(cfg: Configuration, s: AudioSettings)
    requires Configurations.Valid(cfg) && SupportedSettings(s)
    ensures Configurations.Valid(WithSettings(cfg, s))
  {
    FormatKeyPlain(s.sampleRate, s.bitDepth);
    assert PlainValue("");
    hide FormatKey, PlainValue, IsSupportedSampleRate, IsSupportedBitDepth, WellFormedNames;
  }

  lemma RenamedIsValid(cfg: Configuration, id: string, name: string)
    requires Configurations.Valid(cfg) && PlainId(id)
    ensures Configurations.Valid(Renamed(cfg, id, name))
  {
    DropNameValid(cfg.deviceNames, id);
    if NameText(name) != "" {
      NameTextPlain(name);
      SetNameValid(DropName(cfg.deviceNames, id), id, NameText(name));
    }
    hide PlainValue, IsSupportedSampleRate, IsSupportedBitDepth, WellFormedNames, NameText, DropName, SetName;
  }

  lemma NameTextPlain(name: string)
    ensures Trimmed(NameText(name)) && OneLine(NameText(name))
  {
    var t := Trim(name);
    var r := seq(|t|, i requires 0 <= i < |t| => if t[i] == '\r' || t[i] == '\n' || t[i] == '\t' then ' ' else t[i]);
    assert OneLine(r);
    hide Trim;
    TrimCharacters(r, ' ');
  }

  lemma {:induction false} DropNameMembers(names: NameList, id: string, i: nat)
    requires i < |DropName(names, id)|
    ensures DropName(names, id)[i] in names
  {
    hide EqualsIgnoreCase;
    if names == [] {
    } else {
      var kept := |DropName(names, id)| > |DropName(names[1..], id)|;
      if !(kept && i == 0) {
        DropNameMembers(names[1..], id, if kept then i - 1 else i);
      }
    }
  }

  lemma {:induction false} DropNameValid(names: NameList, id: string)
    requires WellFormedNames(names)
    ensures WellFormedNames(DropName(names, id))
  {
    if names == [] {
    } else {
      var rest := names[1..];
      assert forall i :: 0 <= i < |rest| ==> rest[i] == names[i + 1];
      DropNameValid(rest, id);
      var r := DropName(rest, id);
      hide LexLess, WellFormedName, EqualsIgnoreCase;
      forall i | 0 <= i < |r|
        ensures LexLess(names[0].0, r[i].0)
      {
        DropNameMembers(rest, id, i);
        hide DropName;
        var k :| 0 <= k < |rest| && rest[k] == r[i];
        assert names[k + 1] == r[i];
      }
    }
  }

  // A saved configuration is the one that is loaded.
  lemma SavedIsLoaded(cfg: Configuration, remarks: seq<Remark>)
    requires Configurations.Valid(cfg) && |remarks| == REMARKS
    ensures Load(Some(SavedText(cfg, remarks))) == cfg
  {
    hide Parse, SavedText, Configurations.Valid;
    RoundTrip(cfg, remarks);
  }

  lemma SettingsKeepProvenance(cfg: Configuration, applied: seq<AudioSettings>, s: AudioSettings)
    requires Provenance(cfg, applied)
    ensures Provenance(WithSettings(cfg, s), applied + [s])
  {
    hide FormatKey;
    var next, more := WithSettings(cfg, s), applied + [s];
    if next.disableConfirmedFor != "" {
      if s.confirmDisable {
        assert ConfirmedAt(more, |applied|, next.disableConfirmedFor);
      } else {
        var j: nat :| ConfirmedAt(applied, j, cfg.disableConfirmedFor);
        assert ConfirmedAt(more, j, next.disableConfirmedFor);
      }
    }
  }

  lemma HostStep(r: HostRun, op: HostOp)
    requires HostInvariant(r) && ValidHostOp(op)
    ensures HostInvariant(ApplyHost(r, op))
  {
    hide Load, SavedText, Configurations.Valid, PlainId, IsSupportedSampleRate, IsSupportedBitDepth, NameText;
    hide ConfirmedAt;
    LoadIsValid(r.state.file);
    var cfg := Load(r.state.file);
    match op {
      case ConfigureOp(s, remarks, saveOk) =>
        if SupportedSettings(s) && saveOk {
          SettingsAreValid(cfg, s);
          SettingsKeepProvenance(cfg, r.applied, s);
          hide WithSettings;
          SavedIsLoaded(WithSettings(cfg, s), remarks);
        }
      case RenameOp(id, name, remarks, renameOk, saveOk) =>
        if id != "" {
          RenamedIsValid(cfg, id, name);
          SavedIsLoaded(Renamed(cfg, id, name), remarks);
        }
      case ReloadOp =>
      case BeginPassOp(pass) =>
    }
  }

  lemma {:induction false} HostInvariantHolds(file: Option<string>, ops: seq<HostOp>)
    requires Load(file).disableConfirmedFor == ""
    requires forall i :: 0 <= i < |ops| ==> ValidHostOp(ops[i])
    ensures HostInvariant(RunHost(file, ops))
  {
    hide ApplyHost, ValidHostOp, Load;
    if ops == [] {
    } else {
      HostInvariantHolds(file, ops[..|ops| - 1]);
      HostStep(RunHost(file, ops[..|ops| - 1]), ops[|ops| - 1]);
    }
  }

  // Consent: a pass disables a device for a rate and a depth only if settings
  // applied before the pass began confirmed exactly that pair, and nothing
  // applied between them and the pass switched the option off or confirmed
  // another pair. The memory the pass finds and the answers it gets are
  // arbitrary.
  lemma DisablingNeedsConsent(file: Option<string>, ops: seq<HostOp>, pass: nat, kind: ScanKind, hasAdmin: bool,
                              ep: AudioEndpoint, s: Slice, a: Answers)
    returns (j: nat)
    requires Load(file).disableConfirmedFor == ""
    requires forall i :: 0 <= i < |ops| ==> ValidHostOp(ops[i])
    requires pass in RunHost(file, ops).passes && GoodRecord(s)
    requires VerifiedDisable(VisitEndpoint(kind, RunHost(file, ops).passes[pass].0, hasAdmin, ep, s, a), ep, a)
    ensures var (cfg, applied) := RunHost(file, ops).passes[pass];
            && j < |applied|
            && applied[j].confirmDisable && applied[j].disableIncompatibleDevices
            && applied[j].sampleRate == cfg.sampleRate && applied[j].bitDepth == cfg.bitDepth
            && forall m :: j < m < |applied| ==>
                 applied[m].disableIncompatibleDevices
                 && (applied[m].confirmDisable ==>
                       applied[m].sampleRate == cfg.sampleRate && applied[m].bitDepth == cfg.bitDepth)
  {
    hide RunHost, Load, VisitEndpoint, VerifiedDisable, VerifiedEnable, RecordKept, CountRecent, GuardRecord, FormatKey;
    var (cfg, applied) := RunHost(file, ops).passes[pass];
    HostInvariantHolds(file, ops);
    VisitFacts(kind, cfg, hasAdmin, ep, s, a);
    assert DisablePolicyConfirmed(cfg);
    FormatKeyPlain(cfg.sampleRate, cfg.bitDepth);
    assert Provenance(cfg, applied);
    j :| ConfirmedAt(applied, j, cfg.disableConfirmedFor);
    FormatKeyInjective(applied[j].sampleRate, applied[j].bitDepth, cfg.sampleRate, cfg.bitDepth);
    forall m | j < m < |applied|
      ensures applied[m].confirmDisable ==>
                applied[m].sampleRate == cfg.sampleRate && applied[m].bitDepth == cfg.bitDepth
    {
      if applied[m].confirmDisable {
        FormatKeyInjective(applied[m].sampleRate, applied[m].bitDepth, cfg.sampleRate, cfg.bitDepth);
      }
    }
  }
}
