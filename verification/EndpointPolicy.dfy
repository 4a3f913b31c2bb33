// One endpoint's step of a scan, as a function of what is remembered about
// the endpoint and of the answers the audio stack gives
// (src/core/WatchdogEngine.cpp: scanOnce, restoreName, handleIncompatible,
// handleDisabledByAudioslave, analyze).

module EndpointPolicy {
  import opened Text
  import opened AudioModel
  import opened Capabilities
  import opened Configurations
  import opened DeviceStateStores
  import opened EndpointMemories
  import opened Policies

  const LOOP_WINDOW_MS: int := 10 * 60 * 1000
  const MAX_DISABLES_PER_WINDOW: nat := 5
  const DAY_MS: int := 24 * 3600 * 1000

  datatype ScanKind = FullScan | TriggeredScan

  datatype DeviceAction =
    | NoAction | ActionCompliant | ActionApply | ActionApplied | ActionIgnore
    | ActionDisable | ActionDisabled | ActionKeepDisabled | ActionReenable | ActionReenabled
    | ActionPending | ActionLeftEnabled | ActionUnknown | ActionFailed

  datatype DeviceReport = DeviceReport(
    id: string,
    name: string,
    flow: EndpointFlow,
    state: EndpointState,
    isDefault: bool,
    disabledByAudioslave: bool,
    currentFormat: Option<(nat, nat)>,
    capabilities: FormatCapabilities,
    compatibility: Compatibility,
    action: DeviceAction,
    reason: Reason)

  // Everything the engine remembers about one endpoint: its record, its last
  // failure, the notice that it waits for its window and its cached formats.
  datatype Slice = Slice(
    record: Option<DisabledDeviceRecord>,
    failure: Option<int>,
    loopNotice: Option<Reason>,
    caps: Option<FormatCapabilities>)

  // What the environment says during one endpoint's step, one answer for each
  // call the code makes. Nothing relates the answers: a driver may refuse,
  // lie, or change its mind between two calls.
  datatype Answers = Answers(
    live: Reply<EndpointState>,              // before trusting the enumeration
    canModify: bool,                         // running and no pause requested
    startClock: int,                         // monotonic clocks
    nameClock: int,
    exclusiveClock: int,
    formatClock: int,
    wallClock: int,
    setDescription: ResultCode,
    exclusive: ExclusiveAnswers,
    apply: ApplyAnswers,
    current: Reply<AudioFormat>,             // asked again for an unsupported device
    probe: FormatAnswers,
    liveBeforeDisable: Reply<EndpointState>,
    disable: ResultCode,
    stateAfterDisable: Reply<EndpointState>,
    enable: ResultCode,
    stateAfterEnable: Reply<EndpointState>)

  // ----- Small pieces -----

  predicate Monitored(cfg: Configuration, flow: EndpointFlow) {
    !(flow == Render && !cfg.monitorPlayback) && !(flow == Capture && !cfg.monitorCapture)
  }

  predicate DisabledByUs(s: Slice) { s.record.Some? && s.record.value.disabled }

  // The endpoint with its live state when a device that Audioslave disabled
  // seems to be enabled.
  function Seen(ep: AudioEndpoint, s: Slice, hasAdmin: bool, a: Answers): AudioEndpoint {
    if DisabledByUs(s) && ep.state != Disabled && hasAdmin && Succeeded(a.live.code) then ep.(state := a.live.value)
    else ep
  }

  // A step looks at devices that are there and, if disabled, have a record
  // that says so.
  predicate Considered(ep: AudioEndpoint, s: Slice) {
    !(ep.state == Disabled && !DisabledByUs(s)) && ep.state != NotPresent
  }

  predicate InBackoff(s: Slice, clock: int) { s.failure.Some? && clock - s.failure.value < FAILURE_BACKOFF_MS }

  function Prune(history: seq<int>, t: int): seq<int> {
    if history == [] then []
    else (if t - history[0] > DAY_MS then [] else [history[0]]) + Prune(history[1..], t)
  }

  function CountRecent(history: seq<int>, t: int): nat {
    if history == [] then 0 else (if t - history[0] < LOOP_WINDOW_MS then 1 else 0) + CountRecent(history[1..], t)
  }

  function DepthsAt(caps: FormatCapabilities, rate: nat): seq<nat> {
    if rate in caps.depthsByRate then caps.depthsByRate[rate] else []
  }

  function VerdictReason(caps: FormatCapabilities, rate: nat, bits: nat): Reason {
    match JudgeCompatibility(caps, rate, bits)
    case Compatible => IsSupported
    case RateUnsupported => RateMissing(rate)
    case DepthUnsupported => DepthMissing(rate, DepthsAt(caps, rate), bits)
    case UnknownCompatibility => Undetermined
  }

  function NewReport(ep: AudioEndpoint): DeviceReport {
    DeviceReport(ep.id, ep.name, ep.flow, ep.state, ep.isDefault, false, None, UNKNOWN_CAPABILITIES,
                 UnknownCompatibility, NoAction, NoReason)
  }

  function Judged(d: DeviceReport, caps: FormatCapabilities, rate: nat, bits: nat): DeviceReport {
    d.(capabilities := caps, compatibility := JudgeCompatibility(caps, rate, bits),
       reason := VerdictReason(caps, rate, bits))
  }

  // ----- The phases of a step -----

  // A phase's effect: what is remembered, what was written, the report so far
  // and whether the report becomes an event.
  datatype Effect = Effect(slice: Slice, writes: seq<DeviceWrite>, device: DeviceReport, event: bool)

  // The kept name is written again when Windows shows another.
  function NamePhase(ep: AudioEndpoint, cfg: Configuration, enforce: bool, hasAdmin: bool, s: Slice, a: Answers)
      : (Slice, seq<DeviceWrite>) {
    var wanted := CustomDeviceName(cfg.deviceNames, ep.id);
    if wanted == "" || !hasAdmin || ep.description == "" || ep.description == wanted || !enforce then (s, [])
    else
      (if Succeeded(a.setDescription) then s else s.(failure := Some(a.nameClock)), [WriteDescription(ep.id, wanted)])
  }

  function ExclusivePhase(ep: AudioEndpoint, cfg: Configuration, enforce: bool, s: Slice, a: Answers)
      : (Slice, seq<DeviceWrite>) {
    if !cfg.exclusiveModeProtection then (s, [])
    else
      var (result, writes) := JudgeAndFix(ep.id, enforce, a.exclusive);
      match result
      case Fixed => (s.(failure := None), writes)
      case ExclusiveWriteFailed => (s.(failure := Some(a.exclusiveClock)), writes)
      case ExclusiveVerifyFailed => (s.(failure := Some(a.exclusiveClock)), writes)
      case _ => (s, writes)
  }

  // The cached formats of the device, or the driver's answer now.
  function CapabilitiesFor(s: Slice, current: AudioFormat, probe: FormatAnswers): (Slice, FormatCapabilities) {
    if s.caps.Some? then (s, s.caps.value)
    else
      var caps := Probe(current, probe);
      (if caps.known then s.(caps := Some(caps)) else s, caps)
  }

  // The device's record as the loop guard sees it at wall time t.
  function GuardRecord(s: Slice, t: int): DisabledDeviceRecord {
    var r := if s.record.Some? then s.record.value else NEW_RECORD;
    var pruned := r.(history := Prune(r.history, t));
    if r.id != "" && r.disabled then pruned.(disabled := false) else pruned
  }

  function DisabledRecord(r: DisabledDeviceRecord, ep: AudioEndpoint, d: DeviceReport, cfg: Configuration, t: int)
      : DisabledDeviceRecord {
    DisabledDeviceRecord(ep.id, ep.name, ep.flow, t, (cfg.sampleRate, cfg.bitDepth), d.reason, d.compatibility,
                         d.capabilities,
                         r.history + [t], r.leftEnabled, true)
  }

  // Disabling an incompatible device, the decision being made.
  function DisablePhase(ep: AudioEndpoint, cfg: Configuration, s: Slice, d: DeviceReport, r: DisabledDeviceRecord,
                        a: Answers): Effect {
    if Succeeded(a.liveBeforeDisable.code) && a.liveBeforeDisable.value != Active then
      Effect(s, [], d.(action := ActionUnknown, reason := NotActive(a.liveBeforeDisable.value)), false)
    else
      var writes := [WriteEnabled(ep.id, false)];
      var code := if Succeeded(a.disable) then a.stateAfterDisable.code else a.disable;
      var after := if Succeeded(a.disable) then a.stateAfterDisable.value else Active;
      if !Succeeded(code) || after != Disabled then
        Effect(s.(failure := Some(a.formatClock)), writes,
               d.(action := ActionFailed, reason := NotDisabled(code, after)), true)
      else
        Effect(s.(record := Some(DisabledRecord(r, ep, d, cfg, a.wallClock)), failure := None), writes,
               d.(action := ActionDisabled, state := Disabled, disabledByAudioslave := true), true)
  }

  // The loop guard.
  function GuardPhase(ep: AudioEndpoint, cfg: Configuration, s: Slice, d: DeviceReport, a: Answers): Effect {
    var r := GuardRecord(s, a.wallClock);
    var recent := CountRecent(r.history, a.wallClock);
    if r.leftEnabled then
      Effect(s.(record := Some(r)), [], d.(action := ActionLeftEnabled, reason := EnabledByUser(d.reason)), false)
    else if recent >= MAX_DISABLES_PER_WINDOW then
      var waiting := WaitingForWindow(d.reason, recent);
      Effect(s.(record := Some(r), loopNotice := Some(waiting)), [], d.(action := ActionLeftEnabled, reason := waiting),
             s.loopNotice != Some(waiting))
    else
      DisablePhase(ep, cfg, s.(loopNotice := None), d, r, a)
  }

  // handleIncompatible.
  function IncompatiblePhase(ep: AudioEndpoint, cfg: Configuration, enforce: bool, hasAdmin: bool, s: Slice,
                             d0: DeviceReport, a: Answers): Effect {
    var (s1, caps) := CapabilitiesFor(s, a.current.value, a.probe);
    var d := Judged(d0, caps, cfg.sampleRate, cfg.bitDepth);
    if d.compatibility == UnknownCompatibility then Effect(s1, [], d.(action := ActionUnknown), false)
    else if !cfg.disableIncompatibleDevices then Effect(s1, [], d.(action := ActionIgnore), false)
    else if !DisablePolicyConfirmed(cfg) then Effect(s1, [], d.(action := ActionPending), false)
    else if !hasAdmin || !enforce then Effect(s1, [], d.(action := ActionIgnore), false)
    else GuardPhase(ep, cfg, s1, d, a)
  }

  function WhyEnable(cfg: Configuration, stillIncompatible: bool): Reason {
    if !cfg.formatStandardization then StandardizationOff
    else if !cfg.disableIncompatibleDevices then PolicyOff
    else if !stillIncompatible then SupportsTarget
    else PolicyUnconfirmed
  }

  // handleDisabledByAudioslave.
  function DisabledPhase(ep: AudioEndpoint, record: DisabledDeviceRecord, cfg: Configuration, enforce: bool,
                         hasAdmin: bool, s: Slice, d0: DeviceReport, a: Answers): Effect {
    var d := Judged(d0, record.capabilities, cfg.sampleRate, cfg.bitDepth).(disabledByAudioslave := true);
    var stillIncompatible := Incompatible(d.compatibility);
    if DisablePolicyConfirmed(cfg) && stillIncompatible then Effect(s, [], d.(action := ActionKeepDisabled), false)
    else
      var why := WhyEnable(cfg, stillIncompatible);
      if !hasAdmin || !enforce then Effect(s, [], d.(action := ActionReenable, reason := why), false)
      else
        var writes := [WriteEnabled(ep.id, true)];
        var code := if Succeeded(a.enable) then a.stateAfterEnable.code else a.enable;
        var after := if Succeeded(a.enable) then a.stateAfterEnable.value else Disabled;
        if !Succeeded(code) || after == Disabled then
          Effect(s.(failure := Some(a.formatClock)), writes,
                 d.(action := ActionFailed, reason := NotEnabled(code)), false)
        else
          Effect(s.(record := None), writes,
                 d.(action := ActionReenabled, state := after, disabledByAudioslave := false, reason := why), true)
  }

  // Audio format standardization of an active endpoint.
  function FormatPhase(ep: AudioEndpoint, cfg: Configuration, enforce: bool, backoff: bool, hasAdmin: bool, s: Slice,
                       d0: DeviceReport, a: Answers): Effect {
    var (out, writes) := JudgeAndApply(ep.id, cfg.sampleRate, cfg.bitDepth, enforce, a.apply);
    var d := FormatReport(d0, out, backoff);
    if out.result == Unsupported then IncompatiblePhase(ep, cfg, enforce, hasAdmin, s, d, a)
    else Effect(FormatMemory(s, out.result, a.formatClock), writes, d, false)
  }

  // A device at the target is compatible again: its record is dropped.
  function FormatMemory(s: Slice, result: FormatResult, clock: int): Slice {
    match result
    case Compliant => s.(record := None)
    case Applied => s.(record := None, failure := None)
    case WriteFailed => s.(failure := Some(clock))
    case VerifyFailed => s.(failure := Some(clock))
    case _ => s
  }

  function FormatReport(d0: DeviceReport, out: FormatOutcome, backoff: bool): DeviceReport {
    var d :=
      if out.result == Unknown then d0 else d0.(currentFormat := Some((out.before.sampleRate, out.before.validBits)));
    match out.result
    case Compliant => d.(compatibility := Compatible, action := ActionCompliant)
    case Applied => d.(compatibility := Compatible, action := ActionApplied)
    case Unsupported => d
    case Unknown => d.(action := ActionUnknown, reason := FormatsUnknown(out.code))
    case WriteFailed => d.(compatibility := Compatible, action := ActionFailed, reason := FormatRejected(out.code))
    case VerifyFailed => d.(compatibility := Compatible, action := ActionFailed, reason := FormatDidNotStick)
    case Skipped => d.(compatibility := Compatible, action := ActionApply, reason := NotEnforced(backoff))
  }

  // ----- The step -----

  // The outcome of one endpoint's step: skipped, stopped by a pause, or done.
  datatype Visit =
    | SkippedEndpoint
    | PausedPass
    | Visited(slice: Slice, writes: seq<DeviceWrite>, report: Option<DeviceReport>, event: bool)

  function VisitEndpoint(kind: ScanKind, cfg: Configuration, hasAdmin: bool, ep: AudioEndpoint, s: Slice, a: Answers)
      : Visit {
    if !Monitored(cfg, ep.flow) then SkippedEndpoint
    else
      var seen := Seen(ep, s, hasAdmin, a);
      if !Considered(seen, s) then SkippedEndpoint
      else if !a.canModify then PausedPass
      else
        var backoff := kind == TriggeredScan && InBackoff(s, a.startClock);
        Modify(seen, s, cfg, cfg.enforce && !backoff, backoff, hasAdmin, a)
  }

  // The part of the step that holds the lock.
  function Modify(ep: AudioEndpoint, s: Slice, cfg: Configuration, enforce: bool, backoff: bool, hasAdmin: bool,
                  a: Answers): (v: Visit)
    requires Considered(ep, s)
    ensures v.Visited?
  {
    var (s1, w1) := NamePhase(ep, cfg, enforce, hasAdmin, s, a);
    if ep.state == Disabled then
      var e := DisabledPhase(ep, s.record.value, cfg, enforce, hasAdmin, s1, NewReport(ep), a);
      Visited(e.slice, w1 + e.writes, Some(e.device), e.event)
    else
      var (s2, w2) := ExclusivePhase(ep, cfg, enforce, s1, a);
      if ep.state == Active && cfg.formatStandardization then
        var e := FormatPhase(ep, cfg, enforce, backoff, hasAdmin, s2, NewReport(ep), a);
        Visited(e.slice, w1 + w2 + e.writes, Some(e.device), e.event)
      else
        Visited(s2, w1 + w2, None, false)
  }

  // ----- The preview of one endpoint -----

  function PreviewAction(candidate: Configuration, ours: bool, current: Option<AudioFormat>, c: Compatibility)
      : DeviceAction {
    if !candidate.formatStandardization then if ours then ActionReenable else NoAction
    else if ours then
      if Incompatible(c) && candidate.disableIncompatibleDevices then ActionKeepDisabled else ActionReenable
    else if c == UnknownCompatibility then ActionUnknown
    else if !Incompatible(c) then
      if current.Some? && current.value.Matches(candidate.sampleRate, candidate.bitDepth) then ActionCompliant
      else ActionApply
    else if candidate.disableIncompatibleDevices then ActionDisable
    else ActionIgnore
  }

  function PreviewEndpoint(candidate: Configuration, ep: AudioEndpoint, s: Slice, current: Reply<AudioFormat>,
                           probe: FormatAnswers)
    : (Slice, Option<DeviceReport>)
  {
    var ours := DisabledByUs(s) && ep.state == Disabled;
    if !Monitored(candidate, ep.flow) || (ep.state != Active && !ours) then (s, None)
    else
      var known := !ours && Succeeded(current.code);
      var (s1, caps) := if ours then (s, s.record.value.capabilities)
                        else CapabilitiesFor(s, if known then current.value else DEFAULT_FORMAT, probe);
      var d := Judged(NewReport(ep), caps, candidate.sampleRate, candidate.bitDepth)
               .(disabledByAudioslave := ours,
               currentFormat := if known then Some((current.value.sampleRate, current.value.validBits)) else None);
      var action := PreviewAction(candidate, ours, if known then Some(current.value) else None, d.compatibility);
      (s1, Some(d.(action := action)))
  }
}
