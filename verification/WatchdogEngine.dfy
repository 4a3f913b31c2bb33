// The watchdog engine: its methods, each proved to do what EngineModel says
// (src/core/WatchdogEngine.cpp). Locks and threads are in EngineThreads.dfy.

module WatchdogEngines {
  import opened Text
  import opened AudioModel
  import opened Capabilities
  import opened Configurations
  import opened DeviceStateStores
  import opened EndpointMemories
  import opened Policies
  import opened EndpointPolicy
  import opened EngineModel

  class WatchdogEngine {
    const store: DeviceStateStore
    const memory: EndpointMemory
    const hasAdmin: bool
    var capabilities: map<string, FormatCapabilities>
    var config: Configuration
    var events: seq<DeviceEvent>
    var nextEventSequence: int

    ghost predicate Valid()
      reads this, store
    {
      store.Valid() && WellKeyed(store.View()) && |events| <= MAX_EVENTS
    }

    ghost function View(): EngineState
      reads this, store, memory
    {
      EngineState(store.View(), memory.failures, memory.notices, capabilities, config, events, nextEventSequence)
    }

    constructor (config: Configuration, hasAdmin: bool)
      ensures Valid() && fresh(store) && fresh(memory) && this.hasAdmin == hasAdmin
      ensures View() == Started(config)
    {
      this.config := config;
      this.hasAdmin := hasAdmin;
      store := new DeviceStateStore();
      memory := new EndpointMemory();
      capabilities := map[];
      events := [];
      nextEventSequence := 1;
    }

    // ----- One change of what is remembered about one endpoint -----

    method RecordFailure(id: string, clock: int)
      requires Valid()
      modifies memory
      ensures Valid() && View() == Lift(old(View()), id, old(SliceOf(View(), id)).(failure := Some(clock)))
    {
      hide MapOf, DistinctIds, Lower, LoopKey;
      LiftChange(View(), id);
      hide Lift, SliceOf;
      memory.RecordFailure(id, clock);
    }

    method ClearFailure(id: string)
      requires Valid()
      modifies memory
      ensures Valid() && View() == Lift(old(View()), id, old(SliceOf(View(), id)).(failure := None))
    {
      hide MapOf, DistinctIds, Lower, LoopKey;
      LiftChange(View(), id);
      hide Lift, SliceOf;
      memory.ClearFailure(id);
    }

    method GetRecord(id: string) returns (r: Option<DisabledDeviceRecord>)
      requires Valid()
      ensures r == SliceOf(View(), id).record
      ensures r.Some? ==> r.value.id != "" && Lower(r.value.id) == Lower(id)
    {
      hide MapOf, DistinctIds, Lower, LoopKey;
      r := store.Get(id);
    }

    method PutRecord(id: string, r: DisabledDeviceRecord)
      requires Valid() && r.id != "" && Lower(r.id) == Lower(id)
      modifies store
      ensures Valid() && View() == Lift(old(View()), id, old(SliceOf(View(), id)).(record := Some(r)))
    {
      hide MapOf, DistinctIds, Lower, LoopKey;
      LiftChange(View(), id);
      hide Lift, SliceOf;
      store.Put(r);
    }

    method RemoveRecord(id: string)
      requires Valid()
      modifies store
      ensures Valid() && View() == Lift(old(View()), id, old(SliceOf(View(), id)).(record := None))
    {
      hide MapOf, DistinctIds, Lower, LoopKey;
      LiftChange(View(), id);
      hide Lift, SliceOf;
      store.Remove(id);
    }

    method NoticeWaiting(id: string, message: Reason) returns (isNew: bool)
      requires Valid()
      modifies memory
      ensures Valid() && View() == Lift(old(View()), id, old(SliceOf(View(), id)).(loopNotice := Some(message)))
      ensures isNew <==> old(SliceOf(View(), id)).loopNotice != Some(message)
    {
      hide MapOf, DistinctIds, Lower, LoopKey;
      LiftNotice(View(), id);
      hide Lift;
      isNew := memory.Notice(LoopKey(id), message);
    }

    method ClearWaiting(id: string)
      requires Valid()
      modifies memory
      ensures Valid() && View() == Lift(old(View()), id, old(SliceOf(View(), id)).(loopNotice := None))
    {
      hide MapOf, DistinctIds, Lower, LoopKey;
      LiftNotice(View(), id);
      hide Lift, SliceOf;
      memory.ClearNotice(LoopKey(id));
    }

    method AddEventFor(device: DeviceReport, interactive: bool)
      requires Valid()
      modifies this`events, this`nextEventSequence
      ensures Valid()
      ensures View() == AddEvent(old(View()), device, interactive)
    {
      hide MapOf, DistinctIds, WellKeyed;
      var e := DeviceEvent(nextEventSequence, device.action, device.id, device.name, device.reason, interactive);
      nextEventSequence := nextEventSequence + 1;
      PushEvent(e);
    }

    method PushEvent(e: DeviceEvent)
      modifies this`events
      ensures events == LastEvents(old(events) + [e])
      ensures |old(events)| == 32 ==> events == old(events)[1..] + [e]
      ensures |old(events)| < 32 ==> events == old(events) + [e]
    {
      events := events + [e];
      ghost var all := events;
      while |events| > MAX_EVENTS
        invariant |events| >= MAX_EVENTS || events == all
        invariant |events| <= |all| && events == all[|all| - |events|..]
      {
        events := events[1..];
      }
    }

    // ----- The phases of a step -----

    method CachedCapabilities(id: string, current: AudioFormat, probe: FormatAnswers) returns (caps: FormatCapabilities)
      requires Valid()
      modifies this`capabilities
      ensures Valid()
      ensures var (s, c) := CapabilitiesFor(old(SliceOf(View(), id)), current, probe);
              caps == c && View() == Lift(old(View()), id, s)
    {
      hide MapOf, DistinctIds, Probe, Lower, LoopKey;
      LiftSame(View(), id);
      if id in capabilities {
        return capabilities[id];
      }
      caps := ProbeDevice(current, probe);
      if caps.known {
        capabilities := capabilities[id := caps];
      }
    }

    method RestoreName(ep: AudioEndpoint, cfg: Configuration, enforce: bool, a: Answers)
        returns (writes: seq<DeviceWrite>)
      requires Valid()
      modifies memory
      ensures Valid()
      ensures var (s, w) := NamePhase(ep, cfg, enforce, hasAdmin, old(SliceOf(View(), ep.id)), a);
              writes == w && View() == Lift(old(View()), ep.id, s)
    {
      LiftSame(View(), ep.id);
      hide View, Valid, SliceOf, Lift, CustomDeviceName;
      writes := [];
      var wanted := CustomDeviceName(cfg.deviceNames, ep.id);
      if wanted == "" {
        return;
      }
      if !hasAdmin || ep.description == "" || ep.description == wanted {
        return;
      }
      if !enforce {
        return;
      }
      writes := [WriteDescription(ep.id, wanted)];
      if !Succeeded(a.setDescription) {
        RecordFailure(ep.id, a.nameClock);
      }
    }

    method ProtectExclusive(ep: AudioEndpoint, cfg: Configuration, enforce: bool, a: Answers)
        returns (writes: seq<DeviceWrite>)
      requires Valid()
      modifies memory
      ensures Valid()
      ensures var (s, w) := ExclusivePhase(ep, cfg, enforce, old(SliceOf(View(), ep.id)), a);
              writes == w && View() == Lift(old(View()), ep.id, s)
    {
      LiftSame(View(), ep.id);
      hide View, Valid, SliceOf, Lift;
      writes := [];
      if !cfg.exclusiveModeProtection {
        return;
      }
      if !Succeeded(a.exclusive.before.code) || !a.exclusive.before.value || !enforce {
        return;
      }
      writes := [WriteExclusive(ep.id)];
      if !Succeeded(a.exclusive.write) {
        RecordFailure(ep.id, a.exclusiveClock);
        return;
      }
      // Read back.
      if !Succeeded(a.exclusive.after.code) || a.exclusive.after.value {
        RecordFailure(ep.id, a.exclusiveClock);
        return;
      }
      ClearFailure(ep.id);
    }

    method PruneHistory(history: seq<int>, t: int) returns (kept: seq<int>)
      ensures kept == Prune(history, t)
    {
      kept := [];
      for i := 0 to |history|
        invariant kept + Prune(history[i..], t) == Prune(history, t)
      {
        assert history[i..][1..] == history[i + 1..];
        if !(t - history[i] > DAY_MS) {
          kept := kept + [history[i]];
        }
      }
    }

    method CountWithinWindow(history: seq<int>, t: int) returns (recent: nat)
      ensures recent == CountRecent(history, t)
    {
      recent := 0;
      for i := 0 to |history|
        invariant recent + CountRecent(history[i..], t) == CountRecent(history, t)
      {
        assert history[i..][1..] == history[i + 1..];
        if t - history[i] < LOOP_WINDOW_MS {
          recent := recent + 1;
        }
      }
    }

    method HandleIncompatible(ep: AudioEndpoint, cfg: Configuration, enforce: bool, interactive: bool, d0: DeviceReport,
                              a: Answers)
      returns (device: DeviceReport, writes: seq<DeviceWrite>)
      requires Valid() && ep.id != ""
      modifies this, store, memory
      ensures Valid()
      ensures var e := IncompatiblePhase(ep, cfg, enforce, hasAdmin, old(SliceOf(View(), ep.id)), d0, a);
              device == e.device && writes == e.writes && View() == Absorb(old(View()), ep.id, e, interactive)
    {
      hide View, Valid, SliceOf, Lift, CapabilitiesFor, GuardPhase, Judged;
      ghost var st, s := View(), SliceOf(View(), ep.id);
      writes := [];
      var caps := CachedCapabilities(ep.id, a.current.value, a.probe);
      ghost var s1 := CapabilitiesFor(s, a.current.value, a.probe).0;
      device := Judged(d0, caps, cfg.sampleRate, cfg.bitDepth);
      if !cfg.disableIncompatibleDevices || device.compatibility == UnknownCompatibility {
        device := device.(action := if device.compatibility == UnknownCompatibility then ActionUnknown
                                   else ActionIgnore);
        return;
      }
      if !DisablePolicyConfirmed(cfg) {
        device := device.(action := ActionPending);
        return;
      }
      if !hasAdmin || !enforce {
        device := device.(action := ActionIgnore);
        return;
      }
      LiftTwice(st, ep.id, s1, GuardPhase(ep, cfg, s1, device, a).slice);
      device, writes := GuardAndDisable(ep, cfg, interactive, device, a);
    }

    // The loop guard, which may still hold the disable back.
    method GuardAndDisable(ep: AudioEndpoint, cfg: Configuration, interactive: bool, d: DeviceReport, a: Answers)
      returns (device: DeviceReport, writes: seq<DeviceWrite>)
      requires Valid() && ep.id != ""
      modifies this, store, memory
      ensures Valid()
      ensures var e := GuardPhase(ep, cfg, old(SliceOf(View(), ep.id)), d, a);
              device == e.device && writes == e.writes && View() == Absorb(old(View()), ep.id, e, interactive)
    {
      assert Prune([], a.wallClock) == [] && CountRecent([], a.wallClock) == 0;
      hide View, Valid, SliceOf, Lift, Prune, CountRecent, DisablePhase;
      ghost var st, s := View(), SliceOf(View(), ep.id);
      device, writes := d, [];
      var t := a.wallClock;
      var found := GetRecord(ep.id);
      var record := if found.Some? then found.value else NEW_RECORD;
      var kept := PruneHistory(record.history, t);
      record := record.(history := kept);
      if record.id != "" && record.disabled {
        record := record.(disabled := false);
      }
      assert record == GuardRecord(s, t);
      hide GuardRecord;
      if record.leftEnabled {
        device := device.(action := ActionLeftEnabled, reason := EnabledByUser(device.reason));
        PutRecord(ep.id, record);
        return;
      }
      var recent := CountWithinWindow(record.history, t);
      if recent >= MAX_DISABLES_PER_WINDOW {
        PutRecord(ep.id, record);
        ghost var s1 := s.(record := Some(record));
        device := device.(action := ActionLeftEnabled, reason := WaitingForWindow(device.reason, recent));
        LiftTwice(st, ep.id, s1, s1.(loopNotice := Some(device.reason)));
        var isNew := NoticeWaiting(ep.id, device.reason);
        if isNew {
          AddEventFor(device, interactive);
        }
        return;
      }
      ghost var s1 := s.(loopNotice := None);
      LiftTwice(st, ep.id, s1, DisablePhase(ep, cfg, s1, d, record, a).slice);
      ClearWaiting(ep.id);
      device, writes := Disable(ep, cfg, interactive, device, record, a);
    }

    // The live state comes first, and the record only after the read-back.
    method Disable(ep: AudioEndpoint, cfg: Configuration, interactive: bool, d: DeviceReport,
                   record: DisabledDeviceRecord, a: Answers)
      returns (device: DeviceReport, writes: seq<DeviceWrite>)
      requires Valid() && ep.id != ""
      modifies this, store, memory
      ensures Valid()
      ensures var e := DisablePhase(ep, cfg, old(SliceOf(View(), ep.id)), d, record, a);
              device == e.device && writes == e.writes && View() == Absorb(old(View()), ep.id, e, interactive)
    {
      ghost var st, s := View(), SliceOf(View(), ep.id);
      LiftSame(st, ep.id);
      hide View, Valid, SliceOf, Lift;
      device, writes := d, [];
      if Succeeded(a.liveBeforeDisable.code) && a.liveBeforeDisable.value != Active {
        device := device.(action := ActionUnknown, reason := NotActive(a.liveBeforeDisable.value));
        return;
      }
      var after := Active;
      writes := [WriteEnabled(ep.id, false)];
      var code := a.disable;
      if Succeeded(code) {
        code, after := a.stateAfterDisable.code, a.stateAfterDisable.value;
      }
      if !Succeeded(code) || after != Disabled {
        RecordFailure(ep.id, a.formatClock);
        device := device.(action := ActionFailed, reason := NotDisabled(code, after));
        AddEventFor(device, interactive);
        return;
      }
      var disabled := DisabledRecord(record, ep, device, cfg, a.wallClock);
      PutRecord(ep.id, disabled);
      LiftTwice(st, ep.id, s.(record := Some(disabled)), s.(record := Some(disabled), failure := None));
      ClearFailure(ep.id);
      device := device.(action := ActionDisabled, state := Disabled, disabledByAudioslave := true);
      AddEventFor(device, interactive);
    }

    method HandleDisabledByAudioslave(ep: AudioEndpoint, record: DisabledDeviceRecord, cfg: Configuration,
                                      enforce: bool, interactive: bool, d0: DeviceReport, a: Answers)
      returns (device: DeviceReport, writes: seq<DeviceWrite>)
      requires Valid()
      modifies this, store, memory
      ensures Valid()
      ensures var e := DisabledPhase(ep, record, cfg, enforce, hasAdmin, old(SliceOf(View(), ep.id)), d0, a);
              device == e.device && writes == e.writes && View() == Absorb(old(View()), ep.id, e, interactive)
    {
      LiftSame(View(), ep.id);
      hide View, Valid, SliceOf, Lift, Judged, DisablePolicyConfirmed, WhyEnable, Incompatible, AddEvent;
      ghost var st, s := View(), SliceOf(View(), ep.id);
      writes := [];
      device := Judged(d0, record.capabilities, cfg.sampleRate, cfg.bitDepth).(disabledByAudioslave := true);
      var stillIncompatible := Incompatible(device.compatibility);
      if DisablePolicyConfirmed(cfg) && stillIncompatible {
        device := device.(action := ActionKeepDisabled);
        return;
      }
      var why := WhyEnable(cfg, stillIncompatible);
      if !hasAdmin || !enforce {
        device := device.(action := ActionReenable, reason := why);
        return;
      }
      var after := Disabled;
      writes := [WriteEnabled(ep.id, true)];
      var code := a.enable;
      if Succeeded(code) {
        code, after := a.stateAfterEnable.code, a.stateAfterEnable.value;
      }
      if !Succeeded(code) || after == Disabled {
        RecordFailure(ep.id, a.formatClock);
        device := device.(action := ActionFailed, reason := NotEnabled(code));
        return;
      }
      RemoveRecord(ep.id);
      device := device.(action := ActionReenabled, state := after, disabledByAudioslave := false, reason := why);
      assert DisabledPhase(ep, record, cfg, enforce, hasAdmin, s, d0, a)
             == Effect(s.(record := None), writes, device, true);
      hide DisabledPhase;
      AddEventFor(device, interactive);
    }

    method StandardizeFormat(ep: AudioEndpoint, cfg: Configuration, enforce: bool, backoff: bool, interactive: bool,
                             d0: DeviceReport, a: Answers)
      returns (device: DeviceReport, writes: seq<DeviceWrite>)
      requires Valid() && ep.id != ""
      modifies this, store, memory
      ensures Valid()
      ensures var e := FormatPhase(ep, cfg, enforce, backoff, hasAdmin, old(SliceOf(View(), ep.id)), d0, a);
              device == e.device && writes == e.writes && View() == Absorb(old(View()), ep.id, e, interactive)
    {
      LiftSame(View(), ep.id);
      hide View, Valid, SliceOf, Lift, IncompatiblePhase, JudgeAndApply, FormatReport, FormatMemory;
      var out;
      out, writes := JudgeFormat(ep.id, cfg.sampleRate, cfg.bitDepth, enforce, a.apply);
      device := FormatReport(d0, out, backoff);
      if out.result == Unsupported {
        device, writes := HandleIncompatible(ep, cfg, enforce, interactive, device, a);
      } else {
        RememberFormat(ep.id, out.result, a.formatClock);
      }
    }

    method RememberFormat(id: string, result: FormatResult, clock: int)
      requires Valid()
      modifies this, store, memory
      ensures Valid()
      ensures View() == Lift(old(View()), id, FormatMemory(old(SliceOf(View(), id)), result, clock))
    {
      ghost var st, s := View(), SliceOf(View(), id);
      LiftSame(st, id);
      hide View, Valid, SliceOf, Lift;
      match result {
        case Compliant =>
          RemoveRecord(id);
        case Applied =>
          ClearFailure(id);
          LiftTwice(st, id, s.(failure := None), s.(failure := None, record := None));
          RemoveRecord(id);
        case WriteFailed =>
          RecordFailure(id, clock);
        case VerifyFailed =>
          RecordFailure(id, clock);
        case Unsupported =>
        case Unknown =>
        case Skipped =>
      }
    }

    // ----- Passes -----

    // One endpoint of a pass: a record of what the body of the loop does.
    method ProcessEndpoint(kind: ScanKind, cfg: Configuration, interactive: bool, ep: AudioEndpoint, a: Answers)
      returns (paused: bool, writes: seq<DeviceWrite>, reports: seq<DeviceReport>)
      requires Valid() && ep.id != ""
      modifies this, store, memory
      ensures Valid()
      ensures var v := VisitAt(old(View()), kind, cfg, hasAdmin, ep, a);
              && Extend(Pass(old(View()), [], [], false), ep.id, v, interactive)
                 == Pass(View(), writes, reports, paused)
    {
      hide View, Valid, SliceOf, Lift, Modify, Seen, Monitored, Considered;
      paused, writes, reports := false, [], [];
      var record := GetRecord(ep.id);
      var visit, endpoint := LookAt(ep, record, cfg, a);
      if !visit {
        return;
      }
      if !a.canModify {
        paused := true;
        return;
      }
      var failing := Backoff(ep.id, a.startClock);
      var backoff := kind == TriggeredScan && failing;
      writes, reports := ModifyEndpoint(endpoint, record, cfg, cfg.enforce && !backoff, backoff, interactive, a);
    }

    // Whether the endpoint is visited, and in which state.
    method LookAt(ep: AudioEndpoint, record: Option<DisabledDeviceRecord>, cfg: Configuration, a: Answers)
      returns (visit: bool, endpoint: AudioEndpoint)
      requires Valid() && record == SliceOf(View(), ep.id).record
      ensures visit <==> Monitored(cfg, ep.flow)
                         && Considered(Seen(ep, SliceOf(View(), ep.id), hasAdmin, a), SliceOf(View(), ep.id))
      ensures visit ==> endpoint == Seen(ep, SliceOf(View(), ep.id), hasAdmin, a) && endpoint.id == ep.id
    {
      hide View, Valid, SliceOf;
      endpoint := ep;
      if (ep.flow == Render && !cfg.monitorPlayback) || (ep.flow == Capture && !cfg.monitorCapture) {
        return false, ep;
      }
      var disabledByUs := record.Some? && record.value.disabled;
      // The enumeration may be older than the record.
      if disabledByUs && endpoint.state != Disabled && hasAdmin {
        if Succeeded(a.live.code) {
          endpoint := endpoint.(state := a.live.value);
        }
      }
      if endpoint.state == Disabled && !disabledByUs {
        return false, endpoint;
      }
      visit := endpoint.state != NotPresent;
    }

    method Backoff(id: string, clock: int) returns (b: bool)
      requires Valid()
      ensures b == InBackoff(SliceOf(View(), id), clock)
    {
      b := memory.InBackoff(id, clock);
    }

    // The part of the step that holds the lock.
    method ModifyEndpoint(ep: AudioEndpoint, record: Option<DisabledDeviceRecord>, cfg: Configuration, enforce: bool,
                          backoff: bool, interactive: bool, a: Answers)
      returns (writes: seq<DeviceWrite>, reports: seq<DeviceReport>)
      requires Valid() && ep.id != "" && record == SliceOf(View(), ep.id).record
      requires Considered(ep, SliceOf(View(), ep.id))
      modifies this, store, memory
      ensures Valid()
      ensures var v := Modify(ep, old(SliceOf(View(), ep.id)), cfg, enforce, backoff, hasAdmin, a);
              && writes == v.writes && reports == (if v.report.Some? then [v.report.value] else [])
              && View() == VisitedState(old(View()), ep.id, v, interactive)
    {
      hide View, Valid, SliceOf, Lift, NamePhase, ExclusivePhase, DisabledPhase, FormatPhase;
      ghost var st, s := View(), SliceOf(View(), ep.id);
      reports := [];
      writes := RestoreName(ep, cfg, enforce, a);
      ghost var s1 := NamePhase(ep, cfg, enforce, hasAdmin, s, a).0;
      LiftTwice(st, ep.id, s1, s1);
      var device;
      var more;
      if ep.state == Disabled {
        NamePhaseKeeps(ep, cfg, enforce, hasAdmin, s, a);
        LiftTwice(st, ep.id, s1, DisabledPhase(ep, record.value, cfg, enforce, hasAdmin, s1, NewReport(ep), a).slice);
        device, more := HandleDisabledByAudioslave(ep, record.value, cfg, enforce, interactive, NewReport(ep), a);
        writes := writes + more;
        reports := [device];
        return;
      }
      more := ProtectExclusive(ep, cfg, enforce, a);
      writes := writes + more;
      ghost var s2 := ExclusivePhase(ep, cfg, enforce, s1, a).0;
      LiftTwice(st, ep.id, s1, s2);
      if ep.state == Active && cfg.formatStandardization {
        LiftTwice(st, ep.id, s2, FormatPhase(ep, cfg, enforce, backoff, hasAdmin, s2, NewReport(ep), a).slice);
        device, more := StandardizeFormat(ep, cfg, enforce, backoff, interactive, NewReport(ep), a);
        writes := writes + more;
        reports := [device];
      }
    }

    // One pass. `running` is what canModify() says before it starts.
    method ScanOnce(kind: ScanKind, interactive: bool, running: bool, endpoints: seq<AudioEndpoint>,
                    answers: seq<Answers>)
      returns (writes: seq<DeviceWrite>, devices: seq<DeviceReport>, paused: bool)
      requires Valid() && |answers| == |endpoints| && forall i :: 0 <= i < |endpoints| ==> endpoints[i].id != ""
      modifies this, store, memory
      ensures Valid()
      ensures !running ==> View() == old(View()) && writes == [] && devices == [] && paused
      ensures running ==> Pass(View(), writes, devices, paused)
                          == PassOver(old(View()), kind, old(config), interactive, hasAdmin, endpoints, answers)
    {
      hide Valid, VisitAt, VisitedState;
      if !running {
        return [], [], true;
      }
      var cfg := config;
      ghost var st := View();
      hide View;
      writes, devices, paused := [], [], false;
      for i := 0 to |endpoints|
        invariant Valid() && !paused
        invariant Pass(View(), writes, devices, paused)
                == PassOver(st, kind, cfg, interactive, hasAdmin, endpoints[..i], answers[..i])
      {
        ghost var p := Pass(View(), writes, devices, paused);
        assert endpoints[..i + 1][..i] == endpoints[..i] && answers[..i + 1][..i] == answers[..i];
        var w, r;
        paused, w, r := ProcessEndpoint(kind, cfg, interactive, endpoints[i], answers[i]);
        ExtendFrom(p, endpoints[i].id, VisitAt(p.state, kind, cfg, hasAdmin, endpoints[i], answers[i]), interactive);
        writes, devices := writes + w, devices + r;
        if paused {
          PausedStays(st, kind, cfg, interactive, hasAdmin, endpoints, answers, i + 1);
          return;
        }
      }
      assert endpoints[..|endpoints|] == endpoints && answers[..|answers|] == answers;
    }

    // The preview of a candidate configuration.
    method Analyze(candidate: Configuration, enumeration: ResultCode, endpoints: seq<AudioEndpoint>,
                   answers: seq<PreviewAnswers>)
      returns (out: seq<DeviceReport>)
      requires Valid() && |answers| == |endpoints|
      modifies this`capabilities
      ensures Valid()
      ensures !Succeeded(enumeration) ==> out == [] && View() == old(View())
      ensures Succeeded(enumeration) ==> Preview(View(), out) == PreviewOver(old(View()), candidate, endpoints, answers)
    {
      hide Valid, View, PreviewEndpoint;
      out := [];
      if !Succeeded(enumeration) {
        return;
      }
      ghost var st := View();
      for i := 0 to |endpoints|
        invariant Valid()
        invariant Preview(View(), out) == PreviewOver(st, candidate, endpoints[..i], answers[..i])
      {
        assert endpoints[..i + 1][..i] == endpoints[..i] && answers[..i + 1][..i] == answers[..i];
        var report := AnalyzeEndpoint(candidate, endpoints[i], answers[i]);
        out := out + (if report.Some? then [report.value] else []);
      }
      assert endpoints[..|endpoints|] == endpoints && answers[..|answers|] == answers;
    }

    method AnalyzeEndpoint(candidate: Configuration, ep: AudioEndpoint, a: PreviewAnswers)
        returns (report: Option<DeviceReport>)
      requires Valid()
      modifies this`capabilities
      ensures Valid()
      ensures var (s, r) := PreviewEndpoint(candidate, ep, old(SliceOf(View(), ep.id)), a.current, a.probe);
              report == r && View() == Lift(old(View()), ep.id, s)
      ensures View() == PreviewedState(old(View()), candidate, ep, a)
    {
      LiftSame(View(), ep.id);
      PreviewOnlyAsks(View(), candidate, ep, a);
      hide Valid, View, SliceOf, Lift, CapabilitiesFor, Judged, PreviewAction, PreviewedState;
      if (ep.flow == Render && !candidate.monitorPlayback) || (ep.flow == Capture && !candidate.monitorCapture) {
        return None;
      }
      var record := GetRecord(ep.id);
      var ours := record.Some? && record.value.disabled && ep.state == Disabled;
      if ep.state != Active && !ours {
        return None;
      }
      var d := NewReport(ep);
      var current, currentKnown, caps := DEFAULT_FORMAT, false, UNKNOWN_CAPABILITIES;
      if ours {
        caps := record.value.capabilities;
      } else {
        currentKnown := Succeeded(a.current.code);
        if currentKnown {
          current := a.current.value;
          d := d.(currentFormat := Some((current.sampleRate, current.validBits)));
        }
        caps := CachedCapabilities(ep.id, current, a.probe);
      }
      d := Judged(d, caps, candidate.sampleRate, candidate.bitDepth).(disabledByAudioslave := ours);
      assert d == Judged(NewReport(ep), caps, candidate.sampleRate, candidate.bitDepth)
                  .(disabledByAudioslave := ours,
                  currentFormat := if currentKnown then Some((current.sampleRate, current.validBits)) else None) by {
        JudgedKeeps(NewReport(ep), caps, candidate.sampleRate, candidate.bitDepth);
      }
      var action := PlanAction(candidate, ours, if currentKnown then Some(current) else None, d.compatibility);
      report := Some(d.(action := action));
    }

    method PlanAction(candidate: Configuration, ours: bool, current: Option<AudioFormat>, c: Compatibility)
        returns (action: DeviceAction)
      ensures action == PreviewAction(candidate, ours, current, c)
    {
      var incompatible := Incompatible(c);
      if !candidate.formatStandardization {
        action := if ours then ActionReenable else NoAction;
      } else if ours {
        action := if incompatible && candidate.disableIncompatibleDevices then ActionKeepDisabled else ActionReenable;
      } else if c == UnknownCompatibility {
        action := ActionUnknown;
      } else if !incompatible {
        var compliant := current.Some? && current.value.Matches(candidate.sampleRate, candidate.bitDepth);
        action := if compliant then ActionCompliant else ActionApply;
      } else {
        action := if candidate.disableIncompatibleDevices then ActionDisable else ActionIgnore;
      }
    }

    // ----- The user's and the system's calls -----

    method SetConfig(cfg: Configuration)
      requires Valid()
      modifies this, store, memory
      ensures Valid()
      ensures View() == SetConfigState(old(View()), cfg)
      ensures config == cfg && memory.failures == map[] && memory.notices == map[]
      ensures capabilities == old(capabilities) && events == old(events)
      ensures !Differ(old(config), cfg) ==> store.View() == old(store.View())
      ensures Differ(old(config), cfg) ==>
                && (forall k :: k in store.View() <==> k in old(store.View()) && old(store.View())[k].disabled)
                && forall k :: k in store.View() ==>
                     store.View()[k] == old(store.View())[k].(leftEnabled := false, history := [])
    {
      hide MapOf, DistinctIds;
      SettingsMean(View(), cfg);
      var policyChanged := PolicyChanged(cfg, config);
      config := cfg;
      memory.Clear();
      if policyChanged {
        store.ResetHistory();
      }
    }

    // "Verificar agora": every driver is asked again.
    method ForgetCapabilities()
      requires Valid()
      modifies this`capabilities
      ensures Valid()
      ensures View() == ForgetCapabilitiesState(old(View()))
      ensures capabilities == map[]
    {
      hide MapOf, DistinctIds, WellKeyed;
      capabilities := map[];
    }

    // A device was added, removed, or changed its state or role. (A property
    // change only asks for a rescan.)
    method OnDeviceChange(id: string)
      requires Valid()
      modifies this`capabilities, memory
      ensures Valid()
      ensures View() == ForgetEndpointState(old(View()), id)
      ensures memory.failures == old(memory.failures) - {id} && capabilities == old(capabilities) - {id}
      ensures forall prefix: string :: prefix + id !in memory.notices
    {
      hide MapOf, DistinctIds, WellKeyed, Contains;
      memory.ForgetEndpoint(id);
      capabilities := capabilities - {id};
    }

    // Leaving PAUSED forgets failures and notices.
    method ForgetFailures()
      requires Valid()
      modifies memory
      ensures Valid()
      ensures View() == ClearMemoryState(old(View()))
      ensures memory.failures == map[] && memory.notices == map[]
    {
      hide MapOf, DistinctIds, WellKeyed;
      memory.Clear();
    }

    // The user's own command; it makes a record say "left enabled".
    method EnableDevice(id: string, a: EnableAnswers) returns (ok: bool, writes: seq<DeviceWrite>)
      requires Valid()
      modifies store
      ensures Valid()
      ensures ok <==> hasAdmin && Succeeded(a.enable) && Succeeded(a.state.code) && a.state.value != Disabled
      ensures ok && Lower(id) in old(store.View()) ==>
                store.View()
                == old(store.View())[Lower(id) := old(store.View())[Lower(id)].(disabled := false, leftEnabled := true)]
      ensures !ok || Lower(id) !in old(store.View()) ==> store.View() == old(store.View())
      ensures writes == if hasAdmin then [WriteEnabled(id, true)] else []
      ensures View() == if hasAdmin then EnableDeviceState(old(View()), id, a) else old(View())
    {
      hide MapOf, DistinctIds, LoopKey, Lower;
      if !hasAdmin {
        return false, [];
      }
      var record := GetRecord(id);
      writes := [WriteEnabled(id, true)];
      var code, after := a.enable, Disabled;
      if Succeeded(code) {
        code, after := a.state.code, a.state.value;
      }
      if !Succeeded(code) || after == Disabled {
        return false, writes;
      }
      if record.Some? {
        store.Put(record.value.(disabled := false, leftEnabled := true));
      }
      ok := true;
    }
  }

  // The name's step keeps the record.
  lemma NamePhaseKeeps(ep: AudioEndpoint, cfg: Configuration, enforce: bool, hasAdmin: bool, s: Slice, a: Answers)
    ensures NamePhase(ep, cfg, enforce, hasAdmin, s, a).0.record == s.record
  {
    hide CustomDeviceName;
  }

  lemma JudgedKeeps(d: DeviceReport, caps: FormatCapabilities, rate: nat, bits: nat)
    ensures forall f :: Judged(d.(currentFormat := f), caps, rate, bits)
              == Judged(d, caps, rate, bits).(currentFormat := f)
    ensures Judged(d, caps, rate, bits).currentFormat == d.currentFormat
  {
    hide JudgeCompatibility, VerdictReason;
  }

  // A pass is extended as if it had started at the endpoint.
  lemma ExtendFrom(p: Pass, id: string, v: Visit, interactive: bool)
    requires !p.paused
    ensures var q, r := Extend(p, id, v, interactive), Extend(Pass(p.state, [], [], false), id, v, interactive);
            q == Pass(r.state, p.writes + r.writes, p.devices + r.devices, r.paused)
  {
    hide VisitedState;
  }

  // Once paused, the rest of the enumeration is not looked at.
  lemma {:induction false} PausedStays(st: EngineState, kind: ScanKind, cfg: Configuration, interactive: bool,
                                       hasAdmin: bool, eps: seq<AudioEndpoint>, answers: seq<Answers>, n: nat)
    requires |answers| == |eps| && n <= |eps|
    requires PassOver(st, kind, cfg, interactive, hasAdmin, eps[..n], answers[..n]).paused
    ensures PassOver(st, kind, cfg, interactive, hasAdmin, eps, answers)
            == PassOver(st, kind, cfg, interactive, hasAdmin, eps[..n], answers[..n])
  {
    hide Extend, VisitAt;
    if n == |eps| {
      assert eps[..n] == eps && answers[..n] == answers;
    } else {
      var m := |eps| - 1;
      assert eps[..m][..n] == eps[..n] && answers[..m][..n] == answers[..n];
      PausedStays(st, kind, cfg, interactive, hasAdmin, eps[..m], answers[..m], n);
    }
  }
}
