// What one endpoint's step can do, whatever the audio stack answers.

module EndpointFacts {
  import opened Text
  import opened AudioModel
  import opened Capabilities
  import opened Configurations
  import opened DeviceStateStores
  import opened Policies
  import opened EndpointPolicy

  // ----- Verified changes, told from the calls and their answers -----

  // Windows was asked to disable the device, agreed, and reads it back disabled.
  predicate VerifiedDisable(v: Visit, ep: AudioEndpoint, a: Answers) {
    && v.Visited?
    && WriteEnabled(ep.id, false) in v.writes
    && Succeeded(a.disable)
    && Succeeded(a.stateAfterDisable.code)
    && a.stateAfterDisable.value == Disabled
  }

  predicate VerifiedEnable(v: Visit, ep: AudioEndpoint, a: Answers) {
    && v.Visited?
    && WriteEnabled(ep.id, true) in v.writes
    && Succeeded(a.enable)
    && Succeeded(a.stateAfterEnable.code)
    && a.stateAfterEnable.value != Disabled
  }

  predicate NoEnableWrites(writes: seq<DeviceWrite>) { forall i :: 0 <= i < |writes| ==> !writes[i].WriteEnabled? }

  // ----- Phase by phase -----

  lemma EarlyPhases(ep: AudioEndpoint, cfg: Configuration, enforce: bool, hasAdmin: bool, s: Slice, a: Answers)
    ensures var (s1, w1) := NamePhase(ep, cfg, enforce, hasAdmin, s, a);
            && s1.record == s.record && s1.caps == s.caps && s1.loopNotice == s.loopNotice && NoEnableWrites(w1)
            && (!enforce ==> w1 == [] && s1 == s)
    ensures var (s2, w2) := ExclusivePhase(ep, cfg, enforce, s, a);
            && s2.record == s.record && s2.caps == s.caps && s2.loopNotice == s.loopNotice && NoEnableWrites(w2)
            && (!enforce ==> w2 == [] && s2 == s)
  {
    hide CustomDeviceName;
  }

  // How a record may change when nothing is verified disabled or enabled: it
  // stays, is dropped, or is put back by the loop guard, no longer disabled.
  predicate RecordKept(s: Slice, s': Slice, t: int) {
    || s'.record == s.record
    || s'.record == None
    || (s.record.Some? && s'.record == Some(GuardRecord(s, t)) && !GuardRecord(s, t).disabled)
  }

  predicate GoodRecord(s: Slice) { s.record.Some? ==> s.record.value.id != "" }

  // The device was asked to be disabled, and is.
  predicate SaysDisabled(a: Answers) {
    Succeeded(a.disable) && Succeeded(a.stateAfterDisable.code) && a.stateAfterDisable.value == Disabled
  }

  predicate SaysEnabled(a: Answers) {
    Succeeded(a.enable) && Succeeded(a.stateAfterEnable.code) && a.stateAfterEnable.value != Disabled
  }

  // The outcome of a phase that may disable the device.
  predicate DisableOutcome(ep: AudioEndpoint, cfg: Configuration, hasAdmin: bool, enforce: bool, s: Slice, e: Effect,
                           a: Answers) {
    var asked := e.writes == [WriteEnabled(ep.id, false)];
    var t := a.wallClock;
    && (asked || NoEnableWrites(e.writes))
    && (!enforce ==> e.writes == [] && e.slice.failure == s.failure)
    && (asked ==> DisablePolicyConfirmed(cfg) && hasAdmin && enforce && e.device.compatibility != UnknownCompatibility
                  && !GuardRecord(s, t).leftEnabled
                  && CountRecent(GuardRecord(s, t).history, t) < MAX_DISABLES_PER_WINDOW)
    && (asked && SaysDisabled(a) ==>
          && e.slice.failure == None
          && e.slice.record.Some? && e.slice.record.value.disabled && e.slice.record.value.id == ep.id
          && e.slice.record.value.requested == (cfg.sampleRate, cfg.bitDepth)
          && e.slice.record.value.history == GuardRecord(s, t).history + [t])
    && (!(asked && SaysDisabled(a)) ==> RecordKept(s, e.slice, t))
    && (e.device.action == ActionDisabled <==> asked && SaysDisabled(a))
    && e.device.action != ActionReenabled
    && (e.device.reason.WaitingForWindow? ==>
          && e.device.reason.times == CountRecent(GuardRecord(s, t).history, t)
          && e.device.reason.times >= MAX_DISABLES_PER_WINDOW)
  }

  lemma DisableFacts(ep: AudioEndpoint, cfg: Configuration, s: Slice, d: DeviceReport, r: DisabledDeviceRecord,
                     a: Answers)
    requires d.compatibility != UnknownCompatibility && !d.reason.WaitingForWindow? && DisablePolicyConfirmed(cfg)
    requires r == GuardRecord(s, a.wallClock) && !r.leftEnabled
    requires CountRecent(r.history, a.wallClock) < MAX_DISABLES_PER_WINDOW
    ensures DisableOutcome(ep, cfg, true, true, s, DisablePhase(ep, cfg, s.(loopNotice := None), d, r, a), a)
  {
    hide Prune, CountRecent, DisablePolicyConfirmed;
  }

  lemma GuardFacts(ep: AudioEndpoint, cfg: Configuration, s: Slice, d: DeviceReport, a: Answers)
    requires GoodRecord(s) && d.compatibility != UnknownCompatibility && !d.reason.WaitingForWindow?
    requires DisablePolicyConfirmed(cfg)
    ensures DisableOutcome(ep, cfg, true, true, s, GuardPhase(ep, cfg, s, d, a), a)
  {
    assert Prune([], a.wallClock) == [] && CountRecent([], a.wallClock) == 0;
    hide Prune, CountRecent, DisablePolicyConfirmed, DisablePhase;
    var r := GuardRecord(s, a.wallClock);
    if !r.leftEnabled && CountRecent(r.history, a.wallClock) < MAX_DISABLES_PER_WINDOW {
      DisableFacts(ep, cfg, s, d, r, a);
    }
  }

  lemma IncompatibleFacts(ep: AudioEndpoint, cfg: Configuration, enforce: bool, hasAdmin: bool, s: Slice,
                          d0: DeviceReport, a: Answers)
    requires GoodRecord(s)
    requires d0.action != ActionDisabled && d0.action != ActionReenabled
    ensures DisableOutcome(ep, cfg, hasAdmin, enforce, s, IncompatiblePhase(ep, cfg, enforce, hasAdmin, s, d0, a), a)
  {
    hide GuardPhase, GuardRecord, Prune, CountRecent, DisablePolicyConfirmed, CapabilitiesFor, Judged, DisableOutcome;
    var (s1, caps) := CapabilitiesFor(s, a.current.value, a.probe);
    var d := Judged(d0, caps, cfg.sampleRate, cfg.bitDepth);
    CapabilitiesKeep(s, a);
    JudgedFacts(d0, caps, cfg);
    var e := IncompatiblePhase(ep, cfg, enforce, hasAdmin, s, d0, a);
    if e.slice == s1 && e.writes == [] && e.device in {d.(action := ActionUnknown), d.(action := ActionIgnore),
                                                       d.(action := ActionPending)} {
      LeftAsItIs(ep, cfg, hasAdmin, enforce, s, e, a);
    } else {
      GuardFacts(ep, cfg, s1, d, a);
      SameOutcome(ep, cfg, s, s1, e, a);
    }
  }

  lemma CapabilitiesKeep(s: Slice, a: Answers)
    ensures var s1 := CapabilitiesFor(s, a.current.value, a.probe).0;
            s1.record == s.record && s1.failure == s.failure && s1.loopNotice == s.loopNotice
  {
    hide Probe;
  }

  lemma JudgedFacts(d0: DeviceReport, caps: FormatCapabilities, cfg: Configuration)
    ensures var d := Judged(d0, caps, cfg.sampleRate, cfg.bitDepth);
            !d.reason.WaitingForWindow? && d.action == d0.action
  {
  }

  lemma LeftAsItIs(ep: AudioEndpoint, cfg: Configuration, hasAdmin: bool, enforce: bool, s: Slice,
                   e: Effect, a: Answers)
    requires e.slice.record == s.record && e.slice.failure == s.failure && e.writes == []
    requires e.device.action != ActionDisabled && e.device.action != ActionReenabled
    requires !e.device.reason.WaitingForWindow?
    ensures DisableOutcome(ep, cfg, hasAdmin, enforce, s, e, a)
  {
    hide GuardRecord, CountRecent, DisablePolicyConfirmed;
  }

  lemma SameOutcome(ep: AudioEndpoint, cfg: Configuration, s: Slice, s1: Slice, e: Effect, a: Answers)
    requires s1.record == s.record && s1.failure == s.failure && DisableOutcome(ep, cfg, true, true, s1, e, a)
    ensures DisableOutcome(ep, cfg, true, true, s, e, a)
  {
    SameGuard(s, s1, a.wallClock);
    hide GuardRecord, CountRecent, DisablePolicyConfirmed;
  }

  // The incompatible device's phase writes nothing, or asks to disable it.
  lemma IncompatibleAsks(ep: AudioEndpoint, cfg: Configuration, enforce: bool, hasAdmin: bool, s: Slice,
                         d: DeviceReport, a: Answers)
    ensures var w := IncompatiblePhase(ep, cfg, enforce, hasAdmin, s, d, a).writes;
            w == [] || w == [WriteEnabled(ep.id, false)]
  {
    hide CapabilitiesFor, DisablePolicyConfirmed, Judged, GuardRecord, CountRecent;
  }

  lemma FormatFacts(ep: AudioEndpoint, cfg: Configuration, enforce: bool, backoff: bool, hasAdmin: bool, s: Slice,
                    d0: DeviceReport, a: Answers)
    requires GoodRecord(s)
    requires d0.action == NoAction && d0.reason == NoReason
    ensures DisableOutcome(ep, cfg, hasAdmin, enforce, s, FormatPhase(ep, cfg, enforce, backoff, hasAdmin, s, d0, a), a)
  {
    hide JudgeAndApply, IncompatiblePhase, Prune, CountRecent, DisablePolicyConfirmed, GuardRecord, DisableOutcome;
    hide FormatReport, FormatMemory;
    var (out, writes) := JudgeAndApply(ep.id, cfg.sampleRate, cfg.bitDepth, enforce, a.apply);
    AppliedFacts(ep.id, cfg, enforce, a.apply);
    ReportFacts(d0, out, backoff);
    if out.result == Unsupported {
      IncompatibleFacts(ep, cfg, enforce, hasAdmin, s, FormatReport(d0, out, backoff), a);
    } else {
      var e := Effect(FormatMemory(s, out.result, a.formatClock), writes, FormatReport(d0, out, backoff), false);
      AppliedOutcome(ep, cfg, enforce, hasAdmin, s, out.result, e, a);
    }
  }

  lemma AppliedFacts(id: string, cfg: Configuration, enforce: bool, a: ApplyAnswers)
    ensures var (out, writes) := JudgeAndApply(id, cfg.sampleRate, cfg.bitDepth, enforce, a);
            && (writes == [] || exists f :: writes == [WriteFormat(id, f)])
            && (!enforce ==> writes == [] && out.result !in {Applied, WriteFailed, VerifyFailed})
  {
    hide Candidates, Choose;
  }

  lemma ReportFacts(d0: DeviceReport, out: FormatOutcome, backoff: bool)
    requires d0.action == NoAction && d0.reason == NoReason
    ensures var d := FormatReport(d0, out, backoff);
            d.action != ActionDisabled && d.action != ActionReenabled && !d.reason.WaitingForWindow?
  {
  }

  lemma AppliedOutcome(ep: AudioEndpoint, cfg: Configuration, enforce: bool, hasAdmin: bool, s: Slice,
                       result: FormatResult, e: Effect, a: Answers)
    requires e.slice == FormatMemory(s, result, a.formatClock)
    requires e.writes == [] || exists f :: e.writes == [WriteFormat(ep.id, f)]
    requires !enforce ==> e.writes == [] && result !in {Applied, WriteFailed, VerifyFailed}
    requires e.device.action != ActionDisabled && e.device.action != ActionReenabled
    requires !e.device.reason.WaitingForWindow?
    ensures DisableOutcome(ep, cfg, hasAdmin, enforce, s, e, a)
  {
    hide GuardRecord, CountRecent, DisablePolicyConfirmed;
  }

  // The outcome of the phase that may enable the device again.
  lemma EnableFacts(ep: AudioEndpoint, record: DisabledDeviceRecord, cfg: Configuration, enforce: bool, hasAdmin: bool,
                    s: Slice, d0: DeviceReport, a: Answers)
    ensures var e := DisabledPhase(ep, record, cfg, enforce, hasAdmin, s, d0, a);
            var asked := e.writes == [WriteEnabled(ep.id, true)];
            && (asked || e.writes == [])
            && (!enforce ==> e.writes == [] && e.slice == s)
            && e.slice.caps == s.caps
            && (asked && SaysEnabled(a) ==> e.slice.record == None)
            && (!(asked && SaysEnabled(a)) ==> e.slice.record == s.record)
            && (e.device.action == ActionReenabled <==> asked && SaysEnabled(a))
            && e.device.action != ActionDisabled && !e.device.reason.WaitingForWindow?
  {
    hide DisablePolicyConfirmed, Incompatible, WhyEnable;
    assert !Judged(d0, record.capabilities, cfg.sampleRate, cfg.bitDepth).reason.WaitingForWindow?;
    assert !WhyEnable(cfg, true).WaitingForWindow? && !WhyEnable(cfg, false).WaitingForWindow?
    by { WhyEnableText(cfg); }
  }

  lemma WhyEnableText(cfg: Configuration)
    ensures !WhyEnable(cfg, true).WaitingForWindow? && !WhyEnable(cfg, false).WaitingForWindow?
  {
  }

  // ----- The whole step -----

  // What a visited endpoint's record becomes.
  lemma VisitFacts(kind: ScanKind, cfg: Configuration, hasAdmin: bool, ep: AudioEndpoint, s: Slice, a: Answers)
    requires GoodRecord(s)
    ensures var v := VisitEndpoint(kind, cfg, hasAdmin, ep, s, a);
            var t := a.wallClock;
            && (VerifiedDisable(v, ep, a) ==>
                  && !VerifiedEnable(v, ep, a)
                  && DisablePolicyConfirmed(cfg) && hasAdmin && cfg.enforce
                  && a.canModify && !GuardRecord(s, t).leftEnabled
                  && CountRecent(GuardRecord(s, t).history, t) < MAX_DISABLES_PER_WINDOW
                  && v.slice.record.Some? && v.slice.record.value.disabled && v.slice.record.value.id == ep.id
                  && v.slice.record.value.requested == (cfg.sampleRate, cfg.bitDepth)
                  && v.slice.record.value.history == GuardRecord(s, t).history + [t])
            && (VerifiedEnable(v, ep, a) ==> DisabledByUs(s) && v.slice.record == None && a.canModify)
            && (v.Visited? && !VerifiedDisable(v, ep, a) && !VerifiedEnable(v, ep, a) ==> RecordKept(s, v.slice, t))
            && (v.Visited? && v.report.Some? ==>
                  && (v.report.value.action == ActionDisabled <==> VerifiedDisable(v, ep, a))
                  && (v.report.value.action == ActionReenabled <==> VerifiedEnable(v, ep, a))
                  && (v.report.value.reason.WaitingForWindow? ==>
                        && v.report.value.reason.times == CountRecent(GuardRecord(s, t).history, t)
                        && v.report.value.reason.times >= MAX_DISABLES_PER_WINDOW))
  {
    hide Monitored, Modify, InBackoff, Prune, CountRecent, GuardRecord, DisablePolicyConfirmed;
    var seen := Seen(ep, s, hasAdmin, a);
    if Monitored(cfg, ep.flow) && Considered(seen, s) && a.canModify {
      var backoff := kind == TriggeredScan && InBackoff(s, a.startClock);
      ModifyFacts(seen, s, cfg, cfg.enforce && !backoff, backoff, hasAdmin, a);
    }
  }

  // What the modifying part of a step can do to an endpoint.
  predicate StepFacts(ep: AudioEndpoint, s: Slice, cfg: Configuration, enforce: bool, hasAdmin: bool, v: Visit,
                      a: Answers)
    requires v.Visited?
  {
    var t := a.wallClock;
    && (!enforce ==> v.writes == [] && v.slice.failure == s.failure)
    && (VerifiedDisable(v, ep, a) ==>
          && !VerifiedEnable(v, ep, a)
          && DisablePolicyConfirmed(cfg) && hasAdmin && enforce && !GuardRecord(s, t).leftEnabled
          && CountRecent(GuardRecord(s, t).history, t) < MAX_DISABLES_PER_WINDOW
          && v.slice.record.Some? && v.slice.record.value.disabled && v.slice.record.value.id == ep.id
          && v.slice.record.value.requested == (cfg.sampleRate, cfg.bitDepth)
          && v.slice.record.value.history == GuardRecord(s, t).history + [t])
    && (VerifiedEnable(v, ep, a) ==> ep.state == Disabled && DisabledByUs(s) && v.slice.record == None)
    && (!VerifiedDisable(v, ep, a) && !VerifiedEnable(v, ep, a) ==> RecordKept(s, v.slice, t))
    && (v.report.Some? ==>
          && (v.report.value.action == ActionDisabled <==> VerifiedDisable(v, ep, a))
          && (v.report.value.action == ActionReenabled <==> VerifiedEnable(v, ep, a))
          && (v.report.value.reason.WaitingForWindow? ==>
                && v.report.value.reason.times == CountRecent(GuardRecord(s, t).history, t)
                && v.report.value.reason.times >= MAX_DISABLES_PER_WINDOW))
  }

  lemma ModifyFacts(ep: AudioEndpoint, s: Slice, cfg: Configuration, enforce: bool, backoff: bool, hasAdmin: bool,
                    a: Answers)
    requires Considered(ep, s) && GoodRecord(s)
    ensures StepFacts(ep, s, cfg, enforce, hasAdmin, Modify(ep, s, cfg, enforce, backoff, hasAdmin, a), a)
  {
    hide StepFacts;
    if ep.state == Disabled {
      ModifyDisabled(ep, s, cfg, enforce, backoff, hasAdmin, a);
    } else {
      ModifyEnabled(ep, s, cfg, enforce, backoff, hasAdmin, a);
    }
  }

  lemma ModifyDisabled(ep: AudioEndpoint, s: Slice, cfg: Configuration, enforce: bool, backoff: bool, hasAdmin: bool,
                       a: Answers)
    requires Considered(ep, s) && GoodRecord(s) && ep.state == Disabled
    ensures StepFacts(ep, s, cfg, enforce, hasAdmin, Modify(ep, s, cfg, enforce, backoff, hasAdmin, a), a)
  {
    hide NamePhase, ExclusivePhase, DisabledPhase, FormatPhase, Prune, CountRecent, GuardRecord, DisablePolicyConfirmed;
    var (s1, w1) := NamePhase(ep, cfg, enforce, hasAdmin, s, a);
    EarlyPhases(ep, cfg, enforce, hasAdmin, s, a);
    EnableFacts(ep, s.record.value, cfg, enforce, hasAdmin, s1, NewReport(ep), a);
    var e := DisabledPhase(ep, s.record.value, cfg, enforce, hasAdmin, s1, NewReport(ep), a);
    EnableWritesOf(ep.id, w1, e.writes);
  }

  lemma ModifyEnabled(ep: AudioEndpoint, s: Slice, cfg: Configuration, enforce: bool, backoff: bool, hasAdmin: bool,
                      a: Answers)
    requires Considered(ep, s) && GoodRecord(s) && ep.state != Disabled
    ensures StepFacts(ep, s, cfg, enforce, hasAdmin, Modify(ep, s, cfg, enforce, backoff, hasAdmin, a), a)
  {
    hide NamePhase, ExclusivePhase, DisabledPhase, FormatPhase, Prune, CountRecent, GuardRecord, DisablePolicyConfirmed;
    var (s1, w1) := NamePhase(ep, cfg, enforce, hasAdmin, s, a);
    var (s2, w2) := ExclusivePhase(ep, cfg, enforce, s1, a);
    EarlyPhases(ep, cfg, enforce, hasAdmin, s, a);
    EarlyPhases(ep, cfg, enforce, hasAdmin, s1, a);
    SameGuard(s, s2, a.wallClock);
    assert NoEnableWrites(w1 + w2);
    if ep.state == Active && cfg.formatStandardization {
      FormatFacts(ep, cfg, enforce, backoff, hasAdmin, s2, NewReport(ep), a);
      var e := FormatPhase(ep, cfg, enforce, backoff, hasAdmin, s2, NewReport(ep), a);
      EnableWritesOf(ep.id, w1 + w2, e.writes);
    } else {
      EnableWritesOf(ep.id, w1 + w2, []);
    }
  }

  lemma SameGuard(s: Slice, s': Slice, t: int)
    requires s'.record == s.record
    ensures GuardRecord(s', t) == GuardRecord(s, t)
  {
  }

  lemma EnableWritesOf(id: string, early: seq<DeviceWrite>, late: seq<DeviceWrite>)
    requires NoEnableWrites(early)
    requires NoEnableWrites(late) || exists b :: late == [WriteEnabled(id, b)]
    ensures forall b :: WriteEnabled(id, b) in early + late <==> late == [WriteEnabled(id, b)]
  {
    assert forall w :: w in early ==> !w.WriteEnabled?;
    assert NoEnableWrites(late) ==> forall w :: w in late ==> !w.WriteEnabled?;
    forall b
      ensures WriteEnabled(id, b) in early + late <==> late == [WriteEnabled(id, b)]
    {
      assert WriteEnabled(id, b) in early + late <==> WriteEnabled(id, b) in early || WriteEnabled(id, b) in late;
    }
  }
}
