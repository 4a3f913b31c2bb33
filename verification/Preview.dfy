// What the window previews is what the next full scan does
// (src/core/WatchdogEngine.cpp: analyze, setConfig, scanOnce).

module Previews {
  import opened Text
  import opened AudioModel
  import opened Capabilities
  import opened Configurations
  import opened DeviceStateStores
  import opened EndpointMemories
  import opened Policies
  import opened EndpointPolicy
  import opened EngineModel
  import opened EndpointFacts
  import opened Worlds
  import opened Convergence
  import opened ConvergenceRuns

  // What the previewed action is called once it is done.
  function Done(action: DeviceAction): DeviceAction {
    match action
    case ActionApply => ActionApplied
    case ActionDisable => ActionDisabled
    case ActionReenable => ActionReenabled
    case _ => action
  }

  // The scan's report of a device keeps the preview's word.
  predicate Fulfils(preview: DeviceReport, report: DeviceReport) {
    report.id == preview.id && report.action == Done(preview.action) && report.compatibility == preview.compatibility
  }

  predicate AllFulfil(previews: seq<DeviceReport>, reports: seq<DeviceReport>) {
    |reports| == |previews| && forall i :: 0 <= i < |previews| ==> Fulfils(previews[i], reports[i])
  }

  // A candidate that makes passes act on formats.
  predicate Standardizing(cfg: Configuration) { Enforcing(cfg) && cfg.formatStandardization }

  // Neither left enabled by the user nor held back by the loop guard.
  predicate Unblocked(s: Slice, t: int) {
    !GuardRecord(s, t).leftEnabled && CountRecent(GuardRecord(s, t).history, t) < MAX_DISABLES_PER_WINDOW
  }

  // A device at the target says so when asked for its formats.
  predicate Truthful(d: Device, cfg: Configuration) {
    d.format.Matches(cfg.sampleRate, cfg.bitDepth) ==> Verdict(d, cfg) == Compatible
  }

  ghost predicate HonestPreview(d: Device, a: PreviewAnswers) {
    Answered(a.current, d.format) && a.probe == DriverAnswers(d)
  }

  // ----- One device -----

  function ReportsOf(v: Visit): seq<DeviceReport> { if v.Visited? && v.report.Some? then [v.report.value] else [] }

  function PreviewReports(cfg: Configuration, ep: AudioEndpoint, s: Slice, a: PreviewAnswers): seq<DeviceReport> {
    var (_, report) := PreviewEndpoint(cfg, ep, s, a.current, a.probe);
    if report.Some? then [report.value] else []
  }

  function PreviewSlice(cfg: Configuration, ep: AudioEndpoint, s: Slice, a: PreviewAnswers): Slice {
    PreviewEndpoint(cfg, ep, s, a.current, a.probe).0
  }

  // What is remembered when the scan comes: the same record, or a reset one.
  predicate Carried(s: Slice, s': Slice) {
    || s'.record == s.record
    || s'.record == (if DisabledByUs(s) then Some(ResetRecord(s.record.value)) else None)
  }

  lemma ActivePreview(ep: AudioEndpoint, d: Device, cfg: Configuration, s: Slice, pa: PreviewAnswers)
    requires Shows(ep, d) && d.state == Active && UpToDate(s, d) && HonestPreview(d, pa) && Monitored(cfg, ep.flow)
    ensures var r := PreviewReports(cfg, ep, s, pa);
            && |r| == 1 && r[0].id == ep.id && r[0].compatibility == Verdict(d, cfg)
            && r[0].action == PreviewAction(cfg, false, Some(d.format), Verdict(d, cfg))
  {
    hide Probe, JudgeCompatibility, VerdictReason, PreviewAction;
  }

  // What the scan does with an active device: what the preview said, unless
  // it already is at the target, the user did not confirm, or the device is
  // left enabled.
  function ActiveOutcome(cfg: Configuration, d: Device, s: Slice, t: int): DeviceAction {
    var planned := PreviewAction(cfg, false, Some(d.format), Verdict(d, cfg));
    if d.format.Matches(cfg.sampleRate, cfg.bitDepth) then ActionCompliant
    else if planned == ActionDisable && !DisablePolicyConfirmed(cfg) then ActionPending
    else if planned == ActionDisable && !Unblocked(s, t) then ActionLeftEnabled
    else Done(planned)
  }

  function ActiveVerdict(cfg: Configuration, d: Device): Compatibility {
    if d.format.Matches(cfg.sampleRate, cfg.bitDepth) then Compatible else Verdict(d, cfg)
  }

  lemma ActiveScan(ep: AudioEndpoint, d: Device, cfg: Configuration, s: Slice, a: Answers)
    requires Shows(ep, d) && d.state == Active && UpToDate(s, d) && GoodRecord(s) && Honest(d, cfg, a)
    requires Monitored(cfg, ep.flow) && Standardizing(cfg)
    ensures var r := ReportsOf(FullVisit(cfg, ep, s, a));
            && |r| == 1 && r[0].id == ep.id && r[0].compatibility == ActiveVerdict(cfg, d)
            && r[0].action == ActiveOutcome(cfg, d, s, a.wallClock)
  {
    assert a.canModify && Considered(ep, s);
    hide Seen, Monitored, NamePhase, ExclusivePhase, FormatPhase, Honest, Verdict, PreviewAction, GuardRecord,
         CountRecent;
    hide Considered, DisablePolicyConfirmed, ActiveVerdict, Enforcing, FreshCapabilities, NoEnableWrites;
    SeenAsIs(ep, d, s, cfg, a);
    var (s1, w1) := NamePhase(ep, cfg, true, true, s, a);
    var (s2, w2) := ExclusivePhase(ep, cfg, true, s1, a);
    EarlyPhases(ep, cfg, true, true, s, a);
    EarlyPhases(ep, cfg, true, true, s1, a);
    SameGuard(s, s2, a.wallClock);
    ActiveFormat(ep, d, cfg, s2, a);
    ActiveReport(ep, s, cfg, a);
    hide UpToDate, Modify;
  }

  lemma ActiveReport(ep: AudioEndpoint, s: Slice, cfg: Configuration, a: Answers)
    requires Considered(ep, s) && ep.state == Active && cfg.formatStandardization
    ensures var s2 := ExclusivePhase(ep, cfg, true, NamePhase(ep, cfg, true, true, s, a).0, a).0;
            Modify(ep, s, cfg, true, false, true, a).report
            == Some(FormatPhase(ep, cfg, true, false, true, s2, NewReport(ep), a).device)
  {
    hide NamePhase, ExclusivePhase, FormatPhase, Considered;
  }

  lemma ActiveFormat(ep: AudioEndpoint, d: Device, cfg: Configuration, s: Slice, a: Answers)
    requires Shows(ep, d) && d.state == Active && UpToDate(s, d) && GoodRecord(s) && Honest(d, cfg, a)
    requires Standardizing(cfg)
    ensures var r := FormatPhase(ep, cfg, true, false, true, s, NewReport(ep), a).device;
            && r.id == ep.id && r.compatibility == ActiveVerdict(cfg, d)
            && r.action == ActiveOutcome(cfg, d, s, a.wallClock)
  {
    hide JudgeAndApply, IncompatiblePhase, FreshCapabilities, JudgeCompatibility, DisablePolicyConfirmed, Honest;
    hide GuardRecord, CountRecent, UpToDate;
    hide IsSupportedSampleRate, IsSupportedBitDepth, Unblocked, GoodRecord, Shows;
    HonestFormat(ep.id, d, cfg, a);
    var (out, _) := JudgeAndApply(ep.id, cfg.sampleRate, cfg.bitDepth, true, a.apply);
    if out.result == Unsupported {
      ActiveIncompatible(ep, d, cfg, s, FormatReport(NewReport(ep), out, false), a);
    }
    hide Verdict;
  }

  lemma ActiveIncompatible(ep: AudioEndpoint, d: Device, cfg: Configuration, s: Slice, r: DeviceReport, a: Answers)
    requires Shows(ep, d) && d.state == Active && UpToDate(s, d) && GoodRecord(s) && Honest(d, cfg, a) && r.id == ep.id
    requires Standardizing(cfg) && Verdict(d, cfg) != Compatible && !d.format.Matches(cfg.sampleRate, cfg.bitDepth)
    ensures var e := IncompatiblePhase(ep, cfg, true, true, s, r, a).device;
            && e.id == ep.id && e.compatibility == Verdict(d, cfg)
            && e.action == ActiveOutcome(cfg, d, s, a.wallClock)
  {
    hide IncompatiblePhase, GuardPhase, GuardRecord, Honest, UpToDate, CountRecent, FreshCapabilities;
    hide JudgeCompatibility, CapabilitiesFor;
    hide IsSupportedSampleRate, IsSupportedBitDepth, DisablePolicyConfirmed, VerdictReason, Shows, GoodRecord;
    hide PreviewAction;
    CachedIsFresh(d, s, cfg, a);
    var (s1, caps) := CapabilitiesFor(s, a.current.value, a.probe);
    var judged := Judged(r, caps, cfg.sampleRate, cfg.bitDepth);
    assert judged.compatibility == Verdict(d, cfg) && judged.id == ep.id;
    SameGuard(s, s1, a.wallClock);
    GuardDecides(ep, d, cfg, s1, judged, a);
    IncompatibleParts(ep, cfg, s, r, a);
    PreviewOfIncompatible(d, cfg);
    hide Judged, Verdict, Unblocked;
  }

  lemma PreviewOfIncompatible(d: Device, cfg: Configuration)
    requires cfg.formatStandardization && Verdict(d, cfg) != Compatible
    ensures PreviewAction(cfg, false, Some(d.format), Verdict(d, cfg))
            == if Verdict(d, cfg) == UnknownCompatibility then ActionUnknown
               else if cfg.disableIncompatibleDevices then ActionDisable
               else ActionIgnore
  {
    hide Verdict;
  }

  lemma IncompatibleParts(ep: AudioEndpoint, cfg: Configuration, s: Slice, r: DeviceReport, a: Answers)
    ensures var (s1, caps) := CapabilitiesFor(s, a.current.value, a.probe);
            var judged := Judged(r, caps, cfg.sampleRate, cfg.bitDepth);
            IncompatiblePhase(ep, cfg, true, true, s, r, a).device
            == if judged.compatibility == UnknownCompatibility then judged.(action := ActionUnknown)
               else if !cfg.disableIncompatibleDevices then judged.(action := ActionIgnore)
               else if !DisablePolicyConfirmed(cfg) then judged.(action := ActionPending)
               else GuardPhase(ep, cfg, s1, judged, a).device
  {
    hide CapabilitiesFor, Judged, GuardPhase, DisablePolicyConfirmed;
  }

  lemma GuardDecides(ep: AudioEndpoint, d: Device, cfg: Configuration, s: Slice, r: DeviceReport, a: Answers)
    requires d.state == Active && Honest(d, cfg, a)
    ensures var e := GuardPhase(ep, cfg, s, r, a).device;
            && e.id == r.id && e.compatibility == r.compatibility
            && e.action == if Unblocked(s, a.wallClock) then ActionDisabled else ActionLeftEnabled
  {
    assert Answered(a.liveBeforeDisable, d.state) && Succeeded(a.disable) && Answered(a.stateAfterDisable, Disabled);
    hide Honest, GuardRecord, CountRecent;
  }

  lemma OursPreview(ep: AudioEndpoint, d: Device, cfg: Configuration, s: Slice, pa: PreviewAnswers)
    requires Shows(ep, d) && d.state == Disabled && DisabledByUs(s) && UpToDate(s, d) && Monitored(cfg, ep.flow)
    ensures var r := PreviewReports(cfg, ep, s, pa);
            && |r| == 1 && r[0].id == ep.id && r[0].compatibility == Verdict(d, cfg)
            && r[0].action == PreviewAction(cfg, true, None, Verdict(d, cfg))
  {
    hide FreshCapabilities, JudgeCompatibility, VerdictReason, PreviewAction;
  }

  // What the scan does with a device it disabled: what the preview said, or
  // it enables it again when the policy is not confirmed.
  function OursOutcome(cfg: Configuration, d: Device): DeviceAction {
    var planned := PreviewAction(cfg, true, None, Verdict(d, cfg));
    if planned == ActionKeepDisabled && !DisablePolicyConfirmed(cfg) then ActionReenabled else Done(planned)
  }

  lemma OursScan(ep: AudioEndpoint, d: Device, cfg: Configuration, s: Slice, a: Answers)
    requires Shows(ep, d) && d.state == Disabled && DisabledByUs(s) && UpToDate(s, d)
    requires Honest(d, cfg, a) && SoundDevice(d) && Monitored(cfg, ep.flow) && Standardizing(cfg)
    ensures var r := ReportsOf(FullVisit(cfg, ep, s, a));
            && |r| == 1 && r[0].id == ep.id && r[0].compatibility == Verdict(d, cfg)
            && r[0].action == OursOutcome(cfg, d)
  {
    SeenAsIs(ep, d, s, cfg, a);
    assert a.canModify && Considered(ep, s);
    var (s1, _) := NamePhase(ep, cfg, true, true, s, a);
    EarlyPhases(ep, cfg, true, true, s, a);
    OursPhase(ep, d, cfg, s.record.value, s1, a);
    hide Seen, Monitored, NamePhase, ExclusivePhase, FormatPhase, DisabledPhase, Honest, Verdict, PreviewAction;
    hide OursOutcome, Standardizing;
  }

  lemma OursPhase(ep: AudioEndpoint, d: Device, cfg: Configuration, record: DisabledDeviceRecord, s: Slice, a: Answers)
    requires Honest(d, cfg, a) && SoundDevice(d) && record.capabilities == FreshCapabilities(d) && Standardizing(cfg)
    ensures var r := DisabledPhase(ep, record, cfg, true, true, s, NewReport(ep), a).device;
            r.id == ep.id && r.compatibility == Verdict(d, cfg) && r.action == OursOutcome(cfg, d)
  {
    assert Succeeded(a.enable) && Answered(a.stateAfterEnable, d.whenEnabled);
    hide Honest, FreshCapabilities, JudgeCompatibility, DisablePolicyConfirmed, VerdictReason, WhyEnable, PreviewAction;
    hide IsSupportedSampleRate, IsSupportedBitDepth;
    var kept := DisablePolicyConfirmed(cfg) && Incompatible(Verdict(d, cfg));
    assert DisabledPhase(ep, record, cfg, true, true, s, NewReport(ep), a).device.action
           == if kept then ActionKeepDisabled else ActionReenabled;
    OursPlan(cfg, d);
    hide DisabledPhase, OursOutcome, Verdict;
  }

  lemma OursPlan(cfg: Configuration, d: Device)
    requires cfg.formatStandardization
    ensures OursOutcome(cfg, d)
            == if DisablePolicyConfirmed(cfg) && Incompatible(Verdict(d, cfg)) then ActionKeepDisabled
               else ActionReenabled
  {
    hide Verdict, FormatTargetKey;
  }

  // The preview's word about a device holds. It can be told before the scan:
  // from the device, the candidate and what is remembered when the preview is
  // shown (`renewed`: the candidate changes the policy).
  predicate WordHolds(cfg: Configuration, d: Device, s: Slice, renewed: bool, t: int) {
    || !Monitored(cfg, d.flow)
    || (if d.state == Active then
          && Truthful(d, cfg)
          && (PreviewAction(cfg, false, Some(d.format), Verdict(d, cfg)) == ActionDisable ==>
                DisablePolicyConfirmed(cfg) && (renewed || Unblocked(s, t)))
        else if d.state == Disabled && DisabledByUs(s) then
          PreviewAction(cfg, true, None, Verdict(d, cfg)) == ActionKeepDisabled ==> DisablePolicyConfirmed(cfg)
        else true)
  }

  // One device is listed by both or by neither, and the scan does what the
  // preview said exactly when its word holds.
  lemma DeviceFulfilsIff(ep: AudioEndpoint, d: Device, cfg: Configuration, s: Slice, pa: PreviewAnswers, s': Slice,
                         a: Answers)
    requires Shows(ep, d) && SoundDevice(d) && UpToDate(s, d) && HonestPreview(d, pa) && Honest(d, cfg, a)
    requires Standardizing(cfg) && Carried(s, s') && UpToDate(s', d) && GoodRecord(s')
    ensures var previews, reports := PreviewReports(cfg, ep, s, pa), ReportsOf(FullVisit(cfg, ep, s', a));
            && |previews| == |reports| <= 1
            && (AllFulfil(previews, reports) <==> WordHolds(cfg, d, s', false, a.wallClock))
  {
    hide PreviewReports, FullVisit, WordHolds, AllFulfil, Honest, UpToDate, HonestPreview, Monitored;
    assert DisabledByUs(s') <==> DisabledByUs(s);
    if Monitored(cfg, ep.flow) && d.state == Active {
      ActiveFulfils(ep, d, cfg, s, pa, s', a);
    } else if Monitored(cfg, ep.flow) && d.state == Disabled && DisabledByUs(s) {
      OursFulfils(ep, d, cfg, s, pa, s', a);
    } else {
      SeenAsIs(ep, d, s', cfg, a);
      NoPreview(ep, cfg, s, pa);
      NoReport(ep, cfg, s', a);
      NoWord(cfg, d, s', a.wallClock);
    }
  }

  lemma NoWord(cfg: Configuration, d: Device, s: Slice, t: int)
    requires !Monitored(cfg, d.flow) || (d.state != Active && !(d.state == Disabled && DisabledByUs(s)))
    ensures WordHolds(cfg, d, s, false, t) && AllFulfil([], [])
  {
    hide PreviewAction, Verdict, Truthful, Unblocked;
  }

  lemma OneReport(previews: seq<DeviceReport>, reports: seq<DeviceReport>)
    requires |previews| == |reports| == 1
    ensures AllFulfil(previews, reports) <==> Fulfils(previews[0], reports[0])
  {
    hide Fulfils;
  }

  lemma ActiveFulfils(ep: AudioEndpoint, d: Device, cfg: Configuration, s: Slice, pa: PreviewAnswers, s': Slice,
                      a: Answers)
    requires Shows(ep, d) && UpToDate(s, d) && HonestPreview(d, pa) && Honest(d, cfg, a) && d.state == Active
    requires Standardizing(cfg) && UpToDate(s', d) && GoodRecord(s') && Monitored(cfg, ep.flow)
    ensures var previews, reports := PreviewReports(cfg, ep, s, pa), ReportsOf(FullVisit(cfg, ep, s', a));
            && |previews| == |reports| == 1
            && (AllFulfil(previews, reports) <==> WordHolds(cfg, d, s', false, a.wallClock))
  {
    hide PreviewReports, FullVisit, Verdict, PreviewAction, ActiveOutcome, ActiveVerdict, Unblocked, Truthful;
    hide UpToDate, Honest;
    hide HonestPreview, Standardizing, GoodRecord, AllFulfil, ReportsOf;
    ActivePreview(ep, d, cfg, s, pa);
    ActiveScan(ep, d, cfg, s', a);
    ActiveIff(cfg, d, s', a.wallClock);
    OneReport(PreviewReports(cfg, ep, s, pa), ReportsOf(FullVisit(cfg, ep, s', a)));
    hide Monitored, DisablePolicyConfirmed;
  }

  lemma OursFulfils(ep: AudioEndpoint, d: Device, cfg: Configuration, s: Slice, pa: PreviewAnswers, s': Slice,
                    a: Answers)
    requires Shows(ep, d) && SoundDevice(d) && UpToDate(s, d) && Honest(d, cfg, a) && d.state == Disabled
    requires Standardizing(cfg) && UpToDate(s', d) && Monitored(cfg, ep.flow) && DisabledByUs(s) && DisabledByUs(s')
    ensures var previews, reports := PreviewReports(cfg, ep, s, pa), ReportsOf(FullVisit(cfg, ep, s', a));
            && |previews| == |reports| == 1
            && (AllFulfil(previews, reports) <==> WordHolds(cfg, d, s', false, a.wallClock))
  {
    hide PreviewReports, FullVisit, Verdict, Unblocked, Truthful, UpToDate, Honest, Standardizing, AllFulfil, ReportsOf;
    OursPreview(ep, d, cfg, s, pa);
    OursScan(ep, d, cfg, s', a);
    OneReport(PreviewReports(cfg, ep, s, pa), ReportsOf(FullVisit(cfg, ep, s', a)));
    hide DisablePolicyConfirmed, Monitored;
  }

  lemma ActiveIff(cfg: Configuration, d: Device, s: Slice, t: int)
    requires Standardizing(cfg)
    ensures var planned := PreviewAction(cfg, false, Some(d.format), Verdict(d, cfg));
            (ActiveOutcome(cfg, d, s, t) == Done(planned) && ActiveVerdict(cfg, d) == Verdict(d, cfg)) <==>
            (Truthful(d, cfg) && (planned == ActionDisable ==> DisablePolicyConfirmed(cfg) && Unblocked(s, t)))
  {
    hide Verdict, Unblocked, DisablePolicyConfirmed;
  }

  lemma NoPreview(ep: AudioEndpoint, cfg: Configuration, s: Slice, pa: PreviewAnswers)
    requires !Monitored(cfg, ep.flow) || (ep.state != Active && !(ep.state == Disabled && DisabledByUs(s)))
    ensures PreviewReports(cfg, ep, s, pa) == []
  {
    hide Judged, CapabilitiesFor, PreviewAction;
  }

  lemma NoReport(ep: AudioEndpoint, cfg: Configuration, s: Slice, a: Answers)
    requires !Monitored(cfg, ep.flow) || (ep.state != Active && !(ep.state == Disabled && DisabledByUs(s)))
    requires Seen(ep, s, true, a) == ep
    ensures ReportsOf(FullVisit(cfg, ep, s, a)) == []
  {
    hide NamePhase, ExclusivePhase, FormatPhase, DisabledPhase, Seen;
  }

  // ----- From the preview to the scan -----

  // The preview only fills the cache, and settings do not change it.
  lemma CarriedOver(ep: AudioEndpoint, d: Device, cfg: Configuration, st: EngineState, previewed: EngineState,
                    pa: PreviewAnswers, t: int)
    requires Shows(ep, d) && UpToDate(SliceOf(st, ep.id), d) && GoodRecord(SliceOf(st, ep.id)) && HonestPreview(d, pa)
    requires SliceOf(previewed, ep.id) == PreviewSlice(cfg, ep, SliceOf(st, ep.id), pa)
    ensures var s, s' := SliceOf(st, ep.id), SliceOf(SetConfigState(previewed, cfg), ep.id);
            && Carried(s, s') && UpToDate(s', d) && GoodRecord(s')
            && (Unblocked(s', t) <==> PolicyChanged(cfg, previewed.config) || Unblocked(s, t))
  {
    var s := SliceOf(st, ep.id);
    PreviewKeeps(ep, d, cfg, s, pa);
    ConfigSlice(previewed, cfg, ep.id);
    var s1, s' := SliceOf(previewed, ep.id), SliceOf(SetConfigState(previewed, cfg), ep.id);
    hide SliceOf, SetConfigState, PreviewSlice, FreshCapabilities, PolicyChanged;
    if s'.record == s1.record {
      SameGuard(s, s', t);
    }
    assert Unblocked(s', t) <==> PolicyChanged(cfg, previewed.config) || Unblocked(s, t) by {
      if PolicyChanged(cfg, previewed.config) {
        assert s'.record.Some? ==> s'.record.value.history == [] && !s'.record.value.leftEnabled;
        ResetUnblocked(s', t);
      } else {
        hide GuardRecord, CountRecent;
      }
    }
    hide Unblocked;
  }

  lemma ResetUnblocked(s: Slice, t: int)
    requires s.record.Some? ==> s.record.value.history == [] && !s.record.value.leftEnabled
    ensures Unblocked(s, t)
  {
  }

  lemma PreviewKeeps(ep: AudioEndpoint, d: Device, cfg: Configuration, s: Slice, pa: PreviewAnswers)
    requires Shows(ep, d) && UpToDate(s, d) && HonestPreview(d, pa)
    ensures var s1 := PreviewSlice(cfg, ep, s, pa); s1.record == s.record && UpToDate(s1, d)
  {
    hide Probe, Judged, PreviewAction;
  }

  lemma ConfigSlice(st: EngineState, cfg: Configuration, id: string)
    ensures var s, s' := SliceOf(st, id), SliceOf(SetConfigState(st, cfg), id);
            && s'.caps == s.caps
            && s'.record == (if !PolicyChanged(cfg, st.config) then s.record
                             else if DisabledByUs(s) then Some(ResetRecord(s.record.value)) else None)
  {
    hide Lower, LoopKey, PolicyChanged;
  }

  // ----- Whole enumerations -----

  function FullPreview(st: EngineState, cfg: Configuration, eps: seq<AudioEndpoint>, answers: seq<PreviewAnswers>)
      : Preview
    requires |answers| == |eps|
  {
    PreviewOver(st, cfg, eps, answers)
  }

  lemma {:induction false} PreviewElsewhere(st: EngineState, cfg: Configuration, eps: seq<AudioEndpoint>,
                                            answers: seq<PreviewAnswers>, id: string)
    requires |answers| == |eps| && Absent(eps, id)
    ensures SliceOf(FullPreview(st, cfg, eps, answers).state, id) == SliceOf(st, id)
  {
    if eps == [] {
    } else {
      var n := |eps| - 1;
      PreviewElsewhere(st, cfg, eps[..n], answers[..n], id);
      var p := FullPreview(st, cfg, eps[..n], answers[..n]);
      LiftElsewhere(p.state, eps[n].id, PreviewSlice(cfg, eps[n], SliceOf(p.state, eps[n].id), answers[n]), id);
      hide PreviewEndpoint, SliceOf, Lift, Lower;
    }
  }

  lemma {:induction false} PreviewKeepsConfig(st: EngineState, cfg: Configuration, eps: seq<AudioEndpoint>,
                                              answers: seq<PreviewAnswers>)
    requires |answers| == |eps|
    ensures FullPreview(st, cfg, eps, answers).state.config == st.config
  {
    hide PreviewEndpoint, SliceOf;
    if eps == [] {
    } else {
      PreviewKeepsConfig(st, cfg, eps[..|eps| - 1], answers[..|eps| - 1]);
    }
  }

  lemma {:induction false} PreviewPointwise(st: EngineState, cfg: Configuration, eps: seq<AudioEndpoint>,
                                            answers: seq<PreviewAnswers>, i: nat)
    requires |answers| == |eps| && DistinctEndpoints(eps) && i < |eps|
    ensures SliceOf(FullPreview(st, cfg, eps, answers).state, eps[i].id)
            == PreviewSlice(cfg, eps[i], SliceOf(st, eps[i].id), answers[i])
  {
    hide PreviewEndpoint, SliceOf, Lift, Lower, PreviewOver, FullPreview, PreviewSlice;
    var n := |eps| - 1;
    var front, before := eps[..n], answers[..n];
    var p := FullPreview(st, cfg, front, before);
    var s := PreviewSlice(cfg, eps[n], SliceOf(p.state, eps[n].id), answers[n]);
    PreviewGrows(st, cfg, eps, answers);
    if i < n {
      assert front[i] == eps[i] && before[i] == answers[i];
      PreviewPointwise(st, cfg, front, before, i);
      LiftElsewhere(p.state, eps[n].id, s, eps[i].id);
    } else {
      PreviewElsewhere(st, cfg, front, before, eps[n].id);
      LiftTwice(p.state, eps[n].id, s, s);
    }
  }

  // What the preview and the scan list of one endpoint.
  function Shown(st: EngineState, cfg: Configuration, ep: AudioEndpoint, asked: PreviewAnswers): seq<DeviceReport> {
    PreviewReports(cfg, ep, SliceOf(st, ep.id), asked)
  }

  function Told(st: EngineState, cfg: Configuration, ep: AudioEndpoint, a: Answers): seq<DeviceReport> {
    ReportsOf(VisitIn(st, cfg, ep, a))
  }

  lemma FulfilJoins(a: seq<DeviceReport>, b: seq<DeviceReport>, a': seq<DeviceReport>, b': seq<DeviceReport>)
    requires |a| == |a'| && |b| == |b'|
    ensures AllFulfil(a + b, a' + b') <==> AllFulfil(a, a') && AllFulfil(b, b')
  {
    hide Fulfils;
    if AllFulfil(a + b, a' + b') {
      forall i | 0 <= i < |a|
        ensures Fulfils(a[i], a'[i])
      {
        assert Fulfils((a + b)[i], (a' + b')[i]);
      }
      forall i | 0 <= i < |b|
        ensures Fulfils(b[i], b'[i])
      {
        assert Fulfils((a + b)[|a| + i], (a' + b')[|a| + i]);
      }
    }
  }

  // The preview and the scan agree on every endpoint.
  predicate EachAgrees(st: EngineState, st': EngineState, cfg: Configuration, eps: seq<AudioEndpoint>,
                       asked: seq<PreviewAnswers>, answers: seq<Answers>)
    requires |asked| == |eps| && |answers| == |eps|
  {
    forall i :: 0 <= i < |eps| ==> AllFulfil(Shown(st, cfg, eps[i], asked[i]), Told(st', cfg, eps[i], answers[i]))
  }

  predicate EachMatches(st: EngineState, st': EngineState, cfg: Configuration, eps: seq<AudioEndpoint>,
                        asked: seq<PreviewAnswers>, answers: seq<Answers>)
    requires |asked| == |eps| && |answers| == |eps|
  {
    forall i :: 0 <= i < |eps| ==> |Shown(st, cfg, eps[i], asked[i])| == |Told(st', cfg, eps[i], answers[i])|
  }

  lemma EachButLast(st: EngineState, st': EngineState, cfg: Configuration, eps: seq<AudioEndpoint>,
                    asked: seq<PreviewAnswers>, answers: seq<Answers>)
    requires eps != [] && |asked| == |eps| && |answers| == |eps|
    ensures var n := |eps| - 1;
            && (EachAgrees(st, st', cfg, eps, asked, answers) <==>
                && EachAgrees(st, st', cfg, eps[..n], asked[..n], answers[..n])
                && AllFulfil(Shown(st, cfg, eps[n], asked[n]), Told(st', cfg, eps[n], answers[n])))
            && (EachMatches(st, st', cfg, eps, asked, answers) ==>
                && EachMatches(st, st', cfg, eps[..n], asked[..n], answers[..n])
                && |Shown(st, cfg, eps[n], asked[n])| == |Told(st', cfg, eps[n], answers[n])|)
  {
    hide Shown, Told, AllFulfil;
    var n := |eps| - 1;
    forall i | 0 <= i < n
      ensures eps[..n][i] == eps[i] && asked[..n][i] == asked[i] && answers[..n][i] == answers[i]
    {
    }
  }

  // Both lists grow device by device, so they agree exactly when they do on
  // each device.
  lemma {:induction false} ListsAgree(st: EngineState, st': EngineState, cfg: Configuration, interactive: bool,
                                      eps: seq<AudioEndpoint>, asked: seq<PreviewAnswers>, answers: seq<Answers>)
    requires |asked| == |eps| && |answers| == |eps| && DistinctEndpoints(eps) && NoPause(answers)
    requires EachMatches(st, st', cfg, eps, asked, answers)
    ensures var previews := FullPreview(st, cfg, eps, asked).devices;
            var reports := FullPass(st', cfg, interactive, eps, answers).devices;
            && |previews| == |reports|
            && (AllFulfil(previews, reports) <==> EachAgrees(st, st', cfg, eps, asked, answers))
  {
    if eps == [] {
      NothingListed(st, st', cfg, interactive, asked, answers);
    } else {
      hide Shown, Told, AllFulfil, FullPreview, FullPass, DistinctEndpoints, EachAgrees, EachMatches;
      var n := |eps| - 1;
      FrontDistinct(eps);
      EachButLast(st, st', cfg, eps, asked, answers);
      ListsAgree(st, st', cfg, interactive, eps[..n], asked[..n], answers[..n]);
      ListsGrow(st, st', cfg, interactive, eps, asked, answers);
      FulfilJoins(FullPreview(st, cfg, eps[..n], asked[..n]).devices, Shown(st, cfg, eps[n], asked[n]),
                  FullPass(st', cfg, interactive, eps[..n], answers[..n]).devices, Told(st', cfg, eps[n], answers[n]));
    }
  }

  lemma NothingListed(st: EngineState, st': EngineState, cfg: Configuration, interactive: bool,
                      asked: seq<PreviewAnswers>, answers: seq<Answers>)
    requires asked == [] && answers == []
    ensures FullPreview(st, cfg, [], asked).devices == [] && FullPass(st', cfg, interactive, [], answers).devices == []
  {
  }

  lemma FrontDistinct(eps: seq<AudioEndpoint>)
    requires eps != [] && DistinctEndpoints(eps)
    ensures DistinctEndpoints(eps[..|eps| - 1]) && Absent(eps[..|eps| - 1], eps[|eps| - 1].id)
  {
    hide Lower;
  }

  lemma ListsGrow(st: EngineState, st': EngineState, cfg: Configuration, interactive: bool, eps: seq<AudioEndpoint>,
                  asked: seq<PreviewAnswers>, answers: seq<Answers>)
    requires eps != [] && |asked| == |eps| && |answers| == |eps| && DistinctEndpoints(eps) && NoPause(answers)
    ensures var n := |eps| - 1;
            && FullPreview(st, cfg, eps, asked).devices
               == FullPreview(st, cfg, eps[..n], asked[..n]).devices + Shown(st, cfg, eps[n], asked[n])
            && FullPass(st', cfg, interactive, eps, answers).devices
               == FullPass(st', cfg, interactive, eps[..n], answers[..n]).devices + Told(st', cfg, eps[n], answers[n])
  {
    hide PreviewReports, VisitIn, Lower, SliceOf, FullPreview, FullPass, DistinctEndpoints;
    var n := |eps| - 1;
    FrontDistinct(eps);
    PreviewElsewhere(st, cfg, eps[..n], asked[..n], eps[n].id);
    PassElsewhere(st', cfg, interactive, eps[..n], answers[..n], eps[n].id);
    PassNotPaused(st', cfg, interactive, eps[..n], answers[..n]);
    PreviewGrows(st, cfg, eps, asked);
    PassGrows(st', cfg, interactive, eps, answers);
    SameVisit(FullPass(st', cfg, interactive, eps[..n], answers[..n]).state, st', cfg, eps[n], answers[n]);
  }

  lemma PreviewGrows(st: EngineState, cfg: Configuration, eps: seq<AudioEndpoint>, asked: seq<PreviewAnswers>)
    requires eps != [] && |asked| == |eps|
    ensures var n := |eps| - 1;
            var p := FullPreview(st, cfg, eps[..n], asked[..n]);
            && FullPreview(st, cfg, eps, asked).devices
               == p.devices + PreviewReports(cfg, eps[n], SliceOf(p.state, eps[n].id), asked[n])
            && FullPreview(st, cfg, eps, asked).state
               == Lift(p.state, eps[n].id, PreviewSlice(cfg, eps[n], SliceOf(p.state, eps[n].id), asked[n]))
  {
    hide PreviewEndpoint, SliceOf, Lift;
  }

  lemma PassGrows(st: EngineState, cfg: Configuration, interactive: bool, eps: seq<AudioEndpoint>,
                  answers: seq<Answers>)
    requires eps != [] && |answers| == |eps|
    requires !FullPass(st, cfg, interactive, eps[..|eps| - 1], answers[..|eps| - 1]).paused
    ensures var n := |eps| - 1;
            var p := FullPass(st, cfg, interactive, eps[..n], answers[..n]);
            FullPass(st, cfg, interactive, eps, answers).devices
            == p.devices + ReportsOf(VisitIn(p.state, cfg, eps[n], answers[n]))
  {
    hide VisitEndpoint, SliceOf, VisitedState;
  }

  // A device, as the preview and the scan meet it.
  ghost predicate Ready(st: EngineState, cfg: Configuration, ep: AudioEndpoint, d: Device, pa: PreviewAnswers,
                        a: Answers) {
    Shows(ep, d) && Known(SliceOf(st, ep.id), d) && HonestPreview(d, pa) && Honest(d, cfg, a)
  }

  // The preview of a candidate, the settings, and the next full scan: both
  // list the same number of devices, and they are the same devices in the same
  // order, with what was announced done, exactly when the word holds for each
  // device: it says that it supports the target when it is at it, and a device
  // that is to be disabled or kept disabled is so under a confirmed policy,
  // and not left enabled by the user or held back by the loop guard. A changed
  // policy gives blocked devices a new chance.
  lemma PreviewIsWhatHappens(st: EngineState, w: World, cfg: Configuration, interactive: bool, eps: seq<AudioEndpoint>,
                             asked: seq<PreviewAnswers>, answers: seq<Answers>)
    requires |asked| == |eps| && |answers| == |eps| && Enumerates(eps, w) && Standardizing(cfg)
    requires forall i :: 0 <= i < |eps| ==> Ready(st, cfg, eps[i], w[eps[i].id], asked[i], answers[i])
    ensures var p := FullPreview(st, cfg, eps, asked);
            var q := FullPass(SetConfigState(p.state, cfg), cfg, interactive, eps, answers);
            && |p.devices| == |q.devices|
            && (AllFulfil(p.devices, q.devices) <==>
                forall i :: 0 <= i < |eps| ==>
                  WordHolds(cfg, w[eps[i].id], SliceOf(st, eps[i].id), PolicyChanged(cfg, st.config),
                            answers[i].wallClock))
  {
    var p := FullPreview(st, cfg, eps, asked);
    var st' := SetConfigState(p.state, cfg);
    PreviewKeepsConfig(st, cfg, eps, asked);
    forall i | 0 <= i < |eps|
      ensures |Shown(st, cfg, eps[i], asked[i])| == |Told(st', cfg, eps[i], answers[i])| && answers[i].canModify
      ensures AllFulfil(Shown(st, cfg, eps[i], asked[i]), Told(st', cfg, eps[i], answers[i])) <==>
              WordHolds(cfg, w[eps[i].id], SliceOf(st, eps[i].id), PolicyChanged(cfg, st.config), answers[i].wallClock)
    {
      assert Ready(st, cfg, eps[i], w[eps[i].id], asked[i], answers[i]);
      PreviewPointwise(st, cfg, eps, asked, i);
      WordOf(st, p.state, cfg, eps[i], w[eps[i].id], asked[i], answers[i]);
    }
    hide Shown, Told, FullPreview, SetConfigState, AllFulfil, FullPass, WordHolds, SliceOf, PolicyChanged, Ready;
    assert EachMatches(st, st', cfg, eps, asked, answers) && NoPause(answers);
    ListsAgree(st, st', cfg, interactive, eps, asked, answers);
  }

  // One endpoint, from the preview through the settings to the scan.
  lemma WordOf(st: EngineState, previewed: EngineState, cfg: Configuration, ep: AudioEndpoint, d: Device,
               pa: PreviewAnswers, a: Answers)
    requires Standardizing(cfg) && Ready(st, cfg, ep, d, pa, a)
    requires SliceOf(previewed, ep.id) == PreviewSlice(cfg, ep, SliceOf(st, ep.id), pa)
    ensures var previews, reports := Shown(st, cfg, ep, pa), Told(SetConfigState(previewed, cfg), cfg, ep, a);
            && |previews| == |reports| && a.canModify
            && (AllFulfil(previews, reports) <==>
                WordHolds(cfg, d, SliceOf(st, ep.id), PolicyChanged(cfg, previewed.config), a.wallClock))
  {
    assert a.canModify;
    var s, s' := SliceOf(st, ep.id), SliceOf(SetConfigState(previewed, cfg), ep.id);
    hide SliceOf, SetConfigState, PreviewSlice, PolicyChanged, Honest, AllFulfil, PreviewReports, FullVisit;
    hide Standardizing;
    CarriedOver(ep, d, cfg, st, previewed, pa, a.wallClock);
    DeviceFulfilsIff(ep, d, cfg, s, pa, s', a);
    assert DisabledByUs(s') <==> DisabledByUs(s);
    hide Unblocked, Verdict, Truthful, PreviewAction, UpToDate, Monitored, DisablePolicyConfirmed;
  }

  // ----- Where the preview is wrong -----

  // The preview announces that an active device at the target whose driver
  // does not admit it will be disabled, and no scan touches it, although
  // nobody left it enabled and nothing holds it back.
  lemma PreviewWrongAtTarget(ep: AudioEndpoint, d: Device, cfg: Configuration, s: Slice, pa: PreviewAnswers, a: Answers)
    requires Standardizing(cfg) && cfg.disableIncompatibleDevices && Monitored(cfg, ep.flow)
    requires d.state == Active && d.format.Matches(cfg.sampleRate, cfg.bitDepth) && Incompatible(Verdict(d, cfg))
    requires Shows(ep, d) && Known(s, d) && HonestPreview(d, pa) && Honest(d, cfg, a)
    ensures PreviewReports(cfg, ep, s, pa) != [] && PreviewReports(cfg, ep, s, pa)[0].action == ActionDisable
    ensures var v := FullVisit(cfg, ep, s, a); ReportsOf(v) != [] && ReportsOf(v)[0].action == ActionCompliant
    ensures !WordHolds(cfg, d, s, true, a.wallClock)
  {
    hide PreviewReports, FullVisit, Verdict, Honest, HonestPreview, UpToDate, ReportsOf, Unblocked;
    ActivePreview(ep, d, cfg, s, pa);
    ActiveScan(ep, d, cfg, s, a);
  }

  // There is such a device: at the target, with a driver that only admits
  // another rate.
  lemma OffTargetExists(cfg: Configuration, rate: nat)
    requires IsSupportedSampleRate(cfg.sampleRate) && IsSupportedBitDepth(cfg.bitDepth)
    requires IsSupportedSampleRate(rate) && rate != cfg.sampleRate
    ensures var f := AudioFormat(cfg.sampleRate, cfg.bitDepth, cfg.bitDepth, false, 2, 3);
            var d := Device(Render, Active, "Speakers", false, f, OneRate(rate), Active);
            d.format.Matches(cfg.sampleRate, cfg.bitDepth) && Incompatible(Verdict(d, cfg)) && !Truthful(d, cfg)
  {
    var f := AudioFormat(cfg.sampleRate, cfg.bitDepth, cfg.bitDepth, false, 2, 3);
    var d := Device(Render, Active, "Speakers", false, f, OneRate(rate), Active);
    assert AdmitsOnly(d, rate);
    OneRateVerdict(d, cfg, rate);
    hide Verdict, IsSupportedSampleRate, IsSupportedBitDepth;
  }
}
