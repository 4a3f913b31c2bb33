// What one endpoint's step of a pass comes to, told from the fields of the
// configuration, from what is remembered of the endpoint and from the answers,
// and not from the phases it goes through (src/core/WatchdogEngine.cpp:
// scanOnce, handleIncompatible, handleDisabledByAudioslave).

module StepMeaning {
  import opened Text
  import opened AudioModel
  import opened Capabilities
  import opened Configurations
  import opened DeviceStateStores
  import opened Policies
  import opened EndpointPolicy
  import opened EndpointFacts
  import opened FormatMeaning
  import opened LoopGuard

  // ----- The endpoint -----

  // The user lets Audioslave look at endpoints of this flow.
  predicate FlowOn(cfg: Configuration, flow: EndpointFlow) {
    match flow
    case Render => cfg.monitorPlayback
    case Capture => cfg.monitorCapture
    case UnknownFlow => true
  }

  predicate RecordedDisabled(s: Slice) { s.record.Some? && s.record.value.disabled }

  // The state a step goes by. When the record says "disabled" and the
  // enumeration does not, Windows is asked, and what it answers counts.
  function StateNow(ep: AudioEndpoint, s: Slice, hasAdmin: bool, a: Answers): EndpointState {
    if RecordedDisabled(s) && ep.state != Disabled && hasAdmin && Succeeded(a.live.code) then a.live.value else ep.state
  }

  // The step may write: passes enforce, and this is not a triggered pass less
  // than thirty seconds after a failure.
  predicate MayWrite(kind: ScanKind, cfg: Configuration, s: Slice, a: Answers) {
    cfg.enforce && (kind == TriggeredScan && s.failure.Some? ==> a.startClock - s.failure.value >= 30000)
  }

  // Any pass skips the endpoints of a flow that is off, and disabled or absent
  // ones that Audioslave did not disable; of all others it is stopped by a
  // pause, and visits them otherwise.
  lemma VisitedIff(kind: ScanKind, cfg: Configuration, hasAdmin: bool, ep: AudioEndpoint, s: Slice, a: Answers)
    ensures var v := VisitEndpoint(kind, cfg, hasAdmin, ep, s, a);
            var state := StateNow(ep, s, hasAdmin, a);
            var looked := FlowOn(cfg, ep.flow) && state != NotPresent && (state == Disabled ==> RecordedDisabled(s));
            && (v.SkippedEndpoint? <==> !looked)
            && (v.PausedPass? <==> looked && !a.canModify)
            && (v.Visited? <==> looked && a.canModify)
  {
    hide Modify;
  }

  // A stale enumeration makes no difference: the step is that of the state
  // Windows reports.
  lemma LiveStateDecides(kind: ScanKind, cfg: Configuration, hasAdmin: bool, ep: AudioEndpoint, s: Slice, a: Answers)
    ensures VisitEndpoint(kind, cfg, hasAdmin, ep, s, a)
            == VisitEndpoint(kind, cfg, hasAdmin, ep.(state := StateNow(ep, s, hasAdmin, a)), s, a)
  {
    hide Modify;
  }

  // ----- What is asked of the device -----

  // The confirmation in the configuration is for its own rate and depth.
  predicate Confirmed(cfg: Configuration) {
    && cfg.formatStandardization && cfg.disableIncompatibleDevices
    && cfg.disableConfirmedFor == Decimal(cfg.sampleRate) + ":" + Decimal(cfg.bitDepth)
  }

  // What is known of the device's formats: the cached ones, or what its driver
  // answers now.
  function FormatsNow(s: Slice, a: Answers): FormatCapabilities {
    if s.caps.Some? then s.caps.value else Probe(a.current.value, a.probe)
  }

  predicate Tells(caps: FormatCapabilities) { caps.known && caps.depthsByRate != map[] }

  predicate Lists(caps: FormatCapabilities, rate: nat, bits: nat) {
    rate in caps.depthsByRate && bits in caps.depthsByRate[rate]
  }

  function PastDisables(s: Slice): seq<int> { if s.record.Some? then s.record.value.history else [] }

  predicate LeftByUser(s: Slice) { s.record.Some? && s.record.value.leftEnabled }

  // Held back by the loop guard: disabled five times or more in ten minutes.
  predicate Held(s: Slice, t: int) { !LeftByUser(s) && |Recent(PastDisables(s), t)| >= 5 }

  // Not at the target, and the driver refuses each layout of it.
  ghost predicate Unfit(cfg: Configuration, a: Answers) {
    && OffTarget(cfg.sampleRate, cfg.bitDepth, a.apply.current)
    && AllRefused(cfg.sampleRate, cfg.bitDepth, a.apply.current.value, a.apply.supports)
  }

  // The first layout of the target that is not refused is accepted: this one.
  ghost predicate Fitting(cfg: Configuration, a: Answers, f: AudioFormat) {
    && OffTarget(cfg.sampleRate, cfg.bitDepth, a.apply.current)
    && FirstAccepted(f, cfg.sampleRate, cfg.bitDepth, a.apply.current.value, a.apply.supports)
  }

  // At the target, or brought there by this step.
  ghost predicate Converted(cfg: Configuration, may: bool, a: Answers) {
    || AtTarget(cfg.sampleRate, cfg.bitDepth, a.apply.current)
    || (may && Sticks(cfg.sampleRate, cfg.bitDepth, a.apply) && exists f :: Fitting(cfg, a, f))
  }

  // All is there to disable the device, but for the user's word and the guard's.
  ghost predicate Condemned(cfg: Configuration, hasAdmin: bool, may: bool, s: Slice, a: Answers) {
    Unfit(cfg, a) && Tells(FormatsNow(s, a)) && Confirmed(cfg) && hasAdmin && may
  }

  ghost predicate AskedToDisable(cfg: Configuration, hasAdmin: bool, may: bool, s: Slice, a: Answers) {
    && Condemned(cfg, hasAdmin, may, s, a) && !LeftByUser(s) && !Held(s, a.wallClock)
    && !(Succeeded(a.liveBeforeDisable.code) && a.liveBeforeDisable.value != Active)
  }

  // A disabled device is enabled again unless a confirmed policy still finds
  // its formats, as they were recorded, to lack the target.
  predicate AskedToEnable(cfg: Configuration, hasAdmin: bool, may: bool, s: Slice) {
    && hasAdmin && may && s.record.Some?
    && !(Confirmed(cfg) && Tells(s.record.value.capabilities)
         && !Lists(s.record.value.capabilities, cfg.sampleRate, cfg.bitDepth))
  }

  // ----- The guard's count -----

  lemma {:induction false} PruneSplit(a: seq<int>, b: seq<int>, t: int)
    ensures Prune(a + b, t) == Prune(a, t) + Prune(b, t)
  {
    if a == [] {
      assert a + b == b;
    } else {
      assert (a + b)[1..] == a[1..] + b && (a + b)[0] == a[0];
      PruneSplit(a[1..], b, t);
      var first := if t - a[0] > DAY_MS then [] else [a[0]];
      assert Prune(a + b, t) == first + Prune(a[1..] + b, t) && Prune(a, t) == first + Prune(a[1..], t);
      hide Prune;
      assert first + (Prune(a[1..], t) + Prune(b, t)) == (first + Prune(a[1..], t)) + Prune(b, t);
    }
  }

  // The pruned history is counted as the whole one.
  lemma {:induction false} CountPruned(history: seq<int>, t: int)
    ensures CountRecent(Prune(history, t), t) == CountRecent(history, t)
  {
    if history == [] {
    } else {
      var rest := history[1..];
      CountPruned(rest, t);
      var first := if t - history[0] > DAY_MS then [] else [history[0]];
      assert Prune(history, t) == first + Prune(rest, t);
      CountSplit(first, Prune(rest, t), t);
    }
  }

  lemma CountMeans(history: seq<int>, t: int)
    ensures CountRecent(Prune(history, t), t) == |Recent(history, t)|
  {
    CountPruned(history, t);
    CountIs(history, t);
  }

  // Pruning keeps the disables of the last day, each as often, and no others;
  // PruneSplit says that they stay in order.
  lemma {:induction false} PruneMeans(history: seq<int>, t: int, h: int)
    ensures multiset(Prune(history, t))[h] == if t - h <= 24 * 3600 * 1000 then multiset(history)[h] else 0
  {
    if history == [] {
    } else {
      PruneMeans(history[1..], t, h);
      assert history == [history[0]] + history[1..];
    }
  }

  // ----- Phase by phase -----

  lemma ConfirmedIs(cfg: Configuration)
    ensures Confirmed(cfg) <==> DisablePolicyConfirmed(cfg)
  {
    hide Decimal;
  }

  lemma LeftOrHeld(s: Slice, t: int)
    requires GoodRecord(s)
    ensures var r := GuardRecord(s, t);
            && (r.leftEnabled <==> LeftByUser(s))
            && CountRecent(r.history, t) == |Recent(PastDisables(s), t)|
            && r.history == Prune(PastDisables(s), t)
            && (s.record.Some? ==> r == s.record.value.(history := Prune(PastDisables(s), t), disabled := false))
            && (s.record == None ==> |Recent(PastDisables(s), t)| == 0)
  {
    CountMeans(PastDisables(s), t);
    hide Prune, CountRecent;
    assert s.record == None ==> Recent(PastDisables(s), t) == {};
    assert s.record.Some? ==>
             GuardRecord(s, t) == s.record.value.(history := Prune(PastDisables(s), t), disabled := false);
  }

  // The record as the guard puts it back.
  function Withdrawn(s: Slice, t: int): Option<DisabledDeviceRecord> {
    match s.record
    case None => None
    case Some(r) => Some(r.(history := Prune(r.history, t), disabled := false))
  }

  // The record of a device that was just disabled.
  function Recorded(ep: AudioEndpoint, cfg: Configuration, s: Slice, d: DeviceReport, t: int): DisabledDeviceRecord {
    DisabledDeviceRecord(ep.id, ep.name, ep.flow, t, (cfg.sampleRate, cfg.bitDepth), d.reason, d.compatibility,
                         d.capabilities, Prune(PastDisables(s), t) + [t], false, true)
  }

  // The guard asks for the disable.
  predicate LetThrough(s: Slice, a: Answers) {
    && !LeftByUser(s) && !Held(s, a.wallClock)
    && !(Succeeded(a.liveBeforeDisable.code) && a.liveBeforeDisable.value != Active)
  }

  lemma GuardStep(ep: AudioEndpoint, cfg: Configuration, s: Slice, d: DeviceReport, a: Answers)
    requires GoodRecord(s)
    ensures var e := GuardPhase(ep, cfg, s, d, a);
            var t := a.wallClock;
            && e.writes == (if LetThrough(s, a) then [WriteEnabled(ep.id, false)] else [])
            && (e.event <==> LetThrough(s, a) || (Held(s, t) && s.loopNotice != Some(e.device.reason)))
            && e.slice.caps == s.caps
            && e.slice.loopNotice == (if LeftByUser(s) then s.loopNotice
                                      else if Held(s, t) then Some(e.device.reason)
                                      else None)
            && e.slice.record == (if LetThrough(s, a) && SaysDisabled(a) then Some(Recorded(ep, cfg, s, d, t))
                                  else if LeftByUser(s) || Held(s, t) then Withdrawn(s, t)
                                  else s.record)
            && e.device == GuardedReport(s, d, a)
  {
    LeftOrHeld(s, a.wallClock);
    hide Prune, CountRecent, GuardRecord, Recent;
  }

  // What is reported of a device that comes to the guard.
  function GuardedReport(s: Slice, d: DeviceReport, a: Answers): DeviceReport {
    if LeftByUser(s) then d.(action := ActionLeftEnabled, reason := EnabledByUser(d.reason))
    else if Held(s, a.wallClock) then
      d.(action := ActionLeftEnabled, reason := WaitingForWindow(d.reason, |Recent(PastDisables(s), a.wallClock)|))
    else if !LetThrough(s, a) then d.(action := ActionUnknown, reason := NotActive(a.liveBeforeDisable.value))
    else if SaysDisabled(a) then d.(action := ActionDisabled, state := Disabled, disabledByAudioslave := true)
    else
      d.(action := ActionFailed,
         reason := if !Succeeded(a.disable) then NotDisabled(a.disable, Active)
                   else NotDisabled(a.stateAfterDisable.code, a.stateAfterDisable.value))
  }

  // The verdict on a device whose driver refuses the target, or refused it.
  function VerdictOn(caps: FormatCapabilities, rate: nat, bits: nat): (Compatibility, Reason) {
    if !Tells(caps) then (UnknownCompatibility, Undetermined)
    else if rate !in caps.depthsByRate then (RateUnsupported, RateMissing(rate))
    else if bits !in caps.depthsByRate[rate] then
      (DepthUnsupported, DepthMissing(rate, caps.depthsByRate[rate], bits))
    else (Compatible, IsSupported)
  }

  function WithVerdict(d: DeviceReport, caps: FormatCapabilities, cfg: Configuration): DeviceReport {
    var (compatibility, reason) := VerdictOn(caps, cfg.sampleRate, cfg.bitDepth);
    d.(capabilities := caps, compatibility := compatibility, reason := reason)
  }

  lemma VerdictIs(d: DeviceReport, caps: FormatCapabilities, cfg: Configuration)
    ensures Judged(d, caps, cfg.sampleRate, cfg.bitDepth) == WithVerdict(d, caps, cfg)
    ensures WithVerdict(d, caps, cfg).compatibility == UnknownCompatibility <==> !Tells(caps)
    ensures Incompatible(WithVerdict(d, caps, cfg).compatibility)
            <==> Tells(caps) && !Lists(caps, cfg.sampleRate, cfg.bitDepth)
  {
  }

  // What is reported of a device whose driver refuses the target.
  function UnfitReport(d: DeviceReport, cfg: Configuration, hasAdmin: bool, may: bool, s: Slice, a: Answers)
      : DeviceReport {
    var d := WithVerdict(d, FormatsNow(s, a), cfg);
    if !Tells(FormatsNow(s, a)) then d.(action := ActionUnknown)
    else if !cfg.disableIncompatibleDevices then d.(action := ActionIgnore)
    else if !Confirmed(cfg) then d.(action := ActionPending)
    else if !hasAdmin || !may then d.(action := ActionIgnore)
    else GuardedReport(s, d, a)
  }

  lemma UnfitStep(ep: AudioEndpoint, cfg: Configuration, may: bool, hasAdmin: bool, s: Slice, d: DeviceReport,
                  a: Answers)
    requires GoodRecord(s)
    ensures var e := IncompatiblePhase(ep, cfg, may, hasAdmin, s, d, a);
            var t := a.wallClock;
            var through := Tells(FormatsNow(s, a)) && Confirmed(cfg) && hasAdmin && may;
            && e.device == UnfitReport(d, cfg, hasAdmin, may, s, a)
            && e.writes == (if through && LetThrough(s, a) then [WriteEnabled(ep.id, false)] else [])
            && (e.event <==>
                through && (LetThrough(s, a) || (Held(s, t) && s.loopNotice != Some(e.device.reason))))
            && e.slice.caps == (if s.caps == None && FormatsNow(s, a).known then Some(FormatsNow(s, a)) else s.caps)
            && e.slice.loopNotice == (if !through || LeftByUser(s) then s.loopNotice
                                      else if Held(s, t) then Some(e.device.reason)
                                      else None)
            && e.slice.record == (if !through then s.record
                                  else if LetThrough(s, a) && SaysDisabled(a) then
                                    Some(Recorded(ep, cfg, s, e.device, t))
                                  else if LeftByUser(s) || Held(s, t) then Withdrawn(s, t)
                                  else s.record)
  {
    hide GuardPhase, Prune, Recent, Probe, Judged, WithVerdict, DisablePolicyConfirmed, Decimal;
    var (s1, caps) := CapabilitiesFor(s, a.current.value, a.probe);
    assert caps == FormatsNow(s, a) && s1.record == s.record && s1.loopNotice == s.loopNotice;
    var judged := WithVerdict(d, caps, cfg);
    VerdictIs(d, caps, cfg);
    ConfirmedIs(cfg);
    GuardStep(ep, cfg, s1, judged, a);
    assert PastDisables(s1) == PastDisables(s);
    assert GuardedReport(s1, judged, a) == GuardedReport(s, judged, a);
    assert Recorded(ep, cfg, s, judged, a.wallClock)
           == Recorded(ep, cfg, s, GuardedReport(s, judged, a), a.wallClock) || !LetThrough(s, a) || !SaysDisabled(a);
  }

  // With the format it has now.
  function WithFormat(d: DeviceReport, a: Answers): DeviceReport {
    d.(currentFormat := Some((a.apply.current.value.sampleRate, a.apply.current.value.validBits)))
  }

  // What is reported of an active device, whatever its driver says; `unfit` is
  // the report of one whose driver refuses the target.
  ghost predicate ReportsFormat(d: DeviceReport, d0: DeviceReport, unfit: DeviceReport, cfg: Configuration, may: bool,
                                backoff: bool, a: Answers) {
    var current := a.apply.current;
    var seen := WithFormat(d0, a);
    var fits := seen.(compatibility := Compatible);
    && (!Succeeded(current.code) ==> d == d0.(action := ActionUnknown, reason := FormatsUnknown(current.code)))
    && (AtTarget(cfg.sampleRate, cfg.bitDepth, current) ==> d == fits.(action := ActionCompliant))
    && (Unfit(cfg, a) ==> d == unfit)
    && (forall f :: Fitting(cfg, a, f) ==>
          d == if !may then fits.(action := ActionApply, reason := NotEnforced(backoff))
               else if !Succeeded(a.apply.write) then
                 fits.(action := ActionFailed, reason := FormatRejected(a.apply.write))
               else if Sticks(cfg.sampleRate, cfg.bitDepth, a.apply) then fits.(action := ActionApplied)
               else fits.(action := ActionFailed, reason := FormatDidNotStick))
    && (forall f :: OffTarget(cfg.sampleRate, cfg.bitDepth, current)
                    && FirstFailed(f, cfg.sampleRate, cfg.bitDepth, current.value, a.apply.supports) ==>
          d == d0.(action := ActionUnknown, reason := FormatsUnknown(a.apply.supports(f).code)))
  }

  ghost predicate FormatWrites(writes: seq<DeviceWrite>, ep: AudioEndpoint, cfg: Configuration, hasAdmin: bool,
                               may: bool, s: Slice, a: Answers) {
    && |writes| <= 1
    && forall w :: w in writes <==>
         || (w.WriteFormat? && w.id == ep.id && may && Fitting(cfg, a, w.format))
         || (w == WriteEnabled(ep.id, false) && AskedToDisable(cfg, hasAdmin, may, s, a))
  }

  ghost predicate FormatEvent(d: DeviceReport, cfg: Configuration, hasAdmin: bool, may: bool, s: Slice, a: Answers) {
    || AskedToDisable(cfg, hasAdmin, may, s, a)
    || (Condemned(cfg, hasAdmin, may, s, a) && Held(s, a.wallClock) && s.loopNotice != Some(d.reason))
  }

  // What is remembered of the device after the format was judged: its record,
  // the notice of the guard and its formats.
  ghost function RecordNow(ep: AudioEndpoint, cfg: Configuration, hasAdmin: bool, may: bool, s: Slice, d: DeviceReport,
                           a: Answers): Option<DisabledDeviceRecord> {
    if Converted(cfg, may, a) then None
    else if AskedToDisable(cfg, hasAdmin, may, s, a) && SaysDisabled(a) then
      Some(Recorded(ep, cfg, s, d, a.wallClock))
    else if Condemned(cfg, hasAdmin, may, s, a) && (LeftByUser(s) || Held(s, a.wallClock)) then
      Withdrawn(s, a.wallClock)
    else s.record
  }

  ghost function NoticeNow(cfg: Configuration, hasAdmin: bool, may: bool, s: Slice, d: DeviceReport, a: Answers)
      : Option<Reason> {
    if !Condemned(cfg, hasAdmin, may, s, a) || LeftByUser(s) then s.loopNotice
    else if Held(s, a.wallClock) then Some(d.reason)
    else None
  }

  ghost function FormatsKept(cfg: Configuration, s: Slice, a: Answers): Option<FormatCapabilities> {
    if Unfit(cfg, a) && s.caps == None && FormatsNow(s, a).known then Some(FormatsNow(s, a)) else s.caps
  }

  lemma FormatWritten(ep: AudioEndpoint, cfg: Configuration, may: bool, backoff: bool, hasAdmin: bool, s: Slice,
                      d: DeviceReport, a: Answers)
    requires GoodRecord(s)
    ensures var e := FormatPhase(ep, cfg, may, backoff, hasAdmin, s, d, a);
            && FormatWrites(e.writes, ep, cfg, hasAdmin, may, s, a)
            && (e.event <==> FormatEvent(e.device, cfg, hasAdmin, may, s, a))
  {
    hide JudgeAndApply, IncompatiblePhase, UnfitReport, Recorded, Withdrawn, AllRefused, FirstAccepted, FirstFailed;
    hide Probe, Recent, Confirmed, FormatReport, FormatMemory, LeftByUser, Held, Tells;
    JudgeMeans(ep.id, cfg.sampleRate, cfg.bitDepth, may, a.apply);
    var (out, writes) := JudgeAndApply(ep.id, cfg.sampleRate, cfg.bitDepth, may, a.apply);
    UnfitStep(ep, cfg, may, hasAdmin, s, FormatReport(d, out, backoff), a);
  }

  lemma FormatRemembered(ep: AudioEndpoint, cfg: Configuration, may: bool, backoff: bool, hasAdmin: bool, s: Slice,
                         d: DeviceReport, a: Answers)
    requires GoodRecord(s)
    ensures var e := FormatPhase(ep, cfg, may, backoff, hasAdmin, s, d, a);
            && e.slice.record == RecordNow(ep, cfg, hasAdmin, may, s, e.device, a)
            && e.slice.loopNotice == NoticeNow(cfg, hasAdmin, may, s, e.device, a)
            && e.slice.caps == FormatsKept(cfg, s, a)
  {
    hide JudgeAndApply, IncompatiblePhase, UnfitReport, Recorded, Withdrawn, AllRefused, FirstAccepted, FirstFailed;
    hide Probe, Recent, Confirmed, FormatReport, LeftByUser, Held, Tells;
    var (out, writes) := JudgeAndApply(ep.id, cfg.sampleRate, cfg.bitDepth, may, a.apply);
    UnfitStep(ep, cfg, may, hasAdmin, s, FormatReport(d, out, backoff), a);
    ConvertedIs(ep.id, cfg, may, a);
    hide Converted, Unfit;
  }

  // The outcomes that bring a device to the target, or find it there.
  lemma ConvertedIs(id: string, cfg: Configuration, may: bool, a: Answers)
    ensures var out := JudgeAndApply(id, cfg.sampleRate, cfg.bitDepth, may, a.apply).0;
            && (Converted(cfg, may, a) <==> out.result == Compliant || out.result == Applied)
            && (Unfit(cfg, a) <==> out.result == Unsupported)
  {
    hide JudgeAndApply, AllRefused, FirstAccepted, FirstFailed;
    JudgeMeans(id, cfg.sampleRate, cfg.bitDepth, may, a.apply);
    if f :| FirstAccepted(f, cfg.sampleRate, cfg.bitDepth, a.apply.current.value, a.apply.supports) {
      assert OffTarget(cfg.sampleRate, cfg.bitDepth, a.apply.current) ==> Fitting(cfg, a, f);
    }
  }

  lemma FormatReported(ep: AudioEndpoint, cfg: Configuration, may: bool, backoff: bool, hasAdmin: bool, s: Slice,
                       d: DeviceReport, a: Answers)
    requires GoodRecord(s)
    ensures var e := FormatPhase(ep, cfg, may, backoff, hasAdmin, s, d, a);
            ReportsFormat(e.device, d, UnfitReport(WithFormat(d, a), cfg, hasAdmin, may, s, a), cfg, may, backoff, a)
  {
    hide JudgeAndApply, IncompatiblePhase, UnfitReport, Recorded, Withdrawn, AllRefused, FirstAccepted, FirstFailed;
    hide Probe, Recent, Confirmed, FormatMemory, LeftByUser, Held, Tells;
    JudgeMeans(ep.id, cfg.sampleRate, cfg.bitDepth, may, a.apply);
    JudgeCode(ep.id, cfg.sampleRate, cfg.bitDepth, may, a.apply);
    var (out, writes) := JudgeAndApply(ep.id, cfg.sampleRate, cfg.bitDepth, may, a.apply);
    UnfitStep(ep, cfg, may, hasAdmin, s, FormatReport(d, out, backoff), a);
  }

  // Why a device is enabled again.
  function ReasonToEnable(cfg: Configuration, caps: FormatCapabilities): Reason {
    if !cfg.formatStandardization then StandardizationOff
    else if !cfg.disableIncompatibleDevices then PolicyOff
    else if Tells(caps) && !Lists(caps, cfg.sampleRate, cfg.bitDepth) then PolicyUnconfirmed
    else SupportsTarget
  }

  // What is reported of a device that Audioslave disabled.
  function DisabledReport(d0: DeviceReport, cfg: Configuration, hasAdmin: bool, may: bool, s: Slice, a: Answers)
      : DeviceReport
    requires s.record.Some?
  {
    var caps := s.record.value.capabilities;
    var d := WithVerdict(d0, caps, cfg).(disabledByAudioslave := true);
    if Confirmed(cfg) && Tells(caps) && !Lists(caps, cfg.sampleRate, cfg.bitDepth) then d.(action := ActionKeepDisabled)
    else if !AskedToEnable(cfg, hasAdmin, may, s) then
      d.(action := ActionReenable, reason := ReasonToEnable(cfg, caps))
    else if SaysEnabled(a) then
      d.(action := ActionReenabled, state := a.stateAfterEnable.value, disabledByAudioslave := false,
         reason := ReasonToEnable(cfg, caps))
    else
      d.(action := ActionFailed,
         reason := NotEnabled(if Succeeded(a.enable) then a.stateAfterEnable.code else a.enable))
  }

  lemma DisabledStep(ep: AudioEndpoint, cfg: Configuration, may: bool, hasAdmin: bool, s: Slice, s1: Slice,
                     d: DeviceReport, a: Answers)
    requires s.record.Some? && s1 == s.(failure := s1.failure)
    ensures var e := DisabledPhase(ep, s.record.value, cfg, may, hasAdmin, s1, d, a);
            var asked := AskedToEnable(cfg, hasAdmin, may, s);
            && e.writes == (if asked then [WriteEnabled(ep.id, true)] else [])
            && (e.event <==> asked && SaysEnabled(a))
            && e.slice.record == (if asked && SaysEnabled(a) then None else s.record)
            && e.slice.loopNotice == s.loopNotice && e.slice.caps == s.caps
            && e.device == DisabledReport(d, cfg, hasAdmin, may, s, a)
  {
    hide Judged, WithVerdict, DisablePolicyConfirmed, Decimal;
    VerdictIs(d, s.record.value.capabilities, cfg);
    ConfirmedIs(cfg);
  }

  lemma EarlyStep(ep: AudioEndpoint, cfg: Configuration, may: bool, hasAdmin: bool, s: Slice, a: Answers)
    ensures var (s1, w1) := NamePhase(ep, cfg, may, hasAdmin, s, a);
            && s1 == s.(failure := s1.failure)
            && |w1| <= 1 && forall w :: w in w1 <==> WantsName(w, ep, cfg, hasAdmin, may)
    ensures var (s2, w2) := ExclusivePhase(ep, cfg, may, s, a);
            && s2 == s.(failure := s2.failure)
            && |w2| <= 1 && forall w :: w in w2 <==> WantsExclusive(w, ep, cfg, may, a)
  {
    hide CustomDeviceName;
  }

  // The user's name for the endpoint is to be written again.
  predicate WantsName(w: DeviceWrite, ep: AudioEndpoint, cfg: Configuration, hasAdmin: bool, may: bool) {
    && w.WriteDescription? && w.id == ep.id && w.text == CustomDeviceName(cfg.deviceNames, ep.id) && w.text != ""
    && ep.description != "" && ep.description != w.text && hasAdmin && may
  }

  // Exclusive mode is to be switched off.
  predicate WantsExclusive(w: DeviceWrite, ep: AudioEndpoint, cfg: Configuration, may: bool, a: Answers) {
    && w == WriteExclusive(ep.id) && cfg.exclusiveModeProtection && may
    && Succeeded(a.exclusive.before.code) && a.exclusive.before.value
  }

  // ----- The whole step -----

  predicate HeldOff(kind: ScanKind, s: Slice, a: Answers) {
    kind == TriggeredScan && s.failure.Some? && a.startClock - s.failure.value < 30000
  }

  lemma VisitIs(kind: ScanKind, cfg: Configuration, hasAdmin: bool, ep: AudioEndpoint, s: Slice, a: Answers)
    requires VisitEndpoint(kind, cfg, hasAdmin, ep, s, a).Visited?
    ensures var now := ep.(state := StateNow(ep, s, hasAdmin, a));
            && Considered(now, s)
            && VisitEndpoint(kind, cfg, hasAdmin, ep, s, a)
               == Modify(now, s, cfg, MayWrite(kind, cfg, s, a), HeldOff(kind, s, a), hasAdmin, a)
  {
    hide Modify;
  }

  // A step writes exactly this.
  ghost predicate Wanted(w: DeviceWrite, ep: AudioEndpoint, state: EndpointState, cfg: Configuration, hasAdmin: bool,
                         may: bool, s: Slice, a: Answers) {
    match w
    case WriteDescription(_, _) => WantsName(w, ep, cfg, hasAdmin, may)
    case WriteExclusive(_) => state != Disabled && WantsExclusive(w, ep, cfg, may, a)
    case WriteFormat(id, f) => id == ep.id && state == Active && cfg.formatStandardization && may && Fitting(cfg, a, f)
    case WriteEnabled(id, enabled) =>
      id == ep.id && if enabled then state == Disabled && AskedToEnable(cfg, hasAdmin, may, s)
                     else state == Active && cfg.formatStandardization && AskedToDisable(cfg, hasAdmin, may, s, a)
  }

  function Rank(w: DeviceWrite): nat { if w.WriteDescription? then 0 else if w.WriteExclusive? then 1 else 2 }

  // First the name, then exclusive mode, then the format or the state.
  predicate InRank(writes: seq<DeviceWrite>) {
    forall i, j :: 0 <= i < j < |writes| ==> Rank(writes[i]) < Rank(writes[j])
  }

  lemma WritesMean(kind: ScanKind, cfg: Configuration, hasAdmin: bool, ep: AudioEndpoint, s: Slice, a: Answers)
    requires GoodRecord(s)
    ensures var v := VisitEndpoint(kind, cfg, hasAdmin, ep, s, a);
            v.Visited? ==>
              && InRank(v.writes)
              && forall w :: w in v.writes <==>
                   Wanted(w, ep, StateNow(ep, s, hasAdmin, a), cfg, hasAdmin, MayWrite(kind, cfg, s, a), s, a)
  {
    hide VisitEndpoint, Modify, MayWrite, HeldOff, StateNow, Considered, Wanted;
    if VisitEndpoint(kind, cfg, hasAdmin, ep, s, a).Visited? {
      VisitIs(kind, cfg, hasAdmin, ep, s, a);
      var now := ep.(state := StateNow(ep, s, hasAdmin, a));
      ModifyWrites(now, s, cfg, MayWrite(kind, cfg, s, a), HeldOff(kind, s, a), hasAdmin, a);
      forall w
        ensures Wanted(w, now, now.state, cfg, hasAdmin, MayWrite(kind, cfg, s, a), s, a)
                <==> Wanted(w, ep, now.state, cfg, hasAdmin, MayWrite(kind, cfg, s, a), s, a)
      {
        SameWants(w, now, ep, now.state, cfg, hasAdmin, MayWrite(kind, cfg, s, a), s, a);
      }
    }
  }

  lemma SameWants(w: DeviceWrite, ep: AudioEndpoint, ep': AudioEndpoint, state: EndpointState, cfg: Configuration,
                  hasAdmin: bool, may: bool, s: Slice, a: Answers)
    requires ep.id == ep'.id && ep.description == ep'.description
    ensures Wanted(w, ep, state, cfg, hasAdmin, may, s, a) <==> Wanted(w, ep', state, cfg, hasAdmin, may, s, a)
  {
    hide Fitting, AskedToDisable, AskedToEnable, CustomDeviceName;
  }

  ghost predicate AsWanted(writes: seq<DeviceWrite>, ep: AudioEndpoint, cfg: Configuration, hasAdmin: bool, may: bool,
                           s: Slice, a: Answers) {
    InRank(writes) && forall w :: w in writes <==> Wanted(w, ep, ep.state, cfg, hasAdmin, may, s, a)
  }

  lemma ModifyWrites(ep: AudioEndpoint, s: Slice, cfg: Configuration, may: bool, backoff: bool, hasAdmin: bool,
                     a: Answers)
    requires Considered(ep, s) && GoodRecord(s)
    ensures AsWanted(Modify(ep, s, cfg, may, backoff, hasAdmin, a).writes, ep, cfg, hasAdmin, may, s, a)
  {
    if ep.state == Disabled {
      DisabledWrites(ep, s, cfg, may, backoff, hasAdmin, a);
    } else {
      EnabledWrites(ep, s, cfg, may, backoff, hasAdmin, a);
    }
    hide Modify, AsWanted;
  }

  lemma DisabledWrites(ep: AudioEndpoint, s: Slice, cfg: Configuration, may: bool, backoff: bool, hasAdmin: bool,
                       a: Answers)
    requires Considered(ep, s) && GoodRecord(s) && ep.state == Disabled
    ensures AsWanted(Modify(ep, s, cfg, may, backoff, hasAdmin, a).writes, ep, cfg, hasAdmin, may, s, a)
  {
    hide NamePhase, ExclusivePhase, DisabledPhase, FormatPhase, AskedToEnable;
    hide AskedToDisable, Fitting, InRank, CustomDeviceName, Rank;
    var (s1, w1) := NamePhase(ep, cfg, may, hasAdmin, s, a);
    EarlyStep(ep, cfg, may, hasAdmin, s, a);
    DisabledStep(ep, cfg, may, hasAdmin, s, s1, NewReport(ep), a);
    RankedParts(w1, [], DisabledPhase(ep, s.record.value, cfg, may, hasAdmin, s1, NewReport(ep), a).writes);
  }

  lemma EnabledWrites(ep: AudioEndpoint, s: Slice, cfg: Configuration, may: bool, backoff: bool, hasAdmin: bool,
                      a: Answers)
    requires Considered(ep, s) && GoodRecord(s) && ep.state != Disabled
    ensures AsWanted(Modify(ep, s, cfg, may, backoff, hasAdmin, a).writes, ep, cfg, hasAdmin, may, s, a)
  {
    hide NamePhase, ExclusivePhase, DisabledPhase, FormatPhase, AskedToEnable;
    hide AskedToDisable, Fitting, InRank, CustomDeviceName, Rank;
    var (s1, w1) := NamePhase(ep, cfg, may, hasAdmin, s, a);
    var (s2, w2) := ExclusivePhase(ep, cfg, may, s1, a);
    EarlyStep(ep, cfg, may, hasAdmin, s, a);
    EarlyStep(ep, cfg, may, hasAdmin, s1, a);
    if ep.state == Active && cfg.formatStandardization {
      FormatWritten(ep, cfg, may, backoff, hasAdmin, s2, NewReport(ep), a);
      SameAsks(cfg, hasAdmin, may, s, s2, a);
      RankedParts(w1, w2, FormatPhase(ep, cfg, may, backoff, hasAdmin, s2, NewReport(ep), a).writes);
    } else {
      RankedParts(w1, w2, []);
    }
  }

  lemma RankedParts(w1: seq<DeviceWrite>, w2: seq<DeviceWrite>, w3: seq<DeviceWrite>)
    requires |w1| <= 1 && |w2| <= 1 && |w3| <= 1
    requires forall w :: w in w1 ==> w.WriteDescription?
    requires forall w :: w in w2 ==> w.WriteExclusive?
    requires forall w :: w in w3 ==> w.WriteFormat? || w.WriteEnabled?
    ensures InRank(w1 + w2 + w3) && w1 + [] + w3 == w1 + w3 && w1 + w2 + [] == w1 + w2
    ensures forall w :: w in w1 + w2 + w3 <==> w in w1 || w in w2 || w in w3
  {
    assert forall i :: 0 <= i < |w1| ==> w1[i] in w1;
    assert forall i :: 0 <= i < |w2| ==> w2[i] in w2;
    assert forall i :: 0 <= i < |w3| ==> w3[i] in w3;
  }

  // A remembered failure makes no difference to what is asked.
  lemma SameAsks(cfg: Configuration, hasAdmin: bool, may: bool, s: Slice, s': Slice, a: Answers)
    requires s'.record == s.record && s'.caps == s.caps
    ensures AskedToDisable(cfg, hasAdmin, may, s', a) <==> AskedToDisable(cfg, hasAdmin, may, s, a)
    ensures Condemned(cfg, hasAdmin, may, s', a) <==> Condemned(cfg, hasAdmin, may, s, a)
    ensures FormatsNow(s', a) == FormatsNow(s, a)
  {
    hide Unfit, Probe, Confirmed, Recent;
  }

  // What the step knows of the endpoint before it judges it.
  function BlankReport(ep: AudioEndpoint, state: EndpointState): DeviceReport {
    DeviceReport(ep.id, ep.name, ep.flow, state, ep.isDefault, false, None, FormatCapabilities(false, 0, map[]),
                 UnknownCompatibility, NoAction, NoReason)
  }

  // A visited endpoint is reported when it is disabled, or when it is active
  // and formats are standardized; and this is what is reported of it.
  ghost predicate Reports(report: Option<DeviceReport>, ep: AudioEndpoint, state: EndpointState, cfg: Configuration,
                          hasAdmin: bool, may: bool, backoff: bool, s: Slice, a: Answers)
    requires state == Disabled ==> s.record.Some?
  {
    if state == Disabled then report == Some(DisabledReport(BlankReport(ep, state), cfg, hasAdmin, may, s, a))
    else if state == Active && cfg.formatStandardization then
      var d := BlankReport(ep, state);
      && report.Some?
      && ReportsFormat(report.value, d, UnfitReport(WithFormat(d, a), cfg, hasAdmin, may, s, a), cfg, may, backoff, a)
    else report == None
  }

  // What is remembered of a visited endpoint, but for its failure: its record,
  // the notice of the guard and its formats.
  ghost predicate Keeps(s': Slice, report: Option<DeviceReport>, ep: AudioEndpoint, state: EndpointState,
                        cfg: Configuration, hasAdmin: bool, may: bool, s: Slice, a: Answers) {
    if state == Disabled then
      && s'.record == (if AskedToEnable(cfg, hasAdmin, may, s) && SaysEnabled(a) then None else s.record)
      && s'.loopNotice == s.loopNotice && s'.caps == s.caps
    else if state == Active && cfg.formatStandardization then
      && report.Some?
      && s'.record == RecordNow(ep, cfg, hasAdmin, may, s, report.value, a)
      && s'.loopNotice == NoticeNow(cfg, hasAdmin, may, s, report.value, a)
      && s'.caps == FormatsKept(cfg, s, a)
    else s'.record == s.record && s'.loopNotice == s.loopNotice && s'.caps == s.caps
  }

  // A visit is told to the user as an event exactly then.
  ghost predicate IsEvent(report: Option<DeviceReport>, state: EndpointState, cfg: Configuration, hasAdmin: bool,
                          may: bool, s: Slice, a: Answers) {
    if state == Disabled then AskedToEnable(cfg, hasAdmin, may, s) && SaysEnabled(a)
    else
      && state == Active && cfg.formatStandardization && report.Some?
      && FormatEvent(report.value, cfg, hasAdmin, may, s, a)
  }

  ghost predicate AsMeant(v: Visit, ep: AudioEndpoint, state: EndpointState, cfg: Configuration, hasAdmin: bool,
                          may: bool, backoff: bool, s: Slice, a: Answers)
    requires state == Disabled ==> s.record.Some?
  {
    && v.Visited?
    && Reports(v.report, ep, state, cfg, hasAdmin, may, backoff, s, a)
    && Keeps(v.slice, v.report, ep, state, cfg, hasAdmin, may, s, a)
    && (v.event <==> IsEvent(v.report, state, cfg, hasAdmin, may, s, a))
  }

  // What is reported, remembered and told of an endpoint.
  lemma StepMeans(kind: ScanKind, cfg: Configuration, hasAdmin: bool, ep: AudioEndpoint, s: Slice, a: Answers)
    requires GoodRecord(s)
    ensures var v := VisitEndpoint(kind, cfg, hasAdmin, ep, s, a);
            var state := StateNow(ep, s, hasAdmin, a);
            v.Visited? ==>
              && (state == Disabled ==> s.record.Some?)
              && AsMeant(v, ep, state, cfg, hasAdmin, MayWrite(kind, cfg, s, a), HeldOff(kind, s, a), s, a)
  {
    hide VisitEndpoint, Modify, MayWrite, HeldOff, StateNow, AsMeant;
    if VisitEndpoint(kind, cfg, hasAdmin, ep, s, a).Visited? {
      VisitIs(kind, cfg, hasAdmin, ep, s, a);
      var now := ep.(state := StateNow(ep, s, hasAdmin, a));
      ModifyMeans(now, s, cfg, MayWrite(kind, cfg, s, a), HeldOff(kind, s, a), hasAdmin, a);
      SameMeaning(VisitEndpoint(kind, cfg, hasAdmin, ep, s, a), now, ep, cfg, hasAdmin, MayWrite(kind, cfg, s, a),
                  HeldOff(kind, s, a), s, a);
    }
  }

  // The enumerated state does not matter, once it is known what it is now.
  lemma SameMeaning(v: Visit, now: AudioEndpoint, ep: AudioEndpoint, cfg: Configuration, hasAdmin: bool, may: bool,
                    backoff: bool, s: Slice, a: Answers)
    requires now == ep.(state := now.state) && (now.state == Disabled ==> s.record.Some?)
    requires AsMeant(v, now, now.state, cfg, hasAdmin, may, backoff, s, a)
    ensures AsMeant(v, ep, now.state, cfg, hasAdmin, may, backoff, s, a)
  {
    assert BlankReport(now, now.state) == BlankReport(ep, now.state);
    assert forall d: DeviceReport :: Recorded(now, cfg, s, d, a.wallClock) == Recorded(ep, cfg, s, d, a.wallClock);
    hide BlankReport, Recorded, ReportsFormat, UnfitReport, DisabledReport, AskedToEnable, AskedToDisable, Condemned;
    hide FormatEvent;
    hide Converted, FormatsKept, NoticeNow, Withdrawn;
  }

  lemma ModifyMeans(ep: AudioEndpoint, s: Slice, cfg: Configuration, may: bool, backoff: bool, hasAdmin: bool,
                    a: Answers)
    requires Considered(ep, s) && GoodRecord(s)
    ensures AsMeant(Modify(ep, s, cfg, may, backoff, hasAdmin, a), ep, ep.state, cfg, hasAdmin, may, backoff, s, a)
  {
    hide NamePhase, ExclusivePhase, DisabledPhase, FormatPhase, AskedToEnable, AskedToDisable, FormatEvent;
    hide ReportsFormat, UnfitReport, WithFormat, DisabledReport, RecordNow, NoticeNow, FormatsKept, FormatWrites;
    var s1 := NamePhase(ep, cfg, may, hasAdmin, s, a).0;
    var s2 := ExclusivePhase(ep, cfg, may, s1, a).0;
    EarlyStep(ep, cfg, may, hasAdmin, s, a);
    EarlyStep(ep, cfg, may, hasAdmin, s1, a);
    assert NewReport(ep) == BlankReport(ep, ep.state);
    if ep.state == Disabled {
      DisabledStep(ep, cfg, may, hasAdmin, s, s1, NewReport(ep), a);
    } else if ep.state == Active && cfg.formatStandardization {
      FormatWritten(ep, cfg, may, backoff, hasAdmin, s2, NewReport(ep), a);
      FormatRemembered(ep, cfg, may, backoff, hasAdmin, s2, NewReport(ep), a);
      FormatReported(ep, cfg, may, backoff, hasAdmin, s2, NewReport(ep), a);
      var d := FormatPhase(ep, cfg, may, backoff, hasAdmin, s2, NewReport(ep), a).device;
      SameAsks(cfg, hasAdmin, may, s, s2, a);
      SameOutcomes(ep, cfg, hasAdmin, may, s, s2, d, a);
      SameReport(WithFormat(NewReport(ep), a), cfg, hasAdmin, may, s, s2, a);
    }
  }

  lemma SameOutcomes(ep: AudioEndpoint, cfg: Configuration, hasAdmin: bool, may: bool, s: Slice, s': Slice,
                     d: DeviceReport, a: Answers)
    requires s' == s.(failure := s'.failure)
    ensures RecordNow(ep, cfg, hasAdmin, may, s', d, a) == RecordNow(ep, cfg, hasAdmin, may, s, d, a)
    ensures NoticeNow(cfg, hasAdmin, may, s', d, a) == NoticeNow(cfg, hasAdmin, may, s, d, a)
    ensures FormatsKept(cfg, s', a) == FormatsKept(cfg, s, a)
    ensures FormatEvent(d, cfg, hasAdmin, may, s', a) <==> FormatEvent(d, cfg, hasAdmin, may, s, a)
  {
    SameAsks(cfg, hasAdmin, may, s, s', a);
    hide Unfit, Converted, FormatsNow, AskedToDisable, Condemned, Recent;
  }

  lemma SameReport(d: DeviceReport, cfg: Configuration, hasAdmin: bool, may: bool, s: Slice, s': Slice, a: Answers)
    requires s' == s.(failure := s'.failure)
    ensures UnfitReport(d, cfg, hasAdmin, may, s', a) == UnfitReport(d, cfg, hasAdmin, may, s, a)
  {
    hide Recent, WithVerdict, Confirmed, Probe;
  }
}
