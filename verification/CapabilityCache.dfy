// The cached formats of the devices (src/core/WatchdogEngine.cpp:
// capabilitiesFor, forgetCapabilities, onDeviceChange): when they can be
// trusted.

module CapabilityCache {
  import opened Text
  import opened AudioModel
  import opened Capabilities
  import opened Configurations
  import opened EndpointMemories
  import opened Policies
  import opened EndpointPolicy
  import opened EngineModel
  import opened EndpointFacts
  import opened EngineRuns

  // ----- One step -----

  // The cache of the visited device is kept, or filled by asking its driver now.
  predicate CacheMove(s: Slice, s': Slice, current: AudioFormat, probe: FormatAnswers) {
    s'.caps == s.caps || (s.caps == None && s'.caps == Some(Probe(current, probe)))
  }

  lemma FormatCache(ep: AudioEndpoint, cfg: Configuration, enforce: bool, backoff: bool, hasAdmin: bool, s: Slice,
                    d: DeviceReport, a: Answers)
    ensures CacheMove(s, FormatPhase(ep, cfg, enforce, backoff, hasAdmin, s, d, a).slice, a.current.value, a.probe)
  {
    var out := JudgeAndApply(ep.id, cfg.sampleRate, cfg.bitDepth, enforce, a.apply).0;
    hide Probe, JudgeAndApply, FormatReport, IncompatiblePhase;
    IncompatibleCache(ep, cfg, enforce, hasAdmin, s, FormatReport(d, out, backoff), a);
  }

  lemma IncompatibleCache(ep: AudioEndpoint, cfg: Configuration, enforce: bool, hasAdmin: bool, s: Slice,
                          d: DeviceReport, a: Answers)
    ensures CacheMove(s, IncompatiblePhase(ep, cfg, enforce, hasAdmin, s, d, a).slice, a.current.value, a.probe)
  {
    var (s1, caps) := CapabilitiesFor(s, a.current.value, a.probe);
    assert CacheMove(s, s1, a.current.value, a.probe) by {
      hide Probe;
    }
    hide Probe, CapabilitiesFor, DisablePolicyConfirmed, Judged, GuardPhase;
    GuardCache(ep, cfg, s1, Judged(d, caps, cfg.sampleRate, cfg.bitDepth), a);
  }

  lemma GuardCache(ep: AudioEndpoint, cfg: Configuration, s: Slice, d: DeviceReport, a: Answers)
    ensures GuardPhase(ep, cfg, s, d, a).slice.caps == s.caps
  {
    hide GuardRecord, CountRecent, DisabledRecord;
  }

  lemma VisitCache(kind: ScanKind, cfg: Configuration, hasAdmin: bool, ep: AudioEndpoint, s: Slice, a: Answers)
    ensures var v := VisitEndpoint(kind, cfg, hasAdmin, ep, s, a);
            v.Visited? ==> CacheMove(s, v.slice, a.current.value, a.probe)
  {
    var seen := Seen(ep, s, hasAdmin, a);
    hide Seen, Monitored, Modify, CacheMove;
    if Monitored(cfg, ep.flow) && Considered(seen, s) && a.canModify {
      var backoff := kind == TriggeredScan && InBackoff(s, a.startClock);
      ModifyCache(seen, s, cfg, cfg.enforce && !backoff, backoff, hasAdmin, a);
    }
  }

  lemma ModifyCache(ep: AudioEndpoint, s: Slice, cfg: Configuration, enforce: bool, backoff: bool, hasAdmin: bool,
                    a: Answers)
    requires Considered(ep, s)
    ensures CacheMove(s, Modify(ep, s, cfg, enforce, backoff, hasAdmin, a).slice, a.current.value, a.probe)
  {
    var s1 := NamePhase(ep, cfg, enforce, hasAdmin, s, a).0;
    var s2 := ExclusivePhase(ep, cfg, enforce, s1, a).0;
    EarlyPhases(ep, cfg, enforce, hasAdmin, s, a);
    EarlyPhases(ep, cfg, enforce, hasAdmin, s1, a);
    hide NamePhase, ExclusivePhase, DisabledPhase, FormatPhase, Probe;
    if ep.state == Disabled {
      EnableFacts(ep, s.record.value, cfg, enforce, hasAdmin, s1, NewReport(ep), a);
    } else {
      FormatCache(ep, cfg, enforce, backoff, hasAdmin, s2, NewReport(ep), a);
    }
  }

  lemma PreviewCache(candidate: Configuration, ep: AudioEndpoint, s: Slice, a: PreviewAnswers)
    requires Succeeded(a.current.code)
    ensures CacheMove(s, PreviewEndpoint(candidate, ep, s, a.current, a.probe).0, a.current.value, a.probe)
  {
    hide Probe, Judged, PreviewAction;
  }

  // ----- Runs, for one device -----

  // Asked for the formats of the device, its driver gives its fixed answers.
  ghost predicate AnswersAs(layout: AudioFormat, f: FormatAnswers, current: Reply<AudioFormat>, probe: FormatAnswers) {
    Succeeded(current.code) && SameLayout(current.value, layout) && probe == f
  }

  // The operation finds the driver and the channel layout of the device as
  // they are; what it finds of other devices does not matter.
  ghost predicate SteadyFor(id: string, layout: AudioFormat, f: FormatAnswers, op: Op) {
    && (op.StepOp? && op.ep.id == id ==> AnswersAs(layout, f, op.answers.current, op.answers.probe))
    && (op.PreviewOp? && op.ep.id == id ==> AnswersAs(layout, f, op.asked.current, op.asked.probe))
  }

  ghost predicate FreshFor(id: string, layout: AudioFormat, f: FormatAnswers, st: EngineState) {
    id in st.capabilities ==> st.capabilities[id] == Probe(layout, f)
  }

  lemma MoveIsFresh(layout: AudioFormat, f: FormatAnswers, s: Slice, s': Slice, current: Reply<AudioFormat>,
                    probe: FormatAnswers)
    requires AnswersAs(layout, f, current, probe) && CacheMove(s, s', current.value, probe)
    requires s.caps.Some? ==> s.caps.value == Probe(layout, f)
    ensures s'.caps.Some? ==> s'.caps.value == Probe(layout, f)
  {
    hide Probe;
    ProbeLayout(current.value, layout, probe);
  }

  // No operation, on this device or another, makes the cached formats stale.
  lemma FreshStep(id: string, layout: AudioFormat, f: FormatAnswers, st: EngineState, op: Op, hasAdmin: bool)
    requires SteadyFor(id, layout, f, op) && FreshFor(id, layout, f, st)
    ensures FreshFor(id, layout, f, Apply(st, op, hasAdmin))
  {
    hide Probe, VisitEndpoint, PreviewEndpoint, CacheMove, Lower, LoopKey, Contains, SameLayout;
    if op.StepOp? {
      var s := SliceOf(st, op.ep.id);
      var v := VisitAt(st, op.kind, op.cfg, hasAdmin, op.ep, op.answers);
      VisitCache(op.kind, op.cfg, hasAdmin, op.ep, s, op.answers);
      if v.Visited? && op.ep.id == id {
        MoveIsFresh(layout, f, s, v.slice, op.answers.current, op.answers.probe);
      }
      VisitedCaps(st, op.ep.id, v, op.interactive);
    } else if op.PreviewOp? && op.ep.id == id {
      var s := SliceOf(st, id);
      PreviewCache(op.candidate, op.ep, s, op.asked);
      var s' := PreviewEndpoint(op.candidate, op.ep, s, op.asked.current, op.asked.probe).0;
      MoveIsFresh(layout, f, s, s', op.asked.current, op.asked.probe);
    }
  }

  lemma VisitedCaps(st: EngineState, id: string, v: Visit, interactive: bool)
    ensures VisitedState(st, id, v, interactive).capabilities
            == if v.Visited? then SetOpt(st.capabilities, id, v.slice.caps) else st.capabilities
  {
    hide Lower, LoopKey, SetOpt;
  }

  // The cached formats of the device are dropped: it changed, or all are.
  predicate Invalidates(op: Op, id: string) { op == DeviceChangeOp(id) || op == ForgetCapabilitiesOp }

  lemma InvalidatedIsFresh(id: string, layout: AudioFormat, f: FormatAnswers, st: EngineState, op: Op, hasAdmin: bool)
    requires Invalidates(op, id)
    ensures FreshFor(id, layout, f, Apply(st, op, hasAdmin))
  {
    hide Probe, Contains;
  }

  // Nothing is cached of the device when operation `from` comes: it is the
  // first one and the cache starts empty, or the one before drops the entry.
  predicate CleanFrom(st: EngineState, ops: seq<Op>, id: string, from: nat) {
    from <= |ops| && if from == 0 then id !in st.capabilities else Invalidates(ops[from - 1], id)
  }

  // Since the last invalidation of a device, while its driver keeps its
  // answers and its channel layout, what is cached of it is what a fresh probe
  // would say, whatever went on before and whatever happens to other devices.
  lemma {:induction false} CacheStaysFresh(st: EngineState, ops: seq<Op>, hasAdmin: bool, id: string,
                                           layout: AudioFormat, f: FormatAnswers, from: nat)
    requires CleanFrom(st, ops, id, from) && forall i :: from <= i < |ops| ==> SteadyFor(id, layout, f, ops[i])
    ensures FreshFor(id, layout, f, RunOps(st, ops, hasAdmin).state)
  {
    if ops == [] {
      assert id !in RunOps(st, ops, hasAdmin).state.capabilities;
    } else {
      var n := |ops| - 1;
      var before := RunOps(st, ops[..n], hasAdmin).state;
      hide Apply, Deeds, FreshFor, SteadyFor;
      if from == |ops| {
        InvalidatedIsFresh(id, layout, f, before, ops[n], hasAdmin);
      } else {
        CacheStaysFresh(st, ops[..n], hasAdmin, id, layout, f, from);
        FreshStep(id, layout, f, before, ops[n], hasAdmin);
      }
    }
  }

  // ----- What a disabled device was judged by -----

  lemma IncompatibleJudged(ep: AudioEndpoint, cfg: Configuration, enforce: bool, hasAdmin: bool, s: Slice,
                           d: DeviceReport, a: Answers)
    requires GoodRecord(s)
    ensures var e := IncompatiblePhase(ep, cfg, enforce, hasAdmin, s, d, a);
            e.writes != [] ==>
              && e.device.compatibility
                 == JudgeCompatibility(CapabilitiesFor(s, a.current.value, a.probe).1, cfg.sampleRate, cfg.bitDepth)
              && e.device.compatibility != UnknownCompatibility
              && (SaysDisabled(a) ==>
                    e.slice.record.Some? && e.slice.record.value.compatibility == e.device.compatibility)
  {
    var (s1, caps) := CapabilitiesFor(s, a.current.value, a.probe);
    var judged := Judged(d, caps, cfg.sampleRate, cfg.bitDepth);
    assert judged.compatibility == JudgeCompatibility(caps, cfg.sampleRate, cfg.bitDepth);
    hide CapabilitiesFor, DisablePolicyConfirmed, Judged, GuardRecord, CountRecent, JudgeCompatibility;
  }

  // A device is disabled only when the direct question found the target
  // unsupported, and the verdict comes from the cached or fresh formats.
  lemma DisableJudged(kind: ScanKind, cfg: Configuration, hasAdmin: bool, ep: AudioEndpoint, s: Slice, a: Answers)
    requires GoodRecord(s)
    ensures var v := VisitEndpoint(kind, cfg, hasAdmin, ep, s, a);
            VerifiedDisable(v, ep, a) ==>
              && (exists enforce ::
                    JudgeAndApply(ep.id, cfg.sampleRate, cfg.bitDepth, enforce, a.apply).0.result == Unsupported)
              && v.slice.record.Some?
              && v.slice.record.value.compatibility
                 == JudgeCompatibility(CapabilitiesFor(s, a.current.value, a.probe).1, cfg.sampleRate, cfg.bitDepth)
              && v.slice.record.value.compatibility != UnknownCompatibility
  {
    var seen := Seen(ep, s, hasAdmin, a);
    assert seen.id == ep.id;
    hide Seen, Monitored, Modify, JudgeAndApply, CapabilitiesFor, JudgeCompatibility;
    if Monitored(cfg, ep.flow) && Considered(seen, s) && a.canModify {
      var backoff := kind == TriggeredScan && InBackoff(s, a.startClock);
      ModifyJudged(seen, s, cfg, cfg.enforce && !backoff, backoff, hasAdmin, a);
    }
  }

  lemma ModifyJudged(ep: AudioEndpoint, s: Slice, cfg: Configuration, enforce: bool, backoff: bool, hasAdmin: bool,
                     a: Answers)
    requires Considered(ep, s) && GoodRecord(s)
    ensures var v := Modify(ep, s, cfg, enforce, backoff, hasAdmin, a);
            VerifiedDisable(v, ep, a) ==>
              && JudgeAndApply(ep.id, cfg.sampleRate, cfg.bitDepth, enforce, a.apply).0.result == Unsupported
              && v.slice.record.Some?
              && v.slice.record.value.compatibility
                 == JudgeCompatibility(CapabilitiesFor(s, a.current.value, a.probe).1, cfg.sampleRate, cfg.bitDepth)
              && v.slice.record.value.compatibility != UnknownCompatibility
  {
    hide NamePhase, ExclusivePhase, DisabledPhase, FormatPhase, JudgeAndApply, CapabilitiesFor, JudgeCompatibility;
    var (s1, w1) := NamePhase(ep, cfg, enforce, hasAdmin, s, a);
    var (s2, w2) := ExclusivePhase(ep, cfg, enforce, s1, a);
    EarlyPhases(ep, cfg, enforce, hasAdmin, s, a);
    EarlyPhases(ep, cfg, enforce, hasAdmin, s1, a);
    SameProbe(s, s2, a);
    assert NoEnableWrites(w1 + w2);
    if ep.state == Disabled {
      EnableFacts(ep, s.record.value, cfg, enforce, hasAdmin, s1, NewReport(ep), a);
      EnableWritesOf(ep.id, w1, DisabledPhase(ep, s.record.value, cfg, enforce, hasAdmin, s1, NewReport(ep), a).writes);
    } else if ep.state == Active && cfg.formatStandardization {
      FormatJudged(ep, cfg, enforce, backoff, hasAdmin, s2, NewReport(ep), a);
      EnableWritesOf(ep.id, w1 + w2, FormatPhase(ep, cfg, enforce, backoff, hasAdmin, s2, NewReport(ep), a).writes);
    } else {
      EnableWritesOf(ep.id, w1 + w2, []);
    }
  }

  lemma SameProbe(s: Slice, s': Slice, a: Answers)
    requires s'.caps == s.caps
    ensures CapabilitiesFor(s', a.current.value, a.probe).1 == CapabilitiesFor(s, a.current.value, a.probe).1
  {
    hide Probe;
  }

  lemma FormatJudged(ep: AudioEndpoint, cfg: Configuration, enforce: bool, backoff: bool, hasAdmin: bool, s: Slice,
                     d: DeviceReport, a: Answers)
    requires GoodRecord(s)
    ensures var e := FormatPhase(ep, cfg, enforce, backoff, hasAdmin, s, d, a);
            && (NoEnableWrites(e.writes) || exists b :: e.writes == [WriteEnabled(ep.id, b)])
            && (e.writes == [WriteEnabled(ep.id, false)] && SaysDisabled(a) ==>
                  && JudgeAndApply(ep.id, cfg.sampleRate, cfg.bitDepth, enforce, a.apply).0.result == Unsupported
                  && e.slice.record.Some?
                  && e.slice.record.value.compatibility
                     == JudgeCompatibility(CapabilitiesFor(s, a.current.value, a.probe).1, cfg.sampleRate, cfg.bitDepth)
                  && e.slice.record.value.compatibility != UnknownCompatibility)
  {
    var (out, writes) := JudgeAndApply(ep.id, cfg.sampleRate, cfg.bitDepth, enforce, a.apply);
    assert writes == [] || (exists f :: writes == [WriteFormat(ep.id, f)]);
    hide JudgeAndApply, IncompatiblePhase, CapabilitiesFor, JudgeCompatibility;
    IncompatibleJudged(ep, cfg, enforce, hasAdmin, s, FormatReport(d, out, backoff), a);
    IncompatibleAsks(ep, cfg, enforce, hasAdmin, s, FormatReport(d, out, backoff), a);
  }

  // The exact condition: of a device whose driver answers every question, the
  // same way each time, a verified disable rests on the verdict "compatible"
  // exactly when the formats cached before the step say so.
  lemma CompatibleDisableIff(kind: ScanKind, cfg: Configuration, hasAdmin: bool, ep: AudioEndpoint, s: Slice,
                             a: Answers)
    requires GoodRecord(s) && IsSupportedSampleRate(cfg.sampleRate) && IsSupportedBitDepth(cfg.bitDepth)
    requires AllAnswered(a.probe) && a.probe == a.apply.supports && SameLayout(a.current.value, a.apply.current.value)
    ensures var v := VisitEndpoint(kind, cfg, hasAdmin, ep, s, a);
            VerifiedDisable(v, ep, a) ==>
              && v.slice.record.Some?
              && (v.slice.record.value.compatibility == Compatible <==>
                  s.caps.Some? && JudgeCompatibility(s.caps.value, cfg.sampleRate, cfg.bitDepth) == Compatible)
              && v.slice.record.value.compatibility != UnknownCompatibility
  {
    hide VisitEndpoint, VerifiedDisable, JudgeAndApply, Probe, JudgeCompatibility, AllAnswered, SameLayout;
    hide IsSupportedSampleRate, IsSupportedBitDepth;
    DisableJudged(kind, cfg, hasAdmin, ep, s, a);
    if VerifiedDisable(VisitEndpoint(kind, cfg, hasAdmin, ep, s, a), ep, a) {
      FreshNotCompatible(ep.id, cfg, a);
    }
  }

  // A fresh probe of a device found unsupported does not hold the target.
  lemma FreshNotCompatible(id: string, cfg: Configuration, a: Answers)
    requires IsSupportedSampleRate(cfg.sampleRate) && IsSupportedBitDepth(cfg.bitDepth)
    requires AllAnswered(a.probe) && a.probe == a.apply.supports && SameLayout(a.current.value, a.apply.current.value)
    requires exists enforce :: JudgeAndApply(id, cfg.sampleRate, cfg.bitDepth, enforce, a.apply).0.result == Unsupported
    ensures JudgeCompatibility(Probe(a.current.value, a.probe), cfg.sampleRate, cfg.bitDepth) != Compatible
  {
    var enforce :| JudgeAndApply(id, cfg.sampleRate, cfg.bitDepth, enforce, a.apply).0.result == Unsupported;
    assert Succeeded(a.apply.current.code);
    hide Probe, JudgeAndApply, JudgeCompatibility, IsSupportedSampleRate, IsSupportedBitDepth, AllAnswered;
    UnsupportedIsNotCompatible(id, cfg.sampleRate, cfg.bitDepth, enforce, a.apply);
    ProbeLayout(a.current.value, a.apply.current.value, a.probe);
  }

  // A step that asks the driver of the device both ways.
  ghost predicate AsksSteadily(layout: AudioFormat, f: FormatAnswers, op: Op) {
    op.StepOp? && AnswersAs(layout, f, op.answers.current, op.answers.probe)
    && AnswersAs(layout, f, op.answers.apply.current, op.answers.apply.supports)
  }

  // Since the last invalidation of a device, while its driver answers every
  // question and keeps its answers and its channel layout, the device is not
  // disabled on the verdict "compatible", nor on "unknown".
  lemma NoCompatibleDeviceDisabled(st: EngineState, ops: seq<Op>, hasAdmin: bool, op: Op, layout: AudioFormat,
                                   f: FormatAnswers, from: nat)
    requires WellKeyed(st.records) && ValidOps(ops) && AllAnswered(f) && AsksSteadily(layout, f, op)
    requires CleanFrom(st, ops, op.ep.id, from)
    requires forall i :: from <= i < |ops| ==> SteadyFor(op.ep.id, layout, f, ops[i])
    requires IsSupportedSampleRate(op.cfg.sampleRate) && IsSupportedBitDepth(op.cfg.bitDepth)
    ensures var v := VisitAt(RunOps(st, ops, hasAdmin).state, op.kind, op.cfg, hasAdmin, op.ep, op.answers);
            VerifiedDisable(v, op.ep, op.answers) ==>
              v.slice.record.Some? && v.slice.record.value.compatibility in {RateUnsupported, DepthUnsupported}
  {
    hide RunOps, VisitEndpoint, VerifiedDisable, JudgeCompatibility, SteadyFor, WellKeyed, AllAnswered;
    hide IsSupportedSampleRate;
    hide IsSupportedBitDepth, CleanFrom;
    var st1 := RunOps(st, ops, hasAdmin).state;
    CacheStaysFresh(st, ops, hasAdmin, op.ep.id, layout, f, from);
    KeyedRun(st, ops, hasAdmin);
    FreshDisable(st1, op, hasAdmin, layout, f);
  }

  lemma FreshDisable(st: EngineState, op: Op, hasAdmin: bool, layout: AudioFormat, f: FormatAnswers)
    requires WellKeyed(st.records) && AllAnswered(f) && AsksSteadily(layout, f, op) && FreshFor(op.ep.id, layout, f, st)
    requires IsSupportedSampleRate(op.cfg.sampleRate) && IsSupportedBitDepth(op.cfg.bitDepth)
    ensures var v := VisitAt(st, op.kind, op.cfg, hasAdmin, op.ep, op.answers);
            VerifiedDisable(v, op.ep, op.answers) ==>
              v.slice.record.Some? && v.slice.record.value.compatibility in {RateUnsupported, DepthUnsupported}
  {
    var s, a := SliceOf(st, op.ep.id), op.answers;
    assert GoodRecord(s);
    assert SameLayout(a.current.value, a.apply.current.value) && SameLayout(a.current.value, layout);
    assert s.caps.Some? ==> s.caps.value == Probe(layout, f);
    hide Lower, VisitEndpoint, WellKeyed, VerifiedDisable, SliceOf, JudgeAndApply, AllAnswered, Probe, SameLayout;
    hide JudgeCompatibility;
    hide IsSupportedSampleRate, IsSupportedBitDepth;
    CompatibleDisableIff(op.kind, op.cfg, hasAdmin, op.ep, s, a);
    DisableJudged(op.kind, op.cfg, hasAdmin, op.ep, s, a);
    if VerifiedDisable(VisitAt(st, op.kind, op.cfg, hasAdmin, op.ep, a), op.ep, a) {
      FreshNotCompatible(op.ep.id, op.cfg, a);
      ProbeLayout(a.current.value, layout, f);
    }
  }

  lemma {:induction false} KeyedRun(st: EngineState, ops: seq<Op>, hasAdmin: bool)
    requires WellKeyed(st.records) && ValidOps(ops)
    ensures WellKeyed(RunOps(st, ops, hasAdmin).state.records)
  {
    hide Apply, Deeds, WellKeyed;
    if ops == [] {
    } else {
      var n := |ops| - 1;
      KeyedRun(st, ops[..n], hasAdmin);
      assert ValidOp(ops[n]);
      OpMoves(RunOps(st, ops[..n], hasAdmin).state, ops[n], hasAdmin, "");
    }
  }
}
