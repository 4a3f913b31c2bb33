// What a stale cache of formats does, how it comes about and what ends it
// (src/core/WatchdogEngine.cpp: handleIncompatible, onDeviceChange).

module StaleCache {
  import opened Text
  import opened AudioModel
  import opened Capabilities
  import opened Configurations
  import opened EndpointMemories
  import opened Policies
  import opened EndpointPolicy
  import opened EngineModel
  import opened EndpointFacts
  import opened EngineRuns
  import opened Worlds
  import opened Convergence
  import opened ConvergenceRuns

  // ----- A stale cache -----

  // Nothing remembered but cached formats that hold the target.
  predicate OnlyStale(s: Slice, cfg: Configuration) {
    && s.record == None && s.failure == None && s.loopNotice == None
    && s.caps.Some? && JudgeCompatibility(s.caps.value, cfg.sampleRate, cfg.bitDepth) == Compatible
  }

  // The device's driver no longer supports the target.
  predicate NoLonger(id: string, d: Device, cfg: Configuration) {
    && Monitored(cfg, d.flow) && d.state == Active && d.whenEnabled == Active
    && NameSettled(d, cfg, id) && ExclusiveSettled(d, cfg)
    && !d.format.Matches(cfg.sampleRate, cfg.bitDepth) && Verdict(d, cfg) != Compatible
  }

  // When a driver stops supporting the target and nothing invalidates its
  // cached formats, one full scan disables the device (the direct question
  // says no) and the next enables it again (the recorded formats say yes).
  // Device and memory are then exactly what they were, and no trace is left
  // for the loop guard to count.
  lemma StaleCacheOscillates(ep: AudioEndpoint, d: Device, s: Slice, cfg: Configuration, a: Answers, ep': AudioEndpoint,
                             a': Answers)
    requires Enforcing(cfg) && DisablePolicyConfirmed(cfg) && OnlyStale(s, cfg) && NoLonger(ep.id, d, cfg)
    requires Shows(ep, d) && Honest(d, cfg, a)
    requires ep'.id == ep.id && Shows(ep', d.(state := Disabled)) && Honest(d.(state := Disabled), cfg, a')
    ensures var v := FullVisit(cfg, ep, s, a);
            var v' := FullVisit(cfg, ep', SliceAfter(s, v), a');
            && WritesOf(v) == [WriteEnabled(ep.id, false)] && DeviceAfter(d, v) == d.(state := Disabled)
            && WritesOf(v') == [WriteEnabled(ep.id, true)] && DeviceAfter(d.(state := Disabled), v') == d
            && SliceAfter(SliceAfter(s, v), v') == s
  {
    hide VisitEndpoint, FullVisit, Honest, DisablePolicyConfirmed, JudgeCompatibility, Verdict, CustomDeviceName;
    hide ExclusiveSettled;
    hide Monitored, Enforcing, WrittenAll;
    StaleDisable(ep, d, s, cfg, a);
    var v := FullVisit(cfg, ep, s, a);
    StaleEnable(ep', d.(state := Disabled), SliceAfter(s, v), cfg, a');
    OneWrite(d, WriteEnabled(ep.id, false));
    OneWrite(d.(state := Disabled), WriteEnabled(ep.id, true));
    assert d.(state := Disabled).(state := Active) == d;
  }

  lemma OneWrite(d: Device, w: DeviceWrite)
    ensures WrittenAll(d, [w]) == Written(d, w)
  {
    assert [w][..0] == [] && WrittenAll(d, []) == d;
  }

  lemma StaleDisable(ep: AudioEndpoint, d: Device, s: Slice, cfg: Configuration, a: Answers)
    requires Enforcing(cfg) && DisablePolicyConfirmed(cfg) && OnlyStale(s, cfg) && NoLonger(ep.id, d, cfg)
    requires Shows(ep, d) && Honest(d, cfg, a)
    ensures var v := FullVisit(cfg, ep, s, a);
            && v.Visited? && v.writes == [WriteEnabled(ep.id, false)]
            && DisabledByUs(v.slice) && v.slice.record.value.capabilities == s.caps.value
            && v.slice == s.(record := v.slice.record)
  {
    SeenAsIs(ep, d, s, cfg, a);
    assert a.canModify && Considered(ep, s) && cfg.formatStandardization;
    NameEffect(ep, d, cfg, s, a);
    assert ExclusivePhase(ep, cfg, true, s, a) == (s, []) by {
      ExclusiveEffect(ep, d, cfg, s, a);
      assert Answered(a.exclusive.before, d.exclusiveAllowed);
    }
    ModifyParts(ep, s, cfg, a);
    StaleFormat(ep, d, s, cfg, a);
    hide Seen, Monitored, NamePhase, ExclusivePhase, FormatPhase, DisabledPhase, Modify, Honest, Verdict;
    hide DisablePolicyConfirmed, NameSettled;
  }

  lemma StaleFormat(ep: AudioEndpoint, d: Device, s: Slice, cfg: Configuration, a: Answers)
    requires Enforcing(cfg) && DisablePolicyConfirmed(cfg) && OnlyStale(s, cfg) && NoLonger(ep.id, d, cfg)
    requires Honest(d, cfg, a)
    ensures var e := FormatPhase(ep, cfg, true, false, true, s, NewReport(ep), a);
            && e.writes == [WriteEnabled(ep.id, false)]
            && DisabledByUs(e.slice) && e.slice.record.value.capabilities == s.caps.value
            && e.slice == s.(record := e.slice.record)
  {
    hide JudgeAndApply, IncompatiblePhase, FreshCapabilities, JudgeCompatibility, DisablePolicyConfirmed, Honest;
    hide Monitored, NameSettled;
    hide IsSupportedSampleRate, IsSupportedBitDepth;
    HonestFormat(ep.id, d, cfg, a);
    var (out, _) := JudgeAndApply(ep.id, cfg.sampleRate, cfg.bitDepth, true, a.apply);
    assert out.result == Unsupported;
    StaleIncompatible(ep, d, s, cfg, FormatReport(NewReport(ep), out, false), a);
  }

  lemma StaleIncompatible(ep: AudioEndpoint, d: Device, s: Slice, cfg: Configuration, r: DeviceReport, a: Answers)
    requires DisablePolicyConfirmed(cfg) && OnlyStale(s, cfg) && d.state == Active && Honest(d, cfg, a)
    ensures var e := IncompatiblePhase(ep, cfg, true, true, s, r, a);
            && e.writes == [WriteEnabled(ep.id, false)]
            && DisabledByUs(e.slice) && e.slice.record.value.capabilities == s.caps.value
            && e.slice == s.(record := e.slice.record)
  {
    assert CapabilitiesFor(s, a.current.value, a.probe) == (s, s.caps.value);
    var judged := Judged(r, s.caps.value, cfg.sampleRate, cfg.bitDepth);
    assert judged.compatibility == Compatible && judged.capabilities == s.caps.value;
    assert cfg.disableIncompatibleDevices;
    assert GuardRecord(s, a.wallClock).history == [] && !GuardRecord(s, a.wallClock).leftEnabled;
    assert CountRecent([], a.wallClock) == 0;
    assert Answered(a.liveBeforeDisable, d.state) && Succeeded(a.disable) && Answered(a.stateAfterDisable, Disabled);
    hide Honest, CapabilitiesFor, Judged, GuardRecord, CountRecent, DisablePolicyConfirmed, JudgeCompatibility;
  }

  lemma StaleEnable(ep: AudioEndpoint, d: Device, s: Slice, cfg: Configuration, a: Answers)
    requires Enforcing(cfg) && Monitored(cfg, d.flow) && d.state == Disabled && d.whenEnabled == Active
    requires NameSettled(d, cfg, ep.id)
    requires DisabledByUs(s)
    requires JudgeCompatibility(s.record.value.capabilities, cfg.sampleRate, cfg.bitDepth) == Compatible
    requires Shows(ep, d) && Honest(d, cfg, a)
    ensures var v := FullVisit(cfg, ep, s, a);
            v.Visited? && v.writes == [WriteEnabled(ep.id, true)] && v.slice == s.(record := None)
  {
    SeenAsIs(ep, d, s, cfg, a);
    assert a.canModify && Considered(ep, s);
    NameEffect(ep, d, cfg, s, a);
    ModifyParts(ep, s, cfg, a);
    StaleReenabled(ep, d, s, cfg, a);
    hide Seen, Monitored, NamePhase, ExclusivePhase, FormatPhase, DisabledPhase, Modify, Honest, NameSettled;
  }

  lemma StaleReenabled(ep: AudioEndpoint, d: Device, s: Slice, cfg: Configuration, a: Answers)
    requires DisabledByUs(s)
    requires JudgeCompatibility(s.record.value.capabilities, cfg.sampleRate, cfg.bitDepth) == Compatible
    requires Honest(d, cfg, a) && d.whenEnabled == Active
    ensures var e := DisabledPhase(ep, s.record.value, cfg, true, true, s, NewReport(ep), a);
            e.writes == [WriteEnabled(ep.id, true)] && e.slice == s.(record := None)
  {
    assert Succeeded(a.enable) && Answered(a.stateAfterEnable, d.whenEnabled);
    hide Honest, FreshCapabilities, JudgeCompatibility, DisablePolicyConfirmed, VerdictReason, WhyEnable;
  }

  // ----- From the start of the engine -----

  // The driver of the device before it stopped supporting the target.
  ghost predicate Before(d0: Device, d: Device, cfg: Configuration) {
    d0 == d.(supports := d0.supports) && Verdict(d0, cfg) == Compatible
  }

  // What is remembered once the formats were asked of the old driver.
  function StaleSlice(d0: Device): Slice { Slice(None, None, None, Some(FreshCapabilities(d0))) }

  ghost predicate AskedOf(d0: Device, pa: PreviewAnswers) {
    Answered(pa.current, d0.format) && pa.probe == DriverAnswers(d0)
  }

  // One preview while the driver supports the target is enough.
  lemma PreviewFillsCache(ep: AudioEndpoint, d0: Device, cfg: Configuration, candidate: Configuration,
                          pa: PreviewAnswers)
    requires Shows(ep, d0) && d0.state == Active && AskedOf(d0, pa) && Monitored(candidate, ep.flow)
    requires Verdict(d0, cfg) == Compatible
    ensures var st := Apply(Started(cfg), PreviewOp(candidate, ep, pa), true);
            SliceOf(st, ep.id) == StaleSlice(d0) && OnlyStale(StaleSlice(d0), cfg)
  {
    assert FreshCapabilities(d0).known;
    var s := SliceOf(Started(cfg), ep.id);
    assert s == Slice(None, None, None, None);
    assert PreviewEndpoint(candidate, ep, s, pa.current, pa.probe).0.caps == Some(FreshCapabilities(d0)) by {
      hide Probe, Judged, PreviewAction;
    }
    hide PreviewEndpoint, FreshCapabilities, JudgeCompatibility, Lower, LoopKey;
  }

  // A scan that disables the device, and the next one, that enables it.
  datatype Round = Round(ep: AudioEndpoint, a: Answers, ep': AudioEndpoint, a': Answers)

  ghost predicate RoundOf(r: Round, d: Device, cfg: Configuration) {
    && Shows(r.ep, d) && Honest(d, cfg, r.a)
    && r.ep'.id == r.ep.id && Shows(r.ep', d.(state := Disabled)) && Honest(d.(state := Disabled), cfg, r.a')
  }

  function RoundOps(r: Round, cfg: Configuration): seq<Op> {
    [StepOp(FullScan, cfg, false, r.ep, r.a), StepOp(FullScan, cfg, false, r.ep', r.a')]
  }

  function Rounds(first: Op, r: Round, cfg: Configuration, n: nat): seq<Op> {
    if n == 0 then [first] else Rounds(first, r, cfg, n - 1) + RoundOps(r, cfg)
  }

  // A step, seen from its own endpoint.
  lemma StepSlice(st: EngineState, cfg: Configuration, ep: AudioEndpoint, a: Answers)
    ensures var v := FullVisit(cfg, ep, SliceOf(st, ep.id), a);
            && SliceOf(Apply(st, StepOp(FullScan, cfg, false, ep, a), true), ep.id) == SliceAfter(SliceOf(st, ep.id), v)
            && Deeds(st, StepOp(FullScan, cfg, false, ep, a), true) == StepDeeds(SliceOf(st, ep.id), v, cfg, ep, a)
  {
    hide VisitEndpoint, StepDeeds, Lift, Lower;
    var v := FullVisit(cfg, ep, SliceOf(st, ep.id), a);
    StepIs(st, StepOp(FullScan, cfg, false, ep, a), true);
    if v.Visited? {
      VisitedSlices(st, ep.id, v, false, ep.id);
      LiftTwice(st, ep.id, v.slice, v.slice);
    }
    hide SliceOf;
  }

  lemma RunTwo(st: EngineState, ops: seq<Op>, first: Op, second: Op)
    ensures var r := RunOps(st, ops, true);
            var st1 := Apply(r.state, first, true);
            RunOps(st, ops + [first, second], true)
            == Run(Apply(st1, second, true), r.deeds + Deeds(r.state, first, true) + Deeds(st1, second, true))
  {
    hide Apply, Deeds;
    var all := ops + [first, second];
    assert all[..|all| - 1] == ops + [first] && (ops + [first])[..|ops|] == ops;
  }

  // What each round does, and that it leaves the memory as it was.
  lemma OneRound(st: EngineState, d: Device, s: Slice, cfg: Configuration, r: Round)
    requires Enforcing(cfg) && DisablePolicyConfirmed(cfg) && OnlyStale(s, cfg) && NoLonger(r.ep.id, d, cfg)
    requires RoundOf(r, d, cfg) && SliceOf(st, r.ep.id) == s
    ensures var first, second := RoundOps(r, cfg)[0], RoundOps(r, cfg)[1];
            var st1 := Apply(st, first, true);
            && SliceOf(Apply(st1, second, true), r.ep.id) == s
            && Deeds(st, first, true) == [DidDisable(Lower(r.ep.id), r.a.wallClock, cfg.sampleRate, cfg.bitDepth)]
            && Deeds(st1, second, true) == [DidReenable(Lower(r.ep.id))]
  {
    StaleCacheOscillates(r.ep, d, s, cfg, r.a, r.ep', r.a');
    RoundAnswers(r, d, cfg);
    hide Apply, Deeds, VisitEndpoint, Honest, NoLonger, OnlyStale, SliceOf, Lower, Shows, DisablePolicyConfirmed;
    var v := FullVisit(cfg, r.ep, s, r.a);
    var v' := FullVisit(cfg, r.ep', SliceAfter(s, v), r.a');
    StepSlice(st, cfg, r.ep, r.a);
    StepSlice(Apply(st, RoundOps(r, cfg)[0], true), cfg, r.ep', r.a');
    StaleDeeds(v, v', s, cfg, r);
    hide FullVisit, StepDeeds, SliceAfter, WritesOf;
  }

  lemma RoundAnswers(r: Round, d: Device, cfg: Configuration)
    requires RoundOf(r, d, cfg) && d.whenEnabled == Active
    ensures SaysDisabled(r.a) && SaysEnabled(r.a')
  {
    assert Succeeded(r.a.disable) && Answered(r.a.stateAfterDisable, Disabled);
    assert Succeeded(r.a'.enable) && Answered(r.a'.stateAfterEnable, Active);
    hide Honest;
  }

  lemma StaleDeeds(v: Visit, v': Visit, s: Slice, cfg: Configuration, r: Round)
    requires SaysDisabled(r.a) && SaysEnabled(r.a') && r.ep'.id == r.ep.id
    requires WritesOf(v) == [WriteEnabled(r.ep.id, false)] && WritesOf(v') == [WriteEnabled(r.ep.id, true)]
    ensures StepDeeds(s, v, cfg, r.ep, r.a) == [DidDisable(Lower(r.ep.id), r.a.wallClock, cfg.sampleRate, cfg.bitDepth)]
    ensures StepDeeds(SliceAfter(s, v), v', cfg, r.ep', r.a') == [DidReenable(Lower(r.ep.id))]
  {
    hide Lower;
  }

  // The deeds of n rounds.
  function RoundDeeds(r: Round, cfg: Configuration, n: nat): seq<Deed> {
    if n == 0 then []
    else
      RoundDeeds(r, cfg, n - 1)
      + [DidDisable(Lower(r.ep.id), r.a.wallClock, cfg.sampleRate, cfg.bitDepth)] + [DidReenable(Lower(r.ep.id))]
  }

  // The run, from the start of the engine: a preview fills the cache, the
  // driver stops supporting the target, and from then on each two full scans
  // disable the device and enable it again, as often as one likes. All these
  // disables may lie in one window: the loop guard, which counts from one
  // reset of the record to the next, never sees more than one of them.
  lemma {:induction false} StaleRun(d0: Device, d: Device, cfg: Configuration, candidate: Configuration,
                                    pa: PreviewAnswers, r: Round, n: nat)
    requires Before(d0, d, cfg) && NoLonger(r.ep.id, d, cfg) && RoundOf(r, d, cfg)
    requires Enforcing(cfg) && DisablePolicyConfirmed(cfg) && AskedOf(d0, pa) && Monitored(candidate, r.ep.flow)
    ensures var run := RunOps(Started(cfg), Rounds(PreviewOp(candidate, r.ep, pa), r, cfg, n), true);
            && SliceOf(run.state, r.ep.id) == StaleSlice(d0) && OnlyStale(StaleSlice(d0), cfg)
            && run.deeds == RoundDeeds(r, cfg, n)
  {
    var first := PreviewOp(candidate, r.ep, pa);
    hide SliceOf, OnlyStale, DisablePolicyConfirmed, Honest, FreshCapabilities, JudgeCompatibility, Lower;
    hide VisitEndpoint, Monitored;
    PreviewFillsCache(r.ep, d0, cfg, candidate, pa);
    if n == 0 {
      assert [first][..0] == [];
      assert RunOps(Started(cfg), [], true) == Run(Started(cfg), []);
      assert RunOps(Started(cfg), [first], true) == Run(Apply(Started(cfg), first, true), []);
    } else {
      StaleRun(d0, d, cfg, candidate, pa, r, n - 1);
      hide Apply, Deeds, RunOps, NoLonger, RoundOf;
      var ops := Rounds(first, r, cfg, n - 1);
      RunTwo(Started(cfg), ops, RoundOps(r, cfg)[0], RoundOps(r, cfg)[1]);
      OneRound(RunOps(Started(cfg), ops, true).state, d, StaleSlice(d0), cfg, r);
    }
  }

  // So no number bounds the disables of one window in a run.
  lemma {:induction false} RoundsDisable(r: Round, cfg: Configuration, n: nat)
    ensures |RoundDeeds(r, cfg, n)| == 2 * n
    ensures forall i :: 0 <= i < n ==>
              RoundDeeds(r, cfg, n)[2 * i] == DidDisable(Lower(r.ep.id), r.a.wallClock, cfg.sampleRate, cfg.bitDepth)
  {
    hide Lower;
    if n != 0 {
      RoundsDisable(r, cfg, n - 1);
    }
  }

  // ----- What ends it -----

  // A change of the device, as Windows reports it, drops what is cached of it.
  lemma ChangeForgets(st: EngineState, id: string)
    ensures SliceOf(Apply(st, DeviceChangeOp(id), true), id)
            == SliceOf(st, id).(failure := None, loopNotice := None, caps := None)
  {
    ContainsSuffix("loop|", id);
    hide Lower, Contains;
  }

  // Once a device-change notification comes, the next full scan still enables
  // the device again, and the one after settles it: it is judged afresh, and no
  // later scan writes it.
  lemma NotificationEndsIt(st: EngineState, d: Device, cfg: Configuration, r: Round, ep'': AudioEndpoint, a'': Answers)
    requires Enforcing(cfg) && DisablePolicyConfirmed(cfg) && NoLonger(r.ep.id, d, cfg) && RoundOf(r, d, cfg)
    requires OnlyStale(SliceOf(st, r.ep.id), cfg)
    requires ep''.id == r.ep.id && Shows(ep'', d) && Honest(d, cfg, a'')
    ensures var st1 := Apply(Apply(st, RoundOps(r, cfg)[0], true), DeviceChangeOp(r.ep.id), true);
            var v' := FullVisit(cfg, r.ep', SliceOf(st1, r.ep.id), r.a');
            var s2 := SliceAfter(SliceOf(st1, r.ep.id), v');
            var v'' := FullVisit(cfg, ep'', s2, a'');
            && WritesOf(v') == [WriteEnabled(r.ep.id, true)] && DeviceAfter(d.(state := Disabled), v') == d
            && Settled(r.ep.id, DeviceAfter(d, v''), SliceAfter(s2, v''), cfg)
            && Known(SliceAfter(s2, v''), DeviceAfter(d, v''))
  {
    hide Apply, SliceOf, VisitEndpoint, FullVisit, Honest, DisablePolicyConfirmed, Settled, FreshCapabilities;
    hide NoLonger, Known;
    var st1 := Apply(Apply(st, RoundOps(r, cfg)[0], true), DeviceChangeOp(r.ep.id), true);
    NotifiedSlice(st, d, cfg, r);
    JudgedAfresh(SliceOf(st1, r.ep.id), d, cfg, r, ep'', a'');
  }

  // Disabled by a stale verdict, and then notified.
  predicate Notified(s: Slice, cfg: Configuration) {
    && s == Slice(s.record, None, None, None) && DisabledByUs(s)
    && JudgeCompatibility(s.record.value.capabilities, cfg.sampleRate, cfg.bitDepth) == Compatible
  }

  lemma NotifiedSlice(st: EngineState, d: Device, cfg: Configuration, r: Round)
    requires Enforcing(cfg) && DisablePolicyConfirmed(cfg) && NoLonger(r.ep.id, d, cfg) && RoundOf(r, d, cfg)
    requires OnlyStale(SliceOf(st, r.ep.id), cfg)
    ensures Notified(SliceOf(Apply(Apply(st, RoundOps(r, cfg)[0], true), DeviceChangeOp(r.ep.id), true), r.ep.id), cfg)
  {
    hide Apply, SliceOf, VisitEndpoint, FullVisit, Honest, DisablePolicyConfirmed, NoLonger, JudgeCompatibility;
    StaleDisable(r.ep, d, SliceOf(st, r.ep.id), cfg, r.a);
    StepSlice(st, cfg, r.ep, r.a);
    ChangeForgets(Apply(st, RoundOps(r, cfg)[0], true), r.ep.id);
  }

  lemma JudgedAfresh(s: Slice, d: Device, cfg: Configuration, r: Round, ep'': AudioEndpoint, a'': Answers)
    requires Enforcing(cfg) && NoLonger(r.ep.id, d, cfg) && RoundOf(r, d, cfg) && Notified(s, cfg)
    requires ep''.id == r.ep.id && Shows(ep'', d) && Honest(d, cfg, a'')
    ensures var v' := FullVisit(cfg, r.ep', s, r.a');
            var s2 := SliceAfter(s, v');
            var v'' := FullVisit(cfg, ep'', s2, a'');
            && WritesOf(v') == [WriteEnabled(r.ep.id, true)] && DeviceAfter(d.(state := Disabled), v') == d
            && Settled(r.ep.id, DeviceAfter(d, v''), SliceAfter(s2, v''), cfg)
            && Known(SliceAfter(s2, v''), DeviceAfter(d, v''))
  {
    hide VisitEndpoint, FullVisit, Honest, Settled, FreshCapabilities, JudgeCompatibility, CustomDeviceName;
    hide ExclusiveSettled;
    StaleEnable(r.ep', d.(state := Disabled), s, cfg, r.a');
    OneWrite(d.(state := Disabled), WriteEnabled(r.ep.id, true));
    assert d.(state := Disabled).(state := Active) == d;
    var s2 := SliceAfter(s, FullVisit(cfg, r.ep', s, r.a'));
    assert s2 == Slice(None, None, None, None);
    JustEnabledNotWaiting(s2, a''.wallClock);
    assert Known(s2, d);
    EnabledSettles(ep'', d, s2, cfg, a'');
    hide Known, NoLonger, NotWaiting, Enforcing, WrittenAll;
  }

  // ----- It can happen -----

  // A playback device at some rate whose driver admits only one rate.
  function Speakers(ep: AudioEndpoint, rate: nat, admitted: nat): Device {
    Device(Render, Active, ep.description, false, AudioFormat(rate, 16, 16, false, 2, 3), OneRate(admitted), Active)
  }

  // Two scans whose every call works.
  function WorkingRound(ep: AudioEndpoint, d: Device, cfg: Configuration, clock: int, wallClock: int): Round {
    Round(ep, HonestAnswers(d, cfg, clock, wallClock),
          ep.(state := Disabled), HonestAnswers(d.(state := Disabled), cfg, clock, wallClock))
  }

  lemma WorkingRoundOf(ep: AudioEndpoint, d: Device, cfg: Configuration, clock: int, wallClock: int)
    requires Shows(ep, d)
    ensures RoundOf(WorkingRound(ep, d, cfg, clock, wallClock), d, cfg)
  {
    hide Honest, HonestAnswers;
    HonestyIsPossible(d, cfg, clock, wallClock);
    HonestyIsPossible(d.(state := Disabled), cfg, clock, wallClock);
  }

  lemma SpeakersVerdict(ep: AudioEndpoint, cfg: Configuration, rate: nat, admitted: nat)
    requires Enforcing(cfg) && IsSupportedSampleRate(admitted)
    ensures var c := Verdict(Speakers(ep, rate, admitted), cfg);
            if cfg.sampleRate == admitted then c == Compatible else Incompatible(c)
  {
    assert AdmitsOnly(Speakers(ep, rate, admitted), admitted);
    hide Verdict, IsSupportedSampleRate, IsSupportedBitDepth;
    OneRateVerdict(Speakers(ep, rate, admitted), cfg, admitted);
  }

  // All that StaleRun asks for is there: a device at another rate whose driver
  // admitted the target when the preview asked it, and does not any more.
  lemma StaleRunIsPossible(ep: AudioEndpoint, cfg: Configuration, rate: nat, clock: int, wallClock: int)
    requires Enforcing(cfg) && DisablePolicyConfirmed(cfg) && Monitored(cfg, Render)
    requires cfg.deviceNames == [] && IsSupportedSampleRate(rate) && rate != cfg.sampleRate
    requires ep.id != "" && ep.flow == Render && ep.state == Active
    ensures var d, d0 := Speakers(ep, rate, rate), Speakers(ep, rate, cfg.sampleRate);
            && Before(d0, d, cfg) && NoLonger(ep.id, d, cfg)
            && RoundOf(WorkingRound(ep, d, cfg, clock, wallClock), d, cfg)
            && AskedOf(d0, PreviewAnswers(Reply(RESULT_OK, d0.format), DriverAnswers(d0)))
  {
    hide Verdict, IsSupportedSampleRate, IsSupportedBitDepth, RoundOf, WorkingRound, DisablePolicyConfirmed;
    hide DriverAnswers, OneRate;
    var d, d0 := Speakers(ep, rate, rate), Speakers(ep, rate, cfg.sampleRate);
    WorkingRoundOf(ep, d, cfg, clock, wallClock);
    SpeakersVerdict(ep, cfg, rate, rate);
    SpeakersVerdict(ep, cfg, rate, cfg.sampleRate);
    OtherRate(ep.id, d, cfg, rate);
    hide NoLonger, Incompatible, Monitored;
  }

  lemma OtherRate(id: string, d: Device, cfg: Configuration, rate: nat)
    requires d.format.sampleRate == rate && rate != cfg.sampleRate && Incompatible(Verdict(d, cfg))
    requires Monitored(cfg, d.flow) && d.state == d.whenEnabled == Active && !d.exclusiveAllowed
    requires cfg.deviceNames == []
    ensures NoLonger(id, d, cfg)
  {
    hide Verdict, Monitored;
  }
}
