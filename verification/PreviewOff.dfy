// The preview of settings that switch format standardization off: its plan is
// what the next full scan does (src/core/WatchdogEngine.cpp: analyze, scanOnce).

module PreviewsOff {
  import opened AudioModel
  import opened Capabilities
  import opened Configurations
  import opened Policies
  import opened EndpointPolicy
  import opened EngineModel
  import opened EndpointFacts
  import opened Worlds
  import opened Convergence
  import opened ConvergenceRuns
  import opened Previews
  import opened StepMeaning

  // Scans act, but not on formats.
  predicate OnlyOthers(cfg: Configuration) { Enforcing(cfg) && !cfg.formatStandardization }

  // The devices of which the preview announces something.
  function Planned(reports: seq<DeviceReport>): seq<DeviceReport> {
    if reports == [] then []
    else
      var n := |reports| - 1;
      Planned(reports[..n]) + if reports[n].action == NoAction then [] else [reports[n]]
  }

  lemma {:induction false} PlannedJoins(a: seq<DeviceReport>, b: seq<DeviceReport>)
    ensures Planned(a + b) == Planned(a) + Planned(b)
  {
    if b == [] {
      assert a + b == a;
    } else {
      var n := |b| - 1;
      assert (a + b)[..|a| + n] == a + b[..n];
      PlannedJoins(a, b[..n]);
    }
  }

  // ----- One device -----

  // The preview plans to enable the devices that Audioslave disabled, and
  // nothing else.
  lemma OffPreview(ep: AudioEndpoint, cfg: Configuration, s: Slice, pa: PreviewAnswers)
    requires !cfg.formatStandardization
    ensures var plan := Planned(PreviewReports(cfg, ep, s, pa));
            if FlowOn(cfg, ep.flow) && ep.state == Disabled && DisabledByUs(s) then
              && |plan| == 1 && plan[0].id == ep.id && plan[0].action == ActionReenable
              && plan[0].compatibility
                 == JudgeCompatibility(s.record.value.capabilities, cfg.sampleRate, cfg.bitDepth)
            else plan == []
  {
    hide Probe, JudgeCompatibility, VerdictReason;
    var reports := PreviewReports(cfg, ep, s, pa);
    assert |reports| <= 1 && reports[..0] == [];
    if |reports| == 1 {
      assert Planned(reports) == if reports[0].action == NoAction then [] else [reports[0]];
    }
  }

  // What the scan does.
  lemma OffScan(ep: AudioEndpoint, d: Device, cfg: Configuration, s: Slice, a: Answers)
    requires Shows(ep, d) && SoundDevice(d) && Honest(d, cfg, a) && GoodRecord(s) && OnlyOthers(cfg)
    ensures var reports := ReportsOf(FullVisit(cfg, ep, s, a));
            if FlowOn(cfg, ep.flow) && ep.state == Disabled && DisabledByUs(s) then
              && |reports| == 1 && reports[0].id == ep.id && reports[0].action == ActionReenabled
              && reports[0].compatibility
                 == JudgeCompatibility(s.record.value.capabilities, cfg.sampleRate, cfg.bitDepth)
            else reports == []
  {
    assert a.canModify && Succeeded(a.enable) && Answered(a.stateAfterEnable, d.whenEnabled);
    assert StateNow(ep, s, true, a) == ep.state;
    hide Honest, VisitEndpoint, StateNow, Keeps, IsEvent, ReportsFormat, Tells, Lists, JudgeCompatibility;
    VisitedIff(FullScan, cfg, true, ep, s, a);
    StepMeans(FullScan, cfg, true, ep, s, a);
    if FlowOn(cfg, ep.flow) && ep.state == Disabled && DisabledByUs(s) {
      var d0 := BlankReport(ep, Disabled);
      var judged := WithVerdict(d0, s.record.value.capabilities, cfg);
      VerdictIs(d0, s.record.value.capabilities, cfg);
      assert judged.compatibility == JudgeCompatibility(s.record.value.capabilities, cfg.sampleRate, cfg.bitDepth);
      hide WithVerdict;
      assert MayWrite(FullScan, cfg, s, a) && AskedToEnable(cfg, true, true, s) && SaysEnabled(a);
    }
  }

  lemma OffFulfils(ep: AudioEndpoint, d: Device, cfg: Configuration, s: Slice, pa: PreviewAnswers, s': Slice,
                   a: Answers)
    requires Shows(ep, d) && SoundDevice(d) && Honest(d, cfg, a) && GoodRecord(s') && OnlyOthers(cfg) && Carried(s, s')
    ensures AllFulfil(Planned(PreviewReports(cfg, ep, s, pa)), ReportsOf(FullVisit(cfg, ep, s', a)))
  {
    hide PreviewReports, FullVisit, Honest, JudgeCompatibility, FlowOn, ReportsOf;
    OffPreview(ep, cfg, s, pa);
    OffScan(ep, d, cfg, s', a);
    assert DisabledByUs(s') <==> DisabledByUs(s);
    assert DisabledByUs(s) ==> s'.record.value.capabilities == s.record.value.capabilities;
  }

  // A full scan with such settings writes no format and disables nothing, and
  // it enables exactly what the preview plans to.
  lemma OffWrites(ep: AudioEndpoint, d: Device, cfg: Configuration, s: Slice, pa: PreviewAnswers, s': Slice,
                  a: Answers, w: DeviceWrite)
    requires Shows(ep, d) && Honest(d, cfg, a) && GoodRecord(s') && OnlyOthers(cfg) && Carried(s, s')
    ensures w in WritesOf(FullVisit(cfg, ep, s', a)) ==> !w.WriteFormat? && (w.WriteEnabled? ==> w.enabled)
    ensures WriteEnabled(ep.id, true) in WritesOf(FullVisit(cfg, ep, s', a))
            <==> Planned(PreviewReports(cfg, ep, s, pa)) != []
  {
    assert a.canModify && StateNow(ep, s', true, a) == ep.state;
    hide Honest, VisitEndpoint, StateNow, Fitting, AskedToDisable, CustomDeviceName, PreviewReports, Planned;
    OffPreview(ep, cfg, s, pa);
    VisitedIff(FullScan, cfg, true, ep, s', a);
    WritesMean(FullScan, cfg, true, ep, s', a);
    assert DisabledByUs(s') <==> DisabledByUs(s);
    assert Wanted(WriteEnabled(ep.id, true), ep, ep.state, cfg, true, MayWrite(FullScan, cfg, s', a), s', a)
           <==> ep.state == Disabled && AskedToEnable(cfg, true, MayWrite(FullScan, cfg, s', a), s');
    hide FlowOn;
  }

  // ----- A whole enumeration -----

  ghost predicate AllReady(st: EngineState, w: World, cfg: Configuration, eps: seq<AudioEndpoint>,
                           asked: seq<PreviewAnswers>, answers: seq<Answers>)
    requires |asked| == |eps| && |answers| == |eps|
  {
    forall i :: 0 <= i < |eps| ==>
      eps[i].id in w && Ready(st, cfg, eps[i], w[eps[i].id], asked[i], answers[i])
  }

  // The preview of such settings, the settings, and the next full scan: of all
  // devices listed, the scan reports exactly those of which the preview
  // announced something, in order, and with that done. No word can fail here.
  lemma PreviewWhenOff(st: EngineState, w: World, cfg: Configuration, interactive: bool, eps: seq<AudioEndpoint>,
                       asked: seq<PreviewAnswers>, answers: seq<Answers>)
    requires |asked| == |eps| && |answers| == |eps| && DistinctEndpoints(eps) && OnlyOthers(cfg)
    requires AllReady(st, w, cfg, eps, asked, answers)
    ensures var p := FullPreview(st, cfg, eps, asked);
            var q := FullPass(SetConfigState(p.state, cfg), cfg, interactive, eps, answers);
            AllFulfil(Planned(p.devices), q.devices)
  {
    var p := FullPreview(st, cfg, eps, asked);
    var st' := SetConfigState(p.state, cfg);
    forall i | 0 <= i < |eps|
      ensures answers[i].canModify
      ensures AllFulfil(Planned(Shown(st, cfg, eps[i], asked[i])), Told(st', cfg, eps[i], answers[i]))
    {
      assert Ready(st, cfg, eps[i], w[eps[i].id], asked[i], answers[i]);
      PreviewPointwise(st, cfg, eps, asked, i);
      OffWord(st, p.state, cfg, eps[i], w[eps[i].id], asked[i], answers[i]);
    }
    hide Shown, Told, FullPreview, SetConfigState, AllFulfil, FullPass, SliceOf, Ready, Planned;
    assert NoPause(answers);
    PlansAgree(st, st', cfg, interactive, eps, asked, answers);
  }

  lemma OffWord(st: EngineState, previewed: EngineState, cfg: Configuration, ep: AudioEndpoint, d: Device,
                pa: PreviewAnswers, a: Answers)
    requires OnlyOthers(cfg) && Ready(st, cfg, ep, d, pa, a)
    requires SliceOf(previewed, ep.id) == PreviewSlice(cfg, ep, SliceOf(st, ep.id), pa)
    ensures a.canModify
    ensures AllFulfil(Planned(Shown(st, cfg, ep, pa)), Told(SetConfigState(previewed, cfg), cfg, ep, a))
  {
    assert a.canModify;
    var s, s' := SliceOf(st, ep.id), SliceOf(SetConfigState(previewed, cfg), ep.id);
    hide SliceOf, SetConfigState, PreviewSlice, PolicyChanged, Honest, AllFulfil, PreviewReports, FullVisit, Planned;
    hide Enforcing;
    CarriedOver(ep, d, cfg, st, previewed, pa, a.wallClock);
    OffFulfils(ep, d, cfg, s, pa, s', a);
    hide Unblocked, UpToDate;
  }

  lemma {:induction false} PlansAgree(st: EngineState, st': EngineState, cfg: Configuration, interactive: bool,
                                      eps: seq<AudioEndpoint>, asked: seq<PreviewAnswers>, answers: seq<Answers>)
    requires |asked| == |eps| && |answers| == |eps| && DistinctEndpoints(eps) && NoPause(answers)
    requires forall i :: 0 <= i < |eps| ==>
               AllFulfil(Planned(Shown(st, cfg, eps[i], asked[i])), Told(st', cfg, eps[i], answers[i]))
    ensures AllFulfil(Planned(FullPreview(st, cfg, eps, asked).devices),
                      FullPass(st', cfg, interactive, eps, answers).devices)
  {
    if eps == [] {
      NothingListed(st, st', cfg, interactive, asked, answers);
    } else {
      hide Shown, Told, FullPreview, FullPass, DistinctEndpoints, Fulfils, Planned;
      var n := |eps| - 1;
      FrontDistinct(eps);
      assert forall i :: 0 <= i < n ==>
               eps[..n][i] == eps[i] && asked[..n][i] == asked[i] && answers[..n][i] == answers[i];
      PlansAgree(st, st', cfg, interactive, eps[..n], asked[..n], answers[..n]);
      ListsGrow(st, st', cfg, interactive, eps, asked, answers);
      PlannedJoins(FullPreview(st, cfg, eps[..n], asked[..n]).devices, Shown(st, cfg, eps[n], asked[n]));
      FulfilJoins(Planned(FullPreview(st, cfg, eps[..n], asked[..n]).devices),
                  Planned(Shown(st, cfg, eps[n], asked[n])),
                  FullPass(st', cfg, interactive, eps[..n], answers[..n]).devices, Told(st', cfg, eps[n], answers[n]));
    }
  }
}
