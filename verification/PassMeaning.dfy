// What a whole pass does to each endpoint of its enumeration, with pauses at
// any point (src/core/WatchdogEngine.cpp: scanOnce), and which endpoints a
// pass and a preview leave out.

module PassMeaning {
  import opened Text
  import opened AudioModel
  import opened Capabilities
  import opened Configurations
  import opened Policies
  import opened EndpointPolicy
  import opened EngineModel
  import opened EndpointFacts
  import opened EngineRuns
  import opened ConvergenceRuns
  import opened EventMeaning
  import opened StepMeaning

  lemma GoodSlice(st: EngineState, id: string)
    requires WellKeyed(st.records)
    ensures GoodRecord(SliceOf(st, id))
  {
    hide Lower;
  }

  // One more endpoint keeps the records in order.
  lemma VisitKeepsKeys(st: EngineState, kind: ScanKind, cfg: Configuration, interactive: bool, hasAdmin: bool,
                       ep: AudioEndpoint, a: Answers)
    requires WellKeyed(st.records) && ep.id != ""
    ensures WellKeyed(VisitedState(st, ep.id, VisitAt(st, kind, cfg, hasAdmin, ep, a), interactive).records)
  {
    hide VisitEndpoint, VisitedState, Apply, Deeds, WellKeyed, RecordMove, Lower;
    var op := StepOp(kind, cfg, interactive, ep, a);
    StepMoves(st, op, hasAdmin, "");
    StepIs(st, op, hasAdmin);
  }

  predicate Named(eps: seq<AudioEndpoint>) { forall i :: 0 <= i < |eps| ==> eps[i].id != "" }

  lemma {:induction false} PassKeepsKeys(st: EngineState, kind: ScanKind, cfg: Configuration, interactive: bool,
                                         hasAdmin: bool, eps: seq<AudioEndpoint>, answers: seq<Answers>)
    requires |answers| == |eps| && Named(eps) && WellKeyed(st.records)
    ensures WellKeyed(PassOver(st, kind, cfg, interactive, hasAdmin, eps, answers).state.records)
  {
    hide VisitAt, VisitedState, WellKeyed;
    if eps == [] {
    } else {
      var n := |eps| - 1;
      PassKeepsKeys(st, kind, cfg, interactive, hasAdmin, eps[..n], answers[..n]);
      var p := PassOver(st, kind, cfg, interactive, hasAdmin, eps[..n], answers[..n]);
      VisitKeepsKeys(p.state, kind, cfg, interactive, hasAdmin, eps[n], answers[n]);
      VisitedIs(p.state, eps[n].id, VisitAt(p.state, kind, cfg, hasAdmin, eps[n], answers[n]), interactive);
    }
  }

  lemma VisitedIs(st: EngineState, id: string, v: Visit, interactive: bool)
    ensures !v.Visited? ==> VisitedState(st, id, v, interactive) == st
  {
  }

  // ----- Endpoints of a flow that is off -----

  // Every endpoint of this id is of a flow that the user switched off.
  predicate SwitchedOff(eps: seq<AudioEndpoint>, cfg: Configuration, id: string) {
    forall i :: 0 <= i < |eps| && Lower(eps[i].id) == Lower(id) ==> !FlowOn(cfg, eps[i].flow)
  }

  predicate Spares(p: Pass, st: EngineState, id: string) {
    && (forall w :: w in p.writes ==> w.id != id)
    && (forall d :: d in p.devices ==> d.id != id)
    && SliceOf(p.state, id) == SliceOf(st, id)
  }

  lemma VisitNames(st: EngineState, kind: ScanKind, cfg: Configuration, hasAdmin: bool, ep: AudioEndpoint, a: Answers)
    requires WellKeyed(st.records)
    ensures var v := VisitAt(st, kind, cfg, hasAdmin, ep, a);
            && (v.Visited? ==> forall w :: w in v.writes ==> w.id == ep.id)
            && (v.Visited? && v.report.Some? ==> v.report.value.id == ep.id)
            && (!FlowOn(cfg, ep.flow) ==> v.SkippedEndpoint?)
  {
    var s := SliceOf(st, ep.id);
    GoodSlice(st, ep.id);
    WritesMean(kind, cfg, hasAdmin, ep, s, a);
    VisitedIff(kind, cfg, hasAdmin, ep, s, a);
    ReportNames(kind, cfg, hasAdmin, ep, s, a);
    hide VisitEndpoint, SliceOf, AskedToDisable, AskedToEnable, Fitting, CustomDeviceName;
  }

  // No pass writes or reports an endpoint of a flow that is off, or changes
  // what is remembered of it, whatever else it does.
  lemma {:induction false} PassSparesFlow(st: EngineState, kind: ScanKind, cfg: Configuration, interactive: bool,
                                          hasAdmin: bool, eps: seq<AudioEndpoint>, answers: seq<Answers>, id: string)
    requires |answers| == |eps| && Named(eps) && WellKeyed(st.records) && SwitchedOff(eps, cfg, id)
    ensures Spares(PassOver(st, kind, cfg, interactive, hasAdmin, eps, answers), st, id)
  {
    hide VisitAt, VisitedState, WellKeyed, Lower, SliceOf;
    if eps == [] {
    } else {
      var n := |eps| - 1;
      PassSparesFlow(st, kind, cfg, interactive, hasAdmin, eps[..n], answers[..n], id);
      PassKeepsKeys(st, kind, cfg, interactive, hasAdmin, eps[..n], answers[..n]);
      var p := PassOver(st, kind, cfg, interactive, hasAdmin, eps[..n], answers[..n]);
      var v := VisitAt(p.state, kind, cfg, hasAdmin, eps[n], answers[n]);
      VisitNames(p.state, kind, cfg, hasAdmin, eps[n], answers[n]);
      if v.Visited? {
        assert Lower(eps[n].id) != Lower(id);
        assert eps[n].id != id;
        VisitElsewhere(p.state, eps[n].id, v, interactive, id);
      }
    }
  }

  lemma VisitElsewhere(st: EngineState, id: string, v: Visit, interactive: bool, other: string)
    requires v.Visited? && Lower(other) != Lower(id)
    ensures SliceOf(VisitedState(st, id, v, interactive), other) == SliceOf(st, other)
  {
    LiftElsewhere(st, id, v.slice, other);
    VisitedSlices(st, id, v, interactive, other);
    hide VisitedState, SliceOf, Lower;
  }

  // With enforcement off a pass writes nothing at all.
  lemma {:induction false} ReportOnly(st: EngineState, kind: ScanKind, cfg: Configuration, interactive: bool,
                                      hasAdmin: bool, eps: seq<AudioEndpoint>, answers: seq<Answers>)
    requires |answers| == |eps| && Named(eps) && WellKeyed(st.records) && !cfg.enforce
    ensures PassOver(st, kind, cfg, interactive, hasAdmin, eps, answers).writes == []
  {
    hide VisitEndpoint, VisitedState, WellKeyed, SliceOf;
    if eps == [] {
    } else {
      var n := |eps| - 1;
      ReportOnly(st, kind, cfg, interactive, hasAdmin, eps[..n], answers[..n]);
      PassKeepsKeys(st, kind, cfg, interactive, hasAdmin, eps[..n], answers[..n]);
      var p := PassOver(st, kind, cfg, interactive, hasAdmin, eps[..n], answers[..n]);
      GoodSlice(p.state, eps[n].id);
      OnlyReported(kind, cfg, hasAdmin, eps[n], SliceOf(p.state, eps[n].id), answers[n]);
    }
  }

  lemma OnlyReported(kind: ScanKind, cfg: Configuration, hasAdmin: bool, ep: AudioEndpoint, s: Slice, a: Answers)
    requires !cfg.enforce && GoodRecord(s)
    ensures var v := VisitEndpoint(kind, cfg, hasAdmin, ep, s, a); v.Visited? ==> v.writes == []
  {
    hide VisitEndpoint, Fitting, Unfit, Confirmed, Tells, FormatsNow, CustomDeviceName, Held;
    var v := VisitEndpoint(kind, cfg, hasAdmin, ep, s, a);
    assert v.Visited? && v.writes != [] ==> v.writes[0] in v.writes;
    WritesMean(kind, cfg, hasAdmin, ep, s, a);
  }

  // Nor does a preview list it, or ask its driver for its formats.
  lemma {:induction false} PreviewSparesFlow(st: EngineState, candidate: Configuration, eps: seq<AudioEndpoint>,
                                             answers: seq<PreviewAnswers>, id: string)
    requires |answers| == |eps| && SwitchedOff(eps, candidate, id)
    ensures var p := PreviewOver(st, candidate, eps, answers);
            && (forall d :: d in p.devices ==> d.id != id)
            && SliceOf(p.state, id) == SliceOf(st, id)
  {
    hide PreviewEndpoint, Lower, SliceOf, Lift;
    if eps == [] {
    } else {
      var n := |eps| - 1;
      PreviewSparesFlow(st, candidate, eps[..n], answers[..n], id);
      var p := PreviewOver(st, candidate, eps[..n], answers[..n]);
      var s := SliceOf(p.state, eps[n].id);
      PreviewNames(candidate, eps[n], s, answers[n]);
      LiftSame(p.state, eps[n].id);
      if FlowOn(candidate, eps[n].flow) {
        assert Lower(eps[n].id) != Lower(id);
        assert eps[n].id != id;
        LiftElsewhere(p.state, eps[n].id,
                      PreviewEndpoint(candidate, eps[n], s, answers[n].current, answers[n].probe).0, id);
      }
    }
  }

  lemma PreviewNames(candidate: Configuration, ep: AudioEndpoint, s: Slice, a: PreviewAnswers)
    ensures var (s1, report) := PreviewEndpoint(candidate, ep, s, a.current, a.probe);
            && (report.Some? ==> report.value.id == ep.id)
            && (!FlowOn(candidate, ep.flow) ==> s1 == s && report == None)
  {
    hide Probe, PreviewAction, JudgeCompatibility, VerdictReason;
  }

  // ----- All endpoints of a pass -----

  // What the pass would do at this endpoint with what is remembered now.
  function VisitNth(st: EngineState, kind: ScanKind, cfg: Configuration, hasAdmin: bool, eps: seq<AudioEndpoint>,
                    answers: seq<Answers>, i: nat): Visit
    requires i < |eps| == |answers|
  {
    VisitAt(st, kind, cfg, hasAdmin, eps[i], answers[i])
  }

  // No endpoint before this one finds the engine paused.
  predicate Reached(st: EngineState, kind: ScanKind, cfg: Configuration, hasAdmin: bool, eps: seq<AudioEndpoint>,
                    answers: seq<Answers>, i: nat)
    requires i <= |eps| == |answers|
  {
    forall j :: 0 <= j < i ==> !VisitNth(st, kind, cfg, hasAdmin, eps, answers, j).PausedPass?
  }

  predicate WritesNth(st: EngineState, kind: ScanKind, cfg: Configuration, hasAdmin: bool, eps: seq<AudioEndpoint>,
                      answers: seq<Answers>, i: nat, w: DeviceWrite)
    requires i < |eps| == |answers|
  {
    var v := VisitNth(st, kind, cfg, hasAdmin, eps, answers, i);
    Reached(st, kind, cfg, hasAdmin, eps, answers, i) && v.Visited? && w in v.writes
  }

  lemma FrontVisits(st: EngineState, kind: ScanKind, cfg: Configuration, hasAdmin: bool, eps: seq<AudioEndpoint>,
                    answers: seq<Answers>)
    requires |answers| == |eps| && eps != []
    ensures var n := |eps| - 1;
            && (forall i :: 0 <= i < n ==> VisitNth(st, kind, cfg, hasAdmin, eps[..n], answers[..n], i)
                                           == VisitNth(st, kind, cfg, hasAdmin, eps, answers, i))
            && (forall i :: 0 <= i <= n ==> (Reached(st, kind, cfg, hasAdmin, eps[..n], answers[..n], i)
                                             <==> Reached(st, kind, cfg, hasAdmin, eps, answers, i)))
            && (forall i, w :: 0 <= i < n ==> (WritesNth(st, kind, cfg, hasAdmin, eps[..n], answers[..n], i, w)
                                               <==> WritesNth(st, kind, cfg, hasAdmin, eps, answers, i, w)))
  {
    hide VisitAt;
    var n := |eps| - 1;
    assert forall i :: 0 <= i < n ==> eps[..n][i] == eps[i] && answers[..n][i] == answers[i];
  }

  // Each device of a pass is judged by what was remembered of it when the pass
  // began: the pass is paused exactly when some endpoint finds the engine
  // paused, and writes exactly what the endpoints before that one ask for.
  lemma {:induction false} PassWrites(st: EngineState, kind: ScanKind, cfg: Configuration, interactive: bool,
                                      hasAdmin: bool, eps: seq<AudioEndpoint>, answers: seq<Answers>)
    requires |answers| == |eps| && Named(eps) && DistinctEndpoints(eps) && WellKeyed(st.records)
    ensures var p := PassOver(st, kind, cfg, interactive, hasAdmin, eps, answers);
            && (p.paused <==> !Reached(st, kind, cfg, hasAdmin, eps, answers, |eps|))
            && (forall w :: w in p.writes <==>
                  exists i :: 0 <= i < |eps| && WritesNth(st, kind, cfg, hasAdmin, eps, answers, i, w))
  {
    hide VisitEndpoint, VisitedState, WellKeyed, Lower, SliceOf, Reached, WritesNth, VisitNth, VisitAt;
    if eps == [] {
      assert Reached(st, kind, cfg, hasAdmin, eps, answers, 0) by { NoneBefore(st, kind, cfg, hasAdmin, eps, answers); }
    } else {
      var n := |eps| - 1;
      PassWrites(st, kind, cfg, interactive, hasAdmin, eps[..n], answers[..n]);
      FrontVisits(st, kind, cfg, hasAdmin, eps, answers);
      var p := PassOver(st, kind, cfg, interactive, hasAdmin, eps[..n], answers[..n]);
      LastVisit(st, kind, cfg, interactive, hasAdmin, eps, answers);
      ReachedNext(st, kind, cfg, hasAdmin, eps, answers);
    }
  }

  lemma NoneBefore(st: EngineState, kind: ScanKind, cfg: Configuration, hasAdmin: bool, eps: seq<AudioEndpoint>,
                   answers: seq<Answers>)
    requires |answers| == |eps|
    ensures Reached(st, kind, cfg, hasAdmin, eps, answers, 0)
  {
  }

  lemma ReachedNext(st: EngineState, kind: ScanKind, cfg: Configuration, hasAdmin: bool, eps: seq<AudioEndpoint>,
                    answers: seq<Answers>)
    requires |answers| == |eps| && eps != []
    ensures var n := |eps| - 1;
            && (Reached(st, kind, cfg, hasAdmin, eps, answers, n + 1) <==>
                && Reached(st, kind, cfg, hasAdmin, eps, answers, n)
                && !VisitNth(st, kind, cfg, hasAdmin, eps, answers, n).PausedPass?)
            && forall w :: WritesNth(st, kind, cfg, hasAdmin, eps, answers, n, w) <==>
                 var v := VisitNth(st, kind, cfg, hasAdmin, eps, answers, n);
                 Reached(st, kind, cfg, hasAdmin, eps, answers, n) && v.Visited? && w in v.writes
  {
    hide VisitNth;
  }

  // The last endpoint is visited as if it came first.
  lemma LastVisit(st: EngineState, kind: ScanKind, cfg: Configuration, interactive: bool, hasAdmin: bool,
                  eps: seq<AudioEndpoint>, answers: seq<Answers>)
    requires |answers| == |eps| && eps != [] && Named(eps) && DistinctEndpoints(eps) && WellKeyed(st.records)
    ensures var n := |eps| - 1;
            var p := PassOver(st, kind, cfg, interactive, hasAdmin, eps[..n], answers[..n]);
            VisitAt(p.state, kind, cfg, hasAdmin, eps[n], answers[n])
            == VisitNth(st, kind, cfg, hasAdmin, eps, answers, n)
  {
    var n := |eps| - 1;
    hide Lower, SliceOf, VisitEndpoint, PassOver, WellKeyed;
    assert SwitchedOff(eps[..n], cfg, eps[n].id);
    PassSparesFlow(st, kind, cfg, interactive, hasAdmin, eps[..n], answers[..n], eps[n].id);
  }

  // And what each endpoint asks for, told from the configuration, what is
  // remembered and the answers.
  lemma NthWants(st: EngineState, kind: ScanKind, cfg: Configuration, hasAdmin: bool, eps: seq<AudioEndpoint>,
                 answers: seq<Answers>, i: nat, w: DeviceWrite)
    requires i < |eps| == |answers| && WellKeyed(st.records)
    ensures var s := SliceOf(st, eps[i].id);
            var state := StateNow(eps[i], s, hasAdmin, answers[i]);
            WritesNth(st, kind, cfg, hasAdmin, eps, answers, i, w) <==>
            && Reached(st, kind, cfg, hasAdmin, eps, answers, i) && answers[i].canModify
            && FlowOn(cfg, eps[i].flow) && state != NotPresent && (state == Disabled ==> RecordedDisabled(s))
            && Wanted(w, eps[i], state, cfg, hasAdmin, MayWrite(kind, cfg, s, answers[i]), s, answers[i])
  {
    var s := SliceOf(st, eps[i].id);
    GoodSlice(st, eps[i].id);
    WritesMean(kind, cfg, hasAdmin, eps[i], s, answers[i]);
    VisitedIff(kind, cfg, hasAdmin, eps[i], s, answers[i]);
    hide VisitEndpoint, SliceOf, Wanted, Reached, StateNow, MayWrite, FlowOn, RecordedDisabled;
  }
}
