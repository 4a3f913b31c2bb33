// Full scans of a whole world of devices, one after the other.

module ConvergenceRuns {
  import opened Text
  import opened AudioModel
  import opened Capabilities
  import opened Configurations
  import opened DeviceStateStores
  import opened EndpointMemories
  import opened Policies
  import opened EndpointPolicy
  import opened EngineModel
  import opened EndpointFacts
  import opened Worlds
  import opened Convergence

  // ----- Writes and the world -----

  predicate AllFor(writes: seq<DeviceWrite>, id: string) { forall i :: 0 <= i < |writes| ==> writes[i].id == id }

  // The writes that reach one device.
  function Mine(writes: seq<DeviceWrite>, id: string): seq<DeviceWrite> {
    if writes == [] then []
    else
      var n := |writes| - 1;
      Mine(writes[..n], id) + if writes[n].id == id then [writes[n]] else []
  }

  function WorldAfter(w: World, writes: seq<DeviceWrite>): World {
    map id | id in w :: WrittenAll(w[id], Mine(writes, id))
  }

  lemma {:induction false} MineConcat(a: seq<DeviceWrite>, b: seq<DeviceWrite>, id: string)
    ensures Mine(a + b, id) == Mine(a, id) + Mine(b, id)
  {
    if b == [] {
      assert a + b == a;
    } else {
      var n := |b| - 1;
      assert (a + b)[..|a| + n] == a + b[..n];
      MineConcat(a, b[..n], id);
    }
  }

  lemma {:induction false} MineOne(writes: seq<DeviceWrite>, id: string, target: string)
    requires AllFor(writes, target)
    ensures Mine(writes, id) == if id == target then writes else []
  {
    if writes == [] {
    } else {
      var n := |writes| - 1;
      MineOne(writes[..n], id, target);
      assert writes == writes[..n] + [writes[n]];
    }
  }

  lemma VisitWritesItsDevice(cfg: Configuration, ep: AudioEndpoint, s: Slice, a: Answers)
    ensures AllFor(WritesOf(FullVisit(cfg, ep, s, a)), ep.id)
  {
    var seen := Seen(ep, s, true, a);
    assert seen.id == ep.id;
    hide Seen, Modify;
    if Monitored(cfg, ep.flow) && Considered(seen, s) && a.canModify {
      ModifyWritesItsDevice(seen, s, cfg, cfg.enforce, a);
    }
  }

  lemma ModifyWritesItsDevice(ep: AudioEndpoint, s: Slice, cfg: Configuration, enforce: bool, a: Answers)
    requires Considered(ep, s)
    ensures AllFor(Modify(ep, s, cfg, enforce, false, true, a).writes, ep.id)
  {
    var (s1, w1) := NamePhase(ep, cfg, enforce, true, s, a);
    var (s2, w2) := ExclusivePhase(ep, cfg, enforce, s1, a);
    assert AllFor(w1, ep.id) by { hide CustomDeviceName; }
    assert AllFor(w2, ep.id);
    if ep.state == Disabled {
      DisabledWrites(ep, s.record.value, cfg, enforce, s1, NewReport(ep), a);
    } else if ep.state == Active && cfg.formatStandardization {
      FormatWrites(ep, cfg, enforce, s2, NewReport(ep), a);
    }
    hide NamePhase, ExclusivePhase, FormatPhase, DisabledPhase;
  }

  lemma DisabledWrites(ep: AudioEndpoint, record: DisabledDeviceRecord, cfg: Configuration, enforce: bool, s: Slice,
                       d: DeviceReport, a: Answers)
    ensures AllFor(DisabledPhase(ep, record, cfg, enforce, true, s, d, a).writes, ep.id)
  {
    hide Judged, DisablePolicyConfirmed, WhyEnable, Incompatible;
  }

  lemma FormatWrites(ep: AudioEndpoint, cfg: Configuration, enforce: bool, s: Slice, d: DeviceReport, a: Answers)
    ensures AllFor(FormatPhase(ep, cfg, enforce, false, true, s, d, a).writes, ep.id)
  {
    var (out, writes) := JudgeAndApply(ep.id, cfg.sampleRate, cfg.bitDepth, enforce, a.apply);
    assert AllFor(writes, ep.id);
    var r := FormatReport(d, out, false);
    var (s1, caps) := CapabilitiesFor(s, a.current.value, a.probe);
    assert AllFor(GuardPhase(ep, cfg, s1, Judged(r, caps, cfg.sampleRate, cfg.bitDepth), a).writes, ep.id) by {
      hide Prune, CountRecent, DisabledRecord, Judged, CapabilitiesFor, JudgeAndApply, FormatReport;
    }
    hide JudgeAndApply, FormatReport, CapabilitiesFor, GuardPhase, Judged;
  }

  // ----- One pass, device by device -----

  predicate DistinctEndpoints(eps: seq<AudioEndpoint>) {
    forall i, j :: 0 <= i < j < |eps| ==> Lower(eps[i].id) != Lower(eps[j].id)
  }

  predicate NoPause(answers: seq<Answers>) { forall i :: 0 <= i < |answers| ==> answers[i].canModify }

  function VisitIn(st: EngineState, cfg: Configuration, ep: AudioEndpoint, a: Answers): Visit {
    FullVisit(cfg, ep, SliceOf(st, ep.id), a)
  }

  // What is remembered elsewhere makes no difference to a visit.
  lemma SameVisit(a: EngineState, b: EngineState, cfg: Configuration, ep: AudioEndpoint, answers: Answers)
    requires SliceOf(a, ep.id) == SliceOf(b, ep.id)
    ensures VisitIn(a, cfg, ep, answers) == VisitIn(b, cfg, ep, answers)
  {
    hide SliceOf, FullVisit;
  }

  // No endpoint of the enumeration is this device.
  predicate Absent(eps: seq<AudioEndpoint>, id: string) { forall i :: 0 <= i < |eps| ==> Lower(eps[i].id) != Lower(id) }

  function FullPass(st: EngineState, cfg: Configuration, interactive: bool, eps: seq<AudioEndpoint>,
                    answers: seq<Answers>): Pass
    requires |answers| == |eps|
  {
    PassOver(st, FullScan, cfg, interactive, true, eps, answers)
  }

  lemma NeverPaused(cfg: Configuration, ep: AudioEndpoint, s: Slice, a: Answers)
    requires a.canModify
    ensures !FullVisit(cfg, ep, s, a).PausedPass?
  {
    hide Modify, Seen, Monitored, Considered;
  }

  lemma {:induction false} PassNotPaused(st: EngineState, cfg: Configuration, interactive: bool,
                                         eps: seq<AudioEndpoint>, answers: seq<Answers>)
    requires |answers| == |eps| && NoPause(answers)
    ensures !FullPass(st, cfg, interactive, eps, answers).paused
  {
    if eps == [] {
    } else {
      var n := |eps| - 1;
      PassNotPaused(st, cfg, interactive, eps[..n], answers[..n]);
      var p := FullPass(st, cfg, interactive, eps[..n], answers[..n]);
      NeverPaused(cfg, eps[n], SliceOf(p.state, eps[n].id), answers[n]);
      hide VisitEndpoint, SliceOf;
    }
  }

  lemma SomethingMine(writes: seq<DeviceWrite>, ids: set<string>)
    requires writes != [] && forall j :: 0 <= j < |writes| ==> writes[j].id in ids
    ensures exists id :: id in ids && Mine(writes, id) != []
  {
    var last := writes[|writes| - 1];
    assert last.id in ids && Mine(writes, last.id) != [];
  }

  // One more endpoint of a pass, seen from itself and from another device.
  lemma ExtendHere(p: Pass, cfg: Configuration, ep: AudioEndpoint, a: Answers, interactive: bool)
    requires Mine(p.writes, ep.id) == []
    ensures var v := VisitIn(p.state, cfg, ep, a);
            var q := Extend(p, ep.id, v, interactive);
            SliceOf(q.state, ep.id) == SliceAfter(SliceOf(p.state, ep.id), v) && Mine(q.writes, ep.id) == WritesOf(v)
  {
    var v := VisitIn(p.state, cfg, ep, a);
    VisitWritesItsDevice(cfg, ep, SliceOf(p.state, ep.id), a);
    MineOne(WritesOf(v), ep.id, ep.id);
    hide VisitEndpoint, Lower, Mine, Lift;
    if v.Visited? {
      LiftTwice(p.state, ep.id, v.slice, v.slice);
      MineConcat(p.writes, v.writes, ep.id);
      VisitedSlices(p.state, ep.id, v, interactive, ep.id);
    }
  }

  lemma VisitedSlices(st: EngineState, id: string, v: Visit, interactive: bool, other: string)
    requires v.Visited?
    ensures SliceOf(VisitedState(st, id, v, interactive), other) == SliceOf(Lift(st, id, v.slice), other)
  {
    hide Lower, LoopKey, SetOpt, GetOpt;
  }

  lemma ExtendElsewhere(p: Pass, cfg: Configuration, ep: AudioEndpoint, a: Answers, interactive: bool, id: string)
    requires Lower(id) != Lower(ep.id)
    ensures var v := VisitIn(p.state, cfg, ep, a);
            var q := Extend(p, ep.id, v, interactive);
            SliceOf(q.state, id) == SliceOf(p.state, id) && Mine(q.writes, id) == Mine(p.writes, id)
  {
    var v := VisitIn(p.state, cfg, ep, a);
    assert id != ep.id;
    VisitWritesItsDevice(cfg, ep, SliceOf(p.state, ep.id), a);
    MineOne(WritesOf(v), id, ep.id);
    hide VisitEndpoint, Lower, Mine, Lift;
    if v.Visited? {
      LiftElsewhere(p.state, ep.id, v.slice, id);
      MineConcat(p.writes, v.writes, id);
      VisitedSlices(p.state, ep.id, v, interactive, id);
    }
  }

  lemma {:induction false} PassElsewhere(st: EngineState, cfg: Configuration, interactive: bool,
                                         eps: seq<AudioEndpoint>, answers: seq<Answers>, id: string)
    requires |answers| == |eps| && Absent(eps, id)
    ensures var p := FullPass(st, cfg, interactive, eps, answers);
            SliceOf(p.state, id) == SliceOf(st, id) && Mine(p.writes, id) == []
  {
    if eps == [] {
    } else {
      var n := |eps| - 1;
      PassElsewhere(st, cfg, interactive, eps[..n], answers[..n], id);
      ExtendElsewhere(FullPass(st, cfg, interactive, eps[..n], answers[..n]), cfg, eps[n], answers[n], interactive, id);
      hide VisitEndpoint, SliceOf, Extend, Lower;
    }
  }

  lemma PassExtends(st: EngineState, cfg: Configuration, interactive: bool, eps: seq<AudioEndpoint>,
                    answers: seq<Answers>)
    requires eps != [] && |answers| == |eps| && NoPause(answers)
    ensures var n := |eps| - 1;
            var p := FullPass(st, cfg, interactive, eps[..n], answers[..n]);
            FullPass(st, cfg, interactive, eps, answers)
            == Extend(p, eps[n].id, VisitIn(p.state, cfg, eps[n], answers[n]), interactive)
  {
    PassNotPaused(st, cfg, interactive, eps[..|eps| - 1], answers[..|eps| - 1]);
    hide VisitEndpoint, SliceOf, Extend;
  }

  // Each device is visited as if it were alone: its own memory, its own writes.
  lemma {:induction false} PassPointwise(st: EngineState, cfg: Configuration, interactive: bool,
                                         eps: seq<AudioEndpoint>, answers: seq<Answers>, i: nat)
    requires |answers| == |eps| && DistinctEndpoints(eps) && NoPause(answers) && i < |eps|
    ensures var p := FullPass(st, cfg, interactive, eps, answers);
            var v := VisitIn(st, cfg, eps[i], answers[i]);
            && SliceOf(p.state, eps[i].id) == SliceAfter(SliceOf(st, eps[i].id), v)
            && Mine(p.writes, eps[i].id) == WritesOf(v)
  {
    hide VisitIn, SliceOf, Extend, Lower, FullPass, Mine, SliceAfter, WritesOf;
    var n := |eps| - 1;
    var front, before := eps[..n], answers[..n];
    var p := FullPass(st, cfg, interactive, front, before);
    PassExtends(st, cfg, interactive, eps, answers);
    if i < n {
      assert front[i] == eps[i] && before[i] == answers[i];
      PassPointwise(st, cfg, interactive, front, before, i);
      ExtendElsewhere(p, cfg, eps[n], answers[n], interactive, eps[i].id);
    } else {
      PassElsewhere(st, cfg, interactive, front, before, eps[n].id);
      SameVisit(p.state, st, cfg, eps[n], answers[n]);
      ExtendHere(p, cfg, eps[n], answers[n], interactive);
    }
  }

  // A pass only writes endpoints of its enumeration.
  lemma {:induction false} PassWritesListed(st: EngineState, cfg: Configuration, interactive: bool,
                                            eps: seq<AudioEndpoint>, answers: seq<Answers>)
    requires |answers| == |eps|
    ensures var p := FullPass(st, cfg, interactive, eps, answers);
            forall j :: 0 <= j < |p.writes| ==> exists i :: 0 <= i < |eps| && eps[i].id == p.writes[j].id
  {
    if eps == [] {
    } else {
      var n := |eps| - 1;
      var p := FullPass(st, cfg, interactive, eps[..n], answers[..n]);
      PassWritesListed(st, cfg, interactive, eps[..n], answers[..n]);
      VisitWritesItsDevice(cfg, eps[n], SliceOf(p.state, eps[n].id), answers[n]);
      hide VisitEndpoint, SliceOf, VisitedState;
      var q := FullPass(st, cfg, interactive, eps, answers);
      forall j | 0 <= j < |q.writes|
        ensures exists i :: 0 <= i < |eps| && eps[i].id == q.writes[j].id
      {
        if j < |p.writes| {
          var i :| 0 <= i < n && eps[..n][i].id == p.writes[j].id;
          assert eps[i].id == q.writes[j].id;
        } else {
          assert eps[n].id == q.writes[j].id;
        }
      }
    }
  }

  // ----- Scan after scan -----

  datatype AnyScan = Scan(interactive: bool, eps: seq<AudioEndpoint>, answers: seq<Answers>)
  type Scan = s: AnyScan | |s.answers| == |s.eps| witness Scan(false, [], [])

  // The enumeration lists every device of the world once, as it is.
  ghost predicate Enumerates(eps: seq<AudioEndpoint>, w: World) {
    && DistinctEndpoints(eps)
    && (forall i :: 0 <= i < |eps| ==> eps[i].id in w && Shows(eps[i], w[eps[i].id]))
    && (forall id :: id in w ==> exists i :: 0 <= i < |eps| && eps[i].id == id)
  }

  ghost predicate HonestScan(w: World, cfg: Configuration, sc: Scan) {
    Enumerates(sc.eps, w) && forall i :: 0 <= i < |sc.eps| ==> Honest(w[sc.eps[i].id], cfg, sc.answers[i])
  }

  datatype Moment = Moment(state: EngineState, world: World)

  function PassOf(m: Moment, cfg: Configuration, sc: Scan): Pass {
    FullPass(m.state, cfg, sc.interactive, sc.eps, sc.answers)
  }

  function After(m: Moment, cfg: Configuration, sc: Scan): Moment {
    var p := PassOf(m, cfg, sc);
    Moment(p.state, WorldAfter(m.world, p.writes))
  }

  function RunScans(m: Moment, cfg: Configuration, scans: seq<Scan>): Moment {
    if scans == [] then m else After(RunScans(m, cfg, scans[..|scans| - 1]), cfg, scans[|scans| - 1])
  }

  // Every scan meets the devices as the scans before it left them.
  ghost predicate HonestRun(m: Moment, cfg: Configuration, scans: seq<Scan>) {
    forall k :: 0 <= k < |scans| ==> HonestScan(RunScans(m, cfg, scans[..k]).world, cfg, scans[k])
  }

  ghost predicate AllKnown(m: Moment) { forall id :: id in m.world ==> Known(SliceOf(m.state, id), m.world[id]) }

  ghost predicate NoneWaiting(m: Moment, sc: Scan) {
    forall i :: 0 <= i < |sc.eps| ==> NotWaiting(SliceOf(m.state, sc.eps[i].id), sc.answers[i].wallClock)
  }

  ghost predicate AllSettled(m: Moment, cfg: Configuration) {
    forall id :: id in m.world ==> Settled(id, m.world[id], SliceOf(m.state, id), cfg)
  }

  ghost predicate NearlySettled(m: Moment, cfg: Configuration) {
    forall id :: id in m.world ==>
      Settled(id, m.world[id], SliceOf(m.state, id), cfg) || JustEnabled(m.world[id], SliceOf(m.state, id))
  }

  // A scan, seen from one device.
  lemma ScanFrom(m: Moment, cfg: Configuration, sc: Scan, id: string) returns (i: nat)
    requires HonestScan(m.world, cfg, sc) && id in m.world
    ensures i < |sc.eps| && sc.eps[i].id == id && Shows(sc.eps[i], m.world[id])
    ensures Honest(m.world[id], cfg, sc.answers[i])
    ensures var v := FullVisit(cfg, sc.eps[i], SliceOf(m.state, id), sc.answers[i]);
            var m' := After(m, cfg, sc);
            && SliceOf(m'.state, id) == SliceAfter(SliceOf(m.state, id), v)
            && id in m'.world && m'.world[id] == DeviceAfter(m.world[id], v)
            && Mine(PassOf(m, cfg, sc).writes, id) == WritesOf(v)
  {
    i :| 0 <= i < |sc.eps| && sc.eps[i].id == id;
    assert NoPause(sc.answers);
    PassPointwise(m.state, cfg, sc.interactive, sc.eps, sc.answers, i);
    hide VisitEndpoint, SliceOf, PassOver, Lower, Honest, Mine, DistinctEndpoints;
    assert WrittenAll(m.world[id], []) == m.world[id];
  }

  lemma FirstRound(m: Moment, cfg: Configuration, sc: Scan)
    requires HonestScan(m.world, cfg, sc) && Enforcing(cfg) && AllKnown(m) && NoneWaiting(m, sc)
    ensures NearlySettled(After(m, cfg, sc), cfg) && AllKnown(After(m, cfg, sc))
  {
    var m' := After(m, cfg, sc);
    forall id | id in m'.world
      ensures (Settled(id, m'.world[id], SliceOf(m'.state, id), cfg)
               || JustEnabled(m'.world[id], SliceOf(m'.state, id)))
      ensures Known(SliceOf(m'.state, id), m'.world[id])
    {
      var i := ScanFrom(m, cfg, sc, id);
      FirstScan(sc.eps[i], m.world[id], SliceOf(m.state, id), cfg, sc.answers[i]);
      hide FullVisit, Settled, JustEnabled, Known, SliceOf, After;
    }
  }

  lemma SecondRound(m: Moment, cfg: Configuration, sc: Scan)
    requires HonestScan(m.world, cfg, sc) && Enforcing(cfg) && AllKnown(m) && NearlySettled(m, cfg)
    ensures AllSettled(After(m, cfg, sc), cfg) && AllKnown(After(m, cfg, sc))
  {
    var m' := After(m, cfg, sc);
    forall id | id in m'.world
      ensures Settled(id, m'.world[id], SliceOf(m'.state, id), cfg) && Known(SliceOf(m'.state, id), m'.world[id])
    {
      var i := ScanFrom(m, cfg, sc, id);
      var s := SliceOf(m.state, id);
      if Settled(id, m.world[id], s, cfg) {
        SettledStays(sc.eps[i], m.world[id], s, cfg, sc.answers[i]);
        SilentVisit(m.world[id], FullVisit(cfg, sc.eps[i], s, sc.answers[i]));
      } else {
        JustEnabledNotWaiting(s, sc.answers[i].wallClock);
        EnabledSettles(sc.eps[i], m.world[id], s, cfg, sc.answers[i]);
      }
      hide FullVisit, Settled, JustEnabled, Known, SliceOf, After;
    }
  }

  lemma SilentVisit(d: Device, v: Visit)
    requires WritesOf(v) == []
    ensures DeviceAfter(d, v) == d
  {
  }

  lemma LaterRound(m: Moment, cfg: Configuration, sc: Scan)
    requires HonestScan(m.world, cfg, sc) && Enforcing(cfg) && AllKnown(m) && AllSettled(m, cfg)
    ensures AllSettled(After(m, cfg, sc), cfg) && AllKnown(After(m, cfg, sc))
    ensures PassOf(m, cfg, sc).writes == [] && After(m, cfg, sc).world == m.world
  {
    SecondRound(m, cfg, sc);
    NothingWritten(m, cfg, sc);
    hide PassOver, Settled, Known, SliceOf, Honest;
    assert forall id :: id in m.world ==> WrittenAll(m.world[id], Mine([], id)) == m.world[id];
  }

  lemma NothingWritten(m: Moment, cfg: Configuration, sc: Scan)
    requires HonestScan(m.world, cfg, sc) && Enforcing(cfg) && AllKnown(m) && AllSettled(m, cfg)
    ensures PassOf(m, cfg, sc).writes == []
  {
    var p := PassOf(m, cfg, sc);
    hide After;
    forall id | id in m.world
      ensures Mine(p.writes, id) == []
    {
      var i := ScanFrom(m, cfg, sc, id);
      SettledStays(sc.eps[i], m.world[id], SliceOf(m.state, id), cfg, sc.answers[i]);
      hide FullVisit, Settled, Known, SliceOf, Mine;
    }
    PassWritesListed(m.state, cfg, sc.interactive, sc.eps, sc.answers);
    hide PassOver, Settled, Known, SliceOf, Honest, Mine;
    assert forall j :: 0 <= j < |p.writes| ==> p.writes[j].id in m.world;
    if p.writes != [] {
      SomethingMine(p.writes, m.world.Keys);
    }
  }

  // Two full scans are enough: from the third on, no scan writes a device.
  lemma {:induction false} TwoScansSettle(m: Moment, cfg: Configuration, scans: seq<Scan>)
    requires |scans| >= 2 && HonestRun(m, cfg, scans) && Enforcing(cfg) && AllKnown(m) && NoneWaiting(m, scans[0])
    ensures var end := RunScans(m, cfg, scans);
            AllSettled(end, cfg) && AllKnown(end) && end.world == RunScans(m, cfg, scans[..2]).world
    ensures |scans| > 2 ==> PassOf(RunScans(m, cfg, scans[..|scans| - 1]), cfg, scans[|scans| - 1]).writes == []
  {
    var n := |scans| - 1;
    var front := scans[..n];
    hide HonestScan, AllKnown, NoneWaiting, AllSettled, NearlySettled, After, PassOf;
    if |scans| == 2 {
      BothScans(m, cfg, scans);
      assert scans[..2] == scans;
    } else {
      FrontHonest(m, cfg, scans);
      assert front[..2] == scans[..2] && front[0] == scans[0];
      hide HonestRun;
      TwoScansSettle(m, cfg, front);
      NextScan(m, cfg, scans);
      hide RunScans;
    }
  }

  lemma NextScan(m: Moment, cfg: Configuration, scans: seq<Scan>)
    requires |scans| > 0 && Enforcing(cfg)
    requires var before := RunScans(m, cfg, scans[..|scans| - 1]);
             HonestScan(before.world, cfg, scans[|scans| - 1]) && AllSettled(before, cfg) && AllKnown(before)
    ensures var before, end := RunScans(m, cfg, scans[..|scans| - 1]), RunScans(m, cfg, scans);
            && AllSettled(end, cfg) && AllKnown(end) && end.world == before.world
            && PassOf(before, cfg, scans[|scans| - 1]).writes == []
  {
    hide HonestScan, AllKnown, AllSettled, After, PassOf;
    LaterRound(RunScans(m, cfg, scans[..|scans| - 1]), cfg, scans[|scans| - 1]);
  }

  lemma BothScans(m: Moment, cfg: Configuration, scans: seq<Scan>)
    requires |scans| == 2 && HonestRun(m, cfg, scans) && Enforcing(cfg) && AllKnown(m) && NoneWaiting(m, scans[0])
    ensures AllSettled(RunScans(m, cfg, scans), cfg) && AllKnown(RunScans(m, cfg, scans))
  {
    hide HonestScan, AllKnown, NoneWaiting, AllSettled, NearlySettled, After, PassOf;
    FrontHonest(m, cfg, scans);
    hide HonestRun;
    assert scans[..1][..0] == scans[..0] == [];
    FirstRound(m, cfg, scans[0]);
    assert RunScans(m, cfg, scans[..1]) == After(m, cfg, scans[0]);
    SecondRound(After(m, cfg, scans[0]), cfg, scans[1]);
  }

  lemma FrontHonest(m: Moment, cfg: Configuration, scans: seq<Scan>)
    requires |scans| >= 1 && HonestRun(m, cfg, scans)
    ensures HonestRun(m, cfg, scans[..|scans| - 1])
    ensures forall k :: 0 <= k < |scans| ==> HonestScan(RunScans(m, cfg, scans[..k]).world, cfg, scans[k])
  {
    hide HonestScan, RunScans;
    var front := scans[..|scans| - 1];
    forall k | 0 <= k < |front|
      ensures HonestScan(RunScans(m, cfg, front[..k]).world, cfg, front[k])
    {
      assert front[..k] == scans[..k];
    }
  }

  // ----- One scan is not enough -----

  predicate OnlyNameAndState(writes: seq<DeviceWrite>) {
    forall i :: 0 <= i < |writes| ==> writes[i].WriteDescription? || writes[i].WriteEnabled?
  }

  // One of the writes gives the device a format at the target.
  predicate FormatFixed(writes: seq<DeviceWrite>, id: string, cfg: Configuration) {
    exists i :: 0 <= i < |writes| && writes[i].WriteFormat? && writes[i].id == id
                && writes[i].format.Matches(cfg.sampleRate, cfg.bitDepth)
  }

  predicate NeedsFormat(d: Device, cfg: Configuration) {
    cfg.formatStandardization && Verdict(d, cfg) == Compatible && !d.format.Matches(cfg.sampleRate, cfg.bitDepth)
  }

  // A device that a scan enables again only gets its name from that scan. The
  // next one puts right its exclusive mode and its format, exactly when they
  // need it.
  lemma ReenabledNeedsAnother(ep: AudioEndpoint, d: Device, s: Slice, cfg: Configuration, a: Answers,
                              ep': AudioEndpoint, a': Answers)
    requires d.state == Disabled && DisabledByUs(s) && Known(s, d) && Monitored(cfg, d.flow)
    requires Shows(ep, d) && Honest(d, cfg, a) && Enforcing(cfg)
    requires !(DisablePolicyConfirmed(cfg) && Incompatible(Verdict(d, cfg)))
    requires var d' := DeviceAfter(d, FullVisit(cfg, ep, s, a));
            Shows(ep', d') && Honest(d', cfg, a') && ep'.id == ep.id
    ensures var v := FullVisit(cfg, ep, s, a);
            var w' := WritesOf(FullVisit(cfg, ep', SliceAfter(s, v), a'));
            && WriteEnabled(ep.id, true) in WritesOf(v) && OnlyNameAndState(WritesOf(v))
            && DeviceAfter(d, v).state == d.whenEnabled
            && (WriteExclusive(ep.id) in w' <==> cfg.exclusiveModeProtection && d.exclusiveAllowed)
            && (FormatFixed(w', ep.id, cfg) <==> d.whenEnabled == Active && NeedsFormat(d, cfg))
  {
    hide Modify, Monitored, VisitEndpoint, Honest, DisablePolicyConfirmed, Incompatible, Verdict, FullVisit, UpToDate;
    hide FormatFixed;
    var v := FullVisit(cfg, ep, s, a);
    ReenabledFirst(ep, d, s, cfg, a);
    ReenabledSecond(ep', DeviceAfter(d, v), SliceAfter(s, v), cfg, a');
    hide DeviceAfter, SliceAfter, WritesOf, OnlyNameAndState, Enforcing;
  }

  lemma ReenabledFirst(ep: AudioEndpoint, d: Device, s: Slice, cfg: Configuration, a: Answers)
    requires d.state == Disabled && DisabledByUs(s) && Known(s, d) && Monitored(cfg, d.flow)
    requires Shows(ep, d) && Honest(d, cfg, a) && Enforcing(cfg)
    requires !(DisablePolicyConfirmed(cfg) && Incompatible(Verdict(d, cfg)))
    ensures var v := FullVisit(cfg, ep, s, a);
            var d' := DeviceAfter(d, v);
            && WriteEnabled(ep.id, true) in WritesOf(v) && OnlyNameAndState(WritesOf(v))
            && d'.state == d.whenEnabled && d'.exclusiveAllowed == d.exclusiveAllowed && d'.flow == d.flow
            && d'.format == d.format && Verdict(d', cfg) == Verdict(d, cfg)
  {
    SeenAsIs(ep, d, s, cfg, a);
    assert Considered(ep, s) && a.canModify;
    hide Seen, Modify, Monitored, Honest, DisablePolicyConfirmed, Incompatible, Verdict, DisabledPhase, NamePhase;
    hide FormatPhase;
    hide ExclusivePhase, NameSettled, UpToDate;
    NameEffect(ep, d, cfg, s, a);
    NameWritten(ep, d, cfg, s, a);
    ModifyParts(ep, s, cfg, a);
    DisabledPhaseDone(ep, d, s, cfg, NewReport(ep), a);
    var w1 := NamePhase(ep, cfg, true, true, s, a).1;
    WrittenTwice(d, w1, [WriteEnabled(ep.id, true)]);
    SameDriver(d, WrittenAll(d, w1 + [WriteEnabled(ep.id, true)]), cfg);
  }

  lemma ReenabledSecond(ep: AudioEndpoint, d: Device, s: Slice, cfg: Configuration, a: Answers)
    requires (d.state == Active || d.state == Unplugged) && Monitored(cfg, d.flow)
    requires Shows(ep, d) && Honest(d, cfg, a) && Enforcing(cfg)
    ensures var w := WritesOf(FullVisit(cfg, ep, s, a));
            && (WriteExclusive(ep.id) in w <==> cfg.exclusiveModeProtection && d.exclusiveAllowed)
            && (FormatFixed(w, ep.id, cfg) <==> d.state == Active && NeedsFormat(d, cfg))
  {
    SeenAsIs(ep, d, s, cfg, a);
    assert Considered(ep, s) && a.canModify;
    hide Seen, Modify, Monitored, Honest, NamePhase, FormatPhase, ExclusivePhase, DisabledPhase, Verdict, Enforcing;
    hide FormatFixed;
    var (s1, w1) := NamePhase(ep, cfg, true, true, s, a);
    NameEffect(ep, d, cfg, s, a);
    ExclusiveEffect(ep, d, cfg, s1, a);
    ModifyParts(ep, s, cfg, a);
    var (s2, w2) := ExclusivePhase(ep, cfg, true, s1, a);
    if d.state == Active && cfg.formatStandardization {
      var w3 := FormatPhase(ep, cfg, true, false, true, s2, NewReport(ep), a).writes;
      FormatWritten(ep, d, s2, cfg, NewReport(ep), a);
      ThreePhases(w1, w2, w3, ep.id, cfg);
    } else {
      ThreePhases(w1, w2, [], ep.id, cfg);
      assert w1 + w2 + [] == w1 + w2;
      assert !FormatFixed([], ep.id, cfg) by { NothingFixed(ep.id, cfg); }
    }
  }

  lemma NothingFixed(id: string, cfg: Configuration)
    ensures !FormatFixed([], id, cfg)
  {
  }

  // Name and exclusive mode first, then the format or the state.
  lemma ThreePhases(w1: seq<DeviceWrite>, w2: seq<DeviceWrite>, w3: seq<DeviceWrite>, id: string, cfg: Configuration)
    requires w1 == [] || exists text :: w1 == [WriteDescription(id, text)]
    requires w2 == [] || w2 == [WriteExclusive(id)]
    requires |w3| <= 1 && (w3 != [] ==> w3[0].WriteFormat? || w3[0].WriteEnabled?)
    ensures WriteExclusive(id) in w1 + w2 + w3 <==> w2 != []
    ensures FormatFixed(w1 + w2 + w3, id, cfg) <==> FormatFixed(w3, id, cfg)
  {
    var all := w1 + w2 + w3;
    if FormatFixed(w3, id, cfg) {
      assert all[|w1 + w2|] == w3[0];
    }
    assert forall i :: 0 <= i < |w1 + w2| ==> !all[i].WriteFormat?;
    assert w2 != [] ==> all[|w1|] == WriteExclusive(id);
  }

  lemma FormatWritten(ep: AudioEndpoint, d: Device, s: Slice, cfg: Configuration, r: DeviceReport, a: Answers)
    requires Honest(d, cfg, a) && Enforcing(cfg)
    ensures var w := FormatPhase(ep, cfg, true, false, true, s, r, a).writes;
            && |w| <= 1 && (w != [] ==> w[0].WriteFormat? || w[0].WriteEnabled?)
            && (FormatFixed(w, ep.id, cfg) <==>
                  Verdict(d, cfg) == Compatible && !d.format.Matches(cfg.sampleRate, cfg.bitDepth))
  {
    hide JudgeAndApply, IncompatiblePhase, Verdict, Honest, Enforcing, FormatReport, FormatMemory;
    HonestFormat(ep.id, d, cfg, a);
    var (out, w) := JudgeAndApply(ep.id, cfg.sampleRate, cfg.bitDepth, true, a.apply);
    var e := IncompatiblePhase(ep, cfg, true, true, s, FormatReport(r, out, false), a);
    IncompatibleAsks(ep, cfg, true, true, s, FormatReport(r, out, false), a);
    if out.result == Applied {
      assert w[0].WriteFormat?;
    }
  }
}
