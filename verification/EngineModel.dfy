// The engine's whole memory, and its operations as functions on it
// (src/core/WatchdogEngine.cpp).

module EngineModel {
  import opened Text
  import opened AudioModel
  import opened Capabilities
  import opened Configurations
  import opened DeviceStateStores
  import opened EndpointMemories
  import opened Policies
  import opened EndpointPolicy

  // ----- Optional entries of a map -----

  function GetOpt<V>(m: map<string, V>, k: string): Option<V> { if k in m then Some(m[k]) else None }

  function SetOpt<V>(m: map<string, V>, k: string, v: Option<V>): map<string, V> {
    match v
    case Some(x) => m[k := x]
    case None => m - {k}
  }

  lemma SetOptLaws<V>(m: map<string, V>, k: string, v: Option<V>, w: Option<V>)
    ensures SetOpt(m, k, GetOpt(m, k)) == m
    ensures GetOpt(SetOpt(m, k, v), k) == v
    ensures SetOpt(SetOpt(m, k, v), k, w) == SetOpt(m, k, w)
    ensures forall k' :: k' != k ==> GetOpt(SetOpt(m, k, v), k') == GetOpt(m, k')
  {
  }

  // ----- Events -----

  datatype DeviceEvent = DeviceEvent(sequence: int, action: DeviceAction, id: string,
    name: string, reason: Reason, interactive: bool)

  const MAX_EVENTS: nat := 32

  function LastEvents(events: seq<DeviceEvent>): (r: seq<DeviceEvent>)
    ensures |r| <= MAX_EVENTS
  {
    if |events| > MAX_EVENTS then events[|events| - MAX_EVENTS..] else events
  }

  // ----- The engine's memory -----

  datatype EngineState = EngineState(
    records: RecordMap,
    failures: map<string, int>,
    notices: map<string, Reason>,
    capabilities: map<string, FormatCapabilities>,
    config: Configuration,
    events: seq<DeviceEvent>,
    nextSequence: int)

  // A new engine: nothing remembered yet.
  function Started(cfg: Configuration): EngineState { EngineState(map[], map[], map[], map[], cfg, [], 1) }

  // Every record is kept under its own id.
  ghost predicate WellKeyed(records: RecordMap) {
    forall k :: k in records ==> Lower(records[k].id) == k && records[k].id != ""
  }

  function SliceOf(st: EngineState, id: string): Slice {
    Slice(GetOpt(st.records, Lower(id)), GetOpt(st.failures, id), GetOpt(st.notices, LoopKey(id)),
          GetOpt(st.capabilities, id))
  }

  function Lift(st: EngineState, id: string, s: Slice): EngineState {
    st.(records := SetOpt(st.records, Lower(id), s.record),
        failures := SetOpt(st.failures, id, s.failure),
        notices := SetOpt(st.notices, LoopKey(id), s.loopNotice),
        capabilities := SetOpt(st.capabilities, id, s.caps))
  }

  function AddEvent(st: EngineState, d: DeviceReport, interactive: bool): EngineState {
    st.(events := LastEvents(st.events + [DeviceEvent(st.nextSequence, d.action, d.id, d.name, d.reason, interactive)]),
        nextSequence := st.nextSequence + 1)
  }

  // The engine after a phase of one endpoint's step.
  function Absorb(st: EngineState, id: string, e: Effect, interactive: bool): EngineState {
    var st1 := Lift(st, id, e.slice);
    if e.event then AddEvent(st1, e.device, interactive) else st1
  }

  lemma LiftSame(st: EngineState, id: string)
    ensures Lift(st, id, SliceOf(st, id)) == st
  {
    hide SetOpt, GetOpt, Lower, LoopKey;
    SetOptLaws(st.records, Lower(id), None, None);
    SetOptLaws(st.failures, id, None, None);
    SetOptLaws(st.notices, LoopKey(id), None, None);
    SetOptLaws(st.capabilities, id, None, None);
  }

  lemma LiftTwice(st: EngineState, id: string, s: Slice, s': Slice)
    ensures Lift(Lift(st, id, s), id, s') == Lift(st, id, s')
    ensures SliceOf(Lift(st, id, s), id) == s
  {
    hide SetOpt, GetOpt, Lower, LoopKey;
    SetOptLaws(st.records, Lower(id), s.record, s'.record);
    SetOptLaws(st.failures, id, s.failure, s'.failure);
    SetOptLaws(st.notices, LoopKey(id), s.loopNotice, s'.loopNotice);
    SetOptLaws(st.capabilities, id, s.caps, s'.caps);
  }

  // One change of a map is one change of the slice.
  lemma LiftChange(st: EngineState, id: string)
    ensures var s := SliceOf(st, id);
            && Lift(st, id, s) == st
            && (forall c :: Lift(st, id, s.(failure := Some(c))) == st.(failures := st.failures[id := c]))
            && Lift(st, id, s.(failure := None)) == st.(failures := st.failures - {id})
            && (forall r :: Lift(st, id, s.(record := Some(r))) == st.(records := st.records[Lower(id) := r]))
            && Lift(st, id, s.(record := None)) == st.(records := st.records - {Lower(id)})
  {
    LiftSame(st, id);
    hide Lower, LoopKey;
  }

  lemma LiftNotice(st: EngineState, id: string)
    ensures var s := SliceOf(st, id);
            && (forall n :: Lift(st, id, s.(loopNotice := Some(n))) == st.(notices := st.notices[LoopKey(id) := n]))
            && Lift(st, id, s.(loopNotice := None)) == st.(notices := st.notices - {LoopKey(id)})
  {
    LiftSame(st, id);
    hide Lower, LoopKey;
  }

  // A step of one endpoint does not touch what is remembered about another.
  lemma LiftElsewhere(st: EngineState, id: string, s: Slice, other: string)
    requires Lower(other) != Lower(id)
    ensures SliceOf(Lift(st, id, s), other) == SliceOf(st, other)
  {
    assert other != id;
    if LoopKey(other) == LoopKey(id) {
      LoopKeyInjective(other, id);
    }
    hide SetOpt, GetOpt, Lower, LoopKey;
    SetOptLaws(st.records, Lower(id), s.record, None);
    SetOptLaws(st.failures, id, s.failure, None);
    SetOptLaws(st.notices, LoopKey(id), s.loopNotice, None);
    SetOptLaws(st.capabilities, id, s.caps, None);
  }

  // ----- One endpoint, one pass -----

  function VisitedState(st: EngineState, id: string, v: Visit, interactive: bool): EngineState {
    match v
    case Visited(slice, _, report, event) =>
      var st1 := Lift(st, id, slice);
      if event && report.Some? then AddEvent(st1, report.value, interactive) else st1
    case _ => st
  }

  function VisitAt(st: EngineState, kind: ScanKind, cfg: Configuration, hasAdmin: bool, ep: AudioEndpoint, a: Answers)
      : Visit {
    VisitEndpoint(kind, cfg, hasAdmin, ep, SliceOf(st, ep.id), a)
  }

  datatype Pass = Pass(state: EngineState, writes: seq<DeviceWrite>, devices: seq<DeviceReport>, paused: bool)

  function Extend(p: Pass, id: string, v: Visit, interactive: bool): Pass {
    match v
    case SkippedEndpoint => p
    case PausedPass => p.(paused := true)
    case Visited(_, writes, report, _) =>
      Pass(VisitedState(p.state, id, v, interactive), p.writes + writes,
           p.devices + (if report.Some? then [report.value] else []), p.paused)
  }

  // A pass over the first endpoints of an enumeration; once paused, it stops.
  function PassOver(st: EngineState, kind: ScanKind, cfg: Configuration, interactive: bool, hasAdmin: bool,
                    eps: seq<AudioEndpoint>, answers: seq<Answers>): Pass
    requires |answers| == |eps|
  {
    if eps == [] then Pass(st, [], [], false)
    else
      var n := |eps| - 1;
      var p := PassOver(st, kind, cfg, interactive, hasAdmin, eps[..n], answers[..n]);
      if p.paused then p
      else Extend(p, eps[n].id, VisitAt(p.state, kind, cfg, hasAdmin, eps[n], answers[n]), interactive)
  }

  // ----- The other operations -----

  predicate PolicyChanged(a: Configuration, b: Configuration) {
    || a.formatStandardization != b.formatStandardization
    || a.sampleRate != b.sampleRate
    || a.bitDepth != b.bitDepth
    || a.disableIncompatibleDevices != b.disableIncompatibleDevices
    || a.disableConfirmedFor != b.disableConfirmedFor
  }

  function SetConfigState(st: EngineState, cfg: Configuration): EngineState {
    st.(config := cfg, failures := map[], notices := map[],
        records := if PolicyChanged(cfg, st.config) then ResetRecords(st.records) else st.records)
  }

  // The policy of the settings: whether and how formats are standardized, what
  // happens to devices that cannot, and what the user confirmed.
  predicate Differ(a: Configuration, b: Configuration) {
    || a.formatStandardization != b.formatStandardization
    || a.sampleRate != b.sampleRate || a.bitDepth != b.bitDepth
    || a.disableIncompatibleDevices != b.disableIncompatibleDevices || a.disableConfirmedFor != b.disableConfirmedFor
  }

  // New settings forget every failure and notice, and nothing of the cached
  // formats and the events. When the policy differs, the records of devices
  // that are no longer disabled go, and the others lose their mark and their
  // history; otherwise every record is kept as it is.
  lemma SettingsMean(st: EngineState, cfg: Configuration)
    ensures var after := SetConfigState(st, cfg);
            && after.config == cfg && after.failures == map[] && after.notices == map[]
            && after.capabilities == st.capabilities && after.events == st.events
            && after.nextSequence == st.nextSequence
            && (!Differ(st.config, cfg) ==> after.records == st.records)
            && (Differ(st.config, cfg) ==>
                  && (forall k :: k in after.records <==> k in st.records && st.records[k].disabled)
                  && forall k :: k in after.records ==>
                       after.records[k] == st.records[k].(leftEnabled := false, history := []))
  {
  }

  // The user enables a device from the window.
  datatype EnableAnswers = EnableAnswers(enable: ResultCode, state: Reply<EndpointState>)

  predicate EnableSucceeds(a: EnableAnswers) {
    Succeeded(a.enable) && Succeeded(a.state.code) && a.state.value != Disabled
  }

  function EnableDeviceState(st: EngineState, id: string, a: EnableAnswers): EngineState {
    if EnableSucceeds(a) && Lower(id) in st.records then
      st.(records := st.records[Lower(id) := st.records[Lower(id)].(disabled := false, leftEnabled := true)])
    else st
  }

  // Any device notification but a changed property.
  function ForgetEndpointState(st: EngineState, id: string): EngineState {
    st.(failures := st.failures - {id},
        notices := map k | k in st.notices && !Contains(k, id) :: st.notices[k],
        capabilities := st.capabilities - {id})
  }

  function ForgetCapabilitiesState(st: EngineState): EngineState { st.(capabilities := map[]) }

  function ClearMemoryState(st: EngineState): EngineState { st.(failures := map[], notices := map[]) }

  // ----- The preview -----

  datatype PreviewAnswers = PreviewAnswers(current: Reply<AudioFormat>, probe: FormatAnswers)

  datatype Preview = Preview(state: EngineState, devices: seq<DeviceReport>)

  function PreviewOver(st: EngineState, candidate: Configuration, eps: seq<AudioEndpoint>, answers: seq<PreviewAnswers>)
      : Preview
    requires |answers| == |eps|
  {
    if eps == [] then Preview(st, [])
    else
      var n := |eps| - 1;
      var p := PreviewOver(st, candidate, eps[..n], answers[..n]);
      var (s, report) := PreviewEndpoint(candidate, eps[n], SliceOf(p.state, eps[n].id),
                                         answers[n].current, answers[n].probe);
      Preview(Lift(p.state, eps[n].id, s), p.devices + (if report.Some? then [report.value] else []))
  }

  // A preview changes nothing but the cached formats of the device.
  function PreviewedState(st: EngineState, candidate: Configuration, ep: AudioEndpoint, a: PreviewAnswers)
      : EngineState {
    st.(capabilities :=
         SetOpt(st.capabilities, ep.id, PreviewEndpoint(candidate, ep, SliceOf(st, ep.id), a.current, a.probe).0.caps))
  }

  lemma PreviewOnlyAsks(st: EngineState, candidate: Configuration, ep: AudioEndpoint, a: PreviewAnswers)
    ensures Lift(st, ep.id, PreviewEndpoint(candidate, ep, SliceOf(st, ep.id), a.current, a.probe).0)
            == PreviewedState(st, candidate, ep, a)
  {
    var s := SliceOf(st, ep.id);
    var s1 := PreviewEndpoint(candidate, ep, s, a.current, a.probe).0;
    assert s1 == s.(caps := s1.caps) by {
      hide Probe, Judged, PreviewAction;
    }
    hide SetOpt, GetOpt, Lower, LoopKey, PreviewEndpoint;
    SetOptLaws(st.records, Lower(ep.id), None, None);
    SetOptLaws(st.failures, ep.id, None, None);
    SetOptLaws(st.notices, LoopKey(ep.id), None, None);
  }
}
