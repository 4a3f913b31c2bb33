// The engine's queue of device events (src/core/WatchdogEngine.cpp: addEvent)
// and the tray that reads it with a cursor (src/app/AudioslaveApplication.cpp:
// notifyDeviceEvents).

module TrayEvents {
  import opened Text
  import opened AudioModel
  import opened Capabilities
  import opened Configurations
  import opened DeviceStateStores
  import opened EndpointMemories
  import opened Policies
  import opened EndpointPolicy
  import opened EngineModel
  import opened EngineRuns

  // ----- The queue over one engine lifetime -----

  // The event an operation adds, if any.
  function NewEvents(st: EngineState, op: Op, hasAdmin: bool): seq<DeviceEvent> {
    if op.StepOp? then
      var v := VisitAt(st, op.kind, op.cfg, hasAdmin, op.ep, op.answers);
      if v.Visited? && v.event && v.report.Some? then
        [DeviceEvent(st.nextSequence, v.report.value.action, v.report.value.id, v.report.value.name,
                     v.report.value.reason, op.interactive)]
      else []
    else []
  }

  // Every event of a run, from the first.
  function History(st: EngineState, ops: seq<Op>, hasAdmin: bool): seq<DeviceEvent> {
    if ops == [] then []
    else
      var n := |ops| - 1;
      History(st, ops[..n], hasAdmin) + NewEvents(RunOps(st, ops[..n], hasAdmin).state, ops[n], hasAdmin)
  }

  predicate Numbered(history: seq<DeviceEvent>) { forall i :: 0 <= i < |history| ==> history[i].sequence == i + 1 }

  // The queue is the end of the history, whatever it already dropped.
  lemma LastOfLast(history: seq<DeviceEvent>, more: seq<DeviceEvent>)
    requires |more| <= 1
    ensures LastEvents(LastEvents(history) + more) == LastEvents(history + more)
  {
  }

  lemma StepEvents(st: EngineState, op: Op, hasAdmin: bool)
    ensures var more := NewEvents(st, op, hasAdmin);
            && |more| <= 1
            && Apply(st, op, hasAdmin).nextSequence == st.nextSequence + |more|
            && (more != [] ==>
                  Apply(st, op, hasAdmin).events == LastEvents(st.events + more) && more[0].sequence == st.nextSequence)
            && (more == [] ==> Apply(st, op, hasAdmin).events == st.events)
  {
    hide VisitEndpoint, PreviewEndpoint, SetOpt, Lower, LoopKey, Contains, SliceOf;
  }

  // Within one lifetime of the engine, events are numbered 1, 2, 3, ... and
  // the queue is the last 32 of them.
  lemma {:induction false} QueueIsTheEnd(st: EngineState, ops: seq<Op>, hasAdmin: bool)
    requires st.events == [] && st.nextSequence == 1
    ensures var history := History(st, ops, hasAdmin);
            var end := RunOps(st, ops, hasAdmin).state;
            && Numbered(history) && end.nextSequence == |history| + 1
            && end.events == LastEvents(history)
            && end.events == history[(if |history| > 32 then |history| - 32 else 0)..]
  {
    hide Apply, Deeds, NewEvents;
    if ops == [] {
    } else {
      var n := |ops| - 1;
      var before := RunOps(st, ops[..n], hasAdmin).state;
      QueueIsTheEnd(st, ops[..n], hasAdmin);
      StepEvents(before, ops[n], hasAdmin);
      LastOfLast(History(st, ops[..n], hasAdmin), NewEvents(before, ops[n], hasAdmin));
    }
  }

  // Only what the tray knows how to announce becomes an event.
  predicate Announceable(action: DeviceAction) {
    action == ActionDisabled || action == ActionReenabled || action == ActionLeftEnabled || action == ActionFailed
  }

  lemma EventsAreAnnounceable(kind: ScanKind, cfg: Configuration, hasAdmin: bool, ep: AudioEndpoint, s: Slice,
                              a: Answers)
    ensures var v := VisitEndpoint(kind, cfg, hasAdmin, ep, s, a);
            v.Visited? && v.event ==> v.report.Some? && Announceable(v.report.value.action)
  {
    var seen := Seen(ep, s, hasAdmin, a);
    var backoff := kind == TriggeredScan && InBackoff(s, a.startClock);
    hide Monitored, Seen, Modify;
    if Considered(seen, s) {
      ModifyAnnounces(seen, s, cfg, cfg.enforce && !backoff, backoff, hasAdmin, a);
    }
  }

  lemma ModifyAnnounces(ep: AudioEndpoint, s: Slice, cfg: Configuration, enforce: bool, backoff: bool, hasAdmin: bool,
                        a: Answers)
    requires Considered(ep, s)
    ensures var v := Modify(ep, s, cfg, enforce, backoff, hasAdmin, a);
            v.event ==> v.report.Some? && Announceable(v.report.value.action)
  {
    var s1 := NamePhase(ep, cfg, enforce, hasAdmin, s, a).0;
    var s2 := ExclusivePhase(ep, cfg, enforce, s1, a).0;
    if ep.state == Disabled {
      DisabledAnnounces(ep, s.record.value, cfg, enforce, hasAdmin, s1, NewReport(ep), a);
    } else {
      FormatAnnounces(ep, cfg, enforce, backoff, hasAdmin, s2, NewReport(ep), a);
    }
    hide NamePhase, ExclusivePhase, DisabledPhase, FormatPhase;
  }

  lemma DisabledAnnounces(ep: AudioEndpoint, record: DisabledDeviceRecord, cfg: Configuration, enforce: bool,
                          hasAdmin: bool, s: Slice, d: DeviceReport, a: Answers)
    ensures var e := DisabledPhase(ep, record, cfg, enforce, hasAdmin, s, d, a);
            e.event ==> Announceable(e.device.action)
  {
    hide Judged, DisablePolicyConfirmed, Incompatible, WhyEnable;
  }

  lemma FormatAnnounces(ep: AudioEndpoint, cfg: Configuration, enforce: bool, backoff: bool, hasAdmin: bool, s: Slice,
                        d: DeviceReport, a: Answers)
    ensures var e := FormatPhase(ep, cfg, enforce, backoff, hasAdmin, s, d, a);
            e.event ==> Announceable(e.device.action)
  {
    var out := JudgeAndApply(ep.id, cfg.sampleRate, cfg.bitDepth, enforce, a.apply).0;
    IncompatibleAnnounces(ep, cfg, enforce, hasAdmin, s, FormatReport(d, out, backoff), a);
    hide JudgeAndApply, FormatReport, IncompatiblePhase;
  }

  lemma IncompatibleAnnounces(ep: AudioEndpoint, cfg: Configuration, enforce: bool, hasAdmin: bool, s: Slice,
                              d: DeviceReport, a: Answers)
    ensures var e := IncompatiblePhase(ep, cfg, enforce, hasAdmin, s, d, a); e.event ==> Announceable(e.device.action)
  {
    hide CapabilitiesFor, Judged, DisablePolicyConfirmed, GuardRecord, CountRecent;
  }

  // ----- The tray -----

  // Nothing is announced before the first snapshot, nothing twice, and nothing
  // the user just did.
  predicate Announces(cursor: int, e: DeviceEvent) {
    cursor >= 0 && e.sequence > cursor && !e.interactive && Announceable(e.action)
  }

  function Announced(cursor: int, events: seq<DeviceEvent>): seq<DeviceEvent> {
    if events == [] then []
    else
      var n := |events| - 1;
      Announced(cursor, events[..n]) + if Announces(cursor, events[n]) then [events[n]] else []
  }

  function Max(a: int, b: int): int { if a >= b then a else b }

  function Newest(cursor: int, events: seq<DeviceEvent>): int {
    if events == [] then cursor else Max(Newest(cursor, events[..|events| - 1]), events[|events| - 1].sequence)
  }

  function CursorAfter(cursor: int, events: seq<DeviceEvent>): int { Max(Newest(cursor, events), 0) }

  // The events of one kind, as one line of the bubble lists them.
  function Select(events: seq<DeviceEvent>, actions: set<DeviceAction>): seq<DeviceEvent> {
    if events == [] then []
    else
      var n := |events| - 1;
      Select(events[..n], actions) + if events[n].action in actions then [events[n]] else []
  }

  class Tray {
    var lastEventSequence: int

    constructor ()
      ensures lastEventSequence == -1
    {
      lastEventSequence := -1;
    }

    method NotifyDeviceEvents(events: seq<DeviceEvent>)
      returns (disabled: seq<DeviceEvent>, reenabled: seq<DeviceEvent>, other: seq<DeviceEvent>)
      modifies this
      ensures lastEventSequence == CursorAfter(old(lastEventSequence), events)
      ensures var announced := Announced(old(lastEventSequence), events);
              && disabled == Select(announced, {ActionDisabled}) && reenabled == Select(announced, {ActionReenabled})
              && other == Select(announced, {ActionLeftEnabled, ActionFailed})
    {
      var newest := lastEventSequence;
      disabled, reenabled, other := [], [], [];
      for i := 0 to |events|
        invariant lastEventSequence == old(lastEventSequence) && newest == Newest(lastEventSequence, events[..i])
        invariant disabled == Select(Announced(lastEventSequence, events[..i]), {ActionDisabled})
        invariant reenabled == Select(Announced(lastEventSequence, events[..i]), {ActionReenabled})
        invariant other == Select(Announced(lastEventSequence, events[..i]), {ActionLeftEnabled, ActionFailed})
      {
        var e := events[i];
        assert events[..i + 1][..i] == events[..i];
        ghost var before := Announced(lastEventSequence, events[..i]);
        SelectLast(before, e, {ActionDisabled});
        SelectLast(before, e, {ActionReenabled});
        SelectLast(before, e, {ActionLeftEnabled, ActionFailed});
        assert before + [] == before;
        newest := Max(newest, e.sequence);
        if lastEventSequence < 0 || e.sequence <= lastEventSequence || e.interactive {
          continue;
        }
        match e.action {
          case ActionDisabled => disabled := disabled + [e];
          case ActionReenabled => reenabled := reenabled + [e];
          case ActionLeftEnabled => other := other + [e];
          case ActionFailed => other := other + [e];
          case _ =>
        }
      }
      assert events[..|events|] == events;
      lastEventSequence := Max(newest, 0);
    }
  }

  lemma SelectLast(events: seq<DeviceEvent>, e: DeviceEvent, actions: set<DeviceAction>)
    ensures Select(events + [e], actions) == Select(events, actions) + if e.action in actions then [e] else []
  {
    assert (events + [e])[..|events|] == events;
  }

  // ----- What a snapshot announces -----

  function Snapshot(history: seq<DeviceEvent>, n: nat): seq<DeviceEvent>
    requires n <= |history|
  {
    LastEvents(history[..n])
  }

  // The first event a snapshot can announce.
  function From(cursor: int, n: nat): nat {
    var oldest := if n > MAX_EVENTS then n - MAX_EVENTS else 0;
    if cursor > n then n else if cursor > oldest then cursor else oldest
  }

  // The announced part of a stretch of the history.
  function Worth(events: seq<DeviceEvent>): seq<DeviceEvent> { Announced(0, events) }

  lemma AnnouncedNone(cursor: nat, n: nat, history: seq<DeviceEvent>)
    requires n <= |history|
    ensures Announced(cursor, history[n..n]) == []
  {
    assert history[n..n] == [];
  }

  lemma {:induction false} AnnouncedStretch(history: seq<DeviceEvent>, cursor: nat, lo: nat, hi: nat)
    requires Numbered(history) && lo <= hi <= |history|
    ensures Announced(cursor, history[lo..hi]) == Worth(history[Clamp(cursor, lo, hi)..hi])
  {
    AnnouncedNone(cursor, lo, history);
    AnnouncedNone(0, lo, history);
    if lo < hi {
      AnnouncedStretch(history, cursor, lo, hi - 1);
      AnnouncedLast(history, cursor, lo, hi);
      StretchGrows(history, cursor, lo, hi);
      hide Announced, Announces, Numbered, Clamp;
    }
  }

  // The last event counts exactly when it is past the cursor.
  lemma StretchGrows(history: seq<DeviceEvent>, cursor: nat, lo: nat, hi: nat)
    requires Numbered(history) && lo < hi <= |history|
    ensures Worth(history[Clamp(cursor, lo, hi)..hi])
            == Worth(history[Clamp(cursor, lo, hi - 1)..hi - 1])
               + if Announces(cursor, history[hi - 1]) then [history[hi - 1]] else []
  {
    assert Announces(cursor, history[hi - 1]) <==> hi > cursor && Announces(0, history[hi - 1]);
    hide Announced, Announces, Numbered;
    if cursor < hi {
      AnnouncedLast(history, 0, Clamp(cursor, lo, hi - 1), hi);
    } else {
      AnnouncedNone(0, hi, history);
      AnnouncedNone(0, hi - 1, history);
    }
  }

  lemma AnnouncedLast(history: seq<DeviceEvent>, cursor: nat, lo: nat, hi: nat)
    requires lo < hi <= |history|
    ensures Announced(cursor, history[lo..hi])
            == Announced(cursor, history[lo..hi - 1]) + if Announces(cursor, history[hi - 1])
                 then [history[hi - 1]] else []
  {
    var part := history[lo..hi];
    assert part[..|part| - 1] == history[lo..hi - 1];
  }

  lemma {:induction false} NewestStretch(history: seq<DeviceEvent>, cursor: nat, lo: nat, hi: nat)
    requires Numbered(history) && lo <= hi <= |history|
    ensures Newest(cursor, history[lo..hi]) == if lo < hi then Max(cursor, hi) else cursor
  {
    if lo < hi {
      NewestStretch(history, cursor, lo, hi - 1);
      assert history[lo..hi][..hi - lo - 1] == history[lo..hi - 1];
    }
  }

  function Clamp(x: nat, lo: nat, hi: nat): nat
    requires lo <= hi
  {
    if x < lo then lo else if x > hi then hi else x
  }

  lemma SnapshotStretch(history: seq<DeviceEvent>, n: nat)
    requires n <= |history|
    ensures Snapshot(history, n) == history[(if n > MAX_EVENTS then n - MAX_EVENTS else 0)..n]
  {
  }

  lemma SnapshotAnnounces(history: seq<DeviceEvent>, cursor: nat, n: nat)
    requires Numbered(history) && n <= |history|
    ensures Announced(cursor, Snapshot(history, n)) == Worth(history[From(cursor, n)..n])
    ensures CursorAfter(cursor, Snapshot(history, n)) == Max(cursor, n)
  {
    SnapshotStretch(history, n);
    AnnouncedStretch(history, cursor, if n > MAX_EVENTS then n - MAX_EVENTS else 0, n);
    NewestStretch(history, cursor, if n > MAX_EVENTS then n - MAX_EVENTS else 0, n);
  }

  // The first snapshot announces nothing: old events are never replayed.
  lemma {:induction false} FirstIsSilent(events: seq<DeviceEvent>)
    ensures Announced(-1, events) == []
  {
    if events == [] {
    } else {
      FirstIsSilent(events[..|events| - 1]);
    }
  }

  lemma FirstCursor(history: seq<DeviceEvent>, n: nat)
    requires Numbered(history) && n <= |history|
    ensures CursorAfter(-1, Snapshot(history, n)) == n
  {
    SnapshotStretch(history, n);
    FirstNewest(history, if n > MAX_EVENTS then n - MAX_EVENTS else 0, n);
  }

  lemma {:induction false} FirstNewest(history: seq<DeviceEvent>, lo: nat, hi: nat)
    requires Numbered(history) && lo <= hi <= |history|
    ensures Newest(-1, history[lo..hi]) == if lo < hi then hi else -1
  {
    if lo < hi {
      FirstNewest(history, lo, hi - 1);
      assert history[lo..hi][..hi - lo - 1] == history[lo..hi - 1];
    }
  }

  // ----- Any sequence of snapshots -----

  datatype Watched = Watched(cursor: int, announced: seq<DeviceEvent>)

  // The tray after snapshots taken at these points of the history, in the
  // order in which it received them.
  function Watch(history: seq<DeviceEvent>, points: seq<nat>): Watched
    requires forall k :: 0 <= k < |points| ==> points[k] <= |history|
  {
    WatchOn(Watched(-1, []), history, points)
  }

  // The same for a tray that has seen something before.
  function WatchOn(seen: Watched, history: seq<DeviceEvent>, points: seq<nat>): Watched
    requires forall k :: 0 <= k < |points| ==> points[k] <= |history|
  {
    if points == [] then seen
    else
      var m := |points| - 1;
      var before := WatchOn(seen, history, points[..m]);
      var events := Snapshot(history, points[m]);
      Watched(CursorAfter(before.cursor, events), before.announced + Announced(before.cursor, events))
  }

  lemma WatchLast(seen: Watched, history: seq<DeviceEvent>, points: seq<nat>)
    requires points != [] && forall k :: 0 <= k < |points| ==> points[k] <= |history|
    ensures var m := |points| - 1;
            var before := WatchOn(seen, history, points[..m]);
            var events := Snapshot(history, points[m]);
            WatchOn(seen, history, points)
            == Watched(CursorAfter(before.cursor, events), before.announced + Announced(before.cursor, events))
  {
    hide Snapshot, Announced, CursorAfter;
  }

  predicate Rising(events: seq<DeviceEvent>, low: int, high: int) {
    && (forall i :: 0 <= i < |events| ==> low < events[i].sequence <= high)
    && (forall i, j :: 0 <= i < j < |events| ==> events[i].sequence < events[j].sequence)
  }

  // A stretch's announced events are those of the stretch that are announced.
  lemma {:induction false} WorthMembers(history: seq<DeviceEvent>, lo: nat, hi: nat, e: DeviceEvent)
    requires lo <= hi <= |history|
    ensures e in Worth(history[lo..hi]) <==> exists i :: lo <= i < hi && history[i] == e && Announces(0, e)
  {
    AnnouncedNone(0, lo, history);
    hide Announced, Announces;
    if lo < hi {
      WorthMembers(history, lo, hi - 1, e);
      AnnouncedLast(history, 0, lo, hi);
    }
  }

  lemma {:induction false} WorthRises(history: seq<DeviceEvent>, lo: nat, hi: nat)
    requires Numbered(history) && lo <= hi <= |history|
    ensures Rising(Worth(history[lo..hi]), lo, hi)
  {
    AnnouncedNone(0, lo, history);
    hide Announced, Announces;
    if lo < hi {
      WorthRises(history, lo, hi - 1);
      AnnouncedLast(history, 0, lo, hi);
    }
  }

  // Whatever the order of the snapshots, announced events have strictly rising
  // numbers: no event is announced twice.
  lemma {:induction false} AnnouncedOnce(history: seq<DeviceEvent>, points: seq<nat>)
    requires Numbered(history) && forall k :: 0 <= k < |points| ==> points[k] <= |history|
    ensures var seen := Watch(history, points);
            Rising(seen.announced, 0, seen.cursor) && (points == [] <==> seen.cursor < 0) && seen.cursor <= |history|
  {
    hide Rising, Worth, Snapshot, Announced, CursorAfter, From;
    if points == [] {
      NothingRises();
    } else {
      var m := |points| - 1;
      var n := points[m];
      var before := Watch(history, points[..m]);
      AnnouncedOnce(history, points[..m]);
      if m == 0 {
        FirstIsSilent(Snapshot(history, n));
        FirstCursor(history, n);
        RisesOn([], 0, [], 0, n);
      } else {
        SnapshotAnnounces(history, before.cursor, n);
        assert From(before.cursor, n) <= n by { FromBounds(before.cursor, n); }
        WorthRises(history, From(before.cursor, n), n);
        FromBounds(before.cursor, n);
        RisesOn(before.announced, before.cursor, Worth(history[From(before.cursor, n)..n]), From(before.cursor, n), n);
      }
    }
  }

  lemma NothingRises()
    ensures Rising([], 0, -1) && Rising([], 0, 0)
  {
  }

  lemma FromBounds(cursor: nat, n: nat)
    ensures From(cursor, n) <= n && (cursor <= From(cursor, n) || From(cursor, n) == n)
  {
  }

  lemma RisesOn(a: seq<DeviceEvent>, cursor: nat, b: seq<DeviceEvent>, from: nat, n: nat)
    requires (Rising(a, 0, cursor) || a == []) && (Rising(b, from, n) || b == []) && (cursor <= from || from == n)
    ensures Rising(a + b, 0, Max(cursor, n))
  {
  }

  // At most 32 events are added from what the tray has seen to each snapshot.
  predicate NoGaps(points: seq<nat>) {
    forall k :: 0 < k < |points| ==> points[k] <= Highest(points[..k]) + MAX_EVENTS
  }

  function Highest(points: seq<nat>): nat {
    if points == [] then 0
    else
      var before := Highest(points[..|points| - 1]);
      if points[|points| - 1] > before then points[|points| - 1] else before
  }

  lemma WorthJoins(history: seq<DeviceEvent>, lo: nat, mid: nat, hi: nat)
    requires lo <= mid <= hi <= |history|
    ensures Worth(history[lo..hi]) == Worth(history[lo..mid]) + Worth(history[mid..hi])
  {
    AnnouncedJoins(history[lo..mid], history[mid..hi]);
    assert history[lo..mid] + history[mid..hi] == history[lo..hi];
  }

  lemma {:induction false} AnnouncedJoins(a: seq<DeviceEvent>, b: seq<DeviceEvent>)
    ensures Announced(0, a + b) == Announced(0, a) + Announced(0, b)
  {
    if b == [] {
      assert a + b == a;
    } else {
      var n := |b| - 1;
      assert (a + b)[..|a| + n] == a + b[..n];
      AnnouncedJoins(a, b[..n]);
    }
  }

  // With no gaps, the tray announces exactly the events added after its first
  // snapshot that the user did not just cause, each once, in order.
  lemma {:induction false} AnnouncedExactly(history: seq<DeviceEvent>, points: seq<nat>)
    requires Numbered(history) && (forall k :: 0 <= k < |points| ==> points[k] <= |history|) && |points| > 0
    requires NoGaps(points)
    ensures points[0] <= Highest(points) <= |history|
    ensures Watch(history, points) == Watched(Highest(points), Worth(history[points[0]..Highest(points)]))
  {
    hide Numbered, Announced, Snapshot, CursorAfter;
    var m := |points| - 1;
    var n := points[m];
    if m == 0 {
      assert points[..0] == [] && WatchOn(Watched(-1, []), history, points[..0]) == Watched(-1, []);
      FirstIsSilent(Snapshot(history, n));
      FirstCursor(history, n);
      WatchLast(Watched(-1, []), history, points);
      AnnouncedNone(0, n, history);
    } else {
      var front := points[..m];
      assert forall k :: 0 < k < |front| ==> front[..k] == points[..k];
      AnnouncedExactly(history, front);
      WatchLast(Watched(-1, []), history, points);
      NextSnapshot(history, points[0], Highest(front), n);
    }
  }

  lemma NextSnapshot(history: seq<DeviceEvent>, first: nat, high: nat, n: nat)
    requires Numbered(history) && first <= high <= |history| && n <= |history| && n <= high + MAX_EVENTS
    ensures CursorAfter(high, Snapshot(history, n)) == Max(high, n)
    ensures Worth(history[first..high]) + Announced(high, Snapshot(history, n)) == Worth(history[first..Max(high, n)])
  {
    hide Snapshot, CursorAfter;
    SnapshotAnnounces(history, high, n);
    if n > high {
      WorthJoins(history, first, high, n);
    } else {
      assert history[n..n] == [];
    }
  }

  // ----- A service that restarts -----

  // A service that restarts numbers its events from 1 again while the tray
  // keeps its cursor. With no gaps beyond that, of the new lifetime the tray
  // announces exactly what comes after as many events as its cursor counts.
  predicate NoGapsFrom(cursor: nat, points: seq<nat>) {
    forall k :: 0 <= k < |points| ==> points[k] <= Max(cursor, Highest(points[..k])) + MAX_EVENTS
  }

  // The part of a history that is past the cursor.
  function Past(cursor: nat, history: seq<DeviceEvent>, high: nat): seq<DeviceEvent>
    requires high <= |history|
  {
    if high > cursor then Worth(history[cursor..high]) else []
  }

  lemma {:induction false} AnnouncedAfterRestart(seen: Watched, history: seq<DeviceEvent>, points: seq<nat>)
    requires Numbered(history) && (forall k :: 0 <= k < |points| ==> points[k] <= |history|)
    requires seen.cursor >= 0 && NoGapsFrom(seen.cursor, points)
    ensures Highest(points) <= |history|
    ensures WatchOn(seen, history, points)
            == Watched(Max(seen.cursor, Highest(points)), seen.announced + Past(seen.cursor, history, Highest(points)))
  {
    hide WatchOn, Past, Announced, Snapshot, CursorAfter, NoGapsFrom, Highest, Numbered;
    if points == [] {
      NothingSeen(seen, history);
    } else {
      var m := |points| - 1;
      GapsButLast(seen.cursor, points);
      AnnouncedAfterRestart(seen, history, points[..m]);
      WatchLast(seen, history, points);
      NextPast(history, seen.cursor, Highest(points[..m]), points[m]);
      assert Highest(points) == Max(Highest(points[..m]), points[m]) by { HighestLast(points); }
      assert seen.announced + Past(seen.cursor, history, Highest(points[..m]))
             + Announced(Max(seen.cursor, Highest(points[..m])), Snapshot(history, points[m]))
             == seen.announced + Past(seen.cursor, history, Highest(points));
    }
  }

  lemma NothingSeen(seen: Watched, history: seq<DeviceEvent>)
    requires seen.cursor >= 0
    ensures Highest([]) == 0
    ensures WatchOn(seen, history, []) == Watched(Max(seen.cursor, 0), seen.announced + Past(seen.cursor, history, 0))
  {
    assert seen.announced + [] == seen.announced;
  }

  lemma HighestLast(points: seq<nat>)
    requires points != []
    ensures Highest(points) == Max(Highest(points[..|points| - 1]), points[|points| - 1])
  {
  }

  lemma GapsButLast(cursor: nat, points: seq<nat>)
    requires points != [] && NoGapsFrom(cursor, points)
    ensures var m := |points| - 1;
            NoGapsFrom(cursor, points[..m]) && points[m] <= Max(cursor, Highest(points[..m])) + MAX_EVENTS
  {
    hide Highest;
    var m := |points| - 1;
    assert forall k :: 0 <= k < m ==> points[..m][..k] == points[..k] && points[..m][k] == points[k];
  }

  lemma NextPast(history: seq<DeviceEvent>, cursor: nat, high: nat, n: nat)
    requires Numbered(history) && high <= |history| && n <= |history| && n <= Max(cursor, high) + MAX_EVENTS
    ensures CursorAfter(Max(cursor, high), Snapshot(history, n)) == Max(cursor, Max(high, n))
    ensures Past(cursor, history, high) + Announced(Max(cursor, high), Snapshot(history, n))
            == Past(cursor, history, Max(high, n))
  {
    hide Snapshot, CursorAfter, Announced;
    SnapshotAnnounces(history, Max(cursor, high), n);
    if n > Max(cursor, high) {
      if high > cursor {
        WorthJoins(history, cursor, high, n);
      }
    } else {
      AnnouncedNone(0, n, history);
    }
  }

  // A tray that watched one lifetime of the service and then another: it
  // announces each event of the first after its first snapshot, and of the
  // second those numbered past all it had seen of the first. The others of the
  // second are silenced.
  lemma TwoLifetimes(first: seq<DeviceEvent>, points: seq<nat>, second: seq<DeviceEvent>, later: seq<nat>)
    requires Numbered(first) && (forall k :: 0 <= k < |points| ==> points[k] <= |first|) && |points| > 0
    requires NoGaps(points)
    requires Numbered(second) && (forall k :: 0 <= k < |later| ==> later[k] <= |second|)
    requires NoGapsFrom(Highest(points), later)
    ensures points[0] <= Highest(points) <= |first| && Highest(later) <= |second|
    ensures WatchOn(Watch(first, points), second, later).announced
            == Worth(first[points[0]..Highest(points)]) + Past(Highest(points), second, Highest(later))
  {
    AnnouncedExactly(first, points);
    hide Watch, WatchOn, Past, Worth;
    AnnouncedAfterRestart(Watch(first, points), second, later);
  }

  // Exactly which events a snapshot announces: those past the cursor that are
  // still in the queue. So an event followed by more than 31 others before the
  // next snapshot is missed.
  lemma AnnouncedIff(history: seq<DeviceEvent>, cursor: nat, n: nat, i: nat)
    requires Numbered(history) && i < n <= |history| && Announces(0, history[i])
    ensures history[i] in Announced(cursor, Snapshot(history, n)) <==> cursor <= i && n <= i + 32
  {
    SnapshotAnnounces(history, cursor, n);
    WorthMembers(history, From(cursor, n), n, history[i]);
    hide Worth, Announced, Snapshot;
  }
}
