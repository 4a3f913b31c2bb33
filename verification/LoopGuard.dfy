// How often a device can be disabled (src/core/WatchdogEngine.cpp, the loop
// protection in handleIncompatible), over whole runs.

module LoopGuard {
  import opened Text
  import opened AudioModel
  import opened Configurations
  import opened DeviceStateStores
  import opened EndpointMemories
  import opened Policies
  import opened EndpointPolicy
  import opened EngineModel
  import opened EndpointFacts
  import opened EngineRuns

  // When a device was verified disabled, since its record was last dropped or
  // reset.
  function Times(deeds: seq<Deed>, key: string): seq<int> {
    if deeds == [] then []
    else TimesAfter(Times(deeds[..|deeds| - 1], key), deeds[|deeds| - 1], key)
  }

  function TimesAfter(times: seq<int>, d: Deed, key: string): seq<int> {
    if d.DidReset? then []
    else if d.key != key || d.DidUserEnable? then times
    else if d.DidDisable? then times + [d.time]
    else []
  }

  // The wall clock does not go back, and has not passed `now`.
  predicate ClocksAscend(ops: seq<Op>, now: int) {
    && (forall i, j :: 0 <= i < j < |ops| && ops[i].StepOp? && ops[j].StepOp? ==>
          ops[i].answers.wallClock <= ops[j].answers.wallClock)
    && (forall i :: 0 <= i < |ops| && ops[i].StepOp? ==> ops[i].answers.wallClock <= now)
  }

  predicate Sorted(s: seq<int>) { forall i, j :: 0 <= i < j < |s| ==> s[i] <= s[j] }

  // Any six in a row are spread over at least a window.
  predicate Spaced(s: seq<int>) {
    forall i :: 0 <= i < |s| - MAX_DISABLES_PER_WINDOW ==> s[i + MAX_DISABLES_PER_WINDOW] - s[i] >= LOOP_WINDOW_MS
  }

  // The kept history is the end of the times; what was pruned is over a day old.
  ghost predicate KeptEnd(history: seq<int>, times: seq<int>, now: int) {
    exists cut: nat :: CutAt(history, times, now, cut)
  }

  predicate CutAt(history: seq<int>, times: seq<int>, now: int, cut: nat) {
    cut <= |times| && history == times[cut..] && forall i :: 0 <= i < cut ==> now - times[i] > DAY_MS
  }

  lemma {:induction false} PruneIsEnd(history: seq<int>, t: int) returns (cut: nat)
    requires Sorted(history)
    ensures CutAt(Prune(history, t), history, t, cut)
  {
    cut := 0;
    if history == [] {
    } else {
      var rest := history[1..];
      assert Sorted(rest) && forall i :: 0 <= i < |rest| ==> rest[i] == history[i + 1] && history[0] <= rest[i];
      hide Sorted;
      var c := PruneIsEnd(rest, t);
      cut := if t - history[0] > DAY_MS then c + 1 else 0;
      PruneOneMore(history, t, c, cut);
    }
  }

  lemma PruneOneMore(history: seq<int>, t: int, c: nat, cut: nat)
    requires history != [] && CutAt(Prune(history[1..], t), history[1..], t, c)
    requires forall i :: 1 <= i < |history| ==> history[0] <= history[i]
    requires cut == if t - history[0] > DAY_MS then c + 1 else 0
    ensures CutAt(Prune(history, t), history, t, cut)
  {
    var rest := history[1..];
    var kept := Prune(rest, t);
    assert Prune(history, t) == (if t - history[0] > DAY_MS then [] else [history[0]]) + kept;
    hide Prune;
    assert forall i :: 0 <= i < |rest| ==> rest[i] == history[i + 1];
    if t - history[0] > DAY_MS {
      assert history[cut..] == rest[c..];
      assert forall i :: 1 <= i < cut ==> history[i] == rest[i - 1];
    } else {
      assert rest != [] ==> t - rest[0] <= DAY_MS;
      assert history == [history[0]] + rest;
    }
  }

  // Pruning the kept history again keeps the end of the times.
  lemma PruneKeepsEnd(history: seq<int>, times: seq<int>, now: int)
    requires Sorted(times) && KeptEnd(history, times, now)
    ensures KeptEnd(Prune(history, now), times, now)
  {
    hide Prune;
    var cut: nat :| CutAt(history, times, now, cut);
    assert Sorted(history);
    var c := PruneIsEnd(history, now);
    assert times[cut..][c..] == times[cut + c..];
    forall i | 0 <= i < cut + c
      ensures now - times[i] > DAY_MS
    {
      if i >= cut { assert times[i] == history[i - cut]; }
    }
    assert CutAt(Prune(history, now), times, now, cut + c);
  }

  lemma {:induction false} CountSplit(a: seq<int>, b: seq<int>, t: int)
    ensures CountRecent(a + b, t) == CountRecent(a, t) + CountRecent(b, t)
  {
    if a == [] {
      assert a + b == b;
    } else {
      assert (a + b)[1..] == a[1..] + b;
      CountSplit(a[1..], b, t);
    }
  }

  lemma {:induction false} CountOld(a: seq<int>, t: int)
    requires forall i :: 0 <= i < |a| ==> t - a[i] >= LOOP_WINDOW_MS
    ensures CountRecent(a, t) == 0
  {
    if a == [] {
    } else {
      assert forall i :: 0 <= i < |a[1..]| ==> a[1..][i] == a[i + 1];
      CountOld(a[1..], t);
    }
  }

  lemma {:induction false} CountNew(a: seq<int>, t: int)
    requires forall i :: 0 <= i < |a| ==> t - a[i] < LOOP_WINDOW_MS
    ensures CountRecent(a, t) == |a|
  {
    if a == [] {
    } else {
      assert forall i :: 0 <= i < |a[1..]| ==> a[1..][i] == a[i + 1];
      CountNew(a[1..], t);
    }
  }

  // The disables less than ten minutes old.
  function Recent(history: seq<int>, t: int): set<int> { set i | 0 <= i < |history| && t - history[i] < 600000 }

  lemma {:induction false} CountIs(history: seq<int>, t: int)
    ensures CountRecent(history, t) == |Recent(history, t)|
  {
    if history == [] {
    } else {
      var n := |history| - 1;
      var front, last := history[..n], history[n];
      assert CountRecent([last], t) == if t - last < 600000 then 1 else 0;
      hide CountRecent;
      CountIs(front, t);
      assert history == front + [last];
      CountSplit(front, [last], t);
      assert Recent(history, t) == Recent(front, t) + if t - last < 600000 then {n} else {};
      assert n !in Recent(front, t);
    }
  }

  // Despite the pruning, the guard counts every disable of the last window.
  lemma CountThroughPruning(history: seq<int>, times: seq<int>, now: int)
    requires Sorted(times) && KeptEnd(history, times, now)
    ensures CountRecent(Prune(history, now), now) == CountRecent(times, now)
  {
    PruneKeepsEnd(history, times, now);
    hide Prune, CountRecent;
    var h := Prune(history, now);
    var cut: nat :| CutAt(h, times, now, cut);
    assert times == times[..cut] + times[cut..];
    CountOld(times[..cut], now);
    CountSplit(times[..cut], times[cut..], now);
  }

  // When fewer than the maximum lie in the last window, one more keeps them
  // spaced.
  lemma SpacedOnceMore(times: seq<int>, t: int)
    requires Sorted(times) && Spaced(times) && (forall i :: 0 <= i < |times| ==> times[i] <= t)
    requires CountRecent(times, t) < MAX_DISABLES_PER_WINDOW
    ensures Sorted(times + [t]) && Spaced(times + [t])
  {
    var n := |times| - MAX_DISABLES_PER_WINDOW;
    if n >= 0 {
      LastFiveSpread(times, t, n);
    }
    var more := times + [t];
    hide CountRecent;
    forall i | 0 <= i < |more| - MAX_DISABLES_PER_WINDOW
      ensures more[i + MAX_DISABLES_PER_WINDOW] - more[i] >= LOOP_WINDOW_MS
    {
      assert i == n || times[i + MAX_DISABLES_PER_WINDOW] - times[i] >= LOOP_WINDOW_MS;
    }
  }

  lemma LastFiveSpread(times: seq<int>, t: int, n: nat)
    requires Sorted(times) && n + MAX_DISABLES_PER_WINDOW == |times|
    requires CountRecent(times, t) < MAX_DISABLES_PER_WINDOW
    ensures t - times[n] >= LOOP_WINDOW_MS
  {
    CountSplit(times[..n], times[n..], t);
    assert times == times[..n] + times[n..];
    if t - times[n] < LOOP_WINDOW_MS {
      CountNew(times[n..], t);
    }
  }

  // ----- The invariant -----

  ghost predicate GuardInvariant(record: Option<DisabledDeviceRecord>, times: seq<int>, now: int) {
    && Sorted(times) && Spaced(times)
    && (forall i :: 0 <= i < |times| ==> times[i] <= now)
    && (record.None? ==> times == [])
    && (record.Some? ==> KeptEnd(record.value.history, times, now))
  }

  lemma Later(record: Option<DisabledDeviceRecord>, times: seq<int>, now: int, later: int)
    requires GuardInvariant(record, times, now) && now <= later
    ensures GuardInvariant(record, times, later)
  {
    if record.Some? {
      var cut: nat :| CutAt(record.value.history, times, now, cut);
      assert CutAt(record.value.history, times, later, cut);
    }
  }

  lemma EmptyKept(now: int)
    ensures KeptEnd([], [], now)
  {
    assert CutAt([], [], now, 0);
  }

  lemma TimesOne(deeds: seq<Deed>, d: Deed, key: string)
    ensures Times(deeds + [d], key) == TimesAfter(Times(deeds, key), d, key)
  {
    assert (deeds + [d])[..|deeds|] == deeds;
  }

  // One operation at wall time `now` keeps the invariant.
  lemma GuardStep(before: Option<DisabledDeviceRecord>, after: Option<DisabledDeviceRecord>, deeds: seq<Deed>,
                  more: seq<Deed>, key: string, now: int)
    requires GuardInvariant(before, Times(deeds, key), now)
    requires RecordMove(before, after, more, key, now)
    ensures GuardInvariant(after, Times(deeds + more, key), now)
  {
    var times := Times(deeds, key);
    if more == [] {
      assert deeds + more == deeds;
      UnmovedStep(before, after, times, now);
    } else {
      var d := more[0];
      assert more == [d];
      TimesOne(deeds, d, key);
      hide Times, Prune, CountRecent, GuardInvariant;
      NothingYet(now);
      if d.DidDisable? && d.key == key {
        DisableStep(before, after, times, now);
      } else if d.DidUserEnable? && d.key == key && before.Some? {
        SameHistory(before, after, times, now);
      } else if d.DidReset? {
        ResetStep(before, after, now);
      }
    }
  }

  lemma UnmovedStep(before: Option<DisabledDeviceRecord>, after: Option<DisabledDeviceRecord>, times: seq<int>,
                    now: int)
    requires GuardInvariant(before, times, now)
    requires after == before
             || (before.Some?
                 && after == Some(before.value.(history := Prune(before.value.history, now), disabled := false)))
    ensures GuardInvariant(after, times, now)
  {
    hide Prune, KeptEnd, Spaced, Sorted;
    if before.Some? {
      PruneKeepsEnd(before.value.history, times, now);
    }
  }

  lemma SameHistory(before: Option<DisabledDeviceRecord>, after: Option<DisabledDeviceRecord>, times: seq<int>,
                    now: int)
    requires GuardInvariant(before, times, now) && before.Some? && after.Some?
    requires after.value.history == before.value.history
    ensures GuardInvariant(after, times, now)
  {
    hide KeptEnd, Spaced, Sorted;
  }

  lemma ResetStep(before: Option<DisabledDeviceRecord>, after: Option<DisabledDeviceRecord>, now: int)
    requires after == (if before.Some? && before.value.disabled then Some(ResetRecord(before.value)) else None)
    ensures GuardInvariant(after, [], now)
  {
    EmptyKept(now);
    hide KeptEnd;
  }

  lemma DisableStep(before: Option<DisabledDeviceRecord>, after: Option<DisabledDeviceRecord>, times: seq<int>, t: int)
    requires GuardInvariant(before, times, t) && after.Some?
    requires var h := if before.Some? then before.value.history else [];
             after.value.history == Prune(h, t) + [t] && CountRecent(Prune(h, t), t) < MAX_DISABLES_PER_WINDOW
    ensures GuardInvariant(after, times + [t], t)
  {
    hide Prune, CountRecent, Sorted, Spaced, KeptEnd;
    EmptyKept(t);
    var h := if before.Some? then before.value.history else [];
    CountThroughPruning(h, times, t);
    SpacedOnceMore(times, t);
    PruneKeepsEnd(h, times, t);
    OneMoreKept(Prune(h, t), times, t);
  }

  lemma OneMoreKept(history: seq<int>, times: seq<int>, t: int)
    requires KeptEnd(history, times, t)
    ensures KeptEnd(history + [t], times + [t], t)
  {
    var cut: nat :| CutAt(history, times, t, cut);
    assert (times + [t])[cut..] == times[cut..] + [t];
    assert CutAt(history + [t], times + [t], t, cut);
  }

  // ----- Whole runs -----

  lemma {:induction false} GuardHolds(st: EngineState, ops: seq<Op>, hasAdmin: bool, key: string, now: int)
    requires Fresh(st) && ValidOps(ops) && ClocksAscend(ops, now)
    ensures var r := RunOps(st, ops, hasAdmin);
            GuardInvariant(RecordOf(r.state, key), Times(r.deeds, key), now)
    decreases |ops|
  {
    hide Apply, Deeds, GuardInvariant, RecordMove;
    if ops == [] {
      NothingYet(now);
    } else {
      var n := |ops| - 1;
      var front, op := ops[..n], ops[n];
      var r := RunOps(st, front, hasAdmin);
      var t := if op.StepOp? then op.answers.wallClock else now;
      GuardHolds(st, front, hasAdmin, key, t);
      RunWellKeyed(st, front, hasAdmin);
      assert ValidOp(op);
      OpMoves(r.state, op, hasAdmin, key);
      ClockAgrees(r.state, op, hasAdmin, key, now);
      var after := RecordOf(Apply(r.state, op, hasAdmin), key);
      GuardStep(RecordOf(r.state, key), after, r.deeds, Deeds(r.state, op, hasAdmin), key, t);
      Later(after, Times(r.deeds + Deeds(r.state, op, hasAdmin), key), t, now);
    }
  }

  lemma NothingYet(now: int)
    ensures GuardInvariant(None, Times([], ""), now) && forall key :: Times([], key) == []
  {
  }

  // Only steps look at the wall clock.
  lemma ClockAgrees(st: EngineState, op: Op, hasAdmin: bool, key: string, now: int)
    requires RecordMove(RecordOf(st, key), RecordOf(Apply(st, op, hasAdmin), key),
                        Deeds(st, op, hasAdmin), key, ClockOf(op))
    ensures var t := if op.StepOp? then op.answers.wallClock else now;
            RecordMove(RecordOf(st, key), RecordOf(Apply(st, op, hasAdmin), key), Deeds(st, op, hasAdmin), key, t)
  {
    hide Lower, LoopKey, Prune, CountRecent, VisitEndpoint;
    if op.SetConfigOp? || op.EnableOp? {
      hide RecordOf;
    }
  }

  // ----- The theorem -----

  // The disables in a half-open window.
  function InWindow(times: seq<int>, start: int): set<int> {
    set i | 0 <= i < |times| && start <= times[i] < start + 600000
  }

  lemma SpacedWindow(times: seq<int>, start: int)
    requires Sorted(times) && Spaced(times)
    ensures |InWindow(times, start)| <= 5
  {
    var w := InWindow(times, start);
    if w != {} {
      var first := FirstIn(times, start);
      var five := {first, first + 1, first + 2, first + 3, first + 4};
      assert forall i :: first + 5 <= i < |times| ==> times[first + 5] <= times[i];
      assert w <= five;
      SubsetSize(w, five);
      assert |five| <= 5;
    }
  }

  lemma FirstIn(times: seq<int>, start: int) returns (first: int)
    requires InWindow(times, start) != {}
    ensures first in InWindow(times, start) && forall i :: i in InWindow(times, start) ==> first <= i
  {
    var some :| some in InWindow(times, start);
    first := 0;
    while first !in InWindow(times, start)
      invariant 0 <= first <= some && forall i :: i in InWindow(times, start) ==> first <= i
      decreases some - first
    {
      first := first + 1;
    }
  }

  lemma SubsetSize(a: set<int>, b: set<int>)
    requires a <= b
    ensures |a| <= |b|
  {
    assert b == a + (b - a);
  }

  // Between two resets of its record a device is disabled at most five times
  // in any ten minutes, whatever happens in between.
  lemma AtMostFivePerWindow(st: EngineState, ops: seq<Op>, hasAdmin: bool, key: string, now: int, start: int)
    requires Fresh(st) && ValidOps(ops) && ClocksAscend(ops, now)
    ensures |InWindow(Times(RunOps(st, ops, hasAdmin).deeds, key), start)| <= 5
  {
    hide RunOps;
    GuardHolds(st, ops, hasAdmin, key, now);
    SpacedWindow(Times(RunOps(st, ops, hasAdmin).deeds, key), start);
  }

  // The guard is exact: it makes a device wait only when that many disables
  // lie in the last window, all of them counted, and lets it be disabled only
  // when fewer do.
  lemma GuardIsExact(st: EngineState, ops: seq<Op>, hasAdmin: bool, kind: ScanKind, cfg: Configuration,
                     ep: AudioEndpoint, a: Answers)
    requires Fresh(st) && ValidOps(ops) && ep.id != "" && ClocksAscend(ops, a.wallClock)
    ensures var r := RunOps(st, ops, hasAdmin);
            var v := VisitAt(r.state, kind, cfg, hasAdmin, ep, a);
            var recent := |Recent(Times(r.deeds, Lower(ep.id)), a.wallClock)|;
            && (VerifiedDisable(v, ep, a) ==> recent < 5)
            && (v.Visited? && v.report.Some? && v.report.value.reason.WaitingForWindow? ==>
                  recent >= 5 && v.report.value.reason.times == recent)
  {
    hide RunOps, VisitEndpoint, Prune, CountRecent, GuardRecord, VerifiedDisable, VerifiedEnable, Lower, LoopKey;
    hide RecordKept, Recent;
    var r := RunOps(st, ops, hasAdmin);
    CountIs(Times(r.deeds, Lower(ep.id)), a.wallClock);
    var s := SliceOf(r.state, ep.id);
    GuardHolds(st, ops, hasAdmin, Lower(ep.id), a.wallClock);
    RunWellKeyed(st, ops, hasAdmin);
    assert GoodRecord(s);
    VisitFacts(kind, cfg, hasAdmin, ep, s, a);
    GuardHistory(s, a.wallClock);
    EmptyKept(a.wallClock);
    CountThroughPruning(if s.record.Some? then s.record.value.history else [], Times(r.deeds, Lower(ep.id)),
                        a.wallClock);
  }

  // Of a device that comes to the guard and was not left enabled by the user:
  // it waits if and only if five or more of its real disables lie in the last
  // window, and otherwise, being active, it is asked to be disabled.
  lemma GuardWaitsIff(st: EngineState, ops: seq<Op>, hasAdmin: bool, cfg: Configuration, ep: AudioEndpoint, s: Slice,
                      d: DeviceReport, a: Answers)
    requires Fresh(st) && ValidOps(ops) && ep.id != "" && ClocksAscend(ops, a.wallClock)
    requires s.record == RecordOf(RunOps(st, ops, hasAdmin).state, Lower(ep.id))
    requires !d.reason.WaitingForWindow? && !(s.record.Some? && s.record.value.leftEnabled)
    ensures var recent := |Recent(Times(RunOps(st, ops, hasAdmin).deeds, Lower(ep.id)), a.wallClock)|;
            var e := GuardPhase(ep, cfg, s, d, a);
            && (e.device.reason.WaitingForWindow? <==> recent >= 5)
            && (e.device.reason.WaitingForWindow? ==> e.device.reason.times == recent && e.writes == [])
            && (a.liveBeforeDisable == Reply(RESULT_OK, Active) ==>
                  (e.writes == [WriteEnabled(ep.id, false)] <==> recent < 5))
  {
    hide RunOps, Prune, CountRecent, Lower, DisabledRecord, Recent;
    var deeds := RunOps(st, ops, hasAdmin).deeds;
    CountIs(Times(deeds, Lower(ep.id)), a.wallClock);
    GuardHolds(st, ops, hasAdmin, Lower(ep.id), a.wallClock);
    GuardHistory(s, a.wallClock);
    EmptyKept(a.wallClock);
    CountThroughPruning(if s.record.Some? then s.record.value.history else [], Times(deeds, Lower(ep.id)), a.wallClock);
    assert !GuardRecord(s, a.wallClock).leftEnabled;
    hide GuardRecord, Times;
  }
}
