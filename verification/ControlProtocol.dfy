// Any number of threads sharing one control client (src/ipc/ControlClient.cpp):
// senders, the connection's reader, and the thread that ends the client.

module ControlProtocol {
  import opened ControlClients

  type ThreadId = nat

  // What a thread has under way: a request it registered and did not write
  // yet, or callbacks it took out of the table and did not call yet.
  datatype Local = Free | Sending(id: RequestId) | Holding(owing: seq<Delivery>)

  // Where a callback is; an observer's note.
  datatype Place = InTable | With(thread: ThreadId) | Told
  datatype Spot = Spot(id: RequestId, place: Place)

  datatype State = State(table: Table, locals: map<ThreadId, Local>, delivered: seq<Delivery>,
                         spots: map<Callback, Spot>)

  const INITIAL := State(Table(map[], 1), map[], [], map[])

  function LocalOf(s: State, t: ThreadId): Local { if t in s.locals then s.locals[t] else Free }

  // Each event is one critical section, or one call of a callback. Responses
  // may come for any id: unknown, answered already, or never sent.
  datatype Event = Issue(callback: Callback) | Sent | NotSent | Receive(id: RequestId) | Lose(destroyed: bool) | Tell

  ghost function Step(s: State, t: ThreadId, e: Event): State {
    match e
    case Issue(callback) => if LocalOf(s, t).Free? && callback !in s.spots then Issued(s, t, callback) else s
    case Sent => if LocalOf(s, t).Sending? then s.(locals := s.locals[t := Free]) else s
    case NotSent => if LocalOf(s, t).Sending? then Taken(s, t, LocalOf(s, t).id, NotConnected) else s
    case Receive(id) => if LocalOf(s, t).Free? then Taken(s, t, id, Response(id)) else s
    case Lose(destroyed) =>
      if LocalOf(s, t).Free? then AllTaken(s, t, if destroyed then ClientDestroyed else ConnectionLost) else s
    case Tell => if LocalOf(s, t).Holding? then OneTold(s, t, LocalOf(s, t).owing) else s
  }

  function Issued(s: State, t: ThreadId, callback: Callback): State {
    State(Registered(s.table, callback), s.locals[t := Sending(s.table.nextId)], s.delivered,
          s.spots[callback := Spot(s.table.nextId, InTable)])
  }

  function Taken(s: State, t: ThreadId, id: RequestId, answer: Answer): State {
    State(TakenOut(s.table, id), s.locals[t := Holding(Owing(s.table, id, answer))], s.delivered,
          if id in s.table.pending then s.spots[s.table.pending[id] := Spot(id, With(t))] else s.spots)
  }

  ghost function AllTaken(s: State, t: ThreadId, answer: Answer): State {
    State(s.table.(pending := map[]), s.locals[t := Holding(AllOwing(s.table.pending, answer))], s.delivered,
          map callback | callback in s.spots ::
            if s.spots[callback].place.InTable? then s.spots[callback].(place := With(t)) else s.spots[callback])
  }

  function OneTold(s: State, t: ThreadId, owing: seq<Delivery>): State {
    if owing == [] then s.(locals := s.locals[t := Free])
    else
      var callback := owing[0].callback;
      State(s.table, s.locals[t := Holding(owing[1..])], s.delivered + [owing[0]],
            if callback in s.spots then s.spots[callback := s.spots[callback].(place := Told)] else s.spots)
  }

  type Trace = seq<(ThreadId, Event)>

  ghost function Run(trace: Trace): State {
    if trace == [] then INITIAL
    else
      var n := |trace| - 1;
      Step(Run(trace[..n]), trace[n].0, trace[n].1)
  }

  // ----- The invariant -----

  predicate At(s: State, callback: Callback, id: RequestId, place: Place) {
    callback in s.spots && s.spots[callback] == Spot(id, place)
  }

  // A response only reaches the callback registered under its id.
  predicate Fits(d: Delivery, id: RequestId) { d.answer.Response? ==> d.answer.id == id }

  predicate Accounted(s: State, d: Delivery, place: Place) {
    d.callback in s.spots && s.spots[d.callback].place == place && Fits(d, s.spots[d.callback].id)
  }

  predicate AllAccounted(s: State, ds: seq<Delivery>, place: Place) {
    OncePerDelivery(ds) && forall i :: 0 <= i < |ds| ==> Accounted(s, ds[i], place)
  }

  ghost predicate TableOk(s: State) {
    forall id :: id in s.table.pending ==> id < s.table.nextId && At(s, s.table.pending[id], id, InTable)
  }

  predicate HeldOk(s: State, t: ThreadId) { LocalOf(s, t).Holding? ==> AllAccounted(s, LocalOf(s, t).owing, With(t)) }

  predicate SpotOk(s: State, callback: Callback) {
    callback in s.spots ==>
      var Spot(id, place) := s.spots[callback];
      && id < s.table.nextId
      && (place.InTable? ==> id in s.table.pending && s.table.pending[id] == callback)
      && (place.With? ==> LocalOf(s, place.thread).Holding? && Mentions(LocalOf(s, place.thread).owing, callback))
      && (place.Told? ==> Mentions(s.delivered, callback))
  }

  ghost predicate Valid(s: State) {
    && TableOk(s) && AllAccounted(s, s.delivered, Told)
    && (forall t: ThreadId :: HeldOk(s, t)) && (forall callback: Callback :: SpotOk(s, callback))
  }

  // What stays accounted for when spots change elsewhere.
  lemma StillAccounted(s: State, s': State, ds: seq<Delivery>, place: Place)
    requires AllAccounted(s, ds, place)
    requires forall callback :: callback in s.spots && s.spots[callback].place == place ==>
               callback in s'.spots && s'.spots[callback] == s.spots[callback]
    ensures AllAccounted(s', ds, place)
  {
    assert forall i :: 0 <= i < |ds| ==> Accounted(s, ds[i], place);
  }

  lemma IssueStep(s: State, t: ThreadId, callback: Callback)
    requires Valid(s) && LocalOf(s, t).Free? && callback !in s.spots
    ensures Valid(Issued(s, t, callback))
  {
    var s' := Issued(s, t, callback);
    StillAccounted(s, s', s.delivered, Told);
    forall u: ThreadId
      ensures HeldOk(s', u)
    {
      assert HeldOk(s, u);
      if u != t && LocalOf(s, u).Holding? {
        StillAccounted(s, s', LocalOf(s, u).owing, With(u));
      }
    }
    forall c: Callback
      ensures SpotOk(s', c)
    {
      assert SpotOk(s, c);
    }
  }

  lemma SentStep(s: State, t: ThreadId)
    requires Valid(s) && !LocalOf(s, t).Holding?
    ensures Valid(s.(locals := s.locals[t := Free]))
  {
    var s' := s.(locals := s.locals[t := Free]);
    StillAccounted(s, s', s.delivered, Told);
    forall u: ThreadId
      ensures HeldOk(s', u)
    {
      assert HeldOk(s, u);
      if u != t && LocalOf(s, u).Holding? {
        StillAccounted(s, s', LocalOf(s, u).owing, With(u));
      }
    }
    forall c: Callback
      ensures SpotOk(s', c)
    {
      assert SpotOk(s, c);
    }
  }

  lemma TakeStep(s: State, t: ThreadId, id: RequestId, answer: Answer)
    requires Valid(s) && !LocalOf(s, t).Holding? && (answer.Response? ==> answer.id == id)
    ensures Valid(Taken(s, t, id, answer))
  {
    var s' := Taken(s, t, id, answer);
    assert id in s.table.pending ==> At(s, s.table.pending[id], id, InTable);
    StillAccounted(s, s', s.delivered, Told);
    forall u: ThreadId
      ensures HeldOk(s', u)
    {
      assert HeldOk(s, u);
      if u != t && LocalOf(s, u).Holding? {
        StillAccounted(s, s', LocalOf(s, u).owing, With(u));
      }
    }
    forall c: Callback
      ensures SpotOk(s', c)
    {
      assert SpotOk(s, c);
      if id in s.table.pending && c == s.table.pending[id] {
        assert LocalOf(s', t).owing[0].callback == c;
      }
    }
    forall k | k in s'.table.pending
      ensures k < s'.table.nextId && At(s', s'.table.pending[k], k, InTable)
    {
      assert At(s, s.table.pending[k], k, InTable);
    }
  }

  lemma PendingOnce(s: State)
    requires TableOk(s)
    ensures OncePerId(s.table.pending)
  {
    var p := s.table.pending;
    forall i, j | i in p && j in p && i != j
      ensures p[i] != p[j]
    {
      assert At(s, p[i], i, InTable) && At(s, p[j], j, InTable);
    }
  }

  lemma LoseStep(s: State, t: ThreadId, answer: Answer)
    requires Valid(s) && LocalOf(s, t).Free? && !answer.Response?
    ensures Valid(AllTaken(s, t, answer))
  {
    var s' := AllTaken(s, t, answer);
    PendingOnce(s);
    AllOwingMeans(s.table.pending, answer);
    StillAccounted(s, s', s.delivered, Told);
    var ds := AllOwing(s.table.pending, answer);
    forall i | 0 <= i < |ds|
      ensures Accounted(s', ds[i], With(t))
    {
      assert Mentions(ds, ds[i].callback);
      var id :| id in s.table.pending && s.table.pending[id] == ds[i].callback;
      assert At(s, ds[i].callback, id, InTable);
    }
    forall u: ThreadId
      ensures HeldOk(s', u)
    {
      assert HeldOk(s, u);
      if u != t && LocalOf(s, u).Holding? {
        StillAccounted(s, s', LocalOf(s, u).owing, With(u));
      }
    }
    forall c: Callback
      ensures SpotOk(s', c)
    {
      assert SpotOk(s, c);
      if c in s.spots && s.spots[c].place.InTable? {
        assert s.table.pending[s.spots[c].id] == c;
        assert Owes(s.table.pending, c);
      }
    }
  }

  lemma TellStep(s: State, t: ThreadId)
    requires Valid(s) && LocalOf(s, t).Holding?
    ensures Valid(OneTold(s, t, LocalOf(s, t).owing))
  {
    var owing := LocalOf(s, t).owing;
    var s' := OneTold(s, t, owing);
    assert HeldOk(s, t);
    if owing == [] {
      FreedStep(s, t);
    } else {
      var d := owing[0];
      assert Accounted(s, d, With(t));
      ToldDelivered(s, s', owing, t);
      forall u: ThreadId
        ensures HeldOk(s', u)
      {
        assert HeldOk(s, u);
        if u == t {
          RestHeld(s, s', owing, t);
        } else if LocalOf(s, u).Holding? {
          StillAccounted(s, s', LocalOf(s, u).owing, With(u));
        }
      }
      forall c: Callback
        ensures SpotOk(s', c)
      {
        assert SpotOk(s, c);
        ToldSpot(s, s', owing, t, c);
      }
    }
  }

  lemma FreedStep(s: State, t: ThreadId)
    requires Valid(s) && LocalOf(s, t) == Holding([])
    ensures Valid(s.(locals := s.locals[t := Free]))
  {
    var s' := s.(locals := s.locals[t := Free]);
    StillAccounted(s, s', s.delivered, Told);
    forall u: ThreadId
      ensures HeldOk(s', u)
    {
      assert HeldOk(s, u);
      if u != t && LocalOf(s, u).Holding? {
        StillAccounted(s, s', LocalOf(s, u).owing, With(u));
      }
    }
    forall c: Callback
      ensures SpotOk(s', c)
    {
      assert SpotOk(s, c);
    }
  }

  lemma ToldDelivered(s: State, s': State, owing: seq<Delivery>, t: ThreadId)
    requires AllAccounted(s, s.delivered, Told) && AllAccounted(s, owing, With(t)) && owing != []
    requires s' == OneTold(s, t, owing)
    ensures AllAccounted(s', s'.delivered, Told)
  {
    StillAccounted(s, s', s.delivered, Told);
    assert Accounted(s, owing[0], With(t));
    assert forall i :: 0 <= i < |s.delivered| ==> Accounted(s, s.delivered[i], Told);
  }

  lemma RestHeld(s: State, s': State, owing: seq<Delivery>, t: ThreadId)
    requires AllAccounted(s, owing, With(t)) && owing != [] && s' == OneTold(s, t, owing)
    ensures AllAccounted(s', owing[1..], With(t))
  {
    var rest := owing[1..];
    assert forall i :: 0 <= i < |rest| ==> rest[i] == owing[i + 1];
    forall i | 0 <= i < |rest|
      ensures Accounted(s', rest[i], With(t))
    {
      assert Accounted(s, owing[i + 1], With(t)) && owing[0].callback != owing[i + 1].callback;
    }
  }

  lemma ToldSpot(s: State, s': State, owing: seq<Delivery>, t: ThreadId, c: Callback)
    requires SpotOk(s, c) && owing != [] && LocalOf(s, t) == Holding(owing) && s' == OneTold(s, t, owing)
    ensures SpotOk(s', c)
  {
    if c in s.spots {
      var d := owing[0];
      if c == d.callback {
        assert s'.delivered[|s.delivered|].callback == c;
      } else if s.spots[c].place == With(t) {
        var i :| 0 <= i < |owing| && owing[i].callback == c;
        assert owing[1..][i - 1].callback == c;
      } else if s.spots[c].place.Told? {
        var i :| 0 <= i < |s.delivered| && s.delivered[i].callback == c;
        assert s'.delivered[i].callback == c;
      }
    }
  }

  lemma StepValid(s: State, t: ThreadId, e: Event)
    requires Valid(s)
    ensures Valid(Step(s, t, e))
  {
    hide Valid, Issued, Taken, AllTaken, OneTold;
    if e.Issue? {
      if LocalOf(s, t).Free? && e.callback !in s.spots {
        IssueStep(s, t, e.callback);
      }
    } else if e.Sent? {
      if LocalOf(s, t).Sending? {
        SentStep(s, t);
      }
    } else if e.NotSent? {
      if LocalOf(s, t).Sending? {
        TakeStep(s, t, LocalOf(s, t).id, NotConnected);
      }
    } else if e.Receive? {
      if LocalOf(s, t).Free? {
        TakeStep(s, t, e.id, Response(e.id));
      }
    } else if e.Lose? {
      if LocalOf(s, t).Free? {
        LoseStep(s, t, if e.destroyed then ClientDestroyed else ConnectionLost);
      }
    } else if LocalOf(s, t).Holding? {
      TellStep(s, t);
    }
  }

  lemma {:induction false} RunValid(trace: Trace)
    ensures Valid(Run(trace))
  {
    hide Step;
    if trace == [] {
      NothingYet();
    } else {
      var n := |trace| - 1;
      RunValid(trace[..n]);
      StepValid(Run(trace[..n]), trace[n].0, trace[n].1);
    }
  }

  lemma NothingYet()
    ensures Valid(INITIAL)
  {
  }

  // ----- Exactly one place -----

  datatype Position = InPending(id: RequestId) | InHand(thread: ThreadId, index: nat) | InDelivered(index: nat)

  predicate IsAt(s: State, callback: Callback, p: Position) {
    match p
    case InPending(id) => id in s.table.pending && s.table.pending[id] == callback
    case InHand(t, i) =>
      LocalOf(s, t).Holding? && i < |LocalOf(s, t).owing| && LocalOf(s, t).owing[i].callback == callback
    case InDelivered(i) => i < |s.delivered| && s.delivered[i].callback == callback
  }

  // In every interleaving of senders, failing sends, responses and lost
  // connections, a callback handed to send() is in exactly one place: waiting
  // in the table, held by one thread that is about to call it, or called. So
  // it is called at most once; nothing else is ever called.
  lemma ExactlyOnePlace(trace: Trace, callback: Callback)
    ensures var s := Run(trace);
            && (callback in s.spots <==> exists p :: IsAt(s, callback, p))
            && (forall p, q :: IsAt(s, callback, p) && IsAt(s, callback, q) ==> p == q)
  {
    var s := Run(trace);
    RunValid(trace);
    hide Run;
    assert SpotOk(s, callback);
    forall p | IsAt(s, callback, p)
      ensures callback in s.spots
      ensures p == PositionOf(s, callback)
    {
      PlaceIs(s, callback, p);
    }
    if callback in s.spots {
      PositionExists(s, callback);
    }
  }

  ghost function PositionOf(s: State, callback: Callback): Position {
    if p :| IsAt(s, callback, p) then p else InPending(0)
  }

  lemma PositionExists(s: State, callback: Callback)
    requires SpotOk(s, callback) && callback in s.spots
    ensures exists p :: IsAt(s, callback, p)
  {
    var Spot(id, place) := s.spots[callback];
    match place {
      case InTable =>
        assert IsAt(s, callback, InPending(id));
      case With(t) =>
        var i: nat :| i < |LocalOf(s, t).owing| && LocalOf(s, t).owing[i].callback == callback;
        assert IsAt(s, callback, InHand(t, i));
      case Told =>
        var i: nat :| i < |s.delivered| && s.delivered[i].callback == callback;
        assert IsAt(s, callback, InDelivered(i));
    }
  }

  lemma PlaceIs(s: State, callback: Callback, p: Position)
    requires Valid(s) && IsAt(s, callback, p)
    ensures callback in s.spots && p == PositionOf(s, callback)
  {
    var q := PositionOf(s, callback);
    assert IsAt(s, callback, q);
    PlaceOf(s, callback, p);
    PlaceOf(s, callback, q);
    if p.InHand? {
      assert HeldOk(s, p.thread);
    }
  }

  // Where a callback is determines its spot.
  lemma PlaceOf(s: State, callback: Callback, p: Position)
    requires Valid(s) && IsAt(s, callback, p)
    ensures callback in s.spots
    ensures s.spots[callback].place
            == match p case InPending(_) => InTable case InHand(t, _) => With(t) case InDelivered(_) => Told
    ensures p.InPending? ==> s.spots[callback].id == p.id
  {
    match p {
      case InPending(id) =>
        assert At(s, s.table.pending[id], id, InTable);
      case InHand(t, i) =>
        assert HeldOk(s, t) && Accounted(s, LocalOf(s, t).owing[i], With(t));
      case InDelivered(i) =>
        assert Accounted(s, s.delivered[i], Told);
    }
  }

  // A callback told "delivered" got the response that carries the id it was
  // registered under.
  lemma ResponsesFit(trace: Trace, i: nat)
    requires i < |Run(trace).delivered| && Run(trace).delivered[i].answer.Response?
    ensures var s := Run(trace);
            var d := s.delivered[i];
            d.callback in s.spots && s.spots[d.callback].id == d.answer.id
  {
    RunValid(trace);
    var s := Run(trace);
    hide Run;
    assert Accounted(s, s.delivered[i], Told);
  }

  // ----- The destructor -----

  // One thread fails everything that is pending and calls the callbacks.
  function Destruction(d: ThreadId, count: nat): Trace {
    if count == 0 then [(d, Lose(true))] else Destruction(d, count - 1) + [(d, Tell)]
  }

  ghost predicate AllFree(s: State) { forall t: ThreadId :: LocalOf(s, t).Free? }

  // Thread d took everything and called the first `count` callbacks, and then
  // returned; nobody else does anything.
  ghost predicate Destroying(before: seq<Delivery>, owing: seq<Delivery>, s: State, d: ThreadId, count: nat) {
    var told := if count <= |owing| then count else |owing|;
    && s.table.pending == map[]
    && (forall t: ThreadId :: t != d ==> LocalOf(s, t).Free?)
    && LocalOf(s, d) == (if count <= |owing| then Holding(owing[count..]) else Free)
    && s.delivered == before + owing[..told]
  }

  lemma DestroyingOn(before: seq<Delivery>, owing: seq<Delivery>, s: State, d: ThreadId, count: nat)
    requires Destroying(before, owing, s, d, count) && count <= |owing|
    ensures Destroying(before, owing, OneTold(s, d, LocalOf(s, d).owing), d, count + 1)
  {
    var s' := OneTold(s, d, LocalOf(s, d).owing);
    assert forall t: ThreadId :: t != d ==> LocalOf(s', t) == LocalOf(s, t);
  }

  lemma DestroyingStarts(s: State, d: ThreadId)
    requires AllFree(s)
    ensures Destroying(s.delivered, AllOwing(s.table.pending, ClientDestroyed), Step(s, d, Lose(true)), d, 0)
  {
    hide AllOwing;
    var s' := Step(s, d, Lose(true));
    assert s' == AllTaken(s, d, ClientDestroyed);
    assert forall t: ThreadId :: t != d ==> LocalOf(s', t) == LocalOf(s, t);
  }

  lemma RunMore(trace: Trace, more: Trace, t: ThreadId, e: Event)
    ensures Run(trace + (more + [(t, e)])) == Step(Run(trace + more), t, e)
  {
    hide Step;
    assert (trace + (more + [(t, e)]))[..|trace + more|] == trace + more;
  }

  lemma {:induction false} DestructionRuns(trace: Trace, d: ThreadId, count: nat)
    requires AllFree(Run(trace)) && count <= |AllOwing(Run(trace).table.pending, ClientDestroyed)| + 1
    ensures Destroying(Run(trace).delivered, AllOwing(Run(trace).table.pending, ClientDestroyed),
                       Run(trace + Destruction(d, count)), d, count)
  {
    var before := Run(trace);
    var owing := AllOwing(before.table.pending, ClientDestroyed);
    hide AllOwing, Run;
    if count == 0 {
      RunMore(trace, [], d, Lose(true));
      assert trace + [] == trace && [] + [(d, Lose(true))] == Destruction(d, 0);
      DestroyingStarts(before, d);
      hide Destroying, Step;
    } else {
      DestructionRuns(trace, d, count - 1);
      RunMore(trace, Destruction(d, count - 1), d, Tell);
      var prev := Run(trace + Destruction(d, count - 1));
      assert Step(prev, d, Tell) == OneTold(prev, d, LocalOf(prev, d).owing);
      DestroyingOn(before.delivered, owing, prev, d, count - 1);
      hide Destroying, Step;
    }
  }

  // When nobody is inside the client any more, the destructor leaves every
  // callback ever handed to send() called exactly once, and those that were
  // still waiting are told that the client was destroyed.
  lemma DestructorSettlesAll(trace: Trace, d: ThreadId, callback: Callback)
    requires AllFree(Run(trace))
    ensures var before := Run(trace);
            var count := |AllOwing(before.table.pending, ClientDestroyed)| + 1;
            var s := Run(trace + Destruction(d, count));
            && (callback in before.spots ==> exists i :: 0 <= i < |s.delivered| && s.delivered[i].callback == callback)
            && OncePerDelivery(s.delivered)
            && before.delivered <= s.delivered
            && (Owes(before.table.pending, callback) ==>
                  exists i :: 0 <= i < |s.delivered| && s.delivered[i] == Delivery(callback, ClientDestroyed))
  {
    hide Run, AllOwing, Valid, Destroying, Destruction;
    var before := Run(trace);
    var owing := AllOwing(before.table.pending, ClientDestroyed);
    var s := Run(trace + Destruction(d, |owing| + 1));
    RunValid(trace);
    RunValid(trace + Destruction(d, |owing| + 1));
    DestructionRuns(trace, d, |owing| + 1);
    AllDelivered(before, s, owing, d, callback);
  }

  lemma AllDelivered(before: State, s: State, owing: seq<Delivery>, d: ThreadId, callback: Callback)
    requires Valid(before) && Valid(s) && AllFree(before)
    requires owing == AllOwing(before.table.pending, ClientDestroyed)
    requires Destroying(before.delivered, owing, s, d, |owing| + 1)
    ensures callback in before.spots ==> Mentions(s.delivered, callback)
    ensures OncePerDelivery(s.delivered) && before.delivered <= s.delivered
    ensures Owes(before.table.pending, callback) ==>
              exists i :: 0 <= i < |s.delivered| && s.delivered[i] == Delivery(callback, ClientDestroyed)
  {
    PendingOnce(before);
    AllOwingMeans(before.table.pending, ClientDestroyed);
    assert s.delivered == before.delivered + owing;
    assert SpotOk(before, callback);
    hide AllOwing, Valid, Destroying, SpotOk, TableOk, OncePerId;
    if Owes(before.table.pending, callback) {
      var i :| 0 <= i < |owing| && owing[i].callback == callback;
      assert s.delivered[|before.delivered| + i] == owing[i];
    } else if callback in before.spots {
      ToldBefore(before, callback);
      var i :| 0 <= i < |before.delivered| && before.delivered[i].callback == callback;
      assert s.delivered[i].callback == callback;
    }
  }

  // With nobody inside the client, what is not waiting was called.
  lemma ToldBefore(s: State, callback: Callback)
    requires SpotOk(s, callback) && AllFree(s) && callback in s.spots && !Owes(s.table.pending, callback)
    ensures Mentions(s.delivered, callback)
  {
    var Spot(id, place) := s.spots[callback];
    assert !(id in s.table.pending && s.table.pending[id] == callback);
    assert place.With? ==> LocalOf(s, place.thread).Free?;
  }
}
