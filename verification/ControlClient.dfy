// The client of the control channel and its table of unanswered requests
// (src/ipc/ControlClient.cpp).

module ControlClients {
  type RequestId = int

  // One callback handed to send(); no two calls hand over the same one.
  type Callback = nat

  // What a callback is told.
  datatype Answer = Response(id: RequestId) | NotConnected | ConnectionLost | ClientDestroyed

  datatype Delivery = Delivery(callback: Callback, answer: Answer)

  datatype Table = Table(pending: map<RequestId, Callback>, nextId: RequestId)

  // ----- The critical sections under pendingLock_ -----

  function Registered(t: Table, callback: Callback): Table { Table(t.pending[t.nextId := callback], t.nextId + 1) }

  function TakenOut(t: Table, id: RequestId): Table { t.(pending := t.pending - {id}) }

  // The deliveries a taken request calls for.
  function Owing(t: Table, id: RequestId, answer: Answer): seq<Delivery> {
    if id in t.pending then [Delivery(t.pending[id], answer)] else []
  }

  predicate IsLeast(ids: set<RequestId>, id: RequestId) { id in ids && forall k :: k in ids ==> id <= k }

  lemma {:induction false} LeastExists(ids: set<RequestId>)
    requires ids != {}
    ensures exists id :: IsLeast(ids, id)
  {
    assert (forall k :: k !in ids) ==> ids == {};
    var some :| some in ids;
    var rest := ids - {some};
    assert ids == {some} + rest;
    if rest == {} {
      assert IsLeast(ids, some);
    } else {
      LeastExists(rest);
      var least :| IsLeast(rest, least);
      assert IsLeast(ids, if some <= least then some else least);
    }
  }

  // Every unanswered request, by ascending id.
  ghost function AllOwing(pending: map<RequestId, Callback>, answer: Answer): seq<Delivery> {
    if pending == map[] then []
    else
      LeastExists(pending.Keys);
      var id :| IsLeast(pending.Keys, id);
      [Delivery(pending[id], answer)] + AllOwing(pending - {id}, answer)
  }

  lemma AllOwingFirst(pending: map<RequestId, Callback>, answer: Answer, id: RequestId)
    requires IsLeast(pending.Keys, id)
    ensures AllOwing(pending, answer) == [Delivery(pending[id], answer)] + AllOwing(pending - {id}, answer)
  {
    assert forall other :: IsLeast(pending.Keys, other) ==> other == id;
  }

  predicate Owes(pending: map<RequestId, Callback>, callback: Callback) {
    exists id :: id in pending && pending[id] == callback
  }

  predicate Mentions(ds: seq<Delivery>, callback: Callback) { exists i :: 0 <= i < |ds| && ds[i].callback == callback }

  predicate OncePerId(pending: map<RequestId, Callback>) {
    forall i, j :: i in pending && j in pending && i != j ==> pending[i] != pending[j]
  }

  predicate OncePerDelivery(ds: seq<Delivery>) { forall i, j :: 0 <= i < j < |ds| ==> ds[i].callback != ds[j].callback }

  // Failing everything answers each unanswered request, once, with that answer.
  lemma {:induction false} AllOwingMeans(pending: map<RequestId, Callback>, answer: Answer)
    requires OncePerId(pending)
    ensures var ds := AllOwing(pending, answer);
            && (forall i :: 0 <= i < |ds| ==> ds[i].answer == answer)
            && (forall callback :: Mentions(ds, callback) <==> Owes(pending, callback))
            && OncePerDelivery(ds)
  {
    if pending != map[] {
      LeastExists(pending.Keys);
      var least :| IsLeast(pending.Keys, least);
      AllOwingFirst(pending, answer, least);
      var rest := pending - {least};
      AllOwingMeans(rest, answer);
      var tail := AllOwing(rest, answer);
      hide AllOwing;
      OwesOneMore(pending, least);
      var first := Delivery(pending[least], answer);
      MentionsOneMore(first, tail);
    } else {
      assert AllOwing(pending, answer) == [];
    }
  }

  lemma OwesOneMore(pending: map<RequestId, Callback>, id: RequestId)
    requires id in pending && OncePerId(pending)
    ensures OncePerId(pending - {id})
    ensures forall callback :: Owes(pending, callback) <==> callback == pending[id] || Owes(pending - {id}, callback)
    ensures !Owes(pending - {id}, pending[id])
  {
    var rest := pending - {id};
    forall callback
      ensures Owes(pending, callback) <==> callback == pending[id] || Owes(rest, callback)
    {
      if k :| k in pending && pending[k] == callback {
        assert k == id || (k in rest && rest[k] == callback);
      }
      if k :| k in rest && rest[k] == callback {
        assert pending[k] == callback;
      }
    }
  }

  lemma MentionsOneMore(first: Delivery, tail: seq<Delivery>)
    requires OncePerDelivery(tail) && !Mentions(tail, first.callback)
    ensures OncePerDelivery([first] + tail)
    ensures forall callback :: Mentions([first] + tail, callback)
              <==> callback == first.callback || Mentions(tail, callback)
  {
    var ds := [first] + tail;
    assert forall i :: 0 < i < |ds| ==> ds[i] == tail[i - 1];
    forall callback
      ensures Mentions(ds, callback) <==> callback == first.callback || Mentions(tail, callback)
    {
      if i :| 0 <= i < |tail| && tail[i].callback == callback {
        assert ds[i + 1].callback == callback;
      }
      assert ds[0].callback == first.callback;
    }
  }

  // ----- The client, one call at a time -----

  class ControlClient {
    var pending: map<RequestId, Callback>
    var nextId: RequestId
    var delivered: seq<Delivery>

    ghost predicate Valid()
      reads this
    {
      forall id :: id in pending ==> id < nextId
    }

    constructor ()
      ensures Valid() && pending == map[] && nextId == 1 && delivered == []
    {
      pending, nextId, delivered := map[], 1, [];
    }

    method Deliver(callback: Callback, answer: Answer)
      modifies this`delivered
      ensures delivered == old(delivered) + [Delivery(callback, answer)]
    {
      delivered := delivered + [Delivery(callback, answer)];
    }

    method Register(callback: Callback) returns (id: RequestId)
      requires Valid()
      modifies this`pending, this`nextId
      ensures Valid() && id == old(nextId) && id !in old(pending)
      ensures Table(pending, nextId) == Registered(old(Table(pending, nextId)), callback)
    {
      id := nextId;
      nextId := nextId + 1;
      pending := pending[id := callback];
    }

    method TakeOut(id: RequestId, answer: Answer) returns (owing: seq<Delivery>)
      requires Valid()
      modifies this`pending
      ensures Valid() && Table(pending, nextId) == TakenOut(old(Table(pending, nextId)), id)
      ensures owing == Owing(old(Table(pending, nextId)), id, answer)
    {
      owing := [];
      if id in pending {
        owing := [Delivery(pending[id], answer)];
        pending := pending - {id};
      }
    }

    // A request that cannot be sent is answered at once and leaves no trace.
    method Send(callback: Callback, connected: bool, sent: bool)
      requires Valid()
      modifies this
      ensures Valid() && nextId == old(nextId) + 1
      ensures connected && sent ==> pending == old(pending)[old(nextId) := callback] && delivered == old(delivered)
      ensures !(connected && sent) ==>
                pending == old(pending) && delivered == old(delivered) + [Delivery(callback, NotConnected)]
    {
      ghost var before := pending;
      var id := Register(callback);
      if !connected || !sent {
        var owing := TakeOut(id, NotConnected);
        assert pending == before;
        if owing != [] {
          Deliver(owing[0].callback, owing[0].answer);
        }
      }
    }

    // A response to an unknown request, or a second one, is ignored.
    method MessageReceived(id: RequestId)
      requires Valid()
      modifies this
      ensures Valid() && nextId == old(nextId) && pending == old(pending) - {id}
      ensures delivered == old(delivered) + Owing(old(Table(pending, nextId)), id, Response(id))
    {
      var owing := TakeOut(id, Response(id));
      if owing != [] {
        Deliver(owing[0].callback, owing[0].answer);
      }
    }

    // connectionLost and the destructor.
    method FailAllPending(reason: Answer)
      requires Valid()
      modifies this
      ensures Valid() && pending == map[] && nextId == old(nextId)
      ensures delivered == old(delivered) + AllOwing(old(pending), reason)
    {
      var failed := pending;
      pending := map[];
      while failed != map[]
        invariant pending == map[] && nextId == old(nextId)
        invariant delivered + AllOwing(failed, reason) == old(delivered) + AllOwing(old(pending), reason)
        decreases failed.Keys
      {
        LeastExists(failed.Keys);
        var id :| IsLeast(failed.Keys, id);
        AllOwingFirst(failed, reason, id);
        Deliver(failed[id], reason);
        failed := failed - {id};
      }
    }
  }
}
