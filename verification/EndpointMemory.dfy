// Per-endpoint memory of failures and notices (src/core/EndpointMemory.cpp).

module EndpointMemories {
  import opened DeviceStateStores

  const FAILURE_BACKOFF_MS: int := 30000

  predicate InBackoffAt(failures: map<string, int>, id: string, clock: int) {
    id in failures && clock - failures[id] < FAILURE_BACKOFF_MS
  }

  // juce::String::contains.
  predicate Contains(s: string, part: string) {
    part <= s || (s != "" && Contains(s[1..], part))
  }

  lemma {:induction false} ContainsSuffix(prefix: string, s: string)
    ensures Contains(prefix + s, s)
  {
    if prefix == "" {
      assert prefix + s == s;
    } else {
      assert (prefix + s)[1..] == prefix[1..] + s;
      ContainsSuffix(prefix[1..], s);
    }
  }

  // The key of the notice about a device that is waiting for its window.
  function LoopKey(id: string): string { "loop|" + id }

  lemma LoopKeyInjective(a: string, b: string)
    requires LoopKey(a) == LoopKey(b)
    ensures a == b
  {
    assert LoopKey(a)[5..] == a && LoopKey(b)[5..] == b;
  }

  class EndpointMemory {
    var failures: map<string, int>
    var notices: map<string, Reason>

    constructor ()
      ensures failures == map[] && notices == map[]
    {
      failures, notices := map[], map[];
    }

    predicate InBackoff(id: string, clock: int)
      reads this
    {
      InBackoffAt(failures, id, clock)
    }

    method RecordFailure(id: string, clock: int)
      modifies this`failures
      ensures failures == old(failures)[id := clock]
      ensures forall now :: InBackoffAt(failures, id, now) <==> now - clock < FAILURE_BACKOFF_MS
    {
      failures := failures[id := clock];
    }

    method ClearFailure(id: string)
      modifies this`failures
      ensures failures == old(failures) - {id}
    {
      failures := failures - {id};
    }

    // Remembers the key's latest message, and says whether it replaced another.
    method Notice(key: string, message: Reason) returns (isNew: bool)
      modifies this`notices
      ensures notices == old(notices)[key := message]
      ensures isNew <==> key !in old(notices) || old(notices)[key] != message
    {
      if key !in notices {
        notices := notices[key := message];
        return true;
      }
      if notices[key] == message {
        assert notices[key := message] == notices;
        return false;
      }
      notices := notices[key := message];
      isNew := true;
    }

    method ClearNotice(key: string)
      modifies this`notices
      ensures notices == old(notices) - {key}
    {
      notices := notices - {key};
    }

    // Forgets the endpoint's failure and every notice whose key mentions it.
    method ForgetEndpoint(id: string)
      modifies this
      ensures failures == old(failures) - {id}
      ensures notices == map k | k in old(notices) && !Contains(k, id) :: old(notices)[k]
      ensures forall prefix: string :: prefix + id !in notices
    {
      hide Contains;
      failures := failures - {id};
      var left := notices.Keys;
      ghost var before := notices;
      while left != {}
        invariant left <= before.Keys && notices.Keys <= before.Keys
        invariant forall k :: k in notices ==> notices[k] == before[k]
        invariant forall k :: k in before ==> (k in notices <==> k in left || !Contains(k, id))
        invariant failures == old(failures) - {id}
        decreases left
      {
        var k :| k in left;
        if Contains(k, id) {
          notices := notices - {k};
        }
        left := left - {k};
      }
      forall prefix: string
        ensures prefix + id !in notices
      {
        ContainsSuffix(prefix, id);
      }
    }

    method Clear()
      modifies this
      ensures failures == map[] && notices == map[]
    {
      failures, notices := map[], map[];
    }
  }
}
