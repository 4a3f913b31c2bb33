// The vector of device records and the map it stands for
// (src/core/DeviceStateStore.cpp).

module DeviceStateStores {
  import opened Text
  import opened AudioModel
  import opened Capabilities

  // Why a device got its verdict or action; the English text is a function of
  // this value.
  datatype Reason =
    | NoReason
    | IsSupported
    | RateMissing(rate: nat)
    | DepthMissing(rate: nat, depths: seq<nat>, bits: nat)
    | Undetermined
    | EnabledByUser(verdict: Reason)
    | WaitingForWindow(verdict: Reason, times: nat)
    | NotActive(state: EndpointState)
    | NotDisabled(code: ResultCode, state: EndpointState)
    | NotEnabled(code: ResultCode)
    | StandardizationOff
    | PolicyOff
    | SupportsTarget
    | PolicyUnconfirmed
    | FormatsUnknown(code: ResultCode)
    | FormatRejected(code: ResultCode)
    | FormatDidNotStick
    | NotEnforced(recentFailure: bool)

  datatype DisabledDeviceRecord = DisabledDeviceRecord(
    id: string,
    name: string,
    flow: EndpointFlow,
    disabledAtMs: int,
    requested: (nat, nat),
    reason: Reason,
    compatibility: Compatibility,
    capabilities: FormatCapabilities,
    history: seq<int>,
    leftEnabled: bool,
    disabled: bool)

  const NEW_RECORD := DisabledDeviceRecord("", "", UnknownFlow, 0, (0, 0), NoReason, UnknownCompatibility,
                                           UNKNOWN_CAPABILITIES, [], false, true)

  // Records by case-insensitive id.
  type RecordMap = map<string, DisabledDeviceRecord>

  function Lookup(m: RecordMap, id: string): Option<DisabledDeviceRecord> {
    if Lower(id) in m then Some(m[Lower(id)]) else None
  }

  // What a changed policy does to the records: marks and histories go, and so
  // do records that no longer say "disabled".
  function ResetRecord(r: DisabledDeviceRecord): DisabledDeviceRecord { r.(leftEnabled := false, history := []) }

  function ResetRecords(m: RecordMap): RecordMap {
    map k | k in m && m[k].disabled :: ResetRecord(m[k])
  }

  // ----- The vector of records -----

  predicate Is(r: DisabledDeviceRecord, id: string) { EqualsIgnoreCase(r.id, id) }

  predicate DistinctIds(records: seq<DisabledDeviceRecord>) {
    forall i, j :: 0 <= i < j < |records| ==> !Is(records[i], records[j].id)
  }

  // What the vector means.
  function MapOf(records: seq<DisabledDeviceRecord>): RecordMap {
    if records == [] then map[] else MapOf(records[1..])[Lower(records[0].id) := records[0]]
  }

  lemma {:induction false} MapOfKeys(records: seq<DisabledDeviceRecord>)
    ensures forall k :: k in MapOf(records) <==> exists i :: 0 <= i < |records| && Lower(records[i].id) == k
    ensures forall i :: 0 <= i < |records| ==> Lower(records[i].id) in MapOf(records)
    ensures DistinctIds(records) ==>
              forall i :: 0 <= i < |records| ==> MapOf(records)[Lower(records[i].id)] == records[i]
  {
    hide Lower;
    if records == [] {
    } else {
      MapOfKeys(records[1..]);
      assert forall i :: 0 <= i < |records[1..]| ==> records[1..][i] == records[i + 1];
      forall k | k in MapOf(records)
        ensures exists i :: 0 <= i < |records| && Lower(records[i].id) == k
      {
        if k != Lower(records[0].id) {
          var i :| 0 <= i < |records[1..]| && Lower(records[1..][i].id) == k;
          assert Lower(records[i + 1].id) == k;
        }
      }
      forall i | 0 < i < |records|
        ensures Lower(records[i].id) in MapOf(records[1..])
      {
        assert records[i] == records[1..][i - 1];
      }
    }
  }

  // A vector with distinct ids is determined as a map by its records.
  lemma MapOfIs(records: seq<DisabledDeviceRecord>, m: RecordMap)
    requires DistinctIds(records)
    requires forall i :: 0 <= i < |records| ==> Lower(records[i].id) in m && m[Lower(records[i].id)] == records[i]
    requires forall k :: k in m ==> exists i :: 0 <= i < |records| && Lower(records[i].id) == k
    ensures MapOf(records) == m
  {
    hide Lower, MapOf, DistinctIds;
    MapOfKeys(records);
    var was := MapOf(records);
    forall k | k in m
      ensures k in was && was[k] == m[k]
    {
      var i :| 0 <= i < |records| && Lower(records[i].id) == k;
    }
    assert was.Keys == m.Keys;
  }

  class DeviceStateStore {
    var records: seq<DisabledDeviceRecord>
    var file: seq<DisabledDeviceRecord>

    // The file always holds the records, although not every operation saves.
    ghost predicate Valid()
      reads this
    {
      DistinctIds(records) && file == records
    }

    ghost function View(): RecordMap
      reads this
    {
      MapOf(records)
    }

    constructor ()
      ensures Valid() && View() == map[]
    {
      records := [];
      file := [];
    }

    method Save()
      modifies this`file
      ensures file == records
    {
      file := records;
    }

    method FindIf(id: string) returns (i: nat)
      ensures i <= |records|
      ensures i < |records| ==> Is(records[i], id)
      ensures forall j :: 0 <= j < i ==> !Is(records[j], id)
    {
      hide Is;
      i := 0;
      while i < |records| && !Is(records[i], id)
        invariant i <= |records|
        invariant forall j :: 0 <= j < i ==> !Is(records[j], id)
      {
        i := i + 1;
      }
    }

    method Get(id: string) returns (r: Option<DisabledDeviceRecord>)
      requires Valid()
      ensures r == Lookup(View(), id)
    {
      var i := FindIf(id);
      MapOfKeys(records);
      hide MapOf, Lower;
      r := if i < |records| then Some(records[i]) else None;
    }

    method Put(record: DisabledDeviceRecord)
      requires Valid()
      modifies this
      ensures Valid()
      ensures View() == old(View())[Lower(record.id) := record]
    {
      var i := FindIf(record.id);
      ghost var before := records;
      hide MapOf, Lower;
      if i < |records| {
        PutReplaces(before, i, record);
        if records[i] == record {
          assert records[i := record] == records;
          return;
        }
        records := records[i := record];
      } else {
        PutAppends(before, record);
        records := records + [record];
      }
      Save();
    }

    method Remove(id: string)
      requires Valid()
      modifies this
      ensures Valid()
      ensures View() == old(View()) - {Lower(id)}
    {
      var kept: seq<DisabledDeviceRecord> := [];
      for i := 0 to |records|
        invariant records == old(records)
        invariant kept == Without(records[..i], id)
      {
        assert records[..i + 1][..i] == records[..i];
        if !Is(records[i], id) {
          kept := kept + [records[i]];
        }
      }
      assert records[..|records|] == records;
      WithoutRemoves(records, id);
      var before := |records|;
      records := kept;
      if |records| != before {
        Save();
      }
    }

    method ResetHistory()
      requires Valid()
      modifies this
      ensures Valid()
      ensures View() == ResetRecords(old(View()))
    {
      ghost var initial := records;
      var changed := false;
      for i := 0 to |records|
        invariant |records| == |initial| && file == initial
        invariant forall j :: 0 <= j < i ==> records[j] == ResetRecord(initial[j])
        invariant forall j :: i <= j < |records| ==> records[j] == initial[j]
        invariant !changed ==> records == initial
      {
        var r := records[i];
        if r.leftEnabled || r.history != [] {
          records := records[i := r.(leftEnabled := false, history := [])];
          changed := true;
        } else {
          assert ResetRecord(r) == r;
        }
      }
      ghost var reset := records;
      var kept: seq<DisabledDeviceRecord> := [];
      for i := 0 to |records|
        invariant records == reset && file == initial
        invariant kept == StillDisabled(records[..i])
      {
        assert records[..i + 1][..i] == records[..i];
        if records[i].disabled {
          kept := kept + [records[i]];
        }
      }
      assert records[..|records|] == records;
      StillDisabledLength(records);
      ResetMeans(initial, records);
      var before := |records|;
      records := kept;
      if changed || |records| != before {
        Save();
      }
    }
  }

  lemma PutReplaces(records: seq<DisabledDeviceRecord>, i: nat, record: DisabledDeviceRecord)
    requires DistinctIds(records) && i < |records| && Is(records[i], record.id)
    ensures DistinctIds(records[i := record])
    ensures MapOf(records[i := record]) == MapOf(records)[Lower(record.id) := record]
  {
    hide Lower, MapOf;
    MapOfKeys(records);
    var after := records[i := record];
    var m := MapOf(records)[Lower(record.id) := record];
    forall k | k in m
      ensures exists j :: 0 <= j < |after| && Lower(after[j].id) == k
    {
      if k == Lower(record.id) {
        assert Lower(after[i].id) == k;
      } else {
        var j :| 0 <= j < |records| && Lower(records[j].id) == k;
        assert after[j] == records[j];
      }
    }
    MapOfIs(after, m);
  }

  lemma PutAppends(records: seq<DisabledDeviceRecord>, record: DisabledDeviceRecord)
    requires DistinctIds(records) && forall j :: 0 <= j < |records| ==> !Is(records[j], record.id)
    ensures DistinctIds(records + [record])
    ensures MapOf(records + [record]) == MapOf(records)[Lower(record.id) := record]
  {
    hide Lower, MapOf;
    MapOfKeys(records);
    var after := records + [record];
    var m := MapOf(records)[Lower(record.id) := record];
    forall k | k in m
      ensures exists j :: 0 <= j < |after| && Lower(after[j].id) == k
    {
      if k == Lower(record.id) {
        assert after[|records|] == record;
      } else {
        var j :| 0 <= j < |records| && Lower(records[j].id) == k;
        assert after[j] == records[j];
      }
    }
    MapOfIs(after, m);
  }

  function Without(records: seq<DisabledDeviceRecord>, id: string): seq<DisabledDeviceRecord> {
    if records == [] then []
    else
      var n := |records| - 1;
      Without(records[..n], id) + if Is(records[n], id) then [] else [records[n]]
  }

  lemma {:induction false} WithoutRemoves(records: seq<DisabledDeviceRecord>, id: string)
    requires DistinctIds(records)
    ensures var kept := Without(records, id);
            && DistinctIds(kept) && (forall r :: r in kept <==> r in records && !Is(r, id))
            && (|kept| == |records| ==> kept == records) && |kept| <= |records|
            && MapOf(kept) == MapOf(records) - {Lower(id)}
  {
    hide Lower, MapOf, Without;
    WithoutMembers(records, id);
    var kept := Without(records, id);
    KeptHave(records, kept, id);
    KeptAre(records, kept, id);
    MapOfIs(kept, MapOf(records) - {Lower(id)});
  }

  lemma KeptHave(records: seq<DisabledDeviceRecord>, kept: seq<DisabledDeviceRecord>, id: string)
    requires DistinctIds(records) && forall r :: r in kept ==> r in records && !Is(r, id)
    ensures var m := MapOf(records) - {Lower(id)};
            forall i :: 0 <= i < |kept| ==> Lower(kept[i].id) in m && m[Lower(kept[i].id)] == kept[i]
  {
    hide Lower, MapOf;
    MapOfKeys(records);
    forall i | 0 <= i < |kept|
      ensures Lower(kept[i].id) in MapOf(records) && MapOf(records)[Lower(kept[i].id)] == kept[i] && !Is(kept[i], id)
    {
      assert kept[i] in records;
    }
  }

  lemma KeptAre(records: seq<DisabledDeviceRecord>, kept: seq<DisabledDeviceRecord>, id: string)
    requires forall r :: r in records && !Is(r, id) ==> r in kept
    ensures forall k :: k in MapOf(records) - {Lower(id)} ==> exists j :: 0 <= j < |kept| && Lower(kept[j].id) == k
  {
    hide Lower, MapOf;
    MapOfKeys(records);
    forall k | k in MapOf(records) - {Lower(id)}
      ensures exists j :: 0 <= j < |kept| && Lower(kept[j].id) == k
    {
      var j :| 0 <= j < |records| && Lower(records[j].id) == k;
      assert records[j] in records && !Is(records[j], id);
      var l :| 0 <= l < |kept| && kept[l] == records[j];
    }
  }

  lemma {:induction false} WithoutMembers(records: seq<DisabledDeviceRecord>, id: string)
    requires DistinctIds(records)
    ensures var kept := Without(records, id);
            && DistinctIds(kept) && (forall r :: r in kept <==> r in records && !Is(r, id))
            && (|kept| == |records| ==> kept == records) && |kept| <= |records|
  {
    hide Is;
    if records == [] {
    } else {
      var n := |records| - 1;
      var front, last := records[..n], records[n];
      assert records == front + [last];
      WithoutMembers(front, id);
      var kept := Without(front, id);
      forall i | 0 <= i < |kept|
        ensures !Is(kept[i], last.id)
      {
        assert kept[i] in front;
      }
    }
  }

  function StillDisabled(records: seq<DisabledDeviceRecord>): seq<DisabledDeviceRecord> {
    if records == [] then []
    else
      var n := |records| - 1;
      StillDisabled(records[..n]) + if records[n].disabled then [records[n]] else []
  }

  lemma {:induction false} StillDisabledLength(records: seq<DisabledDeviceRecord>)
    ensures var kept := StillDisabled(records);
            |kept| <= |records| && (|kept| == |records| ==> kept == records)
  {
    if records == [] {
    } else {
      var n := |records| - 1;
      StillDisabledLength(records[..n]);
      assert records == records[..n] + [records[n]];
    }
  }

  lemma {:induction false} StillDisabledMembers(records: seq<DisabledDeviceRecord>)
    requires DistinctIds(records)
    ensures var kept := StillDisabled(records);
            DistinctIds(kept) && forall r :: r in kept <==> r in records && r.disabled
  {
    hide Is;
    if records == [] {
    } else {
      var n := |records| - 1;
      var front, last := records[..n], records[n];
      assert records == front + [last];
      StillDisabledMembers(front);
      var kept := StillDisabled(front);
      forall i | 0 <= i < |kept|
        ensures !Is(kept[i], last.id)
      {
        assert kept[i] in front;
      }
    }
  }

  lemma ResetMeans(records: seq<DisabledDeviceRecord>, reset: seq<DisabledDeviceRecord>)
    requires DistinctIds(records) && |reset| == |records|
    requires forall i :: 0 <= i < |records| ==> reset[i] == ResetRecord(records[i])
    ensures DistinctIds(StillDisabled(reset))
    ensures MapOf(StillDisabled(reset)) == ResetRecords(MapOf(records))
  {
    hide Lower, MapOf;
    assert DistinctIds(reset);
    StillDisabledMembers(reset);
    var kept := StillDisabled(reset);
    hide StillDisabled;
    MapOfKeys(records);
    var m := ResetRecords(MapOf(records));
    forall i | 0 <= i < |kept|
      ensures Lower(kept[i].id) in m && m[Lower(kept[i].id)] == kept[i]
    {
      assert kept[i] in reset;
      var j :| 0 <= j < |reset| && reset[j] == kept[i];
      assert MapOf(records)[Lower(records[j].id)] == records[j];
    }
    forall k | k in m
      ensures exists l :: 0 <= l < |kept| && Lower(kept[l].id) == k
    {
      var j :| 0 <= j < |records| && Lower(records[j].id) == k;
      assert MapOf(records)[Lower(records[j].id)] == records[j];
      assert reset[j] in kept;
      var l :| 0 <= l < |kept| && kept[l] == reset[j];
    }
    MapOfIs(kept, m);
  }
}
