/**
 * The change detector of the realtime hook (src/hooks/use-realtime-tts.ts):
 * each time the subscribed listing delivers a result, the hook compares it
 * with the snapshot it kept from the previous delivery, reports the
 * records that are new and the ones whose status changed, and keeps the
 * new result as the snapshot. The callbacks are recorded as a log of
 * `HookEvent`s.
 */
module Realtime {
  import opened Options
  import opened Seqs
  import opened Ledger

  /** A callback the hook fires: `onNewRequest(request)` or `onStatusUpdate(id, status)`. */
  datatype HookEvent = NewRequest(request: TTSRequest) | StatusUpdate(id: nat, status: Status)

  /** `previous.find(prev => prev._id === id)`. */
  function PreviousOf(previous: seq<TTSRequest>, id: nat): (r: Option<TTSRequest>)
    ensures r.Some? <==> exists k :: 0 <= k < |previous| && previous[k].id == id
    ensures r.Some? ==> r.value in previous && r.value.id == id
  {
    Find(previous, (p: TTSRequest) => p.id == id)
  }

  /** The records of `current` whose id the previous snapshot does not hold, in list order. */
  function NewRequests(previous: seq<TTSRequest>, current: seq<TTSRequest>): (r: seq<TTSRequest>)
    ensures |r| <= |current|
    ensures forall x :: x in r <==> x in current && PreviousOf(previous, x.id).None?
  {
    if current == [] then []
    else
      var n := |current| - 1;
      assert current == current[..n] + [current[n]];
      NewRequests(previous, current[..n]) +
        (if PreviousOf(previous, current[n].id).None? then [current[n]] else [])
  }

  /**
   * `r` is picked out of `current` in order: `f` gives, for each element of
   * `r`, the position in `current` it comes from, and the positions increase.
   */
  predicate PickedInOrder(f: seq<nat>, r: seq<TTSRequest>, current: seq<TTSRequest>) {
    |f| == |r| &&
    (forall k :: 0 <= k < |r| ==> f[k] < |current| && r[k] == current[f[k]]) &&
    (forall k1, k2 :: 0 <= k1 < k2 < |r| ==> f[k1] < f[k2])
  }

  /** The new records are reported in the order the current listing has them. */
  lemma {:induction false} NewRequestsInOrder(previous: seq<TTSRequest>, current: seq<TTSRequest>)
    ensures exists f :: PickedInOrder(f, NewRequests(previous, current), current)
  {
    if current == [] {
      assert PickedInOrder([], NewRequests(previous, current), current);
    } else {
      var n := |current| - 1;
      NewRequestsInOrder(previous, current[..n]);
      var r0 := NewRequests(previous, current[..n]);
      var f0: seq<nat> :| PickedInOrder(f0, r0, current[..n]);
      PickedExtend(f0, r0, current);
      if PreviousOf(previous, current[n].id).None? {
        assert NewRequests(previous, current) == r0 + [current[n]];
      } else {
        assert NewRequests(previous, current) == r0;
      }
    }
  }

  /** Picks from a list without its last element are picks from the list, and so is that element after them. */
  lemma PickedExtend(f: seq<nat>, r: seq<TTSRequest>, current: seq<TTSRequest>)
    requires current != [] && PickedInOrder(f, r, current[..|current| - 1])
    ensures PickedInOrder(f, r, current)
    ensures PickedInOrder(f + [|current| - 1], r + [current[|current| - 1]], current)
  {
    var n := |current| - 1;
    forall k | 0 <= k < |r|
      ensures f[k] < n && r[k] == current[f[k]]
    {
      assert r[k] == current[..n][f[k]];
    }
  }

  /** No two records of a list share an id (true of every listing the backend returns). */
  predicate DistinctIds(s: seq<TTSRequest>) {
    forall i, j :: 0 <= i < j < |s| ==> s[i].id != s[j].id
  }

  /** When the current list has no repeated id, no record is reported new twice. */
  lemma {:induction false} NewRequestsReportedOnce(previous: seq<TTSRequest>, current: seq<TTSRequest>)
    requires DistinctIds(current)
    ensures DistinctIds(NewRequests(previous, current))
  {
    if current != [] {
      var n := |current| - 1;
      var older, x := current[..n], current[n];
      assert DistinctIds(older);
      NewRequestsReportedOnce(previous, older);
      var r0 := NewRequests(previous, older);
      if PreviousOf(previous, x.id).None? {
        LastIdIsNew(current);
        assert NewRequests(previous, current) == r0 + [x];
        DistinctAfterAppend(r0, x);
      } else {
        assert NewRequests(previous, current) == r0;
      }
    }
  }

  /** In a list without repeated ids, no earlier record shares the last one's id. */
  lemma LastIdIsNew(s: seq<TTSRequest>)
    requires DistinctIds(s) && s != []
    ensures forall y :: y in s[..|s| - 1] ==> y.id != s[|s| - 1].id
  {
    forall y | y in s[..|s| - 1]
      ensures y.id != s[|s| - 1].id
    {
      var m :| 0 <= m < |s| - 1 && s[..|s| - 1][m] == y;
      assert s[m] == y;
    }
  }

  /** Appending a record whose id the list lacks keeps the ids distinct. */
  lemma DistinctAfterAppend(s: seq<TTSRequest>, x: TTSRequest)
    requires DistinctIds(s) && forall y :: y in s ==> y.id != x.id
    ensures DistinctIds(s + [x])
  {
    var t := s + [x];
    forall i, j | 0 <= i < j < |t|
      ensures t[i].id != t[j].id
    {
      assert t[i] == s[i];
      assert s[i] in s;
    }
  }

  /** The status report for one current record, if its status differs from the snapshot's. */
  function StatusReport(previous: seq<TTSRequest>, req: TTSRequest): seq<HookEvent> {
    match PreviousOf(previous, req.id)
    case Some(p) => if p.status != req.status then [StatusUpdate(req.id, req.status)] else []
    case None => []
  }

  /** The status reports for `current`, in list order. */
  function StatusUpdates(previous: seq<TTSRequest>, current: seq<TTSRequest>): (r: seq<HookEvent>)
    ensures forall e :: e in r ==> e.StatusUpdate?
  {
    if current == [] then []
    else
      var n := |current| - 1;
      StatusUpdates(previous, current[..n]) + StatusReport(previous, current[n])
  }

  /** The status reports for one more record of `current` are the reports so far and that record's. */
  lemma StatusUpdatesExtend(previous: seq<TTSRequest>, current: seq<TTSRequest>, j: nat)
    requires j < |current|
    ensures StatusUpdates(previous, current[..j + 1]) ==
      StatusUpdates(previous, current[..j]) + StatusReport(previous, current[j])
  {
    assert current[..j + 1][..j] == current[..j];
  }

  /** `onNewRequest` for each record, in order. */
  function Announced(requests: seq<TTSRequest>): (r: seq<HookEvent>)
    ensures |r| == |requests|
    ensures forall k :: 0 <= k < |r| ==> r[k] == NewRequest(requests[k])
  {
    seq(|requests|, k requires 0 <= k < |requests| => NewRequest(requests[k]))
  }

  /** Everything one delivery reports: the new records first, then the status changes. */
  function Diff(previous: seq<TTSRequest>, current: seq<TTSRequest>): seq<HookEvent> {
    Announced(NewRequests(previous, current)) + StatusUpdates(previous, current)
  }

  /**
   * A status update is reported for exactly the records present in both
   * lists whose status differs; it carries the current status.
   */
  lemma StatusUpdatesExactly(previous: seq<TTSRequest>, current: seq<TTSRequest>,
                             id: nat, status: Status)
    ensures StatusUpdate(id, status) in StatusUpdates(previous, current) <==>
      exists k :: 0 <= k < |current| && current[k].id == id && current[k].status == status &&
        PreviousOf(previous, id).Some? && PreviousOf(previous, id).value.status != status
  {
    if StatusUpdate(id, status) in StatusUpdates(previous, current) {
      StatusUpdateHasSource(previous, current, id, status);
    }
    if exists k :: 0 <= k < |current| && current[k].id == id && current[k].status == status &&
        PreviousOf(previous, id).Some? && PreviousOf(previous, id).value.status != status {
      var k :| 0 <= k < |current| && current[k].id == id && current[k].status == status &&
        PreviousOf(previous, id).Some? && PreviousOf(previous, id).value.status != status;
      ChangedStatusReported(previous, current, k);
    }
  }

  /** Every status update reported comes from a current record whose status changed. */
  lemma {:induction false} StatusUpdateHasSource(previous: seq<TTSRequest>, current: seq<TTSRequest>,
                                                 id: nat, status: Status)
    requires StatusUpdate(id, status) in StatusUpdates(previous, current)
    ensures PreviousOf(previous, id).Some? && PreviousOf(previous, id).value.status != status
    ensures exists k :: 0 <= k < |current| && current[k].id == id && current[k].status == status
  {
    var n := |current| - 1;
    var older, x := current[..n], current[n];
    if StatusUpdate(id, status) in StatusUpdates(previous, older) {
      StatusUpdateHasSource(previous, older, id, status);
      var k :| 0 <= k < |older| && older[k].id == id && older[k].status == status;
      assert current[k] == older[k];
    } else {
      assert StatusUpdate(id, status) in StatusReport(previous, x);
      assert current[n].id == id;
    }
  }

  /** A current record whose status differs from the snapshot's is reported. */
  lemma {:induction false} ChangedStatusReported(previous: seq<TTSRequest>, current: seq<TTSRequest>, k: nat)
    requires k < |current|
    requires PreviousOf(previous, current[k].id).Some?
    requires PreviousOf(previous, current[k].id).value.status != current[k].status
    ensures StatusUpdate(current[k].id, current[k].status) in StatusUpdates(previous, current)
  {
    var n := |current| - 1;
    var older, x := current[..n], current[n];
    if k < n {
      assert older[k] == current[k];
      ChangedStatusReported(previous, older, k);
    } else {
      assert StatusUpdate(x.id, x.status) in StatusReport(previous, x);
    }
  }

  /** Each event names a record of the current list: an id that disappeared is never reported. */
  lemma {:induction false} EventsNameCurrentRecords(previous: seq<TTSRequest>, current: seq<TTSRequest>)
    ensures forall e :: e in Diff(previous, current) ==>
      (e.NewRequest? && e.request in current) ||
      (e.StatusUpdate? && exists k :: 0 <= k < |current| && current[k].id == e.id)
  {
    forall e | e in Diff(previous, current)
      ensures (e.NewRequest? && e.request in current) ||
              (e.StatusUpdate? && exists k :: 0 <= k < |current| && current[k].id == e.id)
    {
      if e.StatusUpdate? {
        StatusUpdatesExactly(previous, current, e.id, e.status);
      }
    }
  }

  /** A record keeps its status when the snapshot holds it under its own id and nothing else with that id. */
  lemma {:induction false} NoStatusUpdatesAgainstItself(s: seq<TTSRequest>, current: seq<TTSRequest>)
    requires DistinctIds(s)
    requires forall x :: x in current ==> x in s
    ensures StatusUpdates(s, current) == []
  {
    if current != [] {
      var n := |current| - 1;
      var x := current[n];
      assert x in current;
      assert forall y :: y in current[..n] ==> y in current;
      NoStatusUpdatesAgainstItself(s, current[..n]);
      var p := PreviousOf(s, x.id);
      var i :| 0 <= i < |s| && s[i] == x;
      var j :| 0 <= j < |s| && s[j] == p.value;
      assert i == j;
    }
  }

  /** A delivery whose records the snapshot all holds reports no new record. */
  lemma {:induction false} NothingNewAgainstSuperset(s: seq<TTSRequest>, current: seq<TTSRequest>)
    requires forall x :: x in current ==> x in s
    ensures NewRequests(s, current) == []
  {
    if current != [] {
      var n := |current| - 1;
      var x := current[n];
      assert x in current;
      assert forall y :: y in current[..n] ==> y in current;
      NothingNewAgainstSuperset(s, current[..n]);
      var k :| 0 <= k < |s| && s[k] == x;
      assert PreviousOf(s, x.id).Some?;
    }
  }

  /** Delivering the same list twice reports nothing the second time. */
  lemma SameListReportsNothing(s: seq<TTSRequest>)
    requires DistinctIds(s)
    ensures Diff(s, s) == []
  {
    NoStatusUpdatesAgainstItself(s, s);
    NothingNewAgainstSuperset(s, s);
  }

  /** From the empty initial snapshot every record is new, in list order, and no status update fires. */
  lemma FirstDeliveryAllNew(current: seq<TTSRequest>)
    ensures NewRequests([], current) == current
    ensures StatusUpdates([], current) == []
    ensures Diff([], current) == Announced(current)
  {
    AllNewAgainstEmpty(current);
    NoUpdatesAgainstEmpty(current);
  }

  /** Against the empty snapshot, every record is new. */
  lemma {:induction false} AllNewAgainstEmpty(current: seq<TTSRequest>)
    ensures NewRequests([], current) == current
  {
    if current != [] {
      var n := |current| - 1;
      AllNewAgainstEmpty(current[..n]);
      NewRequestsAppendNew([], current);
      assert current[..n] + [current[n]] == current;
    }
  }

  /** A last record whose id the snapshot lacks is reported new after the ones before it. */
  lemma NewRequestsAppendNew(previous: seq<TTSRequest>, current: seq<TTSRequest>)
    requires current != [] && forall p :: p in previous ==> p.id != current[|current| - 1].id
    ensures NewRequests(previous, current) ==
      NewRequests(previous, current[..|current| - 1]) + [current[|current| - 1]]
  {
    assert PreviousOf(previous, current[|current| - 1].id).None?;
  }

  /** Against the empty snapshot, no status changes. */
  lemma {:induction false} NoUpdatesAgainstEmpty(current: seq<TTSRequest>)
    ensures StatusUpdates([], current) == []
  {
    if current != [] {
      var n := |current| - 1;
      NoUpdatesAgainstEmpty(current[..n]);
      assert StatusReport([], current[n]) == [];
    }
  }

  /** `ttsRequests || []`: the listing, or nothing before the query has loaded. */
  function Requests(result: Option<seq<TTSRequest>>): seq<TTSRequest> {
    result.GetOr([])
  }

  /** `ttsRequests?.length || 0`: the number of records the hook exposes. */
  function TotalRequests(result: Option<seq<TTSRequest>>): (n: nat)
    ensures n == |Requests(result)|
    ensures result.None? ==> n == 0
  {
    match result
    case None => 0
    case Some(list) => |list|
  }

  /** The hook's snapshot and the callbacks it has fired so far. */
  class Tracker {
    var previous: seq<TTSRequest>
    var events: seq<HookEvent>

    /** A fresh hook: the snapshot starts empty. */
    constructor ()
      ensures previous == [] && events == []
    {
      previous := [];
      events := [];
    }

    /**
     * The change-detection effect for one delivery of the query (`None`
     * while it has not loaded): fire `onNewRequest` for each new record,
     * then `onStatusUpdate` for each changed one, then keep the delivery as
     * the snapshot. An unloaded query changes nothing.
     */
    method Process(result: Option<seq<TTSRequest>>)
      modifies this
      ensures result.None? ==> previous == old(previous) && events == old(events)
      ensures result.Some? ==> previous == result.value
      ensures result.Some? ==> events == old(events) + Diff(old(previous), result.value)
    {
      if result.None? {
        return;
      }
      var current := result.value;
      var newRequests := NewRequests(previous, current);
      AnnounceAll(newRequests);
      ReportStatusChanges(previous, current);
      previous := current;
    }

    /** `newRequests.forEach(request => onNewRequest(request))`. */
    method AnnounceAll(newRequests: seq<TTSRequest>)
      modifies this
      ensures previous == old(previous)
      ensures events == old(events) + Announced(newRequests)
    {
      var i := 0;
      while i < |newRequests|
        invariant 0 <= i <= |newRequests|
        invariant previous == old(previous)
        invariant events == old(events) + Announced(newRequests[..i])
      {
        assert Announced(newRequests[..i + 1]) == Announced(newRequests[..i]) + [NewRequest(newRequests[i])];
        events := events + [NewRequest(newRequests[i])];
        i := i + 1;
      }
      assert newRequests[..i] == newRequests;
    }

    /** The `current.forEach` loop that fires `onStatusUpdate` for each changed status. */
    method ReportStatusChanges(snapshot: seq<TTSRequest>, current: seq<TTSRequest>)
      modifies this
      ensures previous == old(previous)
      ensures events == old(events) + StatusUpdates(snapshot, current)
    {
      var j := 0;
      while j < |current|
        invariant 0 <= j <= |current|
        invariant previous == old(previous)
        invariant events == old(events) + StatusUpdates(snapshot, current[..j])
      {
        var currentReq := current[j];
        var previousReq := PreviousOf(snapshot, currentReq.id);
        StatusUpdatesExtend(snapshot, current, j);
        ghost var before := events;
        if previousReq.Some? && previousReq.value.status != currentReq.status {
          events := events + [StatusUpdate(currentReq.id, currentReq.status)];
        }
        assert events == before + StatusReport(snapshot, currentReq);
        j := j + 1;
      }
      assert current[..j] == current;
    }
  }
}
