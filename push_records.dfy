// The notification_push_record table: one row per (notification, receiver,
// device token) delivery attempt, and the mapper operations the services use.
module PushRecords {
  import opened Wrappers
  import opened PushResponse

  /** Push status codes. */
  const Pending: int := 0
  const Delivered: int := 1
  const FailedStatus: int := 2

  /** The JSON stored in push_response: a whole gateway reply or one ticket. */
  datatype PushLog = LoggedResponse(response: Response) | LoggedTicket(ticket: Ticket)

  datatype PushRecord = PushRecord(
    id: nat,
    templateId: Option<int>,
    title: Option<string>,
    content: Option<string>,
    svgIcon: Option<string>,
    senderId: Option<int>,
    kind: Option<int>,
    priority: Option<int>,
    isOneClick: Option<bool>,
    receiverId: Option<int>,
    familyId: Option<int>,
    sentTime: Option<int>,
    roleId: Option<int>,
    roleName: Option<string>,
    isRead: Option<bool>,
    readTime: Option<int>,
    deviceTokenId: Option<int>,
    deviceToken: Option<string>,
    platform: Option<string>,
    pushStatus: Option<int>,
    pushTime: Option<int>,
    pushResponse: Option<PushLog>,
    errorCode: Option<string>,
    errorMessage: Option<string>,
    retryCount: Option<int>,
    status: Option<int>)

  /** A record with every column null, the starting point of `new NotificationPushRecord()`. */
  const Blank: PushRecord := PushRecord(0, None, None, None, None, None, None, None, None, None, None, None,
                                        None, None, None, None, None, None, None, None, None, None, None,
                                        None, None, None)

  /** updatePushStatus: the push outcome columns of one row. */
  function WithPushStatus(r: PushRecord, pushStatus: int, now: int, log: Option<PushLog>,
                          errorCode: Option<string>, errorMessage: Option<string>): PushRecord
  {
    r.(pushStatus := Some(pushStatus), pushTime := Some(now), pushResponse := log,
       errorCode := errorCode, errorMessage := errorMessage)
  }

  /** selectFailedPushRecords: failed deliveries that still have retries left. */
  predicate RetryEligible(r: PushRecord, maxRetryCount: int)
  {
    r.pushStatus == Some(FailedStatus) && r.retryCount.Some? && r.retryCount.value < maxRetryCount
  }

  /** The rows with id below n satisfying p, in id order. */
  function RowsBelow(records: map<nat, PushRecord>, n: nat, p: PushRecord -> bool): seq<PushRecord>
  {
    if n == 0 then []
    else RowsBelow(records, n - 1, p) + (if n - 1 in records && p(records[n - 1]) then [records[n - 1]] else [])
  }

  /** The ids below n whose row satisfies p, in id order. */
  function IdsBelow(records: map<nat, PushRecord>, n: nat, p: PushRecord -> bool): seq<nat>
  {
    if n == 0 then []
    else IdsBelow(records, n - 1, p) + (if n - 1 in records && p(records[n - 1]) then [n - 1] else [])
  }

  /** The rows selectFailedPushRecords returns. */
  function FailedRows(records: map<nat, PushRecord>, n: nat, maxRetryCount: int): seq<PushRecord>
  {
    RowsBelow(records, n, r => RetryEligible(r, maxRetryCount))
  }

  /** Membership in a scan: exactly the rows below n that satisfy p. */
  lemma {:induction false} RowsBelowMembers(records: map<nat, PushRecord>, n: nat, p: PushRecord -> bool,
                                            r: PushRecord)
    ensures r in RowsBelow(records, n, p) <==> exists id :: 0 <= id < n && id in records && records[id] == r && p(r)
  {
    if n > 0 {
      RowsBelowMembers(records, n - 1, p, r);
      if r in RowsBelow(records, n, p) && r !in RowsBelow(records, n - 1, p) {
        assert records[n - 1] == r;
      }
    }
  }

  lemma {:induction false} IdsBelowMembers(records: map<nat, PushRecord>, n: nat, p: PushRecord -> bool, id: nat)
    ensures id in IdsBelow(records, n, p) <==> id < n && id in records && p(records[id])
  {
    if n > 0 {
      IdsBelowMembers(records, n - 1, p, id);
    }
  }

  lemma {:induction false} IdsBelowSorted(records: map<nat, PushRecord>, n: nat, p: PushRecord -> bool)
    ensures forall i, j :: 0 <= i < j < |IdsBelow(records, n, p)| ==> IdsBelow(records, n, p)[i] < IdsBelow(records, n, p)[j]
    ensures forall i :: 0 <= i < |IdsBelow(records, n, p)| ==> IdsBelow(records, n, p)[i] < n
  {
    if n > 0 {
      IdsBelowSorted(records, n - 1, p);
    }
  }

  /** When every row carries its own key, a scan lists rows in strictly increasing id order. */
  lemma {:induction false} RowsBelowIdsSorted(records: map<nat, PushRecord>, n: nat, p: PushRecord -> bool)
    requires forall id :: id in records ==> records[id].id == id
    ensures forall i, j :: 0 <= i < j < |RowsBelow(records, n, p)| ==> RowsBelow(records, n, p)[i].id < RowsBelow(records, n, p)[j].id
    ensures forall i :: 0 <= i < |RowsBelow(records, n, p)| ==> RowsBelow(records, n, p)[i].id < n
  {
    if n > 0 {
      RowsBelowIdsSorted(records, n - 1, p);
    }
  }

  /** The table after inserting rs in order, the k-th row under id nextId + k. */
  function Appended(records: map<nat, PushRecord>, nextId: nat, rs: seq<PushRecord>): map<nat, PushRecord>
  {
    if |rs| == 0 then records
    else
      var id := nextId + |rs| - 1;
      Appended(records, nextId, rs[..|rs| - 1])[id := rs[|rs| - 1].(id := id)]
  }

  /** Appending keeps every existing row and stores row k of rs under nextId + k. */
  lemma {:induction false} AppendedRule(records: map<nat, PushRecord>, nextId: nat, rs: seq<PushRecord>, id: nat)
    requires forall i :: i in records ==> i < nextId
    ensures id in Appended(records, nextId, rs) <==> id in records || nextId <= id < nextId + |rs|
    ensures id in records ==> Appended(records, nextId, rs)[id] == records[id]
    ensures nextId <= id < nextId + |rs| ==> Appended(records, nextId, rs)[id] == rs[id - nextId].(id := id)
  {
    if |rs| > 0 {
      var n := |rs| - 1;
      AppendedRule(records, nextId, rs[..n], id);
      if nextId <= id < nextId + n {
        assert rs[..n][id - nextId] == rs[id - nextId];
      }
    }
  }

  lemma AppendedStep(records: map<nat, PushRecord>, nextId: nat, rs: seq<PushRecord>, k: nat)
    requires k < |rs|
    ensures Appended(records, nextId, rs[..k + 1]) == Appended(records, nextId, rs[..k])[nextId + k := rs[k].(id := nextId + k)]
  {
    assert rs[..k + 1][..k] == rs[..k];
    assert rs[..k + 1][k] == rs[k];
  }

  /** AppendedRule for every id at once. */
  lemma AppendedRows(records: map<nat, PushRecord>, nextId: nat, rs: seq<PushRecord>)
    requires forall i :: i in records ==> i < nextId
    ensures forall id :: nextId <= id < nextId + |rs| ==>
      id in Appended(records, nextId, rs) && Appended(records, nextId, rs)[id] == Stamped(rs, nextId)[id - nextId]
    ensures forall id :: id in records ==> id in Appended(records, nextId, rs) && Appended(records, nextId, rs)[id] == records[id]
    ensures forall id :: id in Appended(records, nextId, rs) ==> id in records || nextId <= id < nextId + |rs|
  {
    forall id: nat | true
      ensures id in Appended(records, nextId, rs) <==> id in records || nextId <= id < nextId + |rs|
      ensures id in records ==> Appended(records, nextId, rs)[id] == records[id]
      ensures nextId <= id < nextId + |rs| ==> Appended(records, nextId, rs)[id] == Stamped(rs, nextId)[id - nextId]
    {
      AppendedRule(records, nextId, rs, id);
    }
  }

  /** The rows rs as stored from nextId on, each carrying its assigned id. */
  function Stamped(rs: seq<PushRecord>, nextId: nat): (r: seq<PushRecord>)
    ensures |r| == |rs|
    ensures forall k :: 0 <= k < |rs| ==> r[k] == rs[k].(id := nextId + k)
  {
    seq(|rs|, k requires 0 <= k < |rs| => rs[k].(id := nextId + k))
  }

  lemma StampedStep(rs: seq<PushRecord>, nextId: nat, k: nat)
    requires k < |rs|
    ensures Stamped(rs[..k + 1], nextId) == Stamped(rs[..k], nextId) + [rs[k].(id := nextId + k)]
  {
    assert rs[..k + 1][k] == rs[k];
    forall j | 0 <= j < k ensures rs[..k + 1][j] == rs[..k][j] { }
  }

  /** The push-record table with MyBatis-assigned ids. */
  class PushLedger {
    var records: map<nat, PushRecord>
    var nextId: nat

    ghost predicate Valid()
      reads this
    {
      forall id :: id in records ==> records[id].id == id && id < nextId
    }

    constructor ()
      ensures Valid() && records == map[]
    {
      records := map[];
      nextId := 1;
    }

    /** insert: the row gets the next id. */
    method Insert(r: PushRecord) returns (id: nat)
      requires Valid()
      modifies this
      ensures Valid()
      ensures id == old(nextId) && id !in old(records) && nextId == old(nextId) + 1
      ensures records == old(records)[id := r.(id := id)]
    {
      id := nextId;
      records := records[id := r.(id := id)];
      nextId := nextId + 1;
    }

    /** saveBatch: insert each row in order, returning the stored rows. */
    method SaveBatch(rs: seq<PushRecord>) returns (saved: seq<PushRecord>)
      requires Valid()
      modifies this
      ensures Valid()
      ensures |saved| == |rs| && nextId == old(nextId) + |rs|
      ensures forall k :: 0 <= k < |rs| ==> saved[k] == rs[k].(id := old(nextId) + k)
      ensures forall id :: old(nextId) <= id < nextId ==> id in records && records[id] == saved[id - old(nextId)]
      ensures forall id :: id in old(records) ==> id in records && records[id] == old(records)[id]
      ensures forall id :: id in records ==> id in old(records) || old(nextId) <= id < nextId
      ensures records == Appended(old(records), old(nextId), rs)
      ensures saved == Stamped(rs, old(nextId))
    {
      saved := [];
      var k := 0;
      while k < |rs|
        invariant 0 <= k <= |rs| && nextId == old(nextId) + k
        invariant Valid()
        invariant saved == Stamped(rs[..k], old(nextId))
        invariant records == Appended(old(records), old(nextId), rs[..k])
      {
        StampedStep(rs, old(nextId), k);
        AppendedStep(old(records), old(nextId), rs, k);
        var id := Insert(rs[k]);
        saved := saved + [rs[k].(id := id)];
        k := k + 1;
      }
      assert rs[..k] == rs;
      assert saved == Stamped(rs, old(nextId));
      AppendedRows(old(records), old(nextId), rs);
    }

    /** updatePushStatus(id, ...): true iff the row exists. */
    method UpdatePushStatus(id: nat, pushStatus: int, now: int, log: Option<PushLog>,
                            errorCode: Option<string>, errorMessage: Option<string>) returns (updated: bool)
      requires Valid()
      modifies this
      ensures Valid() && nextId == old(nextId)
      ensures updated == (id in old(records))
      ensures records == if updated then old(records)[id := WithPushStatus(old(records)[id], pushStatus, now, log, errorCode, errorMessage)]
                         else old(records)
    {
      updated := id in records;
      if updated {
        records := records[id := WithPushStatus(records[id], pushStatus, now, log, errorCode, errorMessage)];
      }
    }

    /** markAsRead(id, readTime): isRead true with the read time. */
    method MarkAsRead(id: nat, now: int) returns (updated: bool)
      requires Valid()
      modifies this
      ensures Valid() && nextId == old(nextId)
      ensures updated == (id in old(records))
      ensures records == if updated then old(records)[id := old(records)[id].(isRead := Some(true), readTime := Some(now))]
                         else old(records)
    {
      updated := id in records;
      if updated {
        records := records[id := records[id].(isRead := Some(true), readTime := Some(now))];
      }
    }

    /** incrementRetryCount(id): retry_count + 1 (a NULL count stays NULL). */
    method IncrementRetryCount(id: nat) returns (updated: bool)
      requires Valid()
      modifies this
      ensures Valid() && nextId == old(nextId)
      ensures updated == (id in old(records))
      ensures records == if updated then old(records)[id := old(records)[id].(retryCount := Incremented(old(records)[id].retryCount))]
                         else old(records)
    {
      updated := id in records;
      if updated {
        records := records[id := records[id].(retryCount := Incremented(records[id].retryCount))];
      }
    }

    /** selectFailedPushRecords(maxRetryCount), in id order. */
    method SelectFailedPushRecords(maxRetryCount: int) returns (failed: seq<PushRecord>)
      ensures failed == FailedRows(records, nextId, maxRetryCount)
      ensures forall r :: r in failed ==> RetryEligible(r, maxRetryCount)
    {
      failed := [];
      var id := 0;
      while id < nextId
        invariant 0 <= id <= nextId
        invariant failed == RowsBelow(records, id, r => RetryEligible(r, maxRetryCount))
      {
        if id in records && RetryEligible(records[id], maxRetryCount) {
          failed := failed + [records[id]];
        }
        id := id + 1;
      }
      forall r | r in failed ensures RetryEligible(r, maxRetryCount) {
        RowsBelowMembers(records, nextId, r => RetryEligible(r, maxRetryCount), r);
      }
    }

    /** The ids of the rows satisfying p, in id order (the scan a selectOne / selectList performs). */
    method SelectIds(p: PushRecord -> bool) returns (ids: seq<nat>)
      ensures ids == IdsBelow(records, nextId, p)
    {
      ids := [];
      var id := 0;
      while id < nextId
        invariant 0 <= id <= nextId
        invariant ids == IdsBelow(records, id, p)
      {
        if id in records && p(records[id]) {
          ids := ids + [id];
        }
        id := id + 1;
      }
    }
  }

  function Incremented(n: Option<int>): (r: Option<int>)
    ensures n.Some? <==> r.Some?
    ensures n.Some? ==> r.value == n.value + 1
  {
    if n.Some? then Some(n.value + 1) else None
  }
}
