// NotificationPushRecordServiceImpl: creating the Pending records of a
// notification, executing and retrying pushes, read marking, and the
// permission checks on records.
module PushRecordService {
  import opened Wrappers
  import opened DeviceTokens
  import opened PushRecords
  import opened FamilyTables
  import FamilyRelations
  import Families
  import ExpoPush

  const Business: int := 1000
  const Failure: int := 500

  // ---------------------------------------------------------------- creating records

  /** The record created for one active token of a receiver; the role comes from the receiver's relation, if any. */
  function ServiceRecord(n: Template, senderId: int, receiverId: int, relation: Option<Relation>,
                         d: DeviceToken, now: int): PushRecord
  {
    Blank.(templateId := Some(n.id), title := n.title, content := n.content, svgIcon := n.svgIcon,
           senderId := Some(senderId), receiverId := Some(receiverId), familyId := Some(n.familyId),
           sentTime := Some(now), kind := n.kind, priority := Some(2), isOneClick := Some(true),
           roleId := if relation.Some? then relation.value.roleId else None,
           roleName := if relation.Some? then Some("") else None,
           deviceTokenId := Some(d.id), deviceToken := Some(d.deviceToken), platform := d.platform,
           pushStatus := Some(Pending), isRead := Some(false), retryCount := Some(0), status := Some(0))
  }

  /** The records of one receiver, one per active token, in token order. */
  function ReceiverRecords(t: Table, relations: seq<Relation>, n: Template, senderId: int, receiverId: int,
                           now: int): (rs: seq<PushRecord>)
    ensures |rs| == |ActiveOf(t, [receiverId])|
  {
    var tokens := ActiveOf(t, [receiverId]);
    var relation := FamilyRelations.RelationOf(relations, n.familyId, receiverId);
    seq(|tokens|, k requires 0 <= k < |tokens| => ServiceRecord(n, senderId, receiverId, relation, tokens[k], now))
  }

  /** The records createPushRecords builds, receiver by receiver. */
  function BuiltRecords(t: Table, relations: seq<Relation>, n: Template, senderId: int, receiverIds: seq<int>,
                        now: int): seq<PushRecord>
  {
    if |receiverIds| == 0 then []
    else BuiltRecords(t, relations, n, senderId, receiverIds[..|receiverIds| - 1], now)
         + ReceiverRecords(t, relations, n, senderId, receiverIds[|receiverIds| - 1], now)
  }

  /** The number of active tokens over the receivers, counted once per occurrence. */
  function TokenTotal(t: Table, receiverIds: seq<int>): nat
  {
    if |receiverIds| == 0 then 0
    else TokenTotal(t, receiverIds[..|receiverIds| - 1]) + |ActiveOf(t, [receiverIds[|receiverIds| - 1]])|
  }

  /** Exactly one record per active token of each receiver; a receiver without tokens adds none. */
  lemma {:induction false} BuiltRecordsCount(t: Table, relations: seq<Relation>, n: Template, senderId: int,
                                             receiverIds: seq<int>, now: int)
    ensures |BuiltRecords(t, relations, n, senderId, receiverIds, now)| == TokenTotal(t, receiverIds)
  {
    if |receiverIds| > 0 {
      BuiltRecordsCount(t, relations, n, senderId, receiverIds[..|receiverIds| - 1], now);
    }
  }

  /** Every built record is the Pending record of one of the receivers' active tokens. */
  lemma {:induction false} BuiltRecordsShape(t: Table, relations: seq<Relation>, n: Template, senderId: int,
                                             receiverIds: seq<int>, now: int, rec: PushRecord)
    requires rec in BuiltRecords(t, relations, n, senderId, receiverIds, now)
    ensures rec.pushStatus == Some(Pending) && rec.isRead == Some(false) && rec.retryCount == Some(0)
    ensures rec.status == Some(0) && rec.priority == Some(2) && rec.isOneClick == Some(true)
    ensures rec.templateId == Some(n.id) && rec.familyId == Some(n.familyId) && rec.senderId == Some(senderId)
    ensures rec.receiverId.Some? && rec.receiverId.value in receiverIds
    ensures exists d :: d in ActiveOf(t, [rec.receiverId.value])
                        && rec.deviceTokenId == Some(d.id) && rec.deviceToken == Some(d.deviceToken)
                        && rec.platform == d.platform
  {
    var m := |receiverIds| - 1;
    var last := ReceiverRecords(t, relations, n, senderId, receiverIds[m], now);
    if rec in BuiltRecords(t, relations, n, senderId, receiverIds[..m], now) {
      BuiltRecordsShape(t, relations, n, senderId, receiverIds[..m], now, rec);
      assert rec.receiverId.value in receiverIds[..m];
    } else {
      assert rec in last;
      var k :| 0 <= k < |last| && last[k] == rec;
      var d := ActiveOf(t, [receiverIds[m]])[k];
      assert d in ActiveOf(t, [rec.receiverId.value]);
    }
  }

  /**
   * createPushRecords: builds the records in receiver then token order and,
   * when there are any, batch-saves them; returns the saved rows.
   */
  method CreatePushRecords(n: Template, senderId: int, receiverIds: seq<int>, store: FamilyStore,
                           registry: TokenRegistry, ledger: PushLedger, now: int) returns (records: seq<PushRecord>)
    requires ledger.Valid()
    modifies ledger
    ensures ledger.Valid()
    ensures var built := BuiltRecords(registry.Snapshot(), store.relations, n, senderId, receiverIds, now);
      records == Stamped(built, old(ledger.nextId)) && ledger.nextId == old(ledger.nextId) + |built|
      && ledger.records == Appended(old(ledger.records), old(ledger.nextId), built)
  {
    var t := registry.Snapshot();
    var pushRecords: seq<PushRecord> := [];
    var i := 0;
    while i < |receiverIds|
      invariant 0 <= i <= |receiverIds|
      invariant pushRecords == BuiltRecords(t, store.relations, n, senderId, receiverIds[..i], now)
      invariant unchanged(ledger)
    {
      assert receiverIds[..i + 1][..i] == receiverIds[..i];
      var receiverId := receiverIds[i];
      var tokens := registry.GetActiveTokensByUserId(receiverId);
      if tokens != [] {
        var relation := FamilyRelations.RelationOf(store.relations, n.familyId, receiverId);
        ghost var before := pushRecords;
        ghost var mine := ReceiverRecords(t, store.relations, n, senderId, receiverId, now);
        var j := 0;
        while j < |tokens|
          invariant 0 <= j <= |tokens|
          invariant pushRecords == before + mine[..j]
          invariant unchanged(ledger)
        {
          assert mine[..j + 1] == mine[..j] + [ServiceRecord(n, senderId, receiverId, relation, tokens[j], now)];
          pushRecords := pushRecords + [ServiceRecord(n, senderId, receiverId, relation, tokens[j], now)];
          j := j + 1;
        }
        assert mine[..j] == mine;
      }
      i := i + 1;
    }
    assert receiverIds[..i] == receiverIds;
    records := [];
    if pushRecords != [] {
      records := ledger.SaveBatch(pushRecords);
    }
  }

  // ---------------------------------------------------------------- executing pushes

  /** Whether expoPushService.sendPushRecords returned, or threw (with the exception's message) before writing. */
  datatype PushRun = Completed | Threw(message: Option<string>)

  /** The catch branch of executePush: every record's row is failed with PUSH_ERROR. */
  function PushErrored(records: map<nat, PushRecord>, rs: seq<PushRecord>, now: int,
                       message: Option<string>): map<nat, PushRecord>
  {
    if |rs| == 0 then records
    else
      var before := PushErrored(records, rs[..|rs| - 1], now, message);
      var id := rs[|rs| - 1].id;
      if id in before then before[id := WithPushStatus(before[id], FailedStatus, now, None, Some("PUSH_ERROR"), message)]
      else before
  }

  /** The table after executePush. */
  function Executed(records: map<nat, PushRecord>, t: Table, rs: seq<PushRecord>, batchSize: int,
                    g: ExpoPush.Gateway, run: PushRun, now: int): map<nat, PushRecord>
    requires batchSize != 0
  {
    if rs == [] then records
    else if run.Threw? then PushErrored(records, rs, now, run.message)
    else ExpoPush.RecordsSent(records, t, rs, batchSize, g, now)
  }

  /** executePush's result: true for nothing to push, else whether some record was delivered. */
  predicate ExecuteOk(t: Table, rs: seq<PushRecord>, batchSize: int, g: ExpoPush.Gateway, run: PushRun)
    requires batchSize != 0
  {
    rs == [] || (run.Completed? && ExpoPush.AnyDelivered(t, rs, batchSize, g))
  }

  /** executePush. */
  method ExecutePush(records: seq<PushRecord>, registry: TokenRegistry, ledger: PushLedger, batchSize: int,
                     gateway: ExpoPush.Gateway, run: PushRun, now: int) returns (ok: bool)
    requires batchSize != 0 && ledger.Valid()
    modifies ledger
    ensures ledger.Valid() && ledger.nextId == old(ledger.nextId)
    ensures ledger.records == Executed(old(ledger.records), registry.Snapshot(), records, batchSize, gateway, run, now)
    ensures ok == ExecuteOk(registry.Snapshot(), records, batchSize, gateway, run)
  {
    if records == [] {
      return true;
    }
    if run.Completed? {
      ok := ExpoPush.SendPushRecords(records, registry, ledger, batchSize, gateway, now);
      return;
    }
    var k := 0;
    while k < |records|
      invariant 0 <= k <= |records|
      invariant ledger.Valid() && ledger.nextId == old(ledger.nextId)
      invariant ledger.records == PushErrored(old(ledger.records), records[..k], now, run.message)
    {
      assert records[..k + 1][..k] == records[..k];
      var _ := ledger.UpdatePushStatus(records[k].id, FailedStatus, now, None, Some("PUSH_ERROR"), run.message);
      k := k + 1;
    }
    assert records[..k] == records;
    ok := false;
  }

  /** When the push service throws, every record's row ends failed with PUSH_ERROR and no other row changes. */
  lemma {:induction false} PushErroredMarksAll(records: map<nat, PushRecord>, rs: seq<PushRecord>, now: int,
                                               message: Option<string>, id: nat)
    ensures var after := PushErrored(records, rs, now, message);
      (id in after <==> id in records)
      && (id in records && (exists k :: 0 <= k < |rs| && rs[k].id == id) ==>
            after[id].pushStatus == Some(FailedStatus) && after[id].errorCode == Some("PUSH_ERROR")
            && after[id].errorMessage == message)
      && (id in records && (forall k :: 0 <= k < |rs| ==> rs[k].id != id) ==> after[id] == records[id])
  {
    if |rs| > 0 {
      var n := |rs| - 1;
      PushErroredMarksAll(records, rs[..n], now, message, id);
      if exists k :: 0 <= k < |rs| && rs[k].id == id {
        var k :| 0 <= k < |rs| && rs[k].id == id;
        if k < n {
          assert rs[..n][k] == rs[k];
        }
      }
      forall k | 0 <= k < n ensures rs[..n][k] == rs[k] { }
    }
  }

  // ---------------------------------------------------------------- read marking

  /** markAsRead's result on the table as it stands. */
  function ReadResult(records: map<nat, PushRecord>, id: nat, userId: int): Result<bool>
  {
    if id !in records then Err(Fault(Business, "推送记录不存在"))
    else if records[id].receiverId.None? then Err(Fault(Failure, "NullPointerException"))
    else if records[id].receiverId.value != userId then Err(Fault(Business, "无权限操作该推送记录"))
    else if records[id].isRead.None? then Err(Fault(Failure, "NullPointerException"))
    else Ok(true)
  }

  /** The table after markAsRead: only an unread row of the caller is written. */
  function AfterRead(records: map<nat, PushRecord>, id: nat, userId: int, now: int): map<nat, PushRecord>
  {
    if ReadResult(records, id, userId).Ok? && records[id].isRead == Some(false)
    then records[id := records[id].(isRead := Some(true), readTime := Some(now))]
    else records
  }

  /** markAsRead. */
  method MarkAsRead(ledger: PushLedger, id: nat, userId: int, now: int) returns (r: Result<bool>)
    requires ledger.Valid()
    modifies ledger
    ensures ledger.Valid() && ledger.nextId == old(ledger.nextId)
    ensures r == ReadResult(old(ledger.records), id, userId)
    ensures ledger.records == AfterRead(old(ledger.records), id, userId, now)
  {
    if id !in ledger.records {
      return Err(Fault(Business, "推送记录不存在"));
    }
    var record := ledger.records[id];
    if record.receiverId.None? {
      return Err(Fault(Failure, "NullPointerException"));
    }
    if record.receiverId.value != userId {
      return Err(Fault(Business, "无权限操作该推送记录"));
    }
    if record.isRead.None? {
      return Err(Fault(Failure, "NullPointerException"));
    }
    if record.isRead.value {
      return Ok(true);
    }
    var updated := ledger.MarkAsRead(id, now);
    r := Ok(updated);
  }

  /**
   * Marking a record read succeeds only for its receiver, leaves it read,
   * touches no other row, and a second marking changes nothing (the first
   * read time is kept).
   */
  lemma MarkAsReadRule(records: map<nat, PushRecord>, id: nat, userId: int, now: int, later: int)
    ensures ReadResult(records, id, userId).Ok? ==> id in records && records[id].receiverId == Some(userId)
    ensures var after := AfterRead(records, id, userId, now);
      after.Keys == records.Keys
      && (forall other :: other in records && other != id ==> after[other] == records[other])
      && (ReadResult(records, id, userId).Ok? ==> after[id].isRead == Some(true))
      && AfterRead(after, id, userId, later) == after
      && ReadResult(after, id, userId) == ReadResult(records, id, userId)
  {
    if ReadResult(records, id, userId).Ok? {
      var read := records[id].isRead.value;
      assert records[id].isRead == Some(read);
    }
  }

  /** The table after batchMarkAsRead: markAsRead on each id in turn. */
  function BatchRead(records: map<nat, PushRecord>, ids: seq<nat>, userId: int, now: int): map<nat, PushRecord>
  {
    if |ids| == 0 then records
    else AfterRead(BatchRead(records, ids[..|ids| - 1], userId, now), ids[|ids| - 1], userId, now)
  }

  /** How many of the calls returned true. */
  function ReadCount(records: map<nat, PushRecord>, ids: seq<nat>, userId: int, now: int): (c: nat)
    ensures c <= |ids|
  {
    if |ids| == 0 then 0
    else
      var before := BatchRead(records, ids[..|ids| - 1], userId, now);
      ReadCount(records, ids[..|ids| - 1], userId, now) + (if ReadResult(before, ids[|ids| - 1], userId).Ok? then 1 else 0)
  }

  /** batchMarkAsRead: failures are swallowed and only successes are counted. */
  method BatchMarkAsRead(ledger: PushLedger, ids: seq<nat>, userId: int, now: int) returns (count: nat)
    requires ledger.Valid()
    modifies ledger
    ensures ledger.Valid() && ledger.nextId == old(ledger.nextId)
    ensures count == ReadCount(old(ledger.records), ids, userId, now) && count <= |ids|
    ensures ledger.records == BatchRead(old(ledger.records), ids, userId, now)
  {
    count := 0;
    var k := 0;
    while k < |ids|
      invariant 0 <= k <= |ids|
      invariant ledger.Valid() && ledger.nextId == old(ledger.nextId)
      invariant ledger.records == BatchRead(old(ledger.records), ids[..k], userId, now)
      invariant count == ReadCount(old(ledger.records), ids[..k], userId, now)
    {
      assert ids[..k + 1][..k] == ids[..k];
      var r := MarkAsRead(ledger, ids[k], userId, now);
      if r.Ok? && r.value {
        count := count + 1;
      }
      k := k + 1;
    }
    assert ids[..k] == ids;
  }

  /**
   * After a batch, every listed row of the caller with a non-null read flag is
   * read, and rows of other receivers are untouched.
   */
  lemma {:induction false} BatchReadMarksOwnRows(records: map<nat, PushRecord>, ids: seq<nat>, userId: int,
                                                 now: int, id: nat)
    requires id in records
    ensures var after := BatchRead(records, ids, userId, now);
      id in after && after[id].receiverId == records[id].receiverId
      && (records[id].isRead.Some? ==> after[id].isRead.Some?)
      && (records[id].receiverId != Some(userId) ==> after[id] == records[id])
      && (id in ids && records[id].receiverId == Some(userId) && records[id].isRead.Some? ==>
            after[id].isRead == Some(true))
  {
    if |ids| > 0 {
      var n := |ids| - 1;
      BatchReadMarksOwnRows(records, ids[..n], userId, now, id);
      MarkAsReadRule(BatchRead(records, ids[..n], userId, now), ids[n], userId, now, now);
      if id in ids && id !in ids[..n] {
        assert ids[n] == id;
      }
    }
  }

  // ---------------------------------------------------------------- retries

  /** The table after incrementRetryCount on each record in turn. */
  function RetriesCounted(records: map<nat, PushRecord>, rs: seq<PushRecord>): map<nat, PushRecord>
  {
    if |rs| == 0 then records
    else
      var before := RetriesCounted(records, rs[..|rs| - 1]);
      var id := rs[|rs| - 1].id;
      if id in before then before[id := before[id].(retryCount := Incremented(before[id].retryCount))] else before
  }

  /**
   * retryFailedPushes: true when nothing is eligible; otherwise each selected
   * row's retry count is raised and the selected records are pushed again.
   */
  method RetryFailedPushes(registry: TokenRegistry, ledger: PushLedger, maxRetryCount: int, batchSize: int,
                           gateway: ExpoPush.Gateway, run: PushRun, now: int) returns (ok: bool)
    requires batchSize != 0 && ledger.Valid()
    modifies ledger
    ensures ledger.Valid() && ledger.nextId == old(ledger.nextId)
    ensures var failed := FailedRows(old(ledger.records), old(ledger.nextId), maxRetryCount);
      ledger.records == Executed(RetriesCounted(old(ledger.records), failed), registry.Snapshot(), failed,
                                 batchSize, gateway, run, now)
      && ok == ExecuteOk(registry.Snapshot(), failed, batchSize, gateway, run)
  {
    var failed := ledger.SelectFailedPushRecords(maxRetryCount);
    if failed == [] {
      return true;
    }
    var k := 0;
    while k < |failed|
      invariant 0 <= k <= |failed|
      invariant ledger.Valid() && ledger.nextId == old(ledger.nextId)
      invariant ledger.records == RetriesCounted(old(ledger.records), failed[..k])
    {
      assert failed[..k + 1][..k] == failed[..k];
      var _ := ledger.IncrementRetryCount(failed[k].id);
      k := k + 1;
    }
    assert failed[..k] == failed;
    ok := ExecutePush(failed, registry, ledger, batchSize, gateway, run, now);
  }

  /** With distinct ids, each listed row's retry count goes up exactly once and the other rows stay. */
  lemma {:induction false} RetriesCountedOnce(records: map<nat, PushRecord>, rs: seq<PushRecord>, id: nat)
    requires forall i, j :: 0 <= i < j < |rs| ==> rs[i].id != rs[j].id
    ensures var after := RetriesCounted(records, rs);
      (id in after <==> id in records)
      && (id in records && (exists k :: 0 <= k < |rs| && rs[k].id == id) ==>
            after[id] == records[id].(retryCount := Incremented(records[id].retryCount)))
      && (id in records && (forall k :: 0 <= k < |rs| ==> rs[k].id != id) ==> after[id] == records[id])
  {
    if |rs| > 0 {
      var n := |rs| - 1;
      RetriesCountedOnce(records, rs[..n], id);
      forall k | 0 <= k < n ensures rs[..n][k] == rs[k] { }
      if exists k :: 0 <= k < |rs| && rs[k].id == id {
        var k :| 0 <= k < |rs| && rs[k].id == id;
        if k < n {
          assert rs[..n][k] == rs[k];
        }
      }
    }
  }

  /** The rows a retry selects have distinct ids, so each of them is counted exactly once. */
  lemma RetrySelectsEachRowOnce(records: map<nat, PushRecord>, nextId: nat, maxRetryCount: int, id: nat)
    requires forall i :: i in records ==> records[i].id == i && i < nextId
    requires id in records && RetryEligible(records[id], maxRetryCount)
    ensures var failed := FailedRows(records, nextId, maxRetryCount);
      var after := RetriesCounted(records, failed);
      records[id] in failed && id in after && after[id].retryCount == Some(records[id].retryCount.value + 1)
  {
    var p := (r: PushRecord) => RetryEligible(r, maxRetryCount);
    var failed := FailedRows(records, nextId, maxRetryCount);
    RowsBelowMembers(records, nextId, p, records[id]);
    RowsBelowIdsSorted(records, nextId, p);
    var k :| 0 <= k < |failed| && failed[k] == records[id];
    RetriesCountedOnce(records, failed, id);
  }

  // ---------------------------------------------------------------- permissions

  /** checkRecordPermission; null sender or receiver columns throw when compared. */
  function CheckRecordPermission(records: map<nat, PushRecord>, families: seq<Family>, relations: seq<Relation>,
                                 recordId: nat, userId: int): Result<bool>
  {
    if recordId !in records then Ok(false)
    else
      var r := records[recordId];
      if r.senderId.None? then Err(Fault(Failure, "NullPointerException"))
      else if r.senderId.value == userId then Ok(true)
      else if r.receiverId.None? then Err(Fault(Failure, "NullPointerException"))
      else if r.receiverId.value == userId then Ok(true)
      else Ok(r.familyId.Some? && Families.CheckFamilyPermission(families, relations, r.familyId.value, userId))
  }

  /** The sender and receiver may always see a record; anyone else needs the family permission. */
  lemma RecordPermissionRule(records: map<nat, PushRecord>, families: seq<Family>, relations: seq<Relation>,
                             recordId: nat, userId: int)
    ensures recordId !in records ==> CheckRecordPermission(records, families, relations, recordId, userId) == Ok(false)
    ensures recordId in records && records[recordId].senderId.Some? && records[recordId].receiverId.Some? ==>
      CheckRecordPermission(records, families, relations, recordId, userId).Ok?
    ensures recordId in records && records[recordId].senderId.Some?
            && (records[recordId].senderId == Some(userId) || records[recordId].receiverId == Some(userId)) ==>
      CheckRecordPermission(records, families, relations, recordId, userId) == Ok(true)
    ensures CheckRecordPermission(records, families, relations, recordId, userId) == Ok(true) ==>
      recordId in records
      && (records[recordId].senderId == Some(userId) || records[recordId].receiverId == Some(userId)
          || (records[recordId].familyId.Some?
              && Families.CheckFamilyPermission(families, relations, records[recordId].familyId.value, userId)))
  {
  }

  /** The guards of getPushRecordPage: None when the page may be queried. */
  function PageAccessFault(families: seq<Family>, relations: seq<Relation>, receiverId: Option<int>,
                           familyId: Option<int>, userId: int): Option<Fault>
  {
    if receiverId.Some? && receiverId.value != userId then Some(Fault(Business, "无权限查看其他用户的推送记录"))
    else if familyId.Some? && !Families.CheckFamilyPermission(families, relations, familyId.value, userId)
    then Some(Fault(Business, "无权限查看该家庭的推送记录"))
    else None
  }

  /** A caller may filter by their own receiver id only, and by a family only with its permission. */
  lemma PageAccessRule(families: seq<Family>, relations: seq<Relation>, receiverId: Option<int>,
                       familyId: Option<int>, userId: int)
    ensures PageAccessFault(families, relations, receiverId, familyId, userId).None? <==>
      (receiverId.None? || receiverId == Some(userId))
      && (familyId.None? || Families.CheckFamilyPermission(families, relations, familyId.value, userId))
    ensures receiverId.Some? && receiverId != Some(userId) ==>
      PageAccessFault(families, relations, receiverId, familyId, userId) == Some(Fault(Business, "无权限查看其他用户的推送记录"))
  {
  }
}
