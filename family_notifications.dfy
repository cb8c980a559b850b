// FamilyNotificationServiceImpl: notification templates of a family, the
// template permission rule, receiver resolution and sending a template.
module FamilyNotifications {
  import opened Wrappers
  import opened DeviceTokens
  import opened PushRecords
  import opened FamilyTables
  import FamilyRelations
  import Families
  import ExpoPush
  import PushRecordService

  const Business: int := 1000

  /** The family_notification table. Deleting a template removes its row (a logical delete). */
  class TemplateTable {
    var templates: seq<Template>
    var nextId: int

    constructor ()
      ensures templates == []
    {
      templates := [];
      nextId := 1;
    }
  }

  /** The position of the template with this id. */
  function TemplateIndex(templates: seq<Template>, id: int): (r: Option<nat>)
    ensures r.Some? ==> r.value < |templates| && templates[r.value].id == id
    ensures r.None? ==> forall j :: 0 <= j < |templates| ==> templates[j].id != id
  {
    FirstIndex(templates, (n: Template) => n.id == id)
  }

  /** checkTemplatePermission: the template's creator, or anyone with its family's permission. */
  predicate CheckTemplatePermission(templates: seq<Template>, families: seq<Family>, relations: seq<Relation>,
                                    templateId: int, userId: int)
  {
    var i := TemplateIndex(templates, templateId);
    i.Some? && (templates[i.value].creatorId == userId
                || Families.CheckFamilyPermission(families, relations, templates[i.value].familyId, userId))
  }

  /** A missing template grants nothing; its creator always has permission; otherwise the family decides. */
  lemma TemplatePermissionRule(templates: seq<Template>, families: seq<Family>, relations: seq<Relation>,
                               templateId: int, userId: int)
    ensures TemplateIndex(templates, templateId).None? ==>
      !CheckTemplatePermission(templates, families, relations, templateId, userId)
    ensures var i := TemplateIndex(templates, templateId);
      i.Some? && templates[i.value].creatorId == userId ==>
        CheckTemplatePermission(templates, families, relations, templateId, userId)
    ensures var i := TemplateIndex(templates, templateId);
      i.Some? && templates[i.value].creatorId != userId ==>
        (CheckTemplatePermission(templates, families, relations, templateId, userId) <==>
         Families.CheckFamilyPermission(families, relations, templates[i.value].familyId, userId))
  {
  }

  // ---------------------------------------------------------------- receivers

  /** The ids that are active members of the family, in the given order, duplicates kept. */
  function KeepMembers(relations: seq<Relation>, familyId: int, ids: seq<int>): (r: seq<int>)
    ensures |r| <= |ids|
  {
    if |ids| == 0 then []
    else
      var last := ids[|ids| - 1];
      KeepMembers(relations, familyId, ids[..|ids| - 1])
      + (if FamilyRelations.IsFamilyMember(relations, familyId, last) then [last] else [])
  }

  /** getFamilyMembersByUserIds: nothing for a null or empty list, else the members among the ids. */
  function MembersByUserIds(relations: seq<Relation>, familyId: int, userIds: Option<seq<int>>): seq<int>
  {
    if userIds.None? || userIds.value == [] then [] else KeepMembers(relations, familyId, userIds.value)
  }

  /** The kept ids are exactly the listed active members, and a list of members only is kept whole, in order. */
  lemma KeepMembersRule(relations: seq<Relation>, familyId: int, ids: seq<int>)
    ensures forall u :: u in KeepMembers(relations, familyId, ids) <==>
      u in ids && FamilyRelations.IsFamilyMember(relations, familyId, u)
    ensures (forall k :: 0 <= k < |ids| ==> FamilyRelations.IsFamilyMember(relations, familyId, ids[k])) ==>
      KeepMembers(relations, familyId, ids) == ids
  {
    forall u
      ensures u in KeepMembers(relations, familyId, ids) <==> u in ids && FamilyRelations.IsFamilyMember(relations, familyId, u)
    {
      KeepMembersHas(relations, familyId, ids, u);
    }
    if forall k :: 0 <= k < |ids| ==> FamilyRelations.IsFamilyMember(relations, familyId, ids[k]) {
      KeepMembersWhole(relations, familyId, ids);
    }
  }

  lemma {:induction false} KeepMembersHas(relations: seq<Relation>, familyId: int, ids: seq<int>, u: int)
    ensures u in KeepMembers(relations, familyId, ids) <==> u in ids && FamilyRelations.IsFamilyMember(relations, familyId, u)
  {
    if |ids| > 0 {
      var n := |ids| - 1;
      KeepMembersHas(relations, familyId, ids[..n], u);
      assert ids == ids[..n] + [ids[n]];
    }
  }

  lemma {:induction false} KeepMembersWhole(relations: seq<Relation>, familyId: int, ids: seq<int>)
    requires forall k :: 0 <= k < |ids| ==> FamilyRelations.IsFamilyMember(relations, familyId, ids[k])
    ensures KeepMembers(relations, familyId, ids) == ids
  {
    if |ids| > 0 {
      var n := |ids| - 1;
      assert forall k :: 0 <= k < n ==> ids[..n][k] == ids[k];
      KeepMembersWhole(relations, familyId, ids[..n]);
      assert ids == ids[..n] + [ids[n]];
    }
  }

  /** getFamilyMembersByRoles: all active members for no roles, else those holding one of the roles. */
  function MembersByRoles(relations: seq<Relation>, familyId: int, roleIds: Option<seq<int>>): seq<int>
  {
    if roleIds.None? || roleIds.value == [] then FamilyRelations.MemberIds(relations, familyId)
    else FamilyRelations.MemberIdsByRoles(relations, familyId, roleIds)
  }

  /** The template-side role lookup agrees with the relation service's for every input. */
  lemma MembersByRolesAgrees(relations: seq<Relation>, familyId: int, roleIds: Option<seq<int>>)
    ensures MembersByRoles(relations, familyId, roleIds) == FamilyRelations.MemberIdsByRoles(relations, familyId, roleIds)
    ensures roleIds.None? ==> MembersByRoles(relations, familyId, roleIds) == FamilyRelations.MemberIds(relations, familyId)
  {
  }

  // ---------------------------------------------------------------- templates

  /** CreateFamilyNotificationRequest (its type is `kind` here). */
  datatype TemplateRequest = TemplateRequest(
    title: Option<string>,
    content: Option<string>,
    description: Option<string>,
    svgIcon: Option<string>,
    cardBackColor: Option<string>,
    familyId: int,
    kind: Option<int>,
    category: Option<string>,
    receiverUserIds: Option<seq<int>>,
    remark: Option<string>)

  /** The template a create request yields: the caller as creator, unused and active. */
  function NewTemplate(id: int, req: TemplateRequest, userId: int): Template
  {
    Template(id, req.title, req.content, req.description, req.svgIcon, req.cardBackColor, userId, req.familyId,
             req.kind, req.category, 0, true, req.receiverUserIds, req.remark)
  }

  /** createNotificationTemplate. */
  method CreateTemplate(table: TemplateTable, store: FamilyStore, req: TemplateRequest, userId: int)
    returns (r: Result<Template>)
    modifies table
    ensures !Families.CheckFamilyPermission(store.families, store.relations, req.familyId, userId) ==>
      r == Err(Fault(Business, "无权限操作该家庭")) && table.templates == old(table.templates)
    ensures Families.CheckFamilyPermission(store.families, store.relations, req.familyId, userId) ==>
      r.Ok? && r.value == NewTemplate(old(table.nextId), req, userId)
      && table.templates == old(table.templates) + [r.value]
    ensures r.Ok? ==> r.value.creatorId == userId && r.value.usageCount == 0 && r.value.isActive
                      && r.value.familyId == req.familyId
  {
    if !Families.CheckFamilyPermission(store.families, store.relations, req.familyId, userId) {
      return Err(Fault(Business, "无权限操作该家庭"));
    }
    var n := NewTemplate(table.nextId, req, userId);
    table.templates := table.templates + [n];
    table.nextId := table.nextId + 1;
    r := Ok(n);
  }

  /** The object updateNotificationTemplate returns: every request property copied over, nulls included. */
  function CopiedTemplate(n: Template, req: TemplateRequest): Template
  {
    n.(title := req.title, content := req.content, description := req.description, svgIcon := req.svgIcon,
       cardBackColor := req.cardBackColor, familyId := req.familyId, kind := req.kind, category := req.category,
       receiverUserIds := req.receiverUserIds, remark := req.remark)
  }

  function Keep<T>(update: Option<T>, current: Option<T>): Option<T>
  {
    if update.Some? then update else current
  }

  /** The row updateById writes: null properties are skipped, so those columns keep their values. */
  function StoredTemplate(n: Template, req: TemplateRequest): Template
  {
    n.(title := Keep(req.title, n.title), content := Keep(req.content, n.content),
       description := Keep(req.description, n.description), svgIcon := Keep(req.svgIcon, n.svgIcon),
       cardBackColor := Keep(req.cardBackColor, n.cardBackColor), familyId := req.familyId,
       kind := Keep(req.kind, n.kind), category := Keep(req.category, n.category),
       receiverUserIds := Keep(req.receiverUserIds, n.receiverUserIds), remark := Keep(req.remark, n.remark))
  }

  /** An update never changes the id, creator, usage count or active flag, and the stored row agrees with the returned object wherever the request is non-null. */
  lemma UpdateKeepsBookkeeping(n: Template, req: TemplateRequest)
    ensures var c := CopiedTemplate(n, req); var s := StoredTemplate(n, req);
      c.id == n.id && s.id == n.id && c.creatorId == n.creatorId && s.creatorId == n.creatorId
      && c.usageCount == n.usageCount && s.usageCount == n.usageCount && c.isActive == n.isActive && s.isActive == n.isActive
      && (req.title.Some? ==> s.title == c.title) && (req.title.None? ==> s.title == n.title)
      && (req.receiverUserIds.Some? ==> s.receiverUserIds == c.receiverUserIds)
      && (req.receiverUserIds.None? ==> s.receiverUserIds == n.receiverUserIds)
  {
  }

  /** updateNotificationTemplate. */
  method UpdateTemplate(table: TemplateTable, store: FamilyStore, id: int, req: TemplateRequest, userId: int)
    returns (r: Result<Template>)
    modifies table
    ensures table.nextId == old(table.nextId)
    ensures var i := TemplateIndex(old(table.templates), id);
      if i.None? then r == Err(Fault(Business, "通知模版不存在")) && table.templates == old(table.templates)
      else if !CheckTemplatePermission(old(table.templates), store.families, store.relations, id, userId)
      then r == Err(Fault(Business, "无权限操作该通知模版")) && table.templates == old(table.templates)
      else r == Ok(CopiedTemplate(old(table.templates)[i.value], req))
           && table.templates == old(table.templates)[i.value := StoredTemplate(old(table.templates)[i.value], req)]
  {
    var i := TemplateIndex(table.templates, id);
    if i.None? {
      return Err(Fault(Business, "通知模版不存在"));
    }
    if !CheckTemplatePermission(table.templates, store.families, store.relations, id, userId) {
      return Err(Fault(Business, "无权限操作该通知模版"));
    }
    var current := table.templates[i.value];
    table.templates := table.templates[i.value := StoredTemplate(current, req)];
    r := Ok(CopiedTemplate(current, req));
  }

  /** The rows other than the template with this id. */
  function WithoutTemplate(templates: seq<Template>, id: int): (r: seq<Template>)
    ensures forall n :: n in r <==> n in templates && n.id != id
  {
    if |templates| == 0 then []
    else
      assert templates == [templates[0]] + templates[1..];
      (if templates[0].id == id then [] else [templates[0]]) + WithoutTemplate(templates[1..], id)
  }

  /** deleteNotificationTemplate. */
  method DeleteTemplate(table: TemplateTable, store: FamilyStore, id: int, userId: int) returns (r: Result<bool>)
    modifies table
    ensures table.nextId == old(table.nextId)
    ensures !CheckTemplatePermission(old(table.templates), store.families, store.relations, id, userId) ==>
      r == Err(Fault(Business, "无权限操作该通知模版")) && table.templates == old(table.templates)
    ensures CheckTemplatePermission(old(table.templates), store.families, store.relations, id, userId) ==>
      r == Ok(true) && table.templates == WithoutTemplate(old(table.templates), id)
  {
    if !CheckTemplatePermission(table.templates, store.families, store.relations, id, userId) {
      return Err(Fault(Business, "无权限操作该通知模版"));
    }
    table.templates := WithoutTemplate(table.templates, id);
    r := Ok(true);
  }

  /** toggleNotificationTemplate: only the active flag changes. */
  method ToggleTemplate(table: TemplateTable, store: FamilyStore, id: int, isActive: bool, userId: int)
    returns (r: Result<bool>)
    modifies table
    ensures table.nextId == old(table.nextId)
    ensures var i := TemplateIndex(old(table.templates), id);
      if !CheckTemplatePermission(old(table.templates), store.families, store.relations, id, userId)
      then r == Err(Fault(Business, "无权限操作该通知模版")) && table.templates == old(table.templates)
      else i.Some? && r == Ok(true)
           && table.templates == old(table.templates)[i.value := old(table.templates)[i.value].(isActive := isActive)]
  {
    if !CheckTemplatePermission(table.templates, store.families, store.relations, id, userId) {
      return Err(Fault(Business, "无权限操作该通知模版"));
    }
    var i := TemplateIndex(table.templates, id);
    table.templates := table.templates[i.value := table.templates[i.value].(isActive := isActive)];
    r := Ok(true);
  }

  /** getNotificationTemplateDetail: any holder of the family permission may read a template. */
  function TemplateDetail(templates: seq<Template>, families: seq<Family>, relations: seq<Relation>,
                          id: int, userId: int): (r: Result<Template>)
    ensures r.Ok? ==> r.value in templates && r.value.id == id
                      && Families.CheckFamilyPermission(families, relations, r.value.familyId, userId)
    ensures TemplateIndex(templates, id).None? ==> r == Err(Fault(Business, "通知模版不存在"))
  {
    var i := TemplateIndex(templates, id);
    if i.None? then Err(Fault(Business, "通知模版不存在"))
    else if !Families.CheckFamilyPermission(families, relations, templates[i.value].familyId, userId)
    then Err(Fault(Business, "无权限查看该通知模版"))
    else Ok(templates[i.value])
  }

  // ---------------------------------------------------------------- sending

  /** SendNotificationTemplateRequest. */
  datatype SendRequest = SendRequest(templateId: int, familyId: int)

  /** The first guard of sendNotificationTemplate that rejects the request, if any. */
  function SendRejection(templates: seq<Template>, families: seq<Family>, relations: seq<Relation>,
                         req: SendRequest, userId: int): Option<Fault>
  {
    var i := TemplateIndex(templates, req.templateId);
    if i.None? then Some(Fault(Business, "通知模版不存在"))
    else if !Families.CheckFamilyPermission(families, relations, req.familyId, userId)
    then Some(Fault(Business, "无权限操作该家庭"))
    else if templates[i.value].familyId != req.familyId then Some(Fault(Business, "通知模版不属于该家庭"))
    else if !templates[i.value].isActive then Some(Fault(Business, "通知模版已停用"))
    else if MembersByUserIds(relations, req.familyId, templates[i.value].receiverUserIds) == []
    then Some(Fault(Business, "没有找到有效的接收者"))
    else None
  }

  /**
   * A request that passes every guard names an active template of the
   * caller's family and has at least one receiver, all of them active members.
   */
  lemma SendAcceptedRule(templates: seq<Template>, families: seq<Family>, relations: seq<Relation>,
                         req: SendRequest, userId: int)
    requires SendRejection(templates, families, relations, req, userId).None?
    ensures var i := TemplateIndex(templates, req.templateId);
      i.Some? && templates[i.value].familyId == req.familyId && templates[i.value].isActive
      && Families.CheckFamilyPermission(families, relations, req.familyId, userId)
      && var receivers := MembersByUserIds(relations, req.familyId, templates[i.value].receiverUserIds);
         receivers != []
         && forall u :: u in receivers ==> FamilyRelations.IsFamilyMember(relations, req.familyId, u)
  {
    var i := TemplateIndex(templates, req.templateId).value;
    KeepMembersRule(relations, req.familyId, templates[i].receiverUserIds.value);
  }

  /**
   * A template whose receiver list is null or empty is documented as "all
   * members", yet every send that reaches the receiver guard is rejected.
   */
  lemma EmptyReceiverListNeverSends(templates: seq<Template>, families: seq<Family>, relations: seq<Relation>,
                                    req: SendRequest, userId: int)
    requires var i := TemplateIndex(templates, req.templateId);
      i.Some? && (templates[i.value].receiverUserIds.None? || templates[i.value].receiverUserIds.value == [])
    ensures SendRejection(templates, families, relations, req, userId).Some?
    ensures var i := TemplateIndex(templates, req.templateId);
      Families.CheckFamilyPermission(families, relations, req.familyId, userId)
      && templates[i.value].familyId == req.familyId && templates[i.value].isActive ==>
        SendRejection(templates, families, relations, req, userId) == Some(Fault(Business, "没有找到有效的接收者"))
  {
  }

  /** The template's usage count after incrementUsageCount. */
  function UsageCounted(templates: seq<Template>, i: nat): seq<Template>
    requires i < |templates|
  {
    templates[i := templates[i].(usageCount := templates[i].usageCount + 1)]
  }

  /**
   * sendNotificationTemplate: after the guards, create the Pending records
   * for the receivers, push them, and count a use only when the push
   * reports success.
   */
  method SendTemplate(table: TemplateTable, store: FamilyStore, registry: TokenRegistry, ledger: PushLedger,
                      req: SendRequest, userId: int, batchSize: int, gateway: ExpoPush.Gateway,
                      run: PushRecordService.PushRun, now: int) returns (r: Result<bool>)
    requires batchSize != 0 && ledger.Valid()
    modifies table, ledger
    ensures ledger.Valid() && table.nextId == old(table.nextId)
    ensures var rejection := SendRejection(old(table.templates), store.families, store.relations, req, userId);
      rejection.Some? ==>
        r == Err(rejection.value) && table.templates == old(table.templates)
        && ledger.records == old(ledger.records) && ledger.nextId == old(ledger.nextId)
    ensures var rejection := SendRejection(old(table.templates), store.families, store.relations, req, userId);
      rejection.None? ==>
        var i := TemplateIndex(old(table.templates), req.templateId).value;
        var n := old(table.templates)[i];
        var receivers := MembersByUserIds(store.relations, req.familyId, n.receiverUserIds);
        var built := PushRecordService.BuiltRecords(registry.Snapshot(), store.relations, n, userId, receivers, now);
        var saved := Stamped(built, old(ledger.nextId));
        var ok := PushRecordService.ExecuteOk(registry.Snapshot(), saved, batchSize, gateway, run);
        r == Ok(ok)
        && ledger.records == PushRecordService.Executed(Appended(old(ledger.records), old(ledger.nextId), built),
                                                        registry.Snapshot(), saved, batchSize, gateway, run, now)
        && table.templates == (if ok then UsageCounted(old(table.templates), i) else old(table.templates))
  {
    var i := TemplateIndex(table.templates, req.templateId);
    if i.None? {
      return Err(Fault(Business, "通知模版不存在"));
    }
    if !Families.CheckFamilyPermission(store.families, store.relations, req.familyId, userId) {
      return Err(Fault(Business, "无权限操作该家庭"));
    }
    var n := table.templates[i.value];
    if n.familyId != req.familyId {
      return Err(Fault(Business, "通知模版不属于该家庭"));
    }
    if !n.isActive {
      return Err(Fault(Business, "通知模版已停用"));
    }
    var receivers := MembersByUserIds(store.relations, req.familyId, n.receiverUserIds);
    if receivers == [] {
      return Err(Fault(Business, "没有找到有效的接收者"));
    }
    var records := PushRecordService.CreatePushRecords(n, userId, receivers, store, registry, ledger, now);
    var success := PushRecordService.ExecutePush(records, registry, ledger, batchSize, gateway, run, now);
    if success {
      table.templates := UsageCounted(table.templates, i.value);
    }
    r := Ok(success);
  }
}
