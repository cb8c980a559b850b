// FamilyServiceImpl: the family permission rule, invite codes, and the
// create / update / join / leave / delete operations. A failing operation
// leaves every table as it was (each runs in one transaction).
module Families {
  import opened Wrappers
  import opened Strings
  import opened FamilyTables
  import FamilyRelations

  const NotFound: int := 1002
  const Forbidden: int := 403
  const Business: int := 1000
  const Failure: int := 500

  /** The characters of an invite code. */
  const Alphabet: string := "ABCDEFGHIJKLMNOPQRSTUVWXYZ0123456789"
  const CodeLength: nat := 8
  const MaxAttempts: nat := 10

  /**
   * checkFamilyPermission: the family exists and the user created it or has a
   * relation to it, whatever that relation's status.
   */
  predicate CheckFamilyPermission(families: seq<Family>, relations: seq<Relation>, familyId: int, userId: int)
  {
    var family := FamilyById(families, familyId);
    family.Some? && (family.value.creatorId == userId || FamilyRelations.ExistsRelation(relations, familyId, userId))
  }

  // ---------------------------------------------------------------- invite codes

  /** The code generateRandomCode builds from eight draws of nextInt(36). */
  function CodeOf(picks: seq<int>): (code: string)
    requires forall i :: 0 <= i < |picks| ==> 0 <= picks[i] < |Alphabet|
    ensures |code| == |picks|
    ensures forall i :: 0 <= i < |code| ==> code[i] == Alphabet[picks[i]]
  {
    seq(|picks|, i requires 0 <= i < |picks| => Alphabet[picks[i]])
  }

  /** generateRandomCode, given the eight random indices it draws. */
  method GenerateRandomCode(picks: seq<int>) returns (code: string)
    requires |picks| == CodeLength as int
    requires forall i :: 0 <= i < |picks| ==> 0 <= picks[i] < |Alphabet|
    ensures code == CodeOf(picks)
    ensures |code| == 8 && forall i :: 0 <= i < |code| ==> code[i] in Alphabet
  {
    code := [];
    var i := 0;
    while i < CodeLength as int
      invariant 0 <= i <= 8 && |code| == i
      invariant forall k :: 0 <= k < i ==> code[k] == Alphabet[picks[k]]
    {
      code := code + [Alphabet[picks[i]]];
      i := i + 1;
    }
  }

  /** The 36 characters are distinct, so different draws give different codes. */
  lemma CodeOfInjective(a: seq<int>, b: seq<int>)
    requires forall i :: 0 <= i < |a| ==> 0 <= a[i] < |Alphabet|
    requires forall i :: 0 <= i < |b| ==> 0 <= b[i] < |Alphabet|
    requires |a| == |b| && a != b
    ensures CodeOf(a) != CodeOf(b)
  {
    var i :| 0 <= i < |a| && a[i] != b[i];
    AlphabetIndexed(a[i]);
    AlphabetIndexed(b[i]);
    assert CodeOf(a)[i] != CodeOf(b)[i];
  }

  /** The position of an alphabet character: letters first, then digits. */
  function AlphabetIndex(c: char): int
  {
    if 'A' <= c <= 'Z' then c as int - 'A' as int else c as int - '0' as int + 26
  }

  lemma AlphabetIndexed(x: int)
    requires 0 <= x < |Alphabet|
    ensures AlphabetIndex(Alphabet[x]) == x
  {
  }

  predicate CodeTaken(families: seq<Family>, code: string)
  {
    FamilyByInviteCode(families, code).Some?
  }

  /**
   * generateUniqueInviteCode, given the codes its successive calls to
   * generateRandomCode return: the first free one among the first ten, else
   * FAILURE once the eleventh has been drawn.
   */
  method GenerateUniqueInviteCode(families: seq<Family>, draw: nat -> string) returns (r: Result<string>)
    ensures r.Ok? ==>
      exists k :: 0 <= k < MaxAttempts && r.value == draw(k) && !CodeTaken(families, draw(k))
                  && forall j :: 0 <= j < k ==> CodeTaken(families, draw(j))
    ensures r.Err? <==> forall k :: 0 <= k < MaxAttempts ==> CodeTaken(families, draw(k))
    ensures r.Err? ==> r.fault == Fault(Failure, "生成邀请码失败，请重试")
    ensures r.Ok? ==> forall f :: f in families ==> f.inviteCode != r.value
  {
    var attempts := 0;
    var code := draw(0);
    attempts := 1;
    while CodeTaken(families, code)
      invariant 1 <= attempts <= MaxAttempts
      invariant code == draw(attempts - 1)
      invariant forall j :: 0 <= j < attempts - 1 ==> CodeTaken(families, draw(j))
      decreases MaxAttempts - attempts
    {
      code := draw(attempts);
      attempts := attempts + 1;
      if attempts > MaxAttempts {
        return Err(Fault(Failure, "生成邀请码失败，请重试"));
      }
    }
    r := Ok(code);
  }

  // ---------------------------------------------------------------- operations

  /** CreateFamilyRequest. */
  datatype NewFamily = NewFamily(name: Option<string>, description: Option<string>, avatar: Option<string>)

  /**
   * createFamily: an active family with a fresh invite code, and its creator
   * related to it through the PREGNANT_WOMAN role with remark "家庭创建者".
   */
  method CreateFamily(store: FamilyStore, request: NewFamily, userId: int, draw: nat -> string, now: int)
    returns (r: Result<Family>)
    modifies store
    ensures store.roles == old(store.roles)
    ensures r.Err? ==> store.families == old(store.families) && store.relations == old(store.relations)
    ensures r.Ok? ==>
      r.value.creatorId == userId && r.value.status == 1 && r.value.name == request.name
      && !CodeTaken(old(store.families), r.value.inviteCode)
      && store.families == old(store.families) + [r.value]
      && |store.relations| == |old(store.relations)| + 1
      && store.relations[..|old(store.relations)|] == old(store.relations)
      && store.relations[|old(store.relations)|].familyId == r.value.id
      && store.relations[|old(store.relations)|].userId == userId
      && store.relations[|old(store.relations)|].status == 1
      && store.relations[|old(store.relations)|].remark == Some("家庭创建者")
    ensures r.Ok? ==>
      var pregnant := RoleByCode(old(store.roles), "PREGNANT_WOMAN");
      pregnant.Some? && RoleById(old(store.roles), pregnant.value.id).Some?
      && var role := RoleById(old(store.roles), pregnant.value.id).value;
         var x := store.relations[|old(store.relations)|];
         x.roleId == Some(pregnant.value.id) && x.roleName == Some(role.roleName)
         && x.permissions == role.permissions && x.invitedBy.None?
    ensures RoleByCode(old(store.roles), "PREGNANT_WOMAN").None? ==>
      r.Err? && (r.fault == Fault(NotFound, "默认角色不存在") || r.fault.code == Failure)
  {
    var code := GenerateUniqueInviteCode(store.families, draw);
    if code.Err? {
      return Err(code.fault);
    }
    var oldFamilies := store.families;
    var oldRelations := store.relations;
    var family := Family(store.nextId, request.name, userId, code.value, request.description, request.avatar, 1);
    store.families := store.families + [family];
    store.nextId := store.nextId + 1;
    var role := RoleByCode(store.roles, "PREGNANT_WOMAN");
    if role.None? {
      store.families := oldFamilies;
      return Err(Fault(NotFound, "默认角色不存在"));
    }
    var relation := FamilyRelations.CreateFamilyRelation(store, family.id, userId, role.value.id, None,
                                                         Some("家庭创建者"), now);
    if relation.Err? {
      store.families := oldFamilies;
      store.relations := oldRelations;
      return Err(relation.fault);
    }
    r := Ok(family);
  }

  /** UpdateFamilyRequest. */
  datatype FamilyUpdate = FamilyUpdate(id: int, name: Option<string>, description: Option<string>,
                                       avatar: Option<string>, status: Option<int>)

  /** The family after an accepted update: a name only when it has text, the rest only when non-null. */
  function UpdatedFamily(f: Family, req: FamilyUpdate): Family
  {
    f.(name := if HasText(req.name) then req.name else f.name,
       description := if req.description.Some? then req.description else f.description,
       avatar := if req.avatar.Some? then req.avatar else f.avatar,
       status := if req.status.Some? then req.status.value else f.status)
  }

  /** The position of the family's row. */
  function FamilyIndex(families: seq<Family>, id: int): Option<nat>
  {
    FirstIndex(families, (f: Family) => f.id == id)
  }

  /** updateFamily. */
  method UpdateFamily(store: FamilyStore, req: FamilyUpdate, userId: int) returns (r: Result<Family>)
    modifies store
    ensures store.roles == old(store.roles) && store.relations == old(store.relations)
    ensures var i := FamilyIndex(old(store.families), req.id);
      if i.None? then r == Err(Fault(NotFound, "家庭不存在")) && store.families == old(store.families)
      else if !CheckFamilyPermission(old(store.families), old(store.relations), req.id, userId)
      then r == Err(Fault(Forbidden, "无权限修改家庭信息")) && store.families == old(store.families)
      else r == Ok(UpdatedFamily(old(store.families)[i.value], req))
           && store.families == old(store.families)[i.value := r.value]
  {
    var i := FamilyIndex(store.families, req.id);
    if i.None? {
      return Err(Fault(NotFound, "家庭不存在"));
    }
    if !CheckFamilyPermission(store.families, store.relations, req.id, userId) {
      return Err(Fault(Forbidden, "无权限修改家庭信息"));
    }
    var updated := UpdatedFamily(store.families[i.value], req);
    store.families := store.families[i.value := updated];
    r := Ok(updated);
  }

  /** An update never changes the family's id, creator or invite code, and a blank name keeps the old one. */
  lemma UpdateKeepsIdentity(f: Family, req: FamilyUpdate)
    ensures UpdatedFamily(f, req).id == f.id && UpdatedFamily(f, req).creatorId == f.creatorId
    ensures UpdatedFamily(f, req).inviteCode == f.inviteCode
    ensures !HasText(req.name) ==> UpdatedFamily(f, req).name == f.name
    ensures req == FamilyUpdate(req.id, None, None, None, None) ==> UpdatedFamily(f, req) == f
  {
  }

  /** joinFamily. */
  method JoinFamily(store: FamilyStore, inviteCode: string, roleId: Option<int>, remark: Option<string>,
                    userId: int, now: int) returns (r: Result<bool>)
    modifies store
    ensures store.roles == old(store.roles) && store.families == old(store.families)
    ensures var family := FamilyByInviteCode(old(store.families), inviteCode);
      if family.None? then r == Err(Fault(NotFound, "邀请码无效")) && store.relations == old(store.relations)
      else if family.value.status != 1 then r == Err(Fault(Business, "家庭已被禁用")) && store.relations == old(store.relations)
      else if FamilyRelations.ExistsRelation(old(store.relations), family.value.id, userId)
      then r == Err(Fault(Business, "您已经是该家庭的成员")) && store.relations == old(store.relations)
      else if !RoleEnabled(old(store.roles), roleId)
      then r == Err(Fault(Business, "角色无效")) && store.relations == old(store.relations)
      else r == Ok(true)
           && store.relations == old(store.relations) + [FamilyRelations.NewRelation(old(store.nextId), family.value.id, userId,
                                                                                    RoleById(old(store.roles), roleId.value).value,
                                                                                    None, remark, now)]
  {
    var family := FamilyByInviteCode(store.families, inviteCode);
    if family.None? {
      return Err(Fault(NotFound, "邀请码无效"));
    }
    if family.value.status != 1 {
      return Err(Fault(Business, "家庭已被禁用"));
    }
    if FamilyRelations.ExistsRelation(store.relations, family.value.id, userId) {
      return Err(Fault(Business, "您已经是该家庭的成员"));
    }
    if !RoleEnabled(store.roles, roleId) {
      return Err(Fault(Business, "角色无效"));
    }
    var created := FamilyRelations.CreateFamilyRelation(store, family.value.id, userId, roleId.value, None, remark, now);
    r := Ok(true);
  }

  /** leaveFamilyByUser: the relation, whatever its status, is set to 0; the creator may not leave. */
  method LeaveFamily(store: FamilyStore, familyId: int, userId: int) returns (r: Result<bool>)
    modifies store
    ensures store.roles == old(store.roles) && store.families == old(store.families)
    ensures var family := FamilyById(old(store.families), familyId);
      var i := RelationIndex(old(store.relations), familyId, userId);
      if family.None? then r == Err(Fault(NotFound, "家庭不存在")) && store.relations == old(store.relations)
      else if family.value.creatorId == userId
      then r == Err(Fault(Business, "家庭创建者不能退出家庭，请删除家庭")) && store.relations == old(store.relations)
      else if i.None? then r == Err(Fault(NotFound, "您不是该家庭的成员")) && store.relations == old(store.relations)
      else r == Ok(true) && store.relations == old(store.relations)[i.value := old(store.relations)[i.value].(status := 0)]
  {
    var family := FamilyById(store.families, familyId);
    if family.None? {
      return Err(Fault(NotFound, "家庭不存在"));
    }
    if family.value.creatorId == userId {
      return Err(Fault(Business, "家庭创建者不能退出家庭，请删除家庭"));
    }
    var i := RelationIndex(store.relations, familyId, userId);
    if i.None? {
      return Err(Fault(NotFound, "您不是该家庭的成员"));
    }
    store.relations := store.relations[i.value := store.relations[i.value].(status := 0)];
    r := Ok(true);
  }

  /** The rows other than the family with this id. */
  function WithoutFamily(families: seq<Family>, id: int): (r: seq<Family>)
    ensures forall f :: f in r <==> f in families && f.id != id
  {
    if |families| == 0 then []
    else
      assert families == [families[0]] + families[1..];
      (if families[0].id == id then [] else [families[0]]) + WithoutFamily(families[1..], id)
  }

  /** deleteFamily: only the creator, and the row disappears (a logical delete hides it). */
  method DeleteFamily(store: FamilyStore, familyId: int, userId: int) returns (r: Result<bool>)
    modifies store
    ensures store.roles == old(store.roles) && store.relations == old(store.relations)
    ensures var family := FamilyById(old(store.families), familyId);
      if family.None? then r == Err(Fault(NotFound, "家庭不存在")) && store.families == old(store.families)
      else if family.value.creatorId != userId
      then r == Err(Fault(Forbidden, "只有家庭创建者可以删除家庭")) && store.families == old(store.families)
      else r == Ok(true) && store.families == WithoutFamily(old(store.families), familyId)
  {
    var family := FamilyById(store.families, familyId);
    if family.None? {
      return Err(Fault(NotFound, "家庭不存在"));
    }
    if family.value.creatorId != userId {
      return Err(Fault(Forbidden, "只有家庭创建者可以删除家庭"));
    }
    store.families := WithoutFamily(store.families, familyId);
    r := Ok(true);
  }

  // ---------------------------------------------------------------- lemmas

  /** The creator always has family permission, a missing family grants none, and anyone else needs a relation. */
  lemma FamilyPermissionRule(families: seq<Family>, relations: seq<Relation>, familyId: int, userId: int)
    ensures FamilyById(families, familyId).None? ==> !CheckFamilyPermission(families, relations, familyId, userId)
    ensures FamilyById(families, familyId).Some? && FamilyById(families, familyId).value.creatorId == userId ==>
      CheckFamilyPermission(families, relations, familyId, userId)
    ensures FamilyRelations.IsFamilyMember(relations, familyId, userId) && FamilyById(families, familyId).Some? ==>
      CheckFamilyPermission(families, relations, familyId, userId)
  {
  }

  /**
   * The family permission counts a relation of any status, so a member who
   * left keeps it, and the same check makes a later join fail.
   */
  lemma {:induction false} LeftMemberKeepsPermissionAndCannotRejoin(families: seq<Family>, relations: seq<Relation>,
                                                                    familyId: int, userId: int)
    requires FamilyById(families, familyId).Some?
    requires RelationIndex(relations, familyId, userId).Some?
    ensures var i := RelationIndex(relations, familyId, userId).value;
      var left := relations[i := relations[i].(status := 0)];
      CheckFamilyPermission(families, left, familyId, userId)
      && FamilyRelations.ExistsRelation(left, familyId, userId)
      && !FamilyRelations.IsFamilyMember(left, familyId, userId)
  {
    var i := RelationIndex(relations, familyId, userId).value;
    var left := relations[i := relations[i].(status := 0)];
    var j := RelationIndex(left, familyId, userId);
    assert left[i].familyId == familyId && left[i].userId == userId;
    assert j.Some? && j.value == i;
  }

  /** A successful join makes the user an active member of that family. */
  lemma JoinMakesMember(relations: seq<Relation>, x: Relation)
    requires !FamilyRelations.ExistsRelation(relations, x.familyId, x.userId) && x.status == 1
    ensures FamilyRelations.IsFamilyMember(relations + [x], x.familyId, x.userId)
    ensures x.userId in FamilyRelations.MemberIds(relations + [x], x.familyId)
  {
    var all := relations + [x];
    var i := RelationIndex(all, x.familyId, x.userId);
    assert all[|relations|] == x;
    assert i.Some? && i.value == |relations|;
    FamilyRelations.MemberIdsIff(all, x.familyId, x.userId);
    assert x in all;
  }
}
