// FamilyRelationServiceImpl: membership queries, the member-management
// permission rule, the member-id filters, and the three relation mutations.
module FamilyRelations {
  import opened Wrappers
  import opened FamilyTables

  const NotFound: int := 1002
  const Forbidden: int := 403
  const Business: int := 1000
  const Failure: int := 500

  /** getByFamilyIdAndUserId. */
  function RelationOf(relations: seq<Relation>, familyId: int, userId: int): (r: Option<Relation>)
    ensures r.Some? ==> r.value in relations && r.value.familyId == familyId && r.value.userId == userId
  {
    var i := RelationIndex(relations, familyId, userId);
    if i.Some? then Some(relations[i.value]) else None
  }

  /** isFamilyMember: the relation exists and is active. */
  predicate IsFamilyMember(relations: seq<Relation>, familyId: int, userId: int)
  {
    var r := RelationOf(relations, familyId, userId);
    r.Some? && r.value.status == 1
  }

  /**
   * existsByFamilyIdAndUserId: a relation row exists, whatever its status.
   * The query's SQL is not part of this model; this reading follows its
   * signature, which takes nothing but the family and the user. Its doc
   * comment ("already a family member") would also fit an active-only query,
   * under which a member who left could rejoin.
   */
  predicate ExistsRelation(relations: seq<Relation>, familyId: int, userId: int)
  {
    RelationIndex(relations, familyId, userId).Some?
  }

  /** checkMemberManagePermission. */
  predicate CheckMemberManagePermission(families: seq<Family>, relations: seq<Relation>, familyId: int, userId: int)
  {
    var family := FamilyById(families, familyId);
    if family.None? then false
    else if family.value.creatorId == userId then true
    else
      var relation := RelationOf(relations, familyId, userId);
      if relation.None? || relation.value.status != 1 then false
      else if relation.value.permissions.Some? then
        var perms := relation.value.permissions.value;
        "invite_members" in perms && perms["invite_members"] == Flag(true)
      else false
  }

  /** The active relations of a family, in table order (listByFamilyId(familyId, 1)). */
  function ActiveMembers(relations: seq<Relation>, familyId: int): (r: seq<Relation>)
    ensures |r| <= |relations|
  {
    if |relations| == 0 then []
    else
      var last := relations[|relations| - 1];
      ActiveMembers(relations[..|relations| - 1], familyId)
      + (if last.familyId == familyId && last.status == 1 then [last] else [])
  }

  /** The relations whose roleId is one of roleIds (a null roleId matches none). */
  function WithRoles(relations: seq<Relation>, roleIds: seq<int>): (r: seq<Relation>)
    ensures |r| <= |relations|
  {
    if |relations| == 0 then []
    else
      var last := relations[|relations| - 1];
      WithRoles(relations[..|relations| - 1], roleIds)
      + (if last.roleId.Some? && last.roleId.value in roleIds then [last] else [])
  }

  function UserIds(relations: seq<Relation>): (r: seq<int>)
    ensures |r| == |relations|
    ensures forall k :: 0 <= k < |r| ==> r[k] == relations[k].userId
  {
    if |relations| == 0 then [] else UserIds(relations[..|relations| - 1]) + [relations[|relations| - 1].userId]
  }

  /** getFamilyMemberIds. */
  function MemberIds(relations: seq<Relation>, familyId: int): seq<int>
  {
    UserIds(ActiveMembers(relations, familyId))
  }

  /** getFamilyMemberIdsByRoles: every active member for no roles, else those holding one of the roles. */
  function MemberIdsByRoles(relations: seq<Relation>, familyId: int, roleIds: Option<seq<int>>): seq<int>
  {
    if roleIds.None? || roleIds.value == [] then MemberIds(relations, familyId)
    else UserIds(WithRoles(ActiveMembers(relations, familyId), roleIds.value))
  }

  /** At most one relation per (family, user): what existsByFamilyIdAndUserId enforces on creation. */
  ghost predicate UniqueRelations(relations: seq<Relation>)
  {
    forall i, j :: 0 <= i < j < |relations| ==>
      !(relations[i].familyId == relations[j].familyId && relations[i].userId == relations[j].userId)
  }

  // ---------------------------------------------------------------- lemmas

  /** The active members are exactly the family's relations with status 1. */
  lemma {:induction false} ActiveMembersIff(relations: seq<Relation>, familyId: int, x: Relation)
    ensures x in ActiveMembers(relations, familyId) <==> x in relations && x.familyId == familyId && x.status == 1
  {
    if |relations| > 0 {
      var n := |relations| - 1;
      ActiveMembersIff(relations[..n], familyId, x);
      assert relations == relations[..n] + [relations[n]];
    }
  }

  lemma {:induction false} WithRolesIff(relations: seq<Relation>, roleIds: seq<int>, x: Relation)
    ensures x in WithRoles(relations, roleIds) <==> x in relations && x.roleId.Some? && x.roleId.value in roleIds
  {
    if |relations| > 0 {
      var n := |relations| - 1;
      WithRolesIff(relations[..n], roleIds, x);
      assert relations == relations[..n] + [relations[n]];
    }
  }

  lemma UserIdsIff(relations: seq<Relation>, u: int)
    ensures u in UserIds(relations) <==> exists x :: x in relations && x.userId == u
  {
    if u in UserIds(relations) {
      var k :| 0 <= k < |UserIds(relations)| && UserIds(relations)[k] == u;
      assert relations[k] in relations;
    }
  }

  /** A user is listed by getFamilyMemberIds exactly when some active relation of the family is theirs. */
  lemma MemberIdsIff(relations: seq<Relation>, familyId: int, u: int)
    ensures u in MemberIds(relations, familyId) <==>
      exists x :: x in relations && x.familyId == familyId && x.userId == u && x.status == 1
  {
    UserIdsIff(ActiveMembers(relations, familyId), u);
    forall x ensures x in ActiveMembers(relations, familyId) <==> x in relations && x.familyId == familyId && x.status == 1 {
      ActiveMembersIff(relations, familyId, x);
    }
  }

  /** isFamilyMember agrees with the member list whenever relations are unique per (family, user). */
  lemma IsFamilyMemberIffListed(relations: seq<Relation>, familyId: int, u: int)
    requires UniqueRelations(relations)
    ensures IsFamilyMember(relations, familyId, u) <==> u in MemberIds(relations, familyId)
  {
    MemberIdsIff(relations, familyId, u);
    var i := RelationIndex(relations, familyId, u);
    if u in MemberIds(relations, familyId) {
      var x :| x in relations && x.familyId == familyId && x.userId == u && x.status == 1;
      var j :| 0 <= j < |relations| && relations[j] == x;
      assert i.Some?;
      assert i.value == j;
    }
  }

  /** The role filter picks out a subset of the active members, and no roles means every member. */
  lemma MemberIdsByRolesShape(relations: seq<Relation>, familyId: int, roleIds: Option<seq<int>>, u: int)
    ensures roleIds.None? || roleIds.value == [] ==> MemberIdsByRoles(relations, familyId, roleIds) == MemberIds(relations, familyId)
    ensures |MemberIdsByRoles(relations, familyId, roleIds)| <= |MemberIds(relations, familyId)|
    ensures roleIds.Some? && roleIds.value != [] ==>
      (u in MemberIdsByRoles(relations, familyId, roleIds) <==>
        exists x :: x in relations && x.familyId == familyId && x.status == 1 && x.userId == u
                    && x.roleId.Some? && x.roleId.value in roleIds.value)
  {
    if roleIds.Some? && roleIds.value != [] {
      var active := ActiveMembers(relations, familyId);
      UserIdsIff(WithRoles(active, roleIds.value), u);
      forall x ensures x in WithRoles(active, roleIds.value) <==>
        x in relations && x.familyId == familyId && x.status == 1 && x.roleId.Some? && x.roleId.value in roleIds.value
      {
        WithRolesIff(active, roleIds.value, x);
        ActiveMembersIff(relations, familyId, x);
      }
    }
  }

  /** The creator may always manage; without a family nobody may; anyone else needs an active relation granting invite_members. */
  lemma ManagePermissionRule(families: seq<Family>, relations: seq<Relation>, familyId: int, userId: int)
    ensures FamilyById(families, familyId).None? ==> !CheckMemberManagePermission(families, relations, familyId, userId)
    ensures FamilyById(families, familyId).Some? && FamilyById(families, familyId).value.creatorId == userId ==>
      CheckMemberManagePermission(families, relations, familyId, userId)
    ensures CheckMemberManagePermission(families, relations, familyId, userId)
            && FamilyById(families, familyId).value.creatorId != userId ==>
      IsFamilyMember(relations, familyId, userId)
      && RelationOf(relations, familyId, userId).value.permissions.Some?
      && RelationOf(relations, familyId, userId).value.permissions.value.Keys >= {"invite_members"}
      && RelationOf(relations, familyId, userId).value.permissions.value["invite_members"] == Flag(true)
  {
  }

  // ---------------------------------------------------------------- mutations

  /** UpdateFamilyMemberRequest: null fields are left alone. */
  datatype MemberUpdate = MemberUpdate(id: int, roleId: Option<int>, permissions: Option<Permissions>,
                                       status: Option<int>, remark: Option<string>)

  /** The relation after an accepted update: only non-null request fields, roleId bringing its roleName. */
  function UpdatedRelation(x: Relation, req: MemberUpdate, roles: seq<Role>): Relation
    requires req.roleId.Some? ==> RoleById(roles, req.roleId.value).Some?
  {
    var withRole := if req.roleId.Some?
      then x.(roleId := req.roleId, roleName := Some(RoleById(roles, req.roleId.value).value.roleName))
      else x;
    withRole.(permissions := if req.permissions.Some? then req.permissions else x.permissions,
              status := if req.status.Some? then req.status.value else x.status,
              remark := if req.remark.Some? then req.remark else x.remark)
  }

  /** updateFamilyMember. */
  method UpdateFamilyMember(store: FamilyStore, req: MemberUpdate, caller: int) returns (r: Result<Relation>)
    modifies store
    ensures var i := RelationIndexById(old(store.relations), req.id);
      if i.None? then r == Err(Fault(NotFound, "家庭成员关系不存在")) && store.relations == old(store.relations)
      else if !CheckMemberManagePermission(old(store.families), old(store.relations), old(store.relations)[i.value].familyId, caller)
      then r == Err(Fault(Forbidden, "无权限管理家庭成员")) && store.relations == old(store.relations)
      else if req.roleId.Some? && !RoleEnabled(old(store.roles), req.roleId)
      then r == Err(Fault(Business, "角色无效")) && store.relations == old(store.relations)
      else r.Ok? && r.value == UpdatedRelation(old(store.relations)[i.value], req, old(store.roles))
           && store.relations == old(store.relations)[i.value := r.value]
    ensures store.families == old(store.families) && store.roles == old(store.roles)
  {
    var i := RelationIndexById(store.relations, req.id);
    if i.None? {
      return Err(Fault(NotFound, "家庭成员关系不存在"));
    }
    var x := store.relations[i.value];
    if !CheckMemberManagePermission(store.families, store.relations, x.familyId, caller) {
      return Err(Fault(Forbidden, "无权限管理家庭成员"));
    }
    if req.roleId.Some? && !RoleEnabled(store.roles, req.roleId) {
      return Err(Fault(Business, "角色无效"));
    }
    var updated := UpdatedRelation(x, req, store.roles);
    store.relations := store.relations[i.value := updated];
    r := Ok(updated);
  }

  /** removeFamilyMember: status 0, never for the family's creator. */
  method RemoveFamilyMember(store: FamilyStore, relationId: int, caller: int) returns (r: Result<bool>)
    modifies store
    ensures var i := RelationIndexById(old(store.relations), relationId);
      if i.None? then r == Err(Fault(NotFound, "家庭成员关系不存在")) && store.relations == old(store.relations)
      else
        var x := old(store.relations)[i.value];
        var family := FamilyById(old(store.families), x.familyId);
        if !CheckMemberManagePermission(old(store.families), old(store.relations), x.familyId, caller)
        then r == Err(Fault(Forbidden, "无权限管理家庭成员")) && store.relations == old(store.relations)
        else if family.Some? && family.value.creatorId == x.userId
        then r == Err(Fault(Business, "不能移除家庭创建者")) && store.relations == old(store.relations)
        else r == Ok(true) && store.relations == old(store.relations)[i.value := x.(status := 0)]
    ensures store.families == old(store.families) && store.roles == old(store.roles)
  {
    var i := RelationIndexById(store.relations, relationId);
    if i.None? {
      return Err(Fault(NotFound, "家庭成员关系不存在"));
    }
    var x := store.relations[i.value];
    if !CheckMemberManagePermission(store.families, store.relations, x.familyId, caller) {
      return Err(Fault(Forbidden, "无权限管理家庭成员"));
    }
    var family := FamilyById(store.families, x.familyId);
    if family.Some? && family.value.creatorId == x.userId {
      return Err(Fault(Business, "不能移除家庭创建者"));
    }
    store.relations := store.relations[i.value := x.(status := 0)];
    r := Ok(true);
  }

  /** The relation createFamilyRelation stores: active, with the role's name and default permissions. */
  function NewRelation(id: int, familyId: int, userId: int, role: Role, invitedBy: Option<int>,
                       remark: Option<string>, now: int): Relation
  {
    Relation(id, familyId, userId, Some(role.id), Some(role.roleName), role.permissions, invitedBy, now, 1, remark)
  }

  /**
   * createFamilyRelation. A role row with a null status makes `role.getStatus() != 1`
   * throw; that surfaces as an internal failure.
   */
  method CreateFamilyRelation(store: FamilyStore, familyId: int, userId: int, roleId: int,
                              invitedBy: Option<int>, remark: Option<string>, now: int)
    returns (r: Result<Relation>)
    modifies store
    ensures var role := RoleById(old(store.roles), roleId);
      if role.None? || role.value.status == Some(0) || (role.value.status.Some? && role.value.status.value != 1)
      then r == Err(Fault(Business, "角色无效")) && store.relations == old(store.relations)
      else if role.value.status.None?
      then r.Err? && r.fault.code == Failure && store.relations == old(store.relations)
      else if ExistsRelation(old(store.relations), familyId, userId)
      then r == Err(Fault(Business, "用户已经是该家庭的成员")) && store.relations == old(store.relations)
      else r == Ok(NewRelation(old(store.nextId), familyId, userId, role.value, invitedBy, remark, now))
           && store.relations == old(store.relations) + [r.value]
    ensures store.families == old(store.families) && store.roles == old(store.roles)
    ensures store.relations != old(store.relations) ==> store.nextId == old(store.nextId) + 1
  {
    var role := RoleById(store.roles, roleId);
    if role.None? || (role.value.status.Some? && role.value.status.value != 1) {
      return Err(Fault(Business, "角色无效"));
    }
    if role.value.status.None? {
      return Err(Fault(Failure, "NullPointerException"));
    }
    if ExistsRelation(store.relations, familyId, userId) {
      return Err(Fault(Business, "用户已经是该家庭的成员"));
    }
    var x := NewRelation(store.nextId, familyId, userId, role.value, invitedBy, remark, now);
    store.relations := store.relations + [x];
    store.nextId := store.nextId + 1;
    r := Ok(x);
  }

  /** Creating a relation keeps relations unique per (family, user). */
  lemma CreateKeepsUnique(relations: seq<Relation>, x: Relation)
    requires UniqueRelations(relations) && !ExistsRelation(relations, x.familyId, x.userId)
    ensures UniqueRelations(relations + [x])
  {
  }

  /** Status and field updates in place keep relations unique. */
  lemma UpdateKeepsUnique(relations: seq<Relation>, i: nat, x: Relation)
    requires UniqueRelations(relations) && i < |relations|
    requires x.familyId == relations[i].familyId && x.userId == relations[i].userId
    ensures UniqueRelations(relations[i := x])
  {
  }
}
