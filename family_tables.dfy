// The family domain's tables: families, family roles, membership relations and
// notification templates' rows, plus the store that holds them. Each table is a
// sequence of rows in id order; lookups return the first matching row.
module FamilyTables {
  import opened Wrappers

  /** A value of a role's or member's JSON permission map. */
  datatype PermValue = Flag(flag: bool) | Text(text: string)

  type Permissions = map<string, PermValue>

  datatype Family = Family(
    id: int,
    name: Option<string>,
    creatorId: int,
    inviteCode: string,
    description: Option<string>,
    avatar: Option<string>,
    status: int)

  datatype Role = Role(
    id: int,
    roleName: string,
    roleCode: string,
    permissions: Option<Permissions>,
    status: Option<int>)

  /** Membership of a user in a family; status 1 is active and 0 is "left". */
  datatype Relation = Relation(
    id: int,
    familyId: int,
    userId: int,
    roleId: Option<int>,
    roleName: Option<string>,
    permissions: Option<Permissions>,
    invitedBy: Option<int>,
    joinedAt: int,
    status: int,
    remark: Option<string>)

  /** A family notification template (family_notification). */
  datatype Template = Template(
    id: int,
    title: Option<string>,
    content: Option<string>,
    description: Option<string>,
    svgIcon: Option<string>,
    cardBackColor: Option<string>,
    creatorId: int,
    familyId: int,
    kind: Option<int>,
    category: Option<string>,
    usageCount: int,
    isActive: bool,
    receiverUserIds: Option<seq<int>>,
    remark: Option<string>)

  /** The first position whose element satisfies p. */
  function FirstIndex<T>(s: seq<T>, p: T -> bool): (r: Option<nat>)
    ensures r.Some? ==> r.value < |s| && p(s[r.value])
    ensures r.Some? ==> forall j :: 0 <= j < r.value ==> !p(s[j])
    ensures r.None? ==> forall j :: 0 <= j < |s| ==> !p(s[j])
  {
    if |s| == 0 then None
    else if p(s[0]) then Some(0)
    else
      var rest := FirstIndex(s[1..], p);
      if rest.None? then None else Some(rest.value + 1)
  }

  function FamilyById(families: seq<Family>, id: int): (r: Option<Family>)
    ensures r.Some? ==> r.value in families && r.value.id == id
    ensures r.None? ==> forall f :: f in families ==> f.id != id
  {
    var i := FirstIndex(families, (f: Family) => f.id == id);
    if i.Some? then Some(families[i.value]) else None
  }

  function FamilyByInviteCode(families: seq<Family>, code: string): (r: Option<Family>)
    ensures r.Some? ==> r.value in families && r.value.inviteCode == code
    ensures r.None? ==> forall f :: f in families ==> f.inviteCode != code
  {
    var i := FirstIndex(families, (f: Family) => f.inviteCode == code);
    if i.Some? then Some(families[i.value]) else None
  }

  function RoleById(roles: seq<Role>, id: int): (r: Option<Role>)
    ensures r.Some? ==> r.value in roles && r.value.id == id
    ensures r.None? ==> forall x :: x in roles ==> x.id != id
  {
    var i := FirstIndex(roles, (x: Role) => x.id == id);
    if i.Some? then Some(roles[i.value]) else None
  }

  function RoleByCode(roles: seq<Role>, code: string): (r: Option<Role>)
    ensures r.Some? ==> r.value in roles && r.value.roleCode == code
    ensures r.None? ==> forall x :: x in roles ==> x.roleCode != code
  {
    var i := FirstIndex(roles, (x: Role) => x.roleCode == code);
    if i.Some? then Some(roles[i.value]) else None
  }

  /** selectByFamilyIdAndUserId: the position of the user's relation to the family, whatever its status. */
  function RelationIndex(relations: seq<Relation>, familyId: int, userId: int): (r: Option<nat>)
    ensures r.Some? ==>
              r.value < |relations| && relations[r.value].familyId == familyId && relations[r.value].userId == userId
    ensures r.None? ==> forall j :: 0 <= j < |relations| ==>
      !(relations[j].familyId == familyId && relations[j].userId == userId)
  {
    FirstIndex(relations, (x: Relation) => x.familyId == familyId && x.userId == userId)
  }

  function RelationIndexById(relations: seq<Relation>, id: int): (r: Option<nat>)
    ensures r.Some? ==> r.value < |relations| && relations[r.value].id == id
    ensures r.None? ==> forall j :: 0 <= j < |relations| ==> relations[j].id != id
  {
    FirstIndex(relations, (x: Relation) => x.id == id)
  }

  /** isRoleEnabledById: the role exists and its status is 1. */
  predicate RoleEnabled(roles: seq<Role>, roleId: Option<int>)
  {
    roleId.Some? && RoleById(roles, roleId.value).Some? && RoleById(roles, roleId.value).value.status == Some(1)
  }

  /** The family-domain tables. Deleting a family removes its row (a logical delete). */
  class FamilyStore {
    var families: seq<Family>
    var roles: seq<Role>
    var relations: seq<Relation>
    var nextId: int

    constructor (roles: seq<Role>)
      ensures this.roles == roles && families == [] && relations == []
    {
      this.roles := roles;
      families := [];
      relations := [];
      nextId := 1;
    }
  }
}
