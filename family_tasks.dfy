// FamilyTaskServiceImpl: the family-task state machine. Status 1 is
// pending, 2 in progress, 3 completed and 4 cancelled; every accepted change
// bumps the row's version. The assignment and reassignment pushes are
// returned as notices rather than sent through the push records.
module FamilyTasks {
  import opened Wrappers
  import opened FamilyTables
  import FamilyRelations

  const Business: int := 1000

  const Pending: int := 1
  const InProgress: int := 2
  const Completed: int := 3
  const Cancelled: int := 4

  datatype Task = Task(
    id: int,
    title: Option<string>,
    description: Option<string>,
    status: Option<int>,
    assignedUserIds: Option<seq<int>>,
    creatorId: int,
    familyId: int,
    priority: Option<int>,
    expectedCompletionTime: Option<int>,
    actualCompletionTime: Option<int>,
    remark: Option<string>,
    createBy: Option<int>,
    updateBy: Option<int>,
    isDeleted: bool,
    version: Option<int>)

  /**
   * The family_tasks table. FamilyTask redeclares is_deleted without the
   * logical-delete marker, so a deleted row stays visible to selectById.
   */
  class TaskTable {
    var tasks: map<int, Task>
    var nextId: int

    constructor ()
      ensures tasks == map[]
    {
      tasks := map[];
      nextId := 1;
    }
  }

  /**
   * The notice pushed to assignees through createPushRecords and executePush:
   * a user notification (type 2, category "task") whose sender is always the
   * task's creator, whoever made the change.
   */
  datatype Notice = Notice(title: string, content: string, sender: int, receivers: seq<int>)

  /** The next version: 1 for a row without one, else one more. */
  function Bumped(version: Option<int>): (v: int)
    ensures version.None? ==> v == 1
    ensures version.Some? ==> v > version.value
  {
    if version.Some? then version.value + 1 else 1
  }

  /** isSameUserList: both null, or the same size and each containing all of the other. */
  predicate SameUserList(a: Option<seq<int>>, b: Option<seq<int>>)
  {
    (a.None? && b.None?)
    || (a.Some? && b.Some? && |a.value| == |b.value|
        && (forall x :: x in b.value ==> x in a.value) && (forall x :: x in a.value ==> x in b.value))
  }

  /**
   * The comparison is by size and element set, not by multiset: lists that
   * differ in how often an id occurs compare equal.
   */
  lemma SameUserListRule(a: Option<seq<int>>, b: Option<seq<int>>)
    ensures SameUserList(a, b) <==>
      (a.None? && b.None?) || (a.Some? && b.Some? && |a.value| == |b.value| && (set x | x in a.value) == (set x | x in b.value))
    ensures SameUserList(a, b) == SameUserList(b, a)
    ensures SameUserList(a, a)
    ensures SameUserList(Some([1, 1, 2]), Some([1, 2, 2]))
    ensures !SameUserList(Some([1, 2]), Some([1, 2, 2]))
  {
    if a.Some? && b.Some? {
      var sa := set x | x in a.value;
      var sb := set x | x in b.value;
      assert forall x :: x in sa <==> x in a.value;
      assert forall x :: x in sb <==> x in b.value;
      if (forall x :: x in b.value ==> x in a.value) && (forall x :: x in a.value ==> x in b.value) {
        assert sa == sb;
      }
    }
    assert [1, 1, 2][2] == 2 && [1, 2, 2][0] == 1;
  }

  predicate Assigned(t: Task, userId: int)
  {
    t.assignedUserIds.Some? && userId in t.assignedUserIds.value
  }

  /** canModifyTask: the creator, an assignee, or anyone related to the family. */
  predicate CanModifyTask(relations: seq<Relation>, t: Task, userId: int)
  {
    t.creatorId == userId || Assigned(t, userId) || FamilyRelations.ExistsRelation(relations, t.familyId, userId)
  }

  /** canDeleteTask: the creator only. */
  predicate CanDeleteTask(t: Task, userId: int)
  {
    t.creatorId == userId
  }

  /** Whoever may delete a task may modify it, and only its creator may delete it. */
  lemma TaskPermissionRule(relations: seq<Relation>, t: Task, userId: int)
    ensures CanDeleteTask(t, userId) ==> CanModifyTask(relations, t, userId)
    ensures CanDeleteTask(t, userId) <==> userId == t.creatorId
    ensures Assigned(t, userId) ==> CanModifyTask(relations, t, userId)
    ensures !CanModifyTask(relations, t, userId) ==>
      userId != t.creatorId && !Assigned(t, userId) && !FamilyRelations.IsFamilyMember(relations, t.familyId, userId)
  {
  }

  /** Every listed user has a relation to the family (of any status). */
  predicate AllRelated(relations: seq<Relation>, familyId: int, ids: seq<int>)
  {
    forall k :: 0 <= k < |ids| ==> FamilyRelations.ExistsRelation(relations, familyId, ids[k])
  }

  /** The loop that checks each listed user, stopping at the first unrelated one. */
  method CheckRelated(relations: seq<Relation>, familyId: int, ids: seq<int>) returns (ok: bool)
    ensures ok == AllRelated(relations, familyId, ids)
  {
    var k := 0;
    while k < |ids|
      invariant 0 <= k <= |ids|
      invariant AllRelated(relations, familyId, ids[..k])
    {
      if !FamilyRelations.ExistsRelation(relations, familyId, ids[k]) {
        assert ids[..k + 1][k] == ids[k];
        return false;
      }
      assert ids[..k + 1] == ids[..k] + [ids[k]];
      k := k + 1;
    }
    assert ids[..k] == ids;
    ok := true;
  }

  /** String.valueOf for an optional text. */
  function Text(s: Option<string>): string
  {
    if s.Some? then s.value else "null"
  }

  /** The notice of sendTaskAssignmentNotification; none without assignees. */
  function AssignmentNotice(t: Task): Option<Notice>
  {
    if t.assignedUserIds.None? || t.assignedUserIds.value == [] then None
    else
      var content := "您有一个新任务：" + Text(t.title);
      Some(Notice("新任务指派",
                  if t.description.Some? && t.description.value != [] then content + "\n任务说明：" + t.description.value
                  else content,
                  t.creatorId, t.assignedUserIds.value))
  }

  /** The notice of sendTaskReassignmentNotification. */
  function ReassignmentNotice(t: Task, reason: Option<string>): Option<Notice>
  {
    if t.assignedUserIds.None? || t.assignedUserIds.value == [] then None
    else
      var content := "任务「" + Text(t.title) + "」已转派给您";
      Some(Notice("任务转派",
                  if reason.Some? && reason.value != [] then content + "\n转派原因：" + reason.value else content,
                  t.creatorId, t.assignedUserIds.value))
  }

  /** A notice goes exactly to the task's assignees, and is sent in the creator's name. */
  lemma NoticeRule(t: Task, reason: Option<string>)
    ensures AssignmentNotice(t).Some? <==> t.assignedUserIds.Some? && t.assignedUserIds.value != []
    ensures AssignmentNotice(t).Some? ==> AssignmentNotice(t).value.receivers == t.assignedUserIds.value
                                          && AssignmentNotice(t).value.sender == t.creatorId
    ensures ReassignmentNotice(t, reason).Some? <==> t.assignedUserIds.Some? && t.assignedUserIds.value != []
    ensures ReassignmentNotice(t, reason).Some? ==>
      ReassignmentNotice(t, reason).value.receivers == t.assignedUserIds.value
      && ReassignmentNotice(t, reason).value.sender == t.creatorId
  {
  }

  // ---------------------------------------------------------------- operations

  datatype NewTask = NewTask(title: Option<string>, description: Option<string>, assignedUserIds: Option<seq<int>>,
                             familyId: int, priority: Option<int>, expectedCompletionTime: Option<int>,
                             remark: Option<string>)

  function CreatedTask(id: int, req: NewTask, creatorId: int): Task
  {
    Task(id, req.title, req.description, Some(Pending), req.assignedUserIds, creatorId, req.familyId,
         Some(if req.priority.Some? then req.priority.value else 2), req.expectedCompletionTime, None, req.remark,
         Some(creatorId), Some(creatorId), false, Some(0))
  }

  /** createTask. */
  method CreateTask(table: TaskTable, store: FamilyStore, req: NewTask, creatorId: int)
    returns (r: Result<Task>, notice: Option<Notice>)
    modifies table
    ensures !FamilyRelations.ExistsRelation(store.relations, req.familyId, creatorId) ==>
      r == Err(Fault(Business, "您不是该家庭的成员")) && table.tasks == old(table.tasks) && notice.None?
    ensures FamilyRelations.ExistsRelation(store.relations, req.familyId, creatorId)
            && req.assignedUserIds.Some? && !AllRelated(store.relations, req.familyId, req.assignedUserIds.value) ==>
      r == Err(Fault(Business, "指定人不是该家庭的成员")) && table.tasks == old(table.tasks) && notice.None?
    ensures r.Ok? ==>
      FamilyRelations.ExistsRelation(store.relations, req.familyId, creatorId)
      && (req.assignedUserIds.Some? ==> AllRelated(store.relations, req.familyId, req.assignedUserIds.value))
      && r.value == CreatedTask(old(table.nextId), req, creatorId)
      && table.tasks == old(table.tasks)[r.value.id := r.value]
      && notice == AssignmentNotice(r.value)
    ensures r.Ok? ==> r.value.status == Some(Pending) && r.value.version == Some(0) && !r.value.isDeleted
                      && (req.priority.None? ==> r.value.priority == Some(2))
  {
    notice := None;
    if !FamilyRelations.ExistsRelation(store.relations, req.familyId, creatorId) {
      return Err(Fault(Business, "您不是该家庭的成员")), None;
    }
    if req.assignedUserIds.Some? && req.assignedUserIds.value != [] {
      var ok := CheckRelated(store.relations, req.familyId, req.assignedUserIds.value);
      if !ok {
        return Err(Fault(Business, "指定人不是该家庭的成员")), None;
      }
    }
    var t := CreatedTask(table.nextId, req, creatorId);
    table.tasks := table.tasks[t.id := t];
    table.nextId := table.nextId + 1;
    notice := AssignmentNotice(t);
    r := Ok(t);
  }

  datatype TaskUpdate = TaskUpdate(id: int, title: Option<string>, description: Option<string>, status: Option<int>,
                                   assignedUserIds: Option<seq<int>>, priority: Option<int>,
                                   expectedCompletionTime: Option<int>, actualCompletionTime: Option<int>,
                                   remark: Option<string>)

  function Keep<T>(update: Option<T>, current: Option<T>): Option<T>
  {
    if update.Some? then update else current
  }

  /** Whether updateTask replaces the assignee list (and so notifies). */
  predicate ReassignsOnUpdate(t: Task, req: TaskUpdate)
  {
    req.assignedUserIds.Some? && !SameUserList(t.assignedUserIds, req.assignedUserIds)
  }

  /**
   * The task after an accepted update: non-null fields overwrite, status 3
   * stamps the completion time unless the request gives one, and the
   * assignees change only when the lists differ by isSameUserList.
   */
  function UpdatedTask(t: Task, req: TaskUpdate, userId: int, now: int): Task
  {
    t.(title := Keep(req.title, t.title),
       description := Keep(req.description, t.description),
       status := Keep(req.status, t.status),
       assignedUserIds := if ReassignsOnUpdate(t, req) then req.assignedUserIds else t.assignedUserIds,
       priority := Keep(req.priority, t.priority),
       expectedCompletionTime := Keep(req.expectedCompletionTime, t.expectedCompletionTime),
       actualCompletionTime := if req.actualCompletionTime.Some? then req.actualCompletionTime
                               else if req.status == Some(Completed) then Some(now)
                               else t.actualCompletionTime,
       remark := Keep(req.remark, t.remark),
       updateBy := Some(userId),
       version := Some(Bumped(t.version)))
  }

  /** updateTask. */
  method UpdateTask(table: TaskTable, store: FamilyStore, req: TaskUpdate, userId: int, now: int)
    returns (r: Result<Task>, notice: Option<Notice>)
    modifies table
    ensures table.nextId == old(table.nextId)
    ensures req.id !in old(table.tasks) ==>
      r == Err(Fault(Business, "任务不存在")) && table.tasks == old(table.tasks) && notice.None?
    ensures req.id in old(table.tasks) && !CanModifyTask(store.relations, old(table.tasks)[req.id], userId) ==>
      r == Err(Fault(Business, "您没有权限修改此任务")) && table.tasks == old(table.tasks) && notice.None?
    ensures req.id in old(table.tasks) && CanModifyTask(store.relations, old(table.tasks)[req.id], userId)
            && req.assignedUserIds.Some?
            && !AllRelated(store.relations, old(table.tasks)[req.id].familyId, req.assignedUserIds.value) ==>
      r == Err(Fault(Business, "指定人不是该家庭的成员")) && table.tasks == old(table.tasks) && notice.None?
    ensures r.Ok? ==>
      req.id in old(table.tasks)
      && var t := old(table.tasks)[req.id];
         CanModifyTask(store.relations, t, userId)
         && r.value == UpdatedTask(t, req, userId, now)
         && table.tasks == old(table.tasks)[req.id := r.value]
         && notice == (if ReassignsOnUpdate(t, req) then AssignmentNotice(r.value) else None)
  {
    notice := None;
    if req.id !in table.tasks {
      return Err(Fault(Business, "任务不存在")), None;
    }
    var t := table.tasks[req.id];
    if !CanModifyTask(store.relations, t, userId) {
      return Err(Fault(Business, "您没有权限修改此任务")), None;
    }
    if req.assignedUserIds.Some? {
      var ok := CheckRelated(store.relations, t.familyId, req.assignedUserIds.value);
      if !ok {
        return Err(Fault(Business, "指定人不是该家庭的成员")), None;
      }
    }
    var updated := UpdatedTask(t, req, userId, now);
    table.tasks := table.tasks[req.id := updated];
    if ReassignsOnUpdate(t, req) {
      notice := AssignmentNotice(updated);
    }
    r := Ok(updated);
  }

  /**
   * An update keeps the id, creator and family, bumps the version, and a list
   * that isSameUserList deems equal leaves the stored assignees as they were
   * even when it differs from them.
   */
  lemma UpdateRule(t: Task, req: TaskUpdate, userId: int, now: int)
    ensures var u := UpdatedTask(t, req, userId, now);
      u.id == t.id && u.creatorId == t.creatorId && u.familyId == t.familyId && u.isDeleted == t.isDeleted
      && u.version == Some(Bumped(t.version))
      && (req.status == Some(Completed) && req.actualCompletionTime.None? ==> u.actualCompletionTime == Some(now))
      && (SameUserList(t.assignedUserIds, req.assignedUserIds) ==> u.assignedUserIds == t.assignedUserIds)
      && (ReassignsOnUpdate(t, req) ==> u.assignedUserIds == req.assignedUserIds)
  {
  }

  /** reassignTask: a current assignee hands the task to one related user. */
  method ReassignTask(table: TaskTable, store: FamilyStore, taskId: int, newUserId: int, reason: Option<string>,
                      userId: int) returns (r: Result<Task>, notice: Option<Notice>)
    modifies table
    ensures table.nextId == old(table.nextId)
    ensures taskId !in old(table.tasks) ==> r == Err(Fault(Business, "任务不存在")) && table.tasks == old(table.tasks)
    ensures taskId in old(table.tasks) && !Assigned(old(table.tasks)[taskId], userId) ==>
      r == Err(Fault(Business, "只有当前指定人可以转派任务")) && table.tasks == old(table.tasks)
    ensures taskId in old(table.tasks) && Assigned(old(table.tasks)[taskId], userId)
            && !FamilyRelations.ExistsRelation(store.relations, old(table.tasks)[taskId].familyId, newUserId) ==>
      r == Err(Fault(Business, "指定人不是该家庭的成员")) && table.tasks == old(table.tasks)
    ensures r.Err? ==> notice.None?
    ensures r.Ok? ==>
      taskId in old(table.tasks) && Assigned(old(table.tasks)[taskId], userId)
      && FamilyRelations.ExistsRelation(store.relations, old(table.tasks)[taskId].familyId, newUserId)
      && r.value == old(table.tasks)[taskId].(assignedUserIds := Some([newUserId]), updateBy := Some(userId),
                                             version := Some(Bumped(old(table.tasks)[taskId].version)))
      && table.tasks == old(table.tasks)[taskId := r.value]
      && notice == ReassignmentNotice(r.value, reason) && notice.Some? && notice.value.receivers == [newUserId]
      && notice.value.sender == old(table.tasks)[taskId].creatorId
  {
    notice := None;
    if taskId !in table.tasks {
      return Err(Fault(Business, "任务不存在")), None;
    }
    var t := table.tasks[taskId];
    if !Assigned(t, userId) {
      return Err(Fault(Business, "只有当前指定人可以转派任务")), None;
    }
    if !FamilyRelations.ExistsRelation(store.relations, t.familyId, newUserId) {
      return Err(Fault(Business, "指定人不是该家庭的成员")), None;
    }
    var updated := t.(assignedUserIds := Some([newUserId]), updateBy := Some(userId), version := Some(Bumped(t.version)));
    table.tasks := table.tasks[taskId := updated];
    notice := ReassignmentNotice(updated, reason);
    r := Ok(updated);
  }

  /** deleteTask: the creator marks the row deleted. */
  method DeleteTask(table: TaskTable, taskId: int, userId: int) returns (r: Result<bool>)
    modifies table
    ensures table.nextId == old(table.nextId)
    ensures taskId !in old(table.tasks) ==> r == Err(Fault(Business, "任务不存在")) && table.tasks == old(table.tasks)
    ensures taskId in old(table.tasks) && !CanDeleteTask(old(table.tasks)[taskId], userId) ==>
      r == Err(Fault(Business, "您没有权限删除此任务")) && table.tasks == old(table.tasks)
    ensures taskId in old(table.tasks) && CanDeleteTask(old(table.tasks)[taskId], userId) ==>
      r == Ok(true)
      && table.tasks == old(table.tasks)[taskId := old(table.tasks)[taskId].(isDeleted := true, updateBy := Some(userId),
                                                                            version := Some(Bumped(old(table.tasks)[taskId].version)))]
  {
    if taskId !in table.tasks {
      return Err(Fault(Business, "任务不存在"));
    }
    var t := table.tasks[taskId];
    if !CanDeleteTask(t, userId) {
      return Err(Fault(Business, "您没有权限删除此任务"));
    }
    table.tasks := table.tasks[taskId := t.(isDeleted := true, updateBy := Some(userId), version := Some(Bumped(t.version)))];
    r := Ok(true);
  }

  /** The row after a status change by the user; completion also stamps the time. */
  function WithStatus(t: Task, status: int, userId: int, now: int): Task
  {
    t.(status := Some(status),
       actualCompletionTime := if status == Completed then Some(now) else t.actualCompletionTime,
       updateBy := Some(userId),
       version := Some(Bumped(t.version)))
  }

  /** The three status transitions and their guards. */
  datatype Transition = Start | Complete | Cancel

  function TargetStatus(tr: Transition): int
  {
    match tr
    case Start => InProgress
    case Complete => Completed
    case Cancel => Cancelled
  }

  predicate MayTransition(relations: seq<Relation>, t: Task, tr: Transition, userId: int)
  {
    if tr.Cancel? then CanModifyTask(relations, t, userId) else Assigned(t, userId)
  }

  function Refusal(tr: Transition): string
  {
    match tr
    case Start => "只有指定人可以开始任务"
    case Complete => "只有指定人可以完成任务"
    case Cancel => "您没有权限取消此任务"
  }

  /** startTask, completeTask and cancelTask: set the status whatever it was. */
  method ChangeStatus(table: TaskTable, store: FamilyStore, taskId: int, tr: Transition, userId: int, now: int)
    returns (r: Result<Task>)
    modifies table
    ensures table.nextId == old(table.nextId)
    ensures taskId !in old(table.tasks) ==> r == Err(Fault(Business, "任务不存在")) && table.tasks == old(table.tasks)
    ensures taskId in old(table.tasks) && !MayTransition(store.relations, old(table.tasks)[taskId], tr, userId) ==>
      r == Err(Fault(Business, Refusal(tr))) && table.tasks == old(table.tasks)
    ensures taskId in old(table.tasks) && MayTransition(store.relations, old(table.tasks)[taskId], tr, userId) ==>
      r == Ok(WithStatus(old(table.tasks)[taskId], TargetStatus(tr), userId, now))
      && table.tasks == old(table.tasks)[taskId := r.value]
  {
    if taskId !in table.tasks {
      return Err(Fault(Business, "任务不存在"));
    }
    var t := table.tasks[taskId];
    if !MayTransition(store.relations, t, tr, userId) {
      return Err(Fault(Business, Refusal(tr)));
    }
    var updated := WithStatus(t, TargetStatus(tr), userId, now);
    table.tasks := table.tasks[taskId := updated];
    r := Ok(updated);
  }

  /**
   * Start, complete and cancel ignore the current status: a completed or
   * cancelled task can be restarted, and a deleted row can still change status.
   * Only completion stamps the completion time.
   */
  lemma TransitionRule(t: Task, tr: Transition, userId: int, now: int)
    ensures WithStatus(t, TargetStatus(tr), userId, now).status == Some(TargetStatus(tr))
    ensures WithStatus(t, TargetStatus(tr), userId, now).isDeleted == t.isDeleted
    ensures tr.Complete? ==> WithStatus(t, TargetStatus(tr), userId, now).actualCompletionTime == Some(now)
    ensures !tr.Complete? ==> WithStatus(t, TargetStatus(tr), userId, now).actualCompletionTime == t.actualCompletionTime
    ensures t.version.Some? ==> WithStatus(t, TargetStatus(tr), userId, now).version.value > t.version.value
    ensures Pending <= TargetStatus(tr) <= Cancelled && TargetStatus(tr) != Pending
  {
  }
}
