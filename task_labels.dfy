// FamilyTaskService's display maps (familyTaskService.ts): the text and the
// colour shown for a task's status and priority codes.
module TaskLabels {
  import FamilyTasks

  /** getStatusText. */
  function StatusText(status: int): string
  {
    match status
    case 1 => "待开始"
    case 2 => "进行中"
    case 3 => "已完成"
    case 4 => "已取消"
    case _ => "未知"
  }

  /** getPriorityText. */
  function PriorityText(priority: int): string
  {
    match priority
    case 1 => "低"
    case 2 => "中"
    case 3 => "高"
    case 4 => "紧急"
    case _ => "中"
  }

  /** getStatusColor. */
  function StatusColor(status: int): string
  {
    match status
    case 1 => "#6B7280"
    case 2 => "#F59E0B"
    case 3 => "#10B981"
    case 4 => "#EF4444"
    case _ => "#6B7280"
  }

  /** getPriorityColor. */
  function PriorityColor(priority: int): string
  {
    match priority
    case 1 => "#6B7280"
    case 2 => "#3B82F6"
    case 3 => "#F59E0B"
    case 4 => "#EF4444"
    case _ => "#3B82F6"
  }

  /**
   * The four statuses read differently and every other code reads 未知, a
   * text none of them has; the backend's status constants and every status a
   * transition sets have a known text.
   */
  lemma StatusTextRule(s: int, t: int, tr: FamilyTasks.Transition)
    ensures 1 <= s <= 4 && 1 <= t <= 4 && s != t ==> StatusText(s) != StatusText(t)
    ensures StatusText(s) == "未知" <==> !(1 <= s <= 4)
    ensures StatusText(FamilyTasks.Pending) == "待开始" && StatusText(FamilyTasks.InProgress) == "进行中"
    ensures StatusText(FamilyTasks.Completed) == "已完成" && StatusText(FamilyTasks.Cancelled) == "已取消"
    ensures StatusText(FamilyTasks.TargetStatus(tr)) != "未知"
  {
  }

  /** An unknown priority reads and is coloured as the medium priority 2; the four priorities read differently. */
  lemma PriorityRule(p: int, q: int)
    ensures PriorityText(p) == PriorityText(2) <==> p != 1 && p != 3 && p != 4
    ensures !(1 <= p <= 4) ==> PriorityText(p) == PriorityText(2) && PriorityColor(p) == PriorityColor(2)
    ensures 1 <= p <= 4 && 1 <= q <= 4 && p != q ==> PriorityText(p) != PriorityText(q) && PriorityColor(p) != PriorityColor(q)
  {
  }

  /** An unknown status is coloured as status 1; the four statuses have four colours. */
  lemma StatusColorRule(s: int, t: int)
    ensures StatusColor(s) == StatusColor(1) <==> s != 2 && s != 3 && s != 4
    ensures 1 <= s <= 4 && 1 <= t <= 4 && s != t ==> StatusColor(s) != StatusColor(t)
  {
  }
}
