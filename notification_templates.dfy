// NotificationService's template side (notificationService.ts): the built-in
// catalogue, the custom templates and usage counts kept in local storage, the
// most-used ranking, the one-click notification texts and the mapping of the
// family's backend templates. Local storage is a pair of fields of a store
// object; the clock and the local notification delivery are parameters.
module NotificationTemplates {
  import opened Wrappers
  import opened Strings
  import FamilyTables

  /** A template as the app shows it. */
  datatype NotificationTemplate = NotificationTemplate(
    id: string,
    title: Option<string>,
    content: Option<string>,
    icon: string,
    kind: int,
    priority: int,
    category: string,
    description: string)

  function Builtin(id: string, title: string, content: string, icon: string, kind: int, priority: int,
                   category: string, description: string): NotificationTemplate
  {
    NotificationTemplate(id, Some(title), Some(content), icon, kind, priority, category, description)
  }

  /** getNotificationTemplates: the eight system templates. */
  const Catalogue: seq<NotificationTemplate> := [
    Builtin("medical_checkup", "产检提醒", "需要家人陪同去产检，请及时关注！", "💊", 2, 2, "health", "提醒家人陪同产检"),
    Builtin("health_concern", "身体不适", "身体感到不适，需要家人关注和照顾", "😷", 3, 3, "emergency", "身体不适需要照顾"),
    Builtin("happy_moment", "分享喜悦", "想要分享胎动、B超等美好时刻！", "😊", 1, 1, "sharing", "分享孕期美好时刻"),
    Builtin("emergency", "紧急情况", "遇到紧急情况，请立即联系！", "🚨", 3, 3, "emergency", "紧急情况求助"),
    Builtin("medication_reminder", "服药提醒", "该服用维生素或其他药物了", "💊", 1, 2, "health", "提醒按时服药"),
    Builtin("appointment_reminder", "预约提醒", "有重要的医疗预约或检查", "📅", 2, 2, "reminder", "医疗预约提醒"),
    Builtin("meal_time", "用餐提醒", "该吃饭了，注意营养均衡", "🍽️", 1, 1, "reminder", "用餐时间提醒"),
    Builtin("exercise_reminder", "运动提醒", "适当运动有益健康", "🤸‍♀️", 1, 1, "health", "运动锻炼提醒")
  ]

  /** No catalogue id can be taken for a custom ("custom_…") or backend ("template_…") id. */
  lemma CatalogueIds()
    ensures |Catalogue| == 8
    ensures forall i :: 0 <= i < |Catalogue| ==> !StartsWith(Catalogue[i].id, "custom_") && !StartsWith(Catalogue[i].id, "template_")
  {
    forall i | 0 <= i < |Catalogue|
      ensures !StartsWith(Catalogue[i].id, "custom_") && !StartsWith(Catalogue[i].id, "template_")
    {
      var id := Catalogue[i].id;
      assert |id| > 0 && id[0] in "mhae" by {
        if i == 0 { } else if i == 1 { } else if i == 2 { } else if i == 3 { }
        else if i == 4 { } else if i == 5 { } else if i == 6 { } else { }
      }
      assert id[..7] != "custom_" by { assert id[..7][0] == id[0]; }
      if |id| >= 9 {
        assert id[..9][0] == id[0];
      }
    }
  }

  /** A partial update: only the present fields are written. */
  datatype TemplateUpdate = TemplateUpdate(
    id: Option<string>,
    title: Option<Option<string>>,
    content: Option<Option<string>>,
    icon: Option<string>,
    kind: Option<int>,
    priority: Option<int>,
    category: Option<string>,
    description: Option<string>)

  function Over<T>(u: Option<T>, v: T): T
  {
    if u.Some? then u.value else v
  }

  /** { ...t, ...u }. */
  function Merge(t: NotificationTemplate, u: TemplateUpdate): (r: NotificationTemplate)
    ensures u == TemplateUpdate(None, None, None, None, None, None, None, None) ==> r == t
    ensures u.id.None? ==> r.id == t.id
  {
    NotificationTemplate(Over(u.id, t.id), Over(u.title, t.title), Over(u.content, t.content), Over(u.icon, t.icon),
      Over(u.kind, t.kind), Over(u.priority, t.priority), Over(u.category, t.category), Over(u.description, t.description))
  }

  /** The templates left after removing every one with the id, in their order. */
  function WithoutId(ts: seq<NotificationTemplate>, id: string): (r: seq<NotificationTemplate>)
    ensures forall t :: t in r <==> t in ts && t.id != id
    ensures |r| <= |ts|
  {
    if |ts| == 0 then []
    else WithoutId(ts[..|ts| - 1], id) + (if ts[|ts| - 1].id == id then [] else [ts[|ts| - 1]])
  }

  /** Removing an id that no template has changes nothing. */
  lemma {:induction false} WithoutAbsentId(ts: seq<NotificationTemplate>, id: string)
    requires forall k :: 0 <= k < |ts| ==> ts[k].id != id
    ensures WithoutId(ts, id) == ts
  {
    if |ts| > 0 {
      var init := ts[..|ts| - 1];
      var last := ts[|ts| - 1];
      WithoutAbsentId(init, id);
      assert WithoutId(ts, id) == WithoutId(init, id) + [last];
      assert init + [last] == ts;
    }
  }

  /** Removing twice is removing once. */
  lemma WithoutIdIdempotent(ts: seq<NotificationTemplate>, id: string)
    ensures WithoutId(WithoutId(ts, id), id) == WithoutId(ts, id)
  {
    var r := WithoutId(ts, id);
    assert forall k :: 0 <= k < |r| ==> r[k] in r;
    WithoutAbsentId(r, id);
  }

  /** The usage count of an id: a missing entry counts as 0. */
  function Count(stats: map<string, int>, id: string): int
  {
    if id in stats then stats[id] else 0
  }

  /** The local store: custom templates and usage statistics. */
  class TemplateStore {
    var custom: seq<NotificationTemplate>
    var stats: map<string, int>

    constructor ()
      ensures custom == [] && stats == map[]
    {
      custom := [];
      stats := map[];
    }

    /**
     * saveUserCustomTemplate: append one copy of the template with the id
     * "custom_" followed by the current time and the category 'custom'.
     * `writable` is whether local storage accepts the write: when setItem
     * throws, the catch returns false and nothing is stored.
     */
    method SaveUserCustomTemplate(t: NotificationTemplate, now: int, writable: bool) returns (saved: bool)
      modifies this
      ensures saved <==> writable
      ensures custom == (if writable then old(custom) + [t.(id := "custom_" + IntText(now), category := "custom")] else old(custom))
      ensures stats == old(stats)
    {
      if !writable {
        return false;
      }
      var newTemplate := t.(id := "custom_" + IntText(now), category := "custom");
      custom := custom + [newTemplate];
      saved := true;
    }

    /**
     * deleteUserCustomTemplate: keep the other templates in order; true even
     * when none matched, false with nothing written when storage refuses.
     */
    method DeleteUserCustomTemplate(id: string, writable: bool) returns (deleted: bool)
      modifies this
      ensures deleted <==> writable
      ensures custom == (if writable then WithoutId(old(custom), id) else old(custom))
      ensures stats == old(stats)
    {
      if !writable {
        return false;
      }
      custom := WithoutId(custom, id);
      deleted := true;
    }

    /**
     * updateUserCustomTemplate: false and no write for an absent id or a
     * refused write; else merge into the first match.
     */
    method UpdateUserCustomTemplate(id: string, u: TemplateUpdate, writable: bool) returns (updated: bool)
      modifies this
      ensures var at := FamilyTables.FirstIndex(old(custom), (t: NotificationTemplate) => t.id == id);
        (updated <==> at.Some? && writable)
        && custom == (if updated then old(custom)[at.value := Merge(old(custom)[at.value], u)] else old(custom))
      ensures stats == old(stats)
    {
      var at := FamilyTables.FirstIndex(custom, (t: NotificationTemplate) => t.id == id);
      if at.None? {
        return false;
      }
      if !writable {
        return false;
      }
      custom := custom[at.value := Merge(custom[at.value], u)];
      updated := true;
    }

    /** recordTemplateUsage: one more use of the id; a refused write is swallowed and counts nothing. */
    method RecordTemplateUsage(id: string, writable: bool)
      modifies this
      ensures stats == (if writable then old(stats)[id := Count(old(stats), id) + 1] else old(stats))
      ensures custom == old(custom)
    {
      if writable {
        stats := stats[id := Count(stats, id) + 1];
      }
    }
  }

  /** getAllNotificationTemplates: the system templates, then the custom ones. */
  function AllTemplates(custom: seq<NotificationTemplate>): seq<NotificationTemplate>
  {
    Catalogue + custom
  }

  /** The eight system templates come first, then the custom ones in stored order. */
  lemma AllTemplatesRule(custom: seq<NotificationTemplate>)
    ensures |AllTemplates(custom)| == 8 + |custom|
    ensures AllTemplates(custom)[..8] == Catalogue && AllTemplates(custom)[8..] == custom
  {
    CatalogueIds();
  }

  /** Saving at two different times gives two different ids; saving twice in one millisecond repeats an id. */
  lemma SavedIdsRule(now1: int, now2: int)
    ensures ("custom_" + IntText(now1) == "custom_" + IntText(now2)) <==> now1 == now2
  {
    var a := "custom_" + IntText(now1);
    var b := "custom_" + IntText(now2);
    if a == b {
      assert a[7..] == IntText(now1) && b[7..] == IntText(now2);
      IntTextInjective(now1, now2);
    }
  }

  /** The update touches only the first template with the id; an absent id leaves the list as it was. */
  lemma UpdateRule(ts: seq<NotificationTemplate>, id: string, u: TemplateUpdate)
    ensures var at := FamilyTables.FirstIndex(ts, (t: NotificationTemplate) => t.id == id);
      (at.None? <==> forall t :: t in ts ==> t.id != id)
      && (at.Some? ==> ts[at.value].id == id && forall j :: 0 <= j < at.value ==> ts[j].id != id)
  {
    var at := FamilyTables.FirstIndex(ts, (t: NotificationTemplate) => t.id == id);
    if at.Some? {
      assert ts[at.value] in ts;
    }
  }

  /** Recording counts exactly one more use of that id and no other. */
  lemma RecordRule(stats: map<string, int>, id: string, other: string)
    ensures Count(stats[id := Count(stats, id) + 1], id) == Count(stats, id) + 1
    ensures other != id ==> Count(stats[id := Count(stats, id) + 1], other) == Count(stats, other)
  {
  }

  // ---------------------------------------------------------------- most used

  datatype UsedTemplate = UsedTemplate(template: NotificationTemplate, usageCount: int)

  /** A template with its count and its position in the list that was sorted. */
  datatype Ranked = Ranked(used: UsedTemplate, pos: nat)

  /** a may stand before b: more uses, or as many and not later in the list. */
  predicate Precedes(a: Ranked, b: Ranked)
  {
    a.used.usageCount > b.used.usageCount || (a.used.usageCount == b.used.usageCount && a.pos <= b.pos)
  }

  predicate Ordered(s: seq<Ranked>)
  {
    forall i, j :: 0 <= i < j < |s| ==> Precedes(s[i], s[j])
  }

  function Insert(x: Ranked, s: seq<Ranked>): (r: seq<Ranked>)
    requires Ordered(s)
    ensures |r| == |s| + 1 && Ordered(r) && multiset(r) == multiset(s) + multiset{x}
  {
    if |s| == 0 then [x]
    else if Precedes(x, s[0]) then
      InsertFront(x, s);
      [x] + s
    else
      var rest := Insert(x, s[1..]);
      assert s == [s[0]] + s[1..];
      InsertBehind(x, s, rest);
      [s[0]] + rest
  }

  lemma InsertFront(x: Ranked, s: seq<Ranked>)
    requires Ordered(s) && |s| > 0 && Precedes(x, s[0])
    ensures Ordered([x] + s)
  {
    var r := [x] + s;
    forall i, j | 0 <= i < j < |r|
      ensures Precedes(r[i], r[j])
    {
      if i == 0 && j > 1 {
        assert Precedes(s[0], s[j - 1]);
      }
    }
  }

  lemma InsertBehind(x: Ranked, s: seq<Ranked>, rest: seq<Ranked>)
    requires Ordered(s) && |s| > 0 && !Precedes(x, s[0])
    requires Ordered(rest) && multiset(rest) == multiset(s[1..]) + multiset{x}
    ensures Ordered([s[0]] + rest)
  {
    var r := [s[0]] + rest;
    forall i, j | 0 <= i < j < |r|
      ensures Precedes(r[i], r[j])
    {
      if i == 0 {
        var y := rest[j - 1];
        assert y in multiset(rest);
        if y != x {
          assert y in multiset(s[1..]);
          var k :| 0 <= k < |s[1..]| && s[1..][k] == y;
          assert Precedes(s[0], s[k + 1]);
        }
      }
    }
  }

  /** A stable sort by decreasing usage count (Array.prototype.sort is stable). */
  function SortByUsage(s: seq<Ranked>): (r: seq<Ranked>)
    ensures |r| == |s| && Ordered(r) && multiset(r) == multiset(s)
  {
    if |s| == 0 then []
    else
      assert s == s[..|s| - 1] + [s[|s| - 1]];
      Insert(s[|s| - 1], SortByUsage(s[..|s| - 1]))
  }

  /** Each template with its count, at its position. */
  function WithCounts(all: seq<NotificationTemplate>, stats: map<string, int>): (r: seq<Ranked>)
    ensures |r| == |all|
    ensures forall i :: 0 <= i < |r| ==> r[i] == Ranked(UsedTemplate(all[i], Count(stats, all[i].id)), i)
  {
    seq(|all|, i requires 0 <= i < |all| => Ranked(UsedTemplate(all[i], Count(stats, all[i].id)), i))
  }

  /** Array.prototype.slice(0, limit)'s end: a negative limit counts from the end. */
  function SliceEnd(length: nat, limit: int): (e: nat)
    ensures e <= length
  {
    if limit < 0 then (if length + limit < 0 then 0 else length + limit)
    else if limit < length then limit else length
  }

  function Project(s: seq<Ranked>): (r: seq<UsedTemplate>)
    ensures |r| == |s| && forall i :: 0 <= i < |s| ==> r[i] == s[i].used
  {
    seq(|s|, i requires 0 <= i < |s| => s[i].used)
  }

  /** getMostUsedTemplates(limit = 5) over all templates. */
  function MostUsed(all: seq<NotificationTemplate>, stats: map<string, int>, limit: Option<int>): seq<UsedTemplate>
  {
    var sorted := SortByUsage(WithCounts(all, stats));
    Project(sorted[..SliceEnd(|sorted|, limit.GetOr(5))])
  }

  /** In a sequence whose k-th element has position k, each element occurs once. */
  lemma SingleOccurrence(t: seq<Ranked>, k: nat)
    requires forall m :: 0 <= m < |t| ==> t[m].pos == m
    requires k < |t|
    ensures multiset(t)[t[k]] == 1
  {
    assert t == t[..k] + [t[k]] + t[k + 1..];
    assert t[k] !in t[..k] && t[k] !in t[k + 1..] by {
      forall y | y in t[..k] ensures y.pos < k { }
      forall y | y in t[k + 1..] ensures y.pos > k { }
    }
  }

  /** A sequence whose positions are distinct holds no element twice. */
  lemma DistinctPositions(s: seq<Ranked>, t: seq<Ranked>, i: nat, j: nat)
    requires multiset(s) == multiset(t) && forall k :: 0 <= k < |t| ==> t[k].pos == k
    requires i < j < |s|
    ensures s[i].pos != s[j].pos
  {
    if s[i].pos == s[j].pos {
      assert s[i] in multiset(t) && s[j] in multiset(t);
      assert s[i] == t[s[i].pos] && s[j] == t[s[j].pos];
      assert s == s[..j] + s[j..];
      assert s[i] in s[..j] && s[j] in s[j..];
      assert multiset(s)[s[i]] >= 2;
      SingleOccurrence(t, s[i].pos);
    }
  }

  /**
   * The result is a prefix of all templates ordered by decreasing count, at
   * most limit long (default 5); equal counts keep the catalogue order; every
   * template left out has no more uses than any template returned.
   */
  lemma MostUsedRule(all: seq<NotificationTemplate>, stats: map<string, int>, limit: Option<int>)
    ensures var sorted := SortByUsage(WithCounts(all, stats));
      multiset(sorted) == multiset(WithCounts(all, stats))
      && |sorted| == |all|
      && MostUsed(all, stats, limit) == Project(sorted[..SliceEnd(|sorted|, limit.GetOr(5))])
      && (forall i, j :: 0 <= i < j < |sorted| ==> sorted[i].used.usageCount >= sorted[j].used.usageCount)
      && (forall i, j :: 0 <= i < j < |sorted| && sorted[i].used.usageCount == sorted[j].used.usageCount ==>
            sorted[i].pos < sorted[j].pos)
    ensures |MostUsed(all, stats, limit)| <= (if limit.None? then 5 else if limit.value < 0 then |all| else limit.value)
  {
    var ranked := WithCounts(all, stats);
    var sorted := SortByUsage(ranked);
    forall i, j | 0 <= i < j < |sorted| && sorted[i].used.usageCount == sorted[j].used.usageCount
      ensures sorted[i].pos < sorted[j].pos
    {
      DistinctPositions(sorted, ranked, i, j);
    }
  }

  // ---------------------------------------------------------------- one-click notifications

  datatype NotificationData = NotificationData(title: string, body: string, dataType: string, urgent: bool,
                                               categoryIdentifier: string)

  const OneClickTypes: seq<string> := ["产检提醒", "身体不适", "分享喜悦", "紧急情况"]

  /** The local notification sendOneClickNotification builds for a type, if it knows the type. */
  function OneClickNotification(kind: string, userName: Option<string>): (r: Option<NotificationData>)
    ensures r.Some? <==> kind in OneClickTypes
  {
    var name := if userName.None? || userName.value == [] then "孕妈妈" else userName.value;
    if kind == "产检提醒" then
      Some(NotificationData("💊 产检提醒", name + "需要家人陪同去产检，请及时关注！", "medical_checkup", true, "reminder"))
    else if kind == "身体不适" then
      Some(NotificationData("😷 身体不适", name + "身体感到不适，需要家人关注和照顾", "health_concern", true, "emergency"))
    else if kind == "分享喜悦" then
      Some(NotificationData("😊 分享喜悦", name + "想要分享胎动、B超等美好时刻！", "happy_moment", false, "reminder"))
    else if kind == "紧急情况" then
      Some(NotificationData("🚨 紧急情况", name + "遇到紧急情况，请立即联系！", "emergency", true, "emergency"))
    else None
  }

  /** sendOneClickNotification: true when the local notification was scheduled. */
  function SendOneClickNotification(kind: string, userName: Option<string>,
                                    deliver: NotificationData -> Option<string>): bool
  {
    var n := OneClickNotification(kind, userName);
    n.Some? && deliver(n.value).Some?
  }

  /**
   * An unknown type is refused whatever delivery would do; a known one names
   * the user (or 孕妈妈) first and carries the id of the catalogue template of
   * the same title.
   */
  lemma OneClickRule(kind: string, userName: Option<string>, deliver: NotificationData -> Option<string>)
    ensures kind !in OneClickTypes ==> !SendOneClickNotification(kind, userName, deliver)
    ensures kind in OneClickTypes ==>
      SendOneClickNotification(kind, userName, deliver) == deliver(OneClickNotification(kind, userName).value).Some?
    ensures kind in OneClickTypes ==>
      var n := OneClickNotification(kind, userName).value;
      StartsWith(n.body, if userName.None? || userName.value == [] then "孕妈妈" else userName.value)
      && exists i :: 0 <= i < 4 && Catalogue[i].id == n.dataType && Catalogue[i].title == Some(kind)
  {
    if kind in OneClickTypes {
      var name := if userName.None? || userName.value == [] then "孕妈妈" else userName.value;
      var n := OneClickNotification(kind, userName).value;
      if kind == "产检提醒" {
        assert Catalogue[0].id == n.dataType;
      } else if kind == "身体不适" {
        assert Catalogue[1].id == n.dataType;
      } else if kind == "分享喜悦" {
        assert Catalogue[2].id == n.dataType;
      } else {
        assert Catalogue[3].id == n.dataType;
      }
    }
  }

  // ---------------------------------------------------------------- backend templates

  /** getFamilyNotificationTemplates' mapping of a backend template. */
  function FromBackend(n: FamilyTables.Template): (r: NotificationTemplate)
    ensures r.category == "custom" && r.title == n.title && r.content == n.content
  {
    NotificationTemplate(
      "template_" + IntText(n.id),
      n.title,
      n.content,
      if n.svgIcon.Some? && n.svgIcon.value != [] then n.svgIcon.value else "📱",
      if n.kind.Some? && n.kind.value != 0 then n.kind.value else 2,
      if n.kind.Some? && n.kind.value != 0 then n.kind.value else 1,
      "custom",
      if n.title.Some? then n.title.value else "null")
  }

  /**
   * The id is "template_" and the backend id, so distinct rows get distinct
   * ids; a missing or zero type becomes type 2 with priority 1, a set type
   * becomes both; a missing or empty icon becomes 📱.
   */
  lemma FromBackendRule(n: FamilyTables.Template, m: FamilyTables.Template)
    ensures StartsWith(FromBackend(n).id, "template_")
    ensures FromBackend(n).id == FromBackend(m).id <==> n.id == m.id
    ensures (n.kind.None? || n.kind == Some(0)) <==> FromBackend(n).kind == 2 && FromBackend(n).priority == 1
    ensures n.kind.Some? && n.kind.value != 0 ==> FromBackend(n).kind == FromBackend(n).priority == n.kind.value
    ensures (n.svgIcon.None? || n.svgIcon == Some("")) ==> FromBackend(n).icon == "📱"
  {
    var a := FromBackend(n).id;
    var b := FromBackend(m).id;
    assert a[9..] == IntText(n.id) && b[9..] == IntText(m.id);
    if a == b {
      IntTextInjective(n.id, m.id);
    }
  }
}
