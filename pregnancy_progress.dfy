// PregnancyProgressServiceImpl and PregnancyProgressResponse: the weekly
// progress lookup by days to delivery, the stage and tips texts, and the
// search for a pregnant relative. Dates are day numbers; decimal columns are
// integers in hundredths.
module PregnancyProgress {
  import opened Wrappers
  import opened UserProfiles
  import opened FamilyTables
  import opened FamilyRelations

  const Business: int := 1000
  const DataNotFound: int := 1002

  /** A row of the pregnancy_progress reference table. */
  datatype ProgressRow = ProgressRow(
    pregnancyWeek: Option<int>,
    progressPercentage: Option<int>,
    daysToDelivery: Option<int>,
    babyWeight: Option<int>,
    fruitComparison: Option<string>,
    encouragementMessage: Option<string>,
    status: Option<int>)

  /**
   * PregnancyProgressResponse. storedStage and storedTips are the fields the
   * setters write; the getters never read them.
   */
  datatype Response = Response(
    pregnancyWeek: Option<int>,
    progressPercentage: Option<int>,
    daysToDelivery: Option<int>,
    babyWeight: Option<int>,
    fruitComparison: Option<string>,
    encouragementMessage: Option<string>,
    storedStage: Option<string>,
    storedTips: Option<string>)

  // ---------------------------------------------------------------- stage and tips

  /** getPregnancyStage. */
  function Stage(week: Option<int>): string
  {
    if week.None? then "未知阶段"
    else if week.value <= 12 then "孕早期"
    else if week.value <= 28 then "孕中期"
    else "孕晚期"
  }

  /** getPregnancyTips. */
  function Tips(week: Option<int>): string
  {
    if week.None? then ""
    else if week.value <= 12 then "注意休息，避免剧烈运动，补充叶酸"
    else if week.value <= 28 then "均衡饮食，适量运动，定期产检"
    else "准备待产包，注意胎动，随时准备分娩"
  }

  /** The four bands a week falls in: unknown, weeks up to 12, up to 28, later. */
  function Band(week: Option<int>): (b: nat)
    ensures b <= 3
  {
    if week.None? then 0 else if week.value <= 12 then 1 else if week.value <= 28 then 2 else 3
  }

  /** Stage and tips are functions of the band alone, and distinct bands have distinct stages. */
  lemma SameBandSameText(a: Option<int>, b: Option<int>)
    ensures Band(a) == Band(b) ==> Stage(a) == Stage(b) && Tips(a) == Tips(b)
    ensures Band(a) != Band(b) ==> Stage(a) != Stage(b)
  {
  }

  /** The response getters: computed from pregnancyWeek. */
  function PregnancyStage(r: Response): string
  {
    Stage(r.pregnancyWeek)
  }

  function PregnancyTips(r: Response): string
  {
    Tips(r.pregnancyWeek)
  }

  /** Whatever the setters stored, the getters report the band of pregnancyWeek. */
  lemma GettersIgnoreStoredText(r: Response, stage: Option<string>, tips: Option<string>)
    ensures PregnancyStage(r.(storedStage := stage, storedTips := tips)) == PregnancyStage(r)
    ensures PregnancyTips(r.(storedStage := stage, storedTips := tips)) == PregnancyTips(r)
    ensures PregnancyStage(r) == Stage(r.pregnancyWeek) && PregnancyTips(r) == Tips(r.pregnancyWeek)
  {
  }

  // ---------------------------------------------------------------- progress lookup

  const Int32Max: int := 0x7FFF_FFFF
  const TwoTo32: int := 0x1_0000_0000

  /** Java's (int) cast of a long: the low 32 bits, two's complement. */
  function Int32(x: int): (r: int)
    ensures -(Int32Max + 1) <= r <= Int32Max
    ensures 0 <= x <= Int32Max ==> r == x
  {
    var m := x % TwoTo32;
    if m > Int32Max then m - TwoTo32 else m
  }

  /** A row the query accepts: enabled, with daysToDelivery at most the bound. */
  predicate Candidate(row: ProgressRow, bound: int)
  {
    row.status == Some(1) && row.daysToDelivery.Some? && row.daysToDelivery.value <= bound
  }

  /**
   * selectOne(daysToDelivery <= bound, status = 1, ORDER BY daysToDelivery
   * DESC LIMIT 1): the candidate with the largest daysToDelivery, the first in
   * table order among equals.
   */
  function Best(rows: seq<ProgressRow>, bound: int): (r: Option<ProgressRow>)
    ensures r.Some? ==> r.value in rows && Candidate(r.value, bound)
    ensures r.Some? ==> forall x :: x in rows && Candidate(x, bound) ==> x.daysToDelivery.value <= r.value.daysToDelivery.value
    ensures r.None? <==> forall x :: x in rows ==> !Candidate(x, bound)
  {
    if |rows| == 0 then None
    else
      var rest := Best(rows[1..], bound);
      assert forall x :: x in rows ==> x == rows[0] || x in rows[1..];
      if !Candidate(rows[0], bound) then rest
      else if rest.None? || rest.value.daysToDelivery.value <= rows[0].daysToDelivery.value then Some(rows[0])
      else rest
  }

  /** The response past the expected date. */
  const Overdue: Response :=
    Response(Some(40), Some(10000), Some(0), Some(320000), Some("小西瓜"),
             Some("宝宝已经出生或即将出生，恭喜你成为妈妈！"), None, None)

  /** The response when no reference row matches. */
  function WeekOne(days: int): Response
  {
    Response(Some(1), Some(250), Some(days), Some(10), Some("芝麻"),
             Some("恭喜你怀孕了！新的生命之旅开始了！"), None, None)
  }

  /** convertToResponse: the row copied, stage and tips set through the setters. */
  function Converted(row: ProgressRow): Response
  {
    Response(row.pregnancyWeek, row.progressPercentage, row.daysToDelivery, row.babyWeight,
             row.fruitComparison, row.encouragementMessage,
             Some(Stage(row.pregnancyWeek)), Some(Tips(row.pregnancyWeek)))
  }

  /** A profile that records a pregnancy with an expected delivery date. */
  predicate Expecting(profiles: map<int, Profile>, userId: int)
  {
    userId in profiles && profiles[userId].isPregnant == Some(1) && profiles[userId].expectedDeliveryDate.Some?
  }

  /** getPregnancyProgressByUserId, with today's day number as a parameter. */
  function ProgressFor(profiles: map<int, Profile>, rows: seq<ProgressRow>, userId: int, today: int): Result<Response>
  {
    if userId !in profiles then Err(Fault(DataNotFound, "用户信息不存在"))
    else if !Expecting(profiles, userId) then Err(Fault(Business, "用户未怀孕或未设置预产期"))
    else
      var d := profiles[userId].expectedDeliveryDate.value - today;
      if d < 0 then Ok(Overdue)
      else
        var best := Best(rows, Int32(d));
        if best.None? then Ok(WeekOne(Int32(d)))
        else Ok(Converted(best.value).(daysToDelivery := Some(Int32(d))))
  }

  /**
   * The errors come first; past the date the fixed response; otherwise the
   * best row, or week one, always carrying d days to delivery.
   */
  lemma ProgressRule(profiles: map<int, Profile>, rows: seq<ProgressRow>, userId: int, today: int)
    ensures userId !in profiles ==> ProgressFor(profiles, rows, userId, today) == Err(Fault(DataNotFound, "用户信息不存在"))
    ensures userId in profiles && !Expecting(profiles, userId) ==>
      ProgressFor(profiles, rows, userId, today) == Err(Fault(Business, "用户未怀孕或未设置预产期"))
    ensures Expecting(profiles, userId) <==> ProgressFor(profiles, rows, userId, today).Ok?
    ensures Expecting(profiles, userId) ==>
      var d := profiles[userId].expectedDeliveryDate.value - today;
      var r := ProgressFor(profiles, rows, userId, today).value;
      (d < 0 ==> r == Overdue)
      && (0 <= d <= Int32Max ==> r.daysToDelivery == Some(d))
      && (0 <= d <= Int32Max && Best(rows, d).Some? ==> r.pregnancyWeek == Best(rows, d).value.pregnancyWeek)
      && (0 <= d <= Int32Max && Best(rows, d).None? ==> r == WeekOne(d))
  {
  }

  /** Past the date the stage is the late one; week one is early. */
  lemma FixedResponsesStage(d: int)
    ensures PregnancyStage(Overdue) == "孕晚期" && PregnancyStage(WeekOne(d)) == "孕早期"
  {
  }

  // ---------------------------------------------------------------- related progress

  /** listByUserId(userId, 1): the user's active relations, in table order. */
  function ActiveRelationsOf(relations: seq<Relation>, userId: int): (r: seq<Relation>)
    ensures forall k :: 0 <= k < |r| ==> r[k].userId == userId && r[k].status == 1 && r[k] in relations
  {
    if |relations| == 0 then []
    else
      var last := relations[|relations| - 1];
      ActiveRelationsOf(relations[..|relations| - 1], userId)
      + (if last.userId == userId && last.status == 1 then [last] else [])
  }

  /** The member ids other than the caller, in order. */
  function Others(members: seq<int>, userId: int): (r: seq<int>)
    ensures forall k :: 0 <= k < |r| ==> r[k] != userId && r[k] in members
  {
    if |members| == 0 then []
    else
      var last := members[|members| - 1];
      Others(members[..|members| - 1], userId) + (if last != userId then [last] else [])
  }

  /** The users the search visits: for each active family relation, the family's other active members. */
  function Candidates(relations: seq<Relation>, families: seq<Relation>, userId: int): seq<int>
  {
    if |families| == 0 then []
    else
      var last := families[|families| - 1];
      Candidates(relations, families[..|families| - 1], userId)
      + (if last.status == 1 then Others(MemberIds(relations, last.familyId), userId) else [])
  }

  /** The first expecting user of a sequence. */
  function FirstExpecting(profiles: map<int, Profile>, users: seq<int>): (r: Option<int>)
    ensures r.Some? ==> r.value in users && Expecting(profiles, r.value)
    ensures r.None? <==> forall u :: u in users ==> !Expecting(profiles, u)
  {
    if |users| == 0 then None
    else if Expecting(profiles, users[0]) then Some(users[0])
    else
      assert forall u :: u in users ==> u == users[0] || u in users[1..];
      FirstExpecting(profiles, users[1..])
  }

  function Lift(r: Result<Response>): Result<Option<Response>>
  {
    if r.Ok? then Ok(Some(r.value)) else Err(r.fault)
  }

  /** getRelatedPregnancyProgress as a function of the tables. */
  function Related(profiles: map<int, Profile>, rows: seq<ProgressRow>, relations: seq<Relation>,
                   userId: int, today: int): Result<Option<Response>>
  {
    if Expecting(profiles, userId) then Lift(ProgressFor(profiles, rows, userId, today))
    else
      var found := FirstExpecting(profiles, Candidates(relations, ActiveRelationsOf(relations, userId), userId));
      if found.None? then Ok(None) else Lift(ProgressFor(profiles, rows, found.value, today))
  }

  lemma {:induction false} OthersAppend(a: seq<int>, b: seq<int>, userId: int)
    ensures Others(a + b, userId) == Others(a, userId) + Others(b, userId)
    decreases |b|
  {
    if |b| > 0 {
      var b' := b[..|b| - 1];
      assert (a + b)[..|a + b| - 1] == a + b';
      OthersAppend(a, b', userId);
    } else {
      assert a + b == a;
    }
  }

  lemma {:induction false} CandidatesAppend(relations: seq<Relation>, a: seq<Relation>, b: seq<Relation>, userId: int)
    ensures Candidates(relations, a + b, userId) == Candidates(relations, a, userId) + Candidates(relations, b, userId)
    decreases |b|
  {
    if |b| > 0 {
      var b' := b[..|b| - 1];
      assert (a + b)[..|a + b| - 1] == a + b';
      CandidatesAppend(relations, a, b', userId);
    } else {
      assert a + b == a;
    }
  }

  lemma {:induction false} FirstExpectingAfter(profiles: map<int, Profile>, p: seq<int>, q: seq<int>)
    requires forall u :: u in p ==> !Expecting(profiles, u)
    ensures FirstExpecting(profiles, p + q) == FirstExpecting(profiles, q)
  {
    if |p| > 0 {
      assert (p + q)[0] == p[0];
      assert (p + q)[1..] == p[1..] + q;
      FirstExpectingAfter(profiles, p[1..], q);
    } else {
      assert p + q == q;
    }
  }

  /** A user is a candidate exactly when some active relation of the caller's family lists them and they are not the caller. */
  lemma {:induction false} CandidatesIff(relations: seq<Relation>, families: seq<Relation>, userId: int, u: int)
    ensures u in Candidates(relations, families, userId) <==>
      u != userId && exists x :: x in families && x.status == 1 && u in MemberIds(relations, x.familyId)
  {
    if |families| > 0 {
      var init := families[..|families| - 1];
      var last := families[|families| - 1];
      CandidatesIff(relations, init, userId, u);
      OthersIff(MemberIds(relations, last.familyId), userId, u);
      ActiveFamilyStep(relations, families, u);
    }
  }

  /** Some active relation of families lists u exactly when one of all but the last does, or the last is active and does. */
  lemma ActiveFamilyStep(relations: seq<Relation>, families: seq<Relation>, u: int)
    requires |families| > 0
    ensures var init, last := families[..|families| - 1], families[|families| - 1];
      (exists x :: x in families && x.status == 1 && u in MemberIds(relations, x.familyId)) <==>
      (exists x :: x in init && x.status == 1 && u in MemberIds(relations, x.familyId))
      || (last.status == 1 && u in MemberIds(relations, last.familyId))
  {
    var init, last := families[..|families| - 1], families[|families| - 1];
    assert families == init + [last];
    if exists x :: x in families && x.status == 1 && u in MemberIds(relations, x.familyId) {
      var x :| x in families && x.status == 1 && u in MemberIds(relations, x.familyId);
      if x != last {
        assert x in init;
      }
    }
  }

  lemma {:induction false} OthersIff(members: seq<int>, userId: int, u: int)
    ensures u in Others(members, userId) <==> u != userId && u in members
  {
    if |members| > 0 {
      var init := members[..|members| - 1];
      OthersIff(init, userId, u);
      assert members == init + [members[|members| - 1]];
    }
  }

  /**
   * The caller's own progress when they are expecting; otherwise the first
   * expecting member, other than the caller, of the caller's active families;
   * null when there is none. It never fails.
   */
  lemma RelatedRule(profiles: map<int, Profile>, rows: seq<ProgressRow>, relations: seq<Relation>, userId: int, today: int)
    ensures Related(profiles, rows, relations, userId, today).Ok?
    ensures Expecting(profiles, userId) ==>
      Related(profiles, rows, relations, userId, today) == Ok(Some(ProgressFor(profiles, rows, userId, today).value))
    ensures Related(profiles, rows, relations, userId, today).value.None? <==>
      !Expecting(profiles, userId)
      && (forall x, u ::
            x in relations && x.userId == userId && x.status == 1 && u in MemberIds(relations, x.familyId) && u != userId
            ==> !Expecting(profiles, u))
  {
    var fams := ActiveRelationsOf(relations, userId);
    var cands := Candidates(relations, fams, userId);
    ProgressRule(profiles, rows, userId, today);
    var found := FirstExpecting(profiles, cands);
    if found.Some? {
      ProgressRule(profiles, rows, found.value, today);
    }
    if !Expecting(profiles, userId) {
      forall x, u | x in relations && x.userId == userId && x.status == 1 && u in MemberIds(relations, x.familyId) && u != userId
        ensures u in cands
      {
        ActiveRelationsIff(relations, userId, x);
        CandidatesIff(relations, fams, userId, u);
      }
      if found.Some? {
        CandidatesIff(relations, fams, userId, found.value);
      }
    }
  }

  lemma {:induction false} ActiveRelationsIff(relations: seq<Relation>, userId: int, x: Relation)
    ensures x in ActiveRelationsOf(relations, userId) <==> x in relations && x.userId == userId && x.status == 1
  {
    if |relations| > 0 {
      var init := relations[..|relations| - 1];
      ActiveRelationsIff(init, userId, x);
      assert relations == init + [relations[|relations| - 1]];
    }
  }

  /** No user of the sequence is expecting. */
  predicate NoneExpecting(profiles: map<int, Profile>, users: seq<int>)
  {
    forall u :: u in users ==> !Expecting(profiles, u)
  }

  lemma NoneExpectingAppend(profiles: map<int, Profile>, a: seq<int>, b: seq<int>)
    ensures NoneExpecting(profiles, a + b) <==> NoneExpecting(profiles, a) && NoneExpecting(profiles, b)
  {
    assert forall u :: u in a + b <==> u in a || u in b;
  }

  /** The search loop after the caller's own profile: families in order, members in order. */
  method SearchFamilies(profiles: map<int, Profile>, relations: seq<Relation>, userId: int)
    returns (found: Option<int>)
    ensures found == FirstExpecting(profiles, Candidates(relations, ActiveRelationsOf(relations, userId), userId))
  {
    var families := ActiveRelationsOf(relations, userId);
    var i := 0;
    while i < |families|
      invariant 0 <= i <= |families|
      invariant NoneExpecting(profiles, Candidates(relations, families[..i], userId))
    {
      var x := families[i];
      var before := Candidates(relations, families[..i], userId);
      FamilyStep(relations, families, i, userId);
      if x.status == 1 {
        var members := MemberIds(relations, x.familyId);
        var j := 0;
        while j < |members|
          invariant 0 <= j <= |members|
          invariant NoneExpecting(profiles, before + Others(members[..j], userId))
        {
          var m := members[j];
          if m != userId && Expecting(profiles, m) {
            found := Some(m);
            FoundAt(profiles, relations, families, i, j, userId);
            return;
          }
          MemberStep(profiles, before, members, j, userId);
          j := j + 1;
        }
        assert members[..j] == members;
      }
      i := i + 1;
    }
    assert families[..i] == families;
    FirstExpectingAfter(profiles, Candidates(relations, families, userId), []);
    assert Candidates(relations, families, userId) + [] == Candidates(relations, families, userId);
    found := None;
  }

  /** One member visited without a match keeps the visited candidates free of expecting users. */
  lemma MemberStep(profiles: map<int, Profile>, before: seq<int>, members: seq<int>, j: nat, userId: int)
    requires j < |members| && !(members[j] != userId && Expecting(profiles, members[j]))
    requires NoneExpecting(profiles, before + Others(members[..j], userId))
    ensures NoneExpecting(profiles, before + Others(members[..j + 1], userId))
  {
    var m := members[j];
    assert members[..j + 1][..j] == members[..j];
    assert Others(members[..j + 1], userId) == Others(members[..j], userId) + (if m != userId then [m] else []);
    NoneExpectingAppend(profiles, before, Others(members[..j], userId));
    NoneExpectingAppend(profiles, before, Others(members[..j + 1], userId));
    NoneExpectingAppend(profiles, Others(members[..j], userId), if m != userId then [m] else []);
  }

  /** The candidates of one more family: its other members when active, nothing otherwise. */
  lemma FamilyStep(relations: seq<Relation>, families: seq<Relation>, i: nat, userId: int)
    requires i < |families|
    ensures Candidates(relations, families[..i + 1], userId) == Candidates(relations, families[..i], userId)
      + (if families[i].status == 1 then Others(MemberIds(relations, families[i].familyId), userId) else [])
  {
    assert families[..i + 1][..i] == families[..i];
  }

  /** The member found at (i, j) is the first expecting candidate. */
  lemma FoundAt(profiles: map<int, Profile>, relations: seq<Relation>, families: seq<Relation>, i: nat, j: nat, userId: int)
    requires i < |families| && families[i].status == 1
    requires j < |MemberIds(relations, families[i].familyId)|
    requires var m := MemberIds(relations, families[i].familyId)[j]; m != userId && Expecting(profiles, m)
    requires NoneExpecting(profiles,
      Candidates(relations, families[..i], userId) + Others(MemberIds(relations, families[i].familyId)[..j], userId))
    ensures FirstExpecting(profiles, Candidates(relations, families, userId)) == Some(MemberIds(relations, families[i].familyId)[j])
  {
    var members := MemberIds(relations, families[i].familyId);
    var m := members[j];
    var c1, c2 := Candidates(relations, families[..i], userId), Candidates(relations, families[i + 1..], userId);
    var o1, o2 := Others(members[..j], userId), Others(members[j + 1..], userId);
    CandidatesSplit(relations, families, i, userId);
    OthersSplit(members, j, userId);
    Regroup(c1, o1, m, o2, c2);
    FirstExpectingAfter(profiles, c1 + o1, [m] + (o2 + c2));
    assert FirstExpecting(profiles, [m] + (o2 + c2)) == Some(m);
  }

  lemma Regroup(c1: seq<int>, o1: seq<int>, m: int, o2: seq<int>, c2: seq<int>)
    ensures c1 + (o1 + [m] + o2) + c2 == (c1 + o1) + ([m] + (o2 + c2))
  {
  }

  lemma CandidatesSplit(relations: seq<Relation>, families: seq<Relation>, i: nat, userId: int)
    requires i < |families| && families[i].status == 1
    ensures Candidates(relations, families, userId) == Candidates(relations, families[..i], userId)
      + Others(MemberIds(relations, families[i].familyId), userId) + Candidates(relations, families[i + 1..], userId)
  {
    assert families == families[..i] + [families[i]] + families[i + 1..];
    CandidatesAppend(relations, families[..i] + [families[i]], families[i + 1..], userId);
    CandidatesAppend(relations, families[..i], [families[i]], userId);
    assert [families[i]][..0] == [];
  }

  lemma OthersSplit(members: seq<int>, j: nat, userId: int)
    requires j < |members| && members[j] != userId
    ensures Others(members, userId) == Others(members[..j], userId) + [members[j]] + Others(members[j + 1..], userId)
  {
    assert members == members[..j] + [members[j]] + members[j + 1..];
    OthersAppend(members[..j] + [members[j]], members[j + 1..], userId);
    OthersAppend(members[..j], [members[j]], userId);
    assert [members[j]][..0] == [];
  }

  /** getRelatedPregnancyProgress. */
  method GetRelatedPregnancyProgress(profiles: map<int, Profile>, rows: seq<ProgressRow>, relations: seq<Relation>,
                                     userId: int, today: int)
    returns (r: Result<Option<Response>>)
    ensures r == Related(profiles, rows, relations, userId, today)
  {
    if Expecting(profiles, userId) {
      return Lift(ProgressFor(profiles, rows, userId, today));
    }
    var found := SearchFamilies(profiles, relations, userId);
    if found.None? {
      return Ok(None);
    }
    r := Lift(ProgressFor(profiles, rows, found.value, today));
  }
}
