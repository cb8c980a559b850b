// UserProfileServiceImpl: pregnancy-date validation, the non-null field copy,
// and the profile upsert. Dates are day numbers (days since the epoch);
// decimal measurements are kept as opaque integers since they are only copied.
module UserProfiles {
  import opened Wrappers

  const ValidationError: int := 1001

  /** The earliest accepted last menstrual period, in days before today. */
  const LmpWindow: int := 300
  /** The latest accepted expected delivery date, in days after today. */
  const EddWindow: int := 365
  /** The days from the last menstrual period to the expected delivery date. */
  const Gestation: int := 280

  datatype Profile = Profile(
    userId: int,
    birthDate: Option<int>,
    height: Option<int>,
    weight: Option<int>,
    allergies: Option<string>,
    medicalHistory: Option<string>,
    isPregnant: Option<int>,
    expectedDeliveryDate: Option<int>,
    lastMenstrualPeriod: Option<int>,
    pregnancyNotes: Option<string>,
    status: Option<int>)

  /** UpdateUserProfileRequest. */
  datatype ProfileRequest = ProfileRequest(
    birthDate: Option<int>,
    height: Option<int>,
    weight: Option<int>,
    allergies: Option<string>,
    medicalHistory: Option<string>,
    isPregnant: Option<int>,
    expectedDeliveryDate: Option<int>,
    lastMenstrualPeriod: Option<int>,
    pregnancyNotes: Option<string>)

  /**
   * validatePregnancyInfo: only a request that sets isPregnant to 1 is
   * checked; the LMP must lie in [today - 300, today] and the EDD in
   * [today, today + 365]. A mismatch between LMP + 280 and the EDD is only
   * logged.
   */
  function PregnancyFault(req: ProfileRequest, today: int): Option<Fault>
  {
    if req.isPregnant != Some(1) then None
    else if req.lastMenstrualPeriod.Some? && req.lastMenstrualPeriod.value > today
    then Some(Fault(ValidationError, "末次月经日期不能是未来日期"))
    else if req.lastMenstrualPeriod.Some? && req.lastMenstrualPeriod.value < today - LmpWindow
    then Some(Fault(ValidationError, "末次月经日期过早，请检查输入"))
    else if req.expectedDeliveryDate.Some? && req.expectedDeliveryDate.value < today
    then Some(Fault(ValidationError, "预产期应该是未来日期"))
    else if req.expectedDeliveryDate.Some? && req.expectedDeliveryDate.value > today + EddWindow
    then Some(Fault(ValidationError, "预产期过晚，请检查输入"))
    else None
  }

  /** Accepted exactly when the request is not pregnant or both given dates lie in their windows. */
  lemma PregnancyFaultRule(req: ProfileRequest, today: int)
    ensures PregnancyFault(req, today).None? <==>
      req.isPregnant != Some(1)
      || ((req.lastMenstrualPeriod.None? || today - LmpWindow <= req.lastMenstrualPeriod.value <= today)
          && (req.expectedDeliveryDate.None? || today <= req.expectedDeliveryDate.value <= today + EddWindow))
    ensures PregnancyFault(req, today).Some? ==> PregnancyFault(req, today).value.code == ValidationError
  {
  }

  /** The LMP/EDD consistency check never rejects: here the dates are 85 days apart from LMP + 280. */
  lemma InconsistentDatesAccepted(today: int)
    ensures var req := ProfileRequest(None, None, None, None, None, Some(1), Some(today + EddWindow), Some(today), None);
      PregnancyFault(req, today).None?
      && req.lastMenstrualPeriod.value + Gestation - req.expectedDeliveryDate.value < -7
  {
  }

  function Keep<T>(update: Option<T>, current: Option<T>): Option<T>
  {
    if update.Some? then update else current
  }

  /** copyNonNullProperties: the request's non-null fields overwrite the profile's. */
  function CopyNonNull(req: ProfileRequest, p: Profile): Profile
  {
    p.(birthDate := Keep(req.birthDate, p.birthDate), height := Keep(req.height, p.height),
       weight := Keep(req.weight, p.weight), allergies := Keep(req.allergies, p.allergies),
       medicalHistory := Keep(req.medicalHistory, p.medicalHistory), isPregnant := Keep(req.isPregnant, p.isPregnant),
       expectedDeliveryDate := Keep(req.expectedDeliveryDate, p.expectedDeliveryDate),
       lastMenstrualPeriod := Keep(req.lastMenstrualPeriod, p.lastMenstrualPeriod),
       pregnancyNotes := Keep(req.pregnancyNotes, p.pregnancyNotes))
  }

  /**
   * Copying sets exactly the non-null fields, leaves user and status alone,
   * is idempotent, and an all-null request changes nothing.
   */
  lemma CopyNonNullRule(req: ProfileRequest, p: Profile)
    ensures var q := CopyNonNull(req, p);
      q.userId == p.userId && q.status == p.status
      && (req.birthDate.Some? ==> q.birthDate == req.birthDate) && (req.birthDate.None? ==> q.birthDate == p.birthDate)
      && (req.isPregnant.Some? ==> q.isPregnant == req.isPregnant) && (req.isPregnant.None? ==> q.isPregnant == p.isPregnant)
      && (req.expectedDeliveryDate.Some? ==> q.expectedDeliveryDate == req.expectedDeliveryDate)
      && (req.expectedDeliveryDate.None? ==> q.expectedDeliveryDate == p.expectedDeliveryDate)
      && (req.lastMenstrualPeriod.Some? ==> q.lastMenstrualPeriod == req.lastMenstrualPeriod)
      && (req.lastMenstrualPeriod.None? ==> q.lastMenstrualPeriod == p.lastMenstrualPeriod)
      && CopyNonNull(req, q) == q
    ensures CopyNonNull(ProfileRequest(None, None, None, None, None, None, None, None, None), p) == p
  {
  }

  /** The response for a user without a profile: the user id and status 1, nothing else. */
  function DefaultProfile(userId: int): Profile
  {
    Profile(userId, None, None, None, None, None, None, None, None, None, Some(1))
  }

  /** getUserProfileDetail. */
  function ProfileDetail(profiles: map<int, Profile>, userId: int): (p: Profile)
    ensures userId !in profiles ==> p.userId == userId && p.status == Some(1) && p.isPregnant.None?
  {
    if userId in profiles then profiles[userId] else DefaultProfile(userId)
  }

  /** The user_profile table, keyed by user. */
  class ProfileTable {
    var profiles: map<int, Profile>

    constructor ()
      ensures profiles == map[]
    {
      profiles := map[];
    }
  }

  /**
   * updateUserProfile: validate before any write, then create an active
   * profile from the request or copy the request onto the existing one.
   */
  method UpdateUserProfile(table: ProfileTable, req: ProfileRequest, userId: int, today: int)
    returns (r: Result<Profile>)
    modifies table
    ensures PregnancyFault(req, today).Some? ==>
      r == Err(PregnancyFault(req, today).value) && table.profiles == old(table.profiles)
    ensures PregnancyFault(req, today).None? ==>
      table.profiles == old(table.profiles)[userId :=
        if userId in old(table.profiles) then CopyNonNull(req, old(table.profiles)[userId])
        else CopyNonNull(req, DefaultProfile(userId))]
      && r == Ok(ProfileDetail(table.profiles, userId))
    ensures r.Ok? ==> userId in table.profiles && r.value == table.profiles[userId]
    ensures r.Ok? && userId !in old(table.profiles) ==>
      table.profiles[userId].userId == userId && table.profiles[userId].status == Some(1)
  {
    var fault := PregnancyFault(req, today);
    if fault.Some? {
      return Err(fault.value);
    }
    if userId !in table.profiles {
      var created := CopyNonNull(req, Profile(userId, None, None, None, None, None, None, None, None, None, None));
      table.profiles := table.profiles[userId := created.(status := Some(1))];
    } else {
      table.profiles := table.profiles[userId := CopyNonNull(req, table.profiles[userId])];
    }
    r := Ok(ProfileDetail(table.profiles, userId));
  }
}
