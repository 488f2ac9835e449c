/** `ProfileService`: the cached user profile and its DTO mapper.

    A server call is represented by its answer, a profile DTO or the error the call
    would throw. The fetch slot `getProfileTask` is represented by the result of the
    fetch already under way, if any; the clock is the `now` parameter. */
module ProfileSync {
  import opened Wrappers
  import opened Clock
  import opened ApiErrors
  import opened Profiles

  datatype ProfileAchievementDto = ProfileAchievementDto(id: string, name: string, createdAt: Option<Date>)

  datatype ProfileDto = ProfileDto(
    goals: Option<seq<string>>,
    occupation: Option<seq<string>>,
    housing: Option<seq<string>>,
    transport: Option<seq<string>>,
    currency: Option<string>,
    age: Option<string>,
    notifyDailyReport: Option<bool>,
    notifyWeeklyReport: Option<bool>,
    notifyMonthlyReport: Option<bool>,
    notifyAnnualReport: Option<bool>,
    notifyNewRecommendation: Option<bool>,
    favoriteRealtimeVoice: Option<string>,
    achievements: Option<seq<ProfileAchievementDto>>,
    createdAt: Option<Date>,
    email: Option<string>,
    name: Option<string>,
    firstName: Option<string>,
    lastName: Option<string>,
    picture: Option<string>,
    timezone: Option<string>,
    plan: Option<string>,
    planStartsAt: Option<Date>,
    planExpiresAt: Option<Date>)

  /** The DTO of a profile whose server record is empty. */
  const EmptyProfileDto := ProfileDto(
    None, None, None, None, None, None, None, None, None, None, None, None, None,
    None, None, None, None, None, None, None, None, None, None)

  /** `ProfileAchievement(from:)`: a missing creation date is `now`. */
  function AchievementFromDto(dto: ProfileAchievementDto, now: Date): (a: ProfileAchievement)
    ensures a.id == dto.id && a.name == dto.name
  {
    ProfileAchievement(dto.id, dto.name, dto.createdAt.GetOr(now))
  }

  /** `Profile(from:)`: absent lists are empty, absent names and email are empty, the
      daily report is off and every other report on unless the server says otherwise,
      limits are never taken from the server, and an absent plan is the free plan. */
  function ProfileFromDto(dto: ProfileDto, now: Date): (p: Profile)
    ensures p.limits == []
    ensures |p.achievements| == |dto.achievements.GetOr([])|
    ensures dto.plan.None? ==> p.plan == Free
  {
    var achievements := dto.achievements.GetOr([]);
    Profile(
      goals := dto.goals.GetOr([]),
      occupation := dto.occupation.GetOr([]),
      housing := dto.housing.GetOr([]),
      transport := dto.transport.GetOr([]),
      currency := dto.currency,
      age := dto.age,
      achievements := seq(|achievements|, i requires 0 <= i < |achievements| => AchievementFromDto(achievements[i], now)),
      limits := [],
      notifyDailyReport := dto.notifyDailyReport.GetOr(false),
      notifyWeeklyReport := dto.notifyWeeklyReport.GetOr(true),
      notifyMonthlyReport := dto.notifyMonthlyReport.GetOr(true),
      notifyAnnualReport := dto.notifyAnnualReport.GetOr(true),
      notifyNewRecommendation := dto.notifyNewRecommendation.GetOr(true),
      favoriteRealtimeVoice := dto.favoriteRealtimeVoice,
      createdAt := dto.createdAt.GetOr(now),
      name := dto.name.GetOr(""),
      email := dto.email.GetOr(""),
      firstName := dto.firstName.GetOr(""),
      lastName := dto.lastName.GetOr(""),
      picture := dto.picture,
      plan := PlanFromRaw(dto.plan.GetOr(FreePlanName)),
      planStartsAt := dto.planStartsAt,
      planExpiresAt := dto.planExpiresAt)
  }

  /** An empty server record maps to exactly the profile `Profile.init` builds by
      default: the mapper's fallbacks are the initialiser's defaults. */
  lemma EmptyDtoIsDefaultProfile(now: Date)
    ensures ProfileFromDto(EmptyProfileDto, now) == NewProfile(now)
  {
  }

  /** The mapped profile is premium exactly when the server sent a plan name that
      mentions PREMIUM or PRO. */
  lemma ProfileFromDtoPremium(dto: ProfileDto, now: Date)
    ensures ProfileFromDto(dto, now).IsPremium() <==> dto.plan.Some? && HasPaidMarker(dto.plan.value)
  {
    PlanPremiumIffMarker(dto.plan.GetOr(FreePlanName));
    CanonicalMarkers();
  }

  /** The DTO that encodes a profile with every field present. */
  function ProfileToDto(p: Profile): ProfileDto
  {
    ProfileDto(
      Some(p.goals), Some(p.occupation), Some(p.housing), Some(p.transport), p.currency, p.age,
      Some(p.notifyDailyReport), Some(p.notifyWeeklyReport), Some(p.notifyMonthlyReport),
      Some(p.notifyAnnualReport), Some(p.notifyNewRecommendation), p.favoriteRealtimeVoice,
      Some(seq(|p.achievements|, i requires 0 <= i < |p.achievements| =>
        ProfileAchievementDto(p.achievements[i].id, p.achievements[i].name, Some(p.achievements[i].createdAt)))),
      Some(p.createdAt), Some(p.email), Some(p.name), Some(p.firstName), Some(p.lastName), p.picture,
      None, Some(p.plan.RawValue()), p.planStartsAt, p.planExpiresAt)
  }

  /** The mapper loses only the limits, which it never reads, and the unknown plan
      names that do not read back as themselves. */
  lemma ProfileFromDtoRoundTrip(p: Profile, now: Date)
    requires p.limits == []
    requires PlanFromRaw(p.plan.RawValue()) == p.plan
    ensures ProfileFromDto(ProfileToDto(p), now) == p
  {
    var q := ProfileFromDto(ProfileToDto(p), now);
    assert q.achievements == p.achievements;
  }

  class ProfileService {
    /** `_cachedProfile`. */
    var cache: Option<Profile>
    /** Occupancy of `getProfileTask`: the result of a fetch already under way. */
    var inFlight: Option<Result<Profile, Thrown>>

    constructor ()
      ensures cache == None && inFlight == None
    {
      cache := None;
      inFlight := None;
    }

    /** `getProfile(force:)`. A fetch under way answers every caller, forced or not,
        before the cache is looked at; a cached profile answers an unforced call; in
        every other case the server is asked, a success is stored and returned, and a
        failure is passed on with the cache as it was. The slot is free again after. */
    method GetProfile(force: bool, answer: Result<ProfileDto, Thrown>, now: Date) returns (r: Result<Profile, Thrown>)
      modifies this
      ensures old(inFlight).Some? ==> r == old(inFlight).value && cache == old(cache) && inFlight == old(inFlight)
      ensures old(inFlight).None? && old(cache).Some? && !force ==>
        r == Success(old(cache).value) && cache == old(cache) && inFlight == None
      ensures old(inFlight).None? && (old(cache).None? || force) ==>
        && inFlight == None
        && match answer
           case Success(dto) => r == Success(ProfileFromDto(dto, now)) && cache == Some(r.value)
           case Failure(e) => r == Failure(e) && cache == old(cache)
    {
      if inFlight.Some? {
        return inFlight.value;
      }
      if cache.Some? && !force {
        return Success(cache.value);
      }
      var task: Result<Profile, Thrown> :=
        if answer.Success? then Success(ProfileFromDto(answer.value, now)) else Failure(answer.error);
      inFlight := Some(task);
      if task.Success? {
        cache := Some(task.value);
      }
      inFlight := None;
      return task;
    }

    /** `updateProfile(_:)`: the server's profile replaces the cached one. */
    method UpdateProfile(answer: Result<ProfileDto, Thrown>, now: Date) returns (r: Result<Profile, Thrown>)
      modifies this
      ensures inFlight == old(inFlight)
      ensures answer.Failure? ==> r == Failure(answer.error) && cache == old(cache)
      ensures answer.Success? ==> r == Success(ProfileFromDto(answer.value, now)) && cache == Some(r.value)
    {
      if answer.Failure? {
        return Failure(answer.error);
      }
      var profile := ProfileFromDto(answer.value, now);
      cache := Some(profile);
      return Success(profile);
    }

    /** `clearCache`: no cached profile and no fetch under way, whatever the state
        before, so clearing twice is clearing once. */
    method ClearCache()
      modifies this
      ensures cache == None && inFlight == None
    {
      cache := None;
      inFlight := None;
    }
  }
}
