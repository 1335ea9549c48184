/** The user store: the profile (name, gender, birth date, birth chart)
    and whether the profile panel is open. The birth chart is computed by
    the calculator from the birth date. */
module UserStore {
  import opened Wrappers
  import opened Types
  import QimenCalculator

  datatype Gender = Male | Female

  function GenderName(g: Gender): (r: string)
    ensures r == "male" <==> g == Male
    ensures r == "female" <==> g == Female
  {
    match g
    case Male => "male"
    case Female => "female"
  }

  datatype UserProfile = UserProfile(
    name: string,
    gender: Gender,
    birthDate: Option<DateTime>,
    birthChart: Option<QimenReport>)

  /** The fields an update may carry; a missing field is None, and the
      date and the chart may be set explicitly to nothing. */
  datatype ProfilePatch = ProfilePatch(
    name: Option<string>,
    gender: Option<Gender>,
    birthDate: Option<Option<DateTime>>,
    birthChart: Option<Option<QimenReport>>)

  const DefaultName := "用户"
  const BirthChartQuestion := "命盘"

  /** `{ ...profile, ...patch }`. */
  function ApplyPatch(p: UserProfile, patch: ProfilePatch): (r: UserProfile)
    ensures patch.name.None? ==> r.name == p.name
    ensures patch.name.Some? ==> r.name == patch.name.value
    ensures patch.gender.None? ==> r.gender == p.gender
    ensures patch.gender.Some? ==> r.gender == patch.gender.value
    ensures patch.birthDate.None? ==> r.birthDate == p.birthDate
    ensures patch.birthDate.Some? ==> r.birthDate == patch.birthDate.value
    ensures patch.birthChart.None? ==> r.birthChart == p.birthChart
    ensures patch.birthChart.Some? ==> r.birthChart == patch.birthChart.value
  {
    UserProfile(
      patch.name.GetOr(p.name),
      patch.gender.GetOr(p.gender),
      patch.birthDate.GetOr(p.birthDate),
      patch.birthChart.GetOr(p.birthChart))
  }

  /** Applying the same update twice is applying it once. */
  lemma ApplyPatchIdempotent(p: UserProfile, patch: ProfilePatch)
    ensures ApplyPatch(ApplyPatch(p, patch), patch) == ApplyPatch(p, patch)
  {
  }

  /** The birth-chart request: the birth date with its fields, the
      profile's gender, question type '命盘', split Ju, rotating plate and
      platform time. */
  function BirthChartInput(birthDate: DateTime, gender: Gender): (r: QimenInput)
    ensures r.datetime == Some(birthDate) && r.gender == GenderName(gender)
    ensures r.questionType == BirthChartQuestion && r.question.None?
    ensures r.year == birthDate.year && r.month == birthDate.monthIndex + 1 && r.day == birthDate.day
    ensures r.hours == birthDate.hours && r.minute == birthDate.minutes
    ensures r.juModel == Some(0) && r.panModel == Some(1) && r.zhen == Some(2)
    ensures r.feiPanModel.None? && r.province.None? && r.city.None?
  {
    QimenInput(
      Some(birthDate), GenderName(gender), BirthChartQuestion, None,
      birthDate.year, birthDate.monthIndex + 1, birthDate.day, birthDate.hours, birthDate.minutes,
      Some(0), Some(1), None, Some(2), None, None)
  }

  /** The birth-chart request is always valid, so the calculator never
      rejects it, and the calculator sends it unchanged. */
  lemma BirthChartInputAccepted(birthDate: DateTime, gender: Gender, transport: Option<ApiResponse>, freshId: string, now: int)
    ensures QimenCalculator.ValidInput(BirthChartInput(birthDate, gender))
    ensures QimenCalculator.ApiInput(BirthChartInput(birthDate, gender)) == BirthChartInput(birthDate, gender)
    ensures QimenCalculator.Calculate(BirthChartInput(birthDate, gender), transport, freshId, now).Success?
  {
    QimenCalculator.CalculateTotal(BirthChartInput(birthDate, gender), transport, freshId, now);
  }

  /** The birth chart `generateBirthChart` stores. */
  function BirthChart(birthDate: DateTime, gender: Gender, transport: Option<ApiResponse>, freshId: string, now: int): (r: QimenReport)
    ensures r.id == freshId && r.timestamp == now && r.input == BirthChartInput(birthDate, gender)
  {
    BirthChartInputAccepted(birthDate, gender, transport, freshId, now);
    QimenCalculator.Calculate(BirthChartInput(birthDate, gender), transport, freshId, now).value
  }

  /** The persisted object: the profile only. */
  datatype Persisted = Persisted(profile: UserProfile)

  class UserStore {
    var profile: UserProfile
    var isOpen: bool

    constructor ()
      ensures profile == UserProfile(DefaultName, Male, None, None) && !isOpen
    {
      profile := UserProfile(DefaultName, Male, None, None);
      isOpen := false;
    }

    /** `setOpen`. */
    method SetOpen(open: bool)
      modifies this
      ensures isOpen == open && profile == old(profile)
    {
      isOpen := open;
    }

    /** `updateProfile`. */
    method UpdateProfile(patch: ProfilePatch)
      modifies this
      ensures profile == ApplyPatch(old(profile), patch) && isOpen == old(isOpen)
    {
      profile := ApplyPatch(profile, patch);
    }

    /** The first step of `generateBirthChart`, before the await: the
        request built from the profile as it is now, or None without a
        birth date. Nothing changes. */
    method BeginBirthChart() returns (request: Option<QimenInput>)
      ensures profile.birthDate.None? ==> request.None?
      ensures profile.birthDate.Some? ==> request == Some(BirthChartInput(profile.birthDate.value, profile.gender))
      ensures request.Some? ==> QimenCalculator.ValidInput(request.value)
    {
      if profile.birthDate.None? {
        return None;
      }
      request := Some(BirthChartInput(profile.birthDate.value, profile.gender));
      BirthChartInputAccepted(profile.birthDate.value, profile.gender, None, "", 0);
    }

    /** The second step, after the await, with the outcome of the
        calculation: the chart is merged into the profile as it is at that
        point; a thrown error changes nothing. */
    method FinishBirthChart(outcome: Result<QimenReport, Thrown>)
      modifies this
      ensures outcome.Success? ==> profile == old(profile).(birthChart := Some(outcome.value))
      ensures outcome.Failure? ==> profile == old(profile)
      ensures isOpen == old(isOpen)
    {
      if outcome.Success? {
        profile := profile.(birthChart := Some(outcome.value));
      }
    }

    /** `generateBirthChart` with nothing happening during the await:
        without a birth date nothing happens; otherwise the calculator's
        report becomes the birth chart and the rest of the profile is kept.
        `transport`, `freshId` and `now` are what the calculator is given. */
    method GenerateBirthChart(transport: Option<ApiResponse>, freshId: string, now: int)
      modifies this
      ensures old(profile).birthDate.None? ==> profile == old(profile)
      ensures old(profile).birthDate.Some? ==>
        profile == old(profile).(birthChart := Some(BirthChart(old(profile).birthDate.value, old(profile).gender, transport, freshId, now)))
      ensures isOpen == old(isOpen)
    {
      var request := BeginBirthChart();
      if request.None? {
        return;
      }
      var outcome := Calculated(request.value, transport, freshId, now);
      FinishBirthChart(outcome);
    }

    /** `partialize`. */
    function Partialize(): (p: Persisted)
      reads this
      ensures p.profile == profile
    {
      Persisted(profile)
    }

    /** Rehydration: the saved profile replaces the current one. */
    method Rehydrate(p: Persisted)
      modifies this
      ensures profile == p.profile && isOpen == old(isOpen)
    {
      profile := p.profile;
    }
  }

  /** The outcome `calculate` settles with for a request. */
  function Calculated(request: QimenInput, transport: Option<ApiResponse>, freshId: string, now: int): (r: Result<QimenReport, Thrown>)
    ensures QimenCalculator.ValidInput(request) ==> r == Success(QimenCalculator.Calculate(request, transport, freshId, now).value)
    ensures !QimenCalculator.ValidInput(request) ==> r == Failure(ErrorObject(QimenCalculator.InvalidInputMessage))
  {
    match QimenCalculator.Calculate(request, transport, freshId, now)
    case Success(report) => Success(report)
    case Failure(message) => Failure(ErrorObject(message))
  }

  /** A profile update made while the chart is being calculated survives:
      the chart, computed from the birth date read before the await, is
      merged into the updated profile. */
  method BirthChartWithUpdateDuring(store: UserStore, patch: ProfilePatch, transport: Option<ApiResponse>, freshId: string, now: int)
    modifies store
    ensures old(store.profile).birthDate.None? ==> store.profile == ApplyPatch(old(store.profile), patch)
    ensures old(store.profile).birthDate.Some? ==>
      store.profile == ApplyPatch(old(store.profile), patch).(birthChart :=
        Some(BirthChart(old(store.profile).birthDate.value, old(store.profile).gender, transport, freshId, now)))
  {
    var request := store.BeginBirthChart();
    store.UpdateProfile(patch);
    if request.Some? {
      var outcome := Calculated(request.value, transport, freshId, now);
      store.FinishBirthChart(outcome);
    }
  }

  /** Saving and restoring carries the profile over. */
  method SaveAndRestore(store: UserStore, target: UserStore)
    modifies target
    ensures target.profile == store.profile && target.isOpen == old(target.isOpen)
  {
    var saved := store.Partialize();
    target.Rehydrate(saved);
  }
}
