/** The chart calculator: input validation, the request it derives from
    the date, the choice between the upstream chart and the mock chart,
    the current-time request, the date window and the date stamp. */
module QimenCalculator {
  import opened Wrappers
  import opened Text
  import opened Types
  import opened QimenApi

  const InvalidInputMessage := "Invalid input parameters"

  /** `validateInput`: a real date, a gender of 'male' or 'female', and a
      non-empty question type. */
  predicate ValidInput(input: QimenInput)
    ensures ValidInput(input) ==> input.datetime.Some? && input.questionType != []
    ensures input.gender != "male" && input.gender != "female" ==> !ValidInput(input)
  {
    input.datetime.Some? &&
    (input.gender == "male" || input.gender == "female") &&
    |input.questionType| > 0
  }

  /** The request sent upstream: the date fields read from the date, and
      the three model options defaulted with `||`. */
  function ApiInput(input: QimenInput): (r: QimenInput)
    requires input.datetime.Some?
    ensures var dt := input.datetime.value;
      r.year == dt.year && r.month == dt.monthIndex + 1 && r.day == dt.day &&
      r.hours == dt.hours && r.minute == dt.minutes
    ensures r.juModel == Some(OrInt(input.juModel, 0))
    ensures r.panModel == Some(OrInt(input.panModel, 1))
    ensures r.zhen == Some(OrInt(input.zhen, 2))
    ensures r.datetime == input.datetime && r.gender == input.gender &&
      r.questionType == input.questionType && r.question == input.question &&
      r.feiPanModel == input.feiPanModel && r.province == input.province && r.city == input.city
  {
    var dt := input.datetime.value;
    input.(
      year := dt.year,
      month := dt.monthIndex + 1,
      day := dt.day,
      hours := dt.hours,
      minute := dt.minutes,
      juModel := Some(OrInt(input.juModel, 0)),
      panModel := Some(OrInt(input.panModel, 1)),
      zhen := Some(OrInt(input.zhen, 2)))
  }

  /** Deriving the request twice changes nothing more: it is a valid input
      already, and the defaults are never zero. */
  lemma ApiInputIdempotent(input: QimenInput)
    requires ValidInput(input)
    ensures ValidInput(ApiInput(input))
    ensures ApiInput(ApiInput(input)) == ApiInput(input)
  {
  }

  /** The derived request never asks for the flying plate (`pan_model` 0),
      so the form never carries `fei_pan_model`. */
  lemma ApiInputNeverFlyingPlate(input: QimenInput)
    requires input.datetime.Some?
    ensures ApiInput(input).panModel != Some(0)
    ensures BuildForm(ApiInput(input)).Success? ==> BuildForm(ApiInput(input)).value.feiPanModel.None?
  {
  }

  /** The upstream chart is used exactly when the location check passes,
      the service answers with `errcode` 0, and its palace list is a list. */
  predicate UsesService(api: QimenInput, transport: Option<ApiResponse>)
  {
    CallQimenApi(api, transport) == Success(transport) && transport.Some? &&
    Normalise(transport.value.data).Success?
  }

  /** `calculate`: validates, derives the request, and returns the
      upstream chart when there is one and the mock chart otherwise (every
      failure after validation falls back to the mock). `transport` is
      what the request produced, `freshId` the id `nanoid()` returns and
      `now` the clock. */
  function Calculate(input: QimenInput, transport: Option<ApiResponse>, freshId: string, now: int): (r: Result<QimenReport, string>)
    ensures r.Failure? <==> !ValidInput(input)
    ensures r.Failure? ==> r.error == InvalidInputMessage
    ensures r.Success? ==>
      var api := ApiInput(input);
      r.value.id == freshId && r.value.timestamp == now && r.value.input == api &&
      (UsesService(api, transport) ==> r.value.result == Normalise(transport.value.data).value) &&
      (!UsesService(api, transport) ==> r.value.result == MockResult(api))
  {
    if !ValidInput(input) then Failure(InvalidInputMessage)
    else
      var api := ApiInput(input);
      var result :=
        match CallQimenApi(api, transport)
        case Success(Some(response)) =>
          (match Normalise(response.data)
           case Success(q) => q
           case Failure(_) => MockResult(api))
        case _ => MockResult(api);
      Success(QimenReport(freshId, api, result, now))
  }

  /** A valid input always yields a report, whatever the service does. */
  lemma CalculateTotal(input: QimenInput, transport: Option<ApiResponse>, freshId: string, now: int)
    requires ValidInput(input)
    ensures Calculate(input, transport, freshId, now).Success?
  {
  }

  /** True solar time without a location never reaches the service: the
      thrown error is caught and the mock chart is returned. */
  lemma MissingLocationFallsBack(input: QimenInput, transport: Option<ApiResponse>, freshId: string, now: int)
    requires ValidInput(input) && input.zhen == Some(1)
    requires !Truthy(input.province) || !Truthy(input.city)
    ensures Calculate(input, transport, freshId, now).value.result == MockResult(ApiInput(input))
  {
    assert MissingLocation(ApiInput(input));
  }

  /** The mock chart's calendar time is the formatted date of the input. */
  lemma MockGongliIsFormatted(input: QimenInput)
    requires ValidInput(input)
    ensures MockResult(ApiInput(input)).basicInfo.gongli == FormatDateTime(input.datetime.value)
  {
  }

  // ---------------------------------------------------------------------
  // The current-time request

  /** `getCurrentTimeInput`: the date `now` with its fields, the question
      type (default 'general') and the gender (default 'male'); the
      defaults apply only when an argument is missing. */
  function GetCurrentTimeInput(now: DateTime, questionType: Option<string>, gender: Option<string>): (r: QimenInput)
    ensures r.datetime == Some(now)
    ensures r.questionType == questionType.GetOr("general") && r.gender == gender.GetOr("male")
    ensures r.year == now.year && r.month == now.monthIndex + 1 && r.day == now.day
    ensures r.hours == now.hours && r.minute == now.minutes
  {
    QimenInput(
      Some(now), gender.GetOr("male"), questionType.GetOr("general"), None,
      now.year, now.monthIndex + 1, now.day, now.hours, now.minutes,
      None, None, None, None, None, None)
  }

  /** With the defaults the current-time request is valid, and the
      calculator derives from it the same date fields it already has. */
  lemma CurrentTimeInputValid(now: DateTime)
    ensures var input := GetCurrentTimeInput(now, None, None);
      ValidInput(input) &&
      ApiInput(input).year == input.year && ApiInput(input).month == input.month &&
      ApiInput(input).day == input.day && ApiInput(input).hours == input.hours &&
      ApiInput(input).minute == input.minute
  {
  }

  // ---------------------------------------------------------------------
  // The date window

  /** A date as the getters return it. */
  predicate WellFormedDate(dt: DateTime)
  {
    0 <= dt.monthIndex < 12 && 1 <= dt.day <= 31 && 0 <= dt.hours < 24 && 0 <= dt.minutes < 60
  }

  /** `a <= b` on dates, to the minute. */
  predicate NotAfter(a: DateTime, b: DateTime)
  {
    a.year < b.year || (a.year == b.year &&
    (a.monthIndex < b.monthIndex || (a.monthIndex == b.monthIndex &&
    (a.day < b.day || (a.day == b.day &&
    (a.hours < b.hours || (a.hours == b.hours && a.minutes <= b.minutes)))))))
  }

  lemma NotAfterTransitive(a: DateTime, b: DateTime, c: DateTime)
    requires NotAfter(a, b) && NotAfter(b, c)
    ensures NotAfter(a, c)
  {
  }

  lemma NotAfterTotal(a: DateTime, b: DateTime)
    ensures NotAfter(a, b) || NotAfter(b, a)
  {
  }

  const MinDate := DateTime(1900, 0, 1, 0, 0)

  /** December 31st, at midnight, ten years after `nowYear`. */
  function MaxDate(nowYear: int): DateTime
  {
    DateTime(nowYear + 10, 11, 31, 0, 0)
  }

  /** `validateDateTime`: between 1900-01-01 and December 31st ten years
      on, both ends included. */
  predicate ValidateDateTime(dt: DateTime, now: DateTime)
    ensures ValidateDateTime(dt, now) ==> 1900 <= dt.year <= now.year + 10
    ensures now.year >= 1890 && (dt == MinDate || dt == MaxDate(now.year)) ==> ValidateDateTime(dt, now)
  {
    NotAfter(MinDate, dt) && NotAfter(dt, MaxDate(now.year))
  }

  /** The window is an interval: a date between two valid dates is valid. */
  lemma ValidateDateTimeConvex(a: DateTime, b: DateTime, c: DateTime, now: DateTime)
    requires ValidateDateTime(a, now) && ValidateDateTime(c, now)
    requires NotAfter(a, b) && NotAfter(b, c)
    ensures ValidateDateTime(b, now)
  {
    NotAfterTransitive(MinDate, a, b);
    NotAfterTransitive(b, c, MaxDate(now.year));
  }

  /** The present is inside the window from 1900 on, and so is every date
      of the next ten years up to December 31st at midnight. */
  lemma ValidateDateTimeBounds(dt: DateTime, now: DateTime)
    requires WellFormedDate(dt) && WellFormedDate(now) && now.year >= 1900
    ensures ValidateDateTime(now, now)
    ensures now.year <= dt.year < now.year + 10 ==> ValidateDateTime(dt, now)
    ensures dt.year > now.year + 10 || dt.year < 1900 ==> !ValidateDateTime(dt, now)
  {
  }

  // ---------------------------------------------------------------------
  // The date stamp

  /** `formatDateTime`: `YYYY-MM-DD HH:mm` with a one-based month; the
      stamp of a well-formed date reads back as that date. */
  function FormatDateTime(dt: DateTime): (r: string)
    ensures WellFormedDate(dt) && dt.year >= 0 ==>
      ReadsAsStamp(r, dt.year, dt.monthIndex + 1, dt.day, dt.hours, dt.minutes)
  {
    if WellFormedDate(dt) && dt.year >= 0 then
      StampFields(dt.year, dt.monthIndex + 1, dt.day, dt.hours, dt.minutes);
      Stamp(dt.year, dt.monthIndex + 1, dt.day, dt.hours, dt.minutes)
    else Stamp(dt.year, dt.monthIndex + 1, dt.day, dt.hours, dt.minutes)
  }

  /** Distinct dates give distinct stamps. */
  lemma FormatDateTimeInjective(a: DateTime, b: DateTime)
    requires WellFormedDate(a) && WellFormedDate(b) && a.year >= 0 && b.year >= 0
    requires FormatDateTime(a) == FormatDateTime(b)
    ensures a == b
  {
  }
}
