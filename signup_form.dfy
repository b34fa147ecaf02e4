/**
 * The sign-up form's submit handler: a date of birth must be given, and
 * the whole-years age on today's date must be at least MinAge; only then
 * is success reported and the optional `onClose` callback called.
 * Dates are (year, month, day) as the Date getters return them; parsing
 * the form value is a parameter, with None for an Invalid Date.
 */
module SignupForm {
  import opened Wrappers

  const MinAge := 16

  /** Calendar fields as `getFullYear`, `getMonth` (0-11) and `getDate` return them. */
  datatype Date = Date(year: int, month: int, day: int)

  /** `a` falls on or before `b` in calendar order. */
  predicate OnOrBefore(a: Date, b: Date) {
    a.year < b.year
    || (a.year == b.year && (a.month < b.month || (a.month == b.month && a.day <= b.day)))
  }

  /** Whole years: the year difference, less one when this year's birthday is still to come. */
  function Age(today: Date, birth: Date): (age: int)
    ensures age == today.year - birth.year || age == today.year - birth.year - 1
  {
    var years := today.year - birth.year;
    var m := today.month - birth.month;
    if m < 0 || (m == 0 && today.day < birth.day) then years - 1 else years
  }

  /** The year difference is decremented exactly when today's month/day precede the birth month/day. */
  lemma AgeDecrementIff(today: Date, birth: Date)
    ensures Age(today, birth) == today.year - birth.year - 1 <==>
            today.month < birth.month || (today.month == birth.month && today.day < birth.day)
  {
  }

  /**
   * Reference characterisation: the age is at least `n` exactly when the
   * `n`-th birthday falls on or before today.
   */
  lemma AgeAtLeastIff(today: Date, birth: Date, n: int)
    ensures Age(today, birth) >= n <==> OnOrBefore(Date(birth.year + n, birth.month, birth.day), today)
  {
  }

  /** On the 16th birthday the age is 16; on the day before it, 15. */
  lemma SixteenthBirthday(birth: Date)
    ensures Age(Date(birth.year + MinAge, birth.month, birth.day), birth) == MinAge
    ensures birth.day > 1 ==>
              Age(Date(birth.year + MinAge, birth.month, birth.day - 1), birth) == MinAge - 1
  {
  }

  /**
   * For a birthday on the 1st, the day before the 16th birthday lies in the
   * previous month (the previous year's December for the 1st of January);
   * the age is still 15 on any day of that month.
   */
  lemma DayBeforeSixteenthAcrossMonth(birth: Date, day: int)
    requires birth.day == 1
    ensures birth.month > 0 ==> Age(Date(birth.year + MinAge, birth.month - 1, day), birth) == MinAge - 1
    ensures birth.month == 0 ==> Age(Date(birth.year + MinAge - 1, 11, day), birth) == MinAge - 1
  {
  }

  /** What a submission leads to. */
  datatype Outcome =
    | /** The "please enter your date of birth" error. */ MissingBirthDate
    | /** The "at least 16 years" error, with the computed age. */ TooYoung(age: int)
    | /** Success is reported; `onClose` was called this many times. */ Registered(onCloseCalls: nat)

  /**
   * `handleSubmit`. With an Invalid Date every getter is NaN, no comparison
   * holds, and the age guard lets the submission through.
   */
  function Submit(dob: string, parse: string -> Option<Date>, today: Date, hasOnClose: bool): (r: Outcome)
    ensures dob == "" <==> r == MissingBirthDate
    ensures r.TooYoung? ==> r.age < MinAge
    ensures r.Registered? ==> r.onCloseCalls == (if hasOnClose then 1 else 0)
  {
    if dob == "" then MissingBirthDate
    else match parse(dob)
      case None => Registered(if hasOnClose then 1 else 0)
      case Some(birth) =>
        var age := Age(today, birth);
        if age < MinAge then TooYoung(age) else Registered(if hasOnClose then 1 else 0)
  }

  /**
   * For a date of birth that parses, signing up succeeds exactly when the
   * 16th birthday is today or earlier, and `onClose` is called only then.
   */
  lemma SubmitAcceptsIff(dob: string, parse: string -> Option<Date>, today: Date, hasOnClose: bool)
    requires dob != "" && parse(dob).Some?
    ensures Submit(dob, parse, today, hasOnClose).Registered? <==>
            OnOrBefore(Date(parse(dob).value.year + MinAge, parse(dob).value.month, parse(dob).value.day), today)
    ensures !Submit(dob, parse, today, hasOnClose).Registered? ==>
            Submit(dob, parse, today, hasOnClose) == TooYoung(Age(today, parse(dob).value))
  {
    AgeAtLeastIff(today, parse(dob).value, MinAge);
  }

  /** A value that is not a date is accepted, as the guard is written. */
  lemma InvalidDateAccepted(dob: string, parse: string -> Option<Date>, today: Date)
    requires dob != "" && parse(dob).None?
    ensures Submit(dob, parse, today, true) == Registered(1)
  {
  }
}
