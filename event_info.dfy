/** The event-information step of the form wizard. Its one piece of logic is
    the effect that derives `rentalDays` from the load-in and finish moments
    whenever those four fields change. */
module EventInfo {
  import opened Js
  import ProductSelection

  /** Milliseconds in a day (`1000 * 60 * 60 * 24`). */
  const DAY: nat := 86400000

  /** `Math.ceil(diffMs / DAY)` for a non-negative span in milliseconds. */
  function CeilDays(diffMs: nat): (d: nat)
    ensures diffMs <= d * DAY
    ensures d > 0 ==> (d - 1) * DAY < diffMs
    ensures d == 0 <==> diffMs == 0
  {
    if diffMs % DAY == 0 then diffMs / DAY else diffMs / DAY + 1
  }

  /** The effect. `loadIn` and `finish` are the two moments as epoch
      milliseconds, None where `new Date(...)` is invalid. `rentalDays` is
      written only when all four fields are filled in, both moments are valid
      and the finish is not before the load-in; otherwise the form is kept
      as it was. */
  function RentalDaysEffect(form: Obj, loadIn: Option<int>, finish: Option<int>): Obj {
    if Truthy(Get(form, "loadInDate")) && Truthy(Get(form, "loadInTime")) &&
       Truthy(Get(form, "finishDate")) && Truthy(Get(form, "finishTime")) &&
       loadIn.Some? && finish.Some? && finish.value >= loadIn.value
    then Set(form, "rentalDays", Num(CeilDays(finish.value - loadIn.value) as real))
    else form
  }

  /** The effect writes `rentalDays` and nothing else: every other field is
      carried over. */
  lemma OnlyRentalDaysChanges(form: Obj, loadIn: Option<int>, finish: Option<int>, k: string)
    requires k != "rentalDays"
    ensures Get(RentalDaysEffect(form, loadIn, finish), k) == Get(form, k)
  {
  }

  /** When the four fields are filled in and both moments are valid, the
      result is the ceiling of the span in days (0 for an instant, never
      short of the span, less than a day over it); with a finish before the
      load-in the old value stays. */
  lemma RentalDaysWritten(form: Obj, loadIn: int, finish: int)
    requires Truthy(Get(form, "loadInDate")) && Truthy(Get(form, "loadInTime"))
    requires Truthy(Get(form, "finishDate")) && Truthy(Get(form, "finishTime"))
    ensures finish >= loadIn ==>
              exists d: nat :: Get(RentalDaysEffect(form, Some(loadIn), Some(finish)), "rentalDays") == Num(d as real) &&
                               finish - loadIn <= d * DAY && (d > 0 ==> (d - 1) * DAY < finish - loadIn) &&
                               (d == 0 <==> finish == loadIn)
    ensures finish < loadIn ==> RentalDaysEffect(form, Some(loadIn), Some(finish)) == form
  {
    if finish >= loadIn {
      var d := CeilDays(finish - loadIn);
      assert Get(RentalDaysEffect(form, Some(loadIn), Some(finish)), "rentalDays") == Num(d as real);
    }
  }

  /** A missing field or an invalid moment leaves the form as it was. */
  lemma IncompleteKeepsForm(form: Obj, loadIn: Option<int>, finish: Option<int>)
    requires !Truthy(Get(form, "loadInDate")) || !Truthy(Get(form, "loadInTime")) ||
             !Truthy(Get(form, "finishDate")) || !Truthy(Get(form, "finishTime")) ||
             loadIn.None? || finish.None?
    ensures RentalDaysEffect(form, loadIn, finish) == form
  {
  }

  /** The span runs from load-in, not from the event start: the start fields
      play no part in the result. */
  lemma StartDateIgnored(form: Obj, loadIn: Option<int>, finish: Option<int>, v: Value, w: Value)
    ensures Get(RentalDaysEffect(Set(Set(form, "startDate", v), "startTime", w), loadIn, finish), "rentalDays") ==
            Get(RentalDaysEffect(form, loadIn, finish), "rentalDays")
  {
  }

  /** A span of any part of a day is one day; a whole number of days is
      exactly that many. */
  lemma CeilDaysExamples()
    ensures CeilDays(1) == 1 && CeilDays(DAY) == 1 && CeilDays(DAY + 1) == 2 && CeilDays(3 * DAY) == 3
  {
  }

  /** The two day counts of the wizard disagree on a same-day event: this
      effect writes 0 for a load-in at the finish moment, while the product
      picker shows 1 for equal start and finish dates. */
  lemma DayCountsDisagree(form: Obj, t: int, date: string, day: int)
    requires Truthy(Get(form, "loadInDate")) && Truthy(Get(form, "loadInTime"))
    requires Truthy(Get(form, "finishDate")) && Truthy(Get(form, "finishTime"))
    requires date != ""
    ensures Get(RentalDaysEffect(form, Some(t), Some(t)), "rentalDays") == Num(0.0)
    ensures ProductSelection.RentalDays(date, date, day, day) == 1
  {
  }
}
