/**
 * The form's validator: three zod number schemas and the per-field checks of `validateDate`
 * (src/pages/index.tsx). Each field is judged on its own; there is no calendar check.
 */
module Validation {
  import opened Wrappers

  /**
   * A `z.number().int().min(min).max(max)` schema. Its inputs come from `parseInt`, whose
   * non-NaN results are integers or +/-Infinity; +/-Infinity fails `.int()` and the bounds alike,
   * so the bounds alone decide.
   */
  datatype NumberSchema = NumberSchema(min: int, max: int)

  /**
   * `schema.safeParse(n).success` for an integer `n`: neither the `min` check (which fails
   * below the bound) nor the `max` check (which fails above it) rejects `n`.
   */
  predicate Accepts(schema: NumberSchema, n: int): (ok: bool)
    ensures ok <==> !(n < schema.min) && !(n > schema.max)
  {
    schema.min <= n <= schema.max
  }

  const DaySchema := NumberSchema(1, 31)
  const MonthSchema := NumberSchema(1, 12)
  const YearSchema := NumberSchema(1925, 2023)

  const Required := "This field is required"
  const InvalidDay := "Must be a valid day"
  const InvalidMonth := "Must be a valid month"
  const NotInPast := "Must be in the past"

  /** JavaScript truthiness of a parsed number: NaN (`None`) and 0 are falsy, everything else truthy. */
  predicate Truthy(v: Option<int>): (t: bool)
    ensures !t <==> v == None || v == Some(0)
  {
    v.Some? && v.value != 0
  }

  /**
   * The error one field gets: "This field is required" when the value is falsy, otherwise
   * "" when the schema accepts it and the field's own range message when it does not.
   */
  function FieldError(v: Option<int>, schema: NumberSchema, rangeMessage: string): (e: string)
    requires rangeMessage != "" && rangeMessage != Required
    ensures e == Required <==> !Truthy(v)
    ensures e == "" <==> Truthy(v) && Accepts(schema, v.value)
    ensures e == rangeMessage <==> Truthy(v) && !Accepts(schema, v.value)
  {
    if !Truthy(v) then Required
    else if Accepts(schema, v.value) then ""
    else rangeMessage
  }

  /** The three parsed inputs of the form. */
  datatype Inputs = Inputs(day: Option<int>, month: Option<int>, year: Option<int>)

  /** The three error strings; "" means the field is fine. */
  datatype Errors = Errors(day: string, month: string, year: string) {
    predicate AllClear() {
      day == "" && month == "" && year == ""
    }
  }

  /** The errors `validateDate` writes for the given inputs. */
  function ErrorsFor(i: Inputs): (e: Errors)
    ensures e.AllClear() <==>
      Truthy(i.day) && Accepts(DaySchema, i.day.value) &&
      Truthy(i.month) && Accepts(MonthSchema, i.month.value) &&
      Truthy(i.year) && Accepts(YearSchema, i.year.value)
  {
    Errors(FieldError(i.day, DaySchema, InvalidDay),
           FieldError(i.month, MonthSchema, InvalidMonth),
           FieldError(i.year, YearSchema, NotInPast))
  }

  /** Each field's error is a function of that field alone. */
  lemma FieldsIndependent(i: Inputs, j: Inputs)
    ensures i.day == j.day ==> ErrorsFor(i).day == ErrorsFor(j).day
    ensures i.month == j.month ==> ErrorsFor(i).month == ErrorsFor(j).month
    ensures i.year == j.year ==> ErrorsFor(i).year == ErrorsFor(j).year
  {
  }

  /**
   * Every triple with day in 1..31, month in 1..12 and year in 1925..2023 is accepted,
   * whether or not it is a calendar date (31 February passes).
   */
  lemma InRangeAccepted(day: int, month: int, year: int)
    requires 1 <= day <= 31 && 1 <= month <= 12 && 1925 <= year <= 2023
    ensures ErrorsFor(Inputs(Some(day), Some(month), Some(year))) == Errors("", "", "")
  {
  }

  /** A negative number is truthy, so it gets the range message and not "required". */
  lemma NegativeIsRangeError(day: int, month: int, year: int)
    requires day < 0 && month < 0 && year < 0
    ensures ErrorsFor(Inputs(Some(day), Some(month), Some(year))) == Errors(InvalidDay, InvalidMonth, NotInPast)
  {
  }

  /** Zero and NaN are both "required", never a range error. */
  lemma ZeroAndBlankAreRequired(z: Option<int>)
    requires z == None || z == Some(0)
    ensures ErrorsFor(Inputs(z, z, z)) == Errors(Required, Required, Required)
  {
  }

  /** The values just outside each range get that field's range message. */
  lemma BoundaryMessages()
    ensures ErrorsFor(Inputs(Some(32), Some(13), Some(1924))) == Errors(InvalidDay, InvalidMonth, NotInPast)
    ensures ErrorsFor(Inputs(Some(0), Some(1), Some(2024))) == Errors(Required, "", NotInPast)
    ensures ErrorsFor(Inputs(Some(31), Some(2), Some(2023))).AllClear()
  {
  }
}
