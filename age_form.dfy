/**
 * The state of the age calculator page (the `useState` fields of `Home` in src/pages/index.tsx)
 * and how input changes and submits move it. `FormState` and `Step` are the specification;
 * class `Home` holds the same fields and its methods are proved against `Step`.
 */
module AgeForm {
  import opened Wrappers
  import opened Validation

  /** The three numbers the page shows: years, months and days of age. */
  datatype Age = Age(years: int, months: int, days: int)

  /**
   * What `calculateAge` computes for the current inputs at the moment of a submit: it formats
   * `${year}-${month}-${day}`, lets the JavaScript engine parse it, subtracts it from the clock and
   * reads the UTC fields of the difference. None of that is in the page's source, so a submit receives
   * it as a function.
   */
  type AgeOf = Inputs -> Age

  datatype FormState = FormState(inputs: Inputs, errors: Errors, results: Age, formSubmitted: bool)

  /** Every `useState` starts at 0, "" or false. */
  const Initial := FormState(Inputs(Some(0), Some(0), Some(0)), Errors("", "", ""), Age(0, 0, 0), false)

  /** What the user can do: change one input (already parsed) or submit the form. */
  datatype Event =
    | DayChanged(day: Option<int>)
    | MonthChanged(month: Option<int>)
    | YearChanged(year: Option<int>)
    | Submitted(ageOf: AgeOf)

  /**
   * `handleSubmit`: the errors are always rewritten from the inputs; only when all are clear
   * does `calculateAge` set `formSubmitted` and store new results.
   */
  function Submit(s: FormState, ageOf: AgeOf): (r: FormState)
    ensures r.inputs == s.inputs
    ensures r.errors == ErrorsFor(s.inputs)
    ensures r.errors.AllClear() ==> r.formSubmitted && r.results == ageOf(s.inputs)
    ensures !r.errors.AllClear() ==> r.formSubmitted == s.formSubmitted && r.results == s.results
  {
    var errors := ErrorsFor(s.inputs);
    if errors.AllClear() then FormState(s.inputs, errors, ageOf(s.inputs), true)
    else s.(errors := errors)
  }

  /** One event. `formSubmitted` is never reset, and an input change touches only its input. */
  function Step(s: FormState, e: Event): (r: FormState)
    ensures s.formSubmitted ==> r.formSubmitted
    ensures e.DayChanged? ==> r.inputs == s.inputs.(day := e.day)
    ensures e.MonthChanged? ==> r.inputs == s.inputs.(month := e.month)
    ensures e.YearChanged? ==> r.inputs == s.inputs.(year := e.year)
    ensures !e.Submitted? ==> r.errors == s.errors && r.results == s.results && r.formSubmitted == s.formSubmitted
  {
    match e
    case DayChanged(v) => s.(inputs := s.inputs.(day := v))
    case MonthChanged(v) => s.(inputs := s.inputs.(month := v))
    case YearChanged(v) => s.(inputs := s.inputs.(year := v))
    case Submitted(ageOf) => Submit(s, ageOf)
  }

  /** The state after a sequence of events. */
  function Run(s: FormState, events: seq<Event>): (r: FormState)
    decreases |events|
  {
    if events == [] then s
    else Step(Run(s, events[..|events| - 1]), events[|events| - 1])
  }

  /** Event `i` of the run is a submit that passes validation. */
  predicate AcceptedAt(s: FormState, events: seq<Event>, i: int)
    requires 0 <= i < |events|
  {
    events[i].Submitted? && ErrorsFor(Run(s, events[..i]).inputs).AllClear()
  }

  lemma PrefixOfPrefix(events: seq<Event>, i: int)
    requires 0 <= i < |events|
    ensures events[..|events| - 1][..i] == events[..i]
  {
  }

  /** Once `formSubmitted` is true it stays true, whatever happens next. */
  lemma {:induction false} SubmittedStaysSubmitted(s: FormState, events: seq<Event>)
    requires s.formSubmitted
    ensures Run(s, events).formSubmitted
    decreases |events|
  {
    if events != [] {
      SubmittedStaysSubmitted(s, events[..|events| - 1]);
    }
  }

  /** After a run, `formSubmitted` holds exactly when it held before or some submit passed validation. */
  lemma {:induction false} SubmittedIffAccepted(s: FormState, events: seq<Event>)
    ensures Run(s, events).formSubmitted <==>
      s.formSubmitted || exists i :: 0 <= i < |events| && AcceptedAt(s, events, i)
    decreases |events|
  {
    if events != [] {
      var n := |events| - 1;
      var front := events[..n];
      SubmittedIffAccepted(s, front);
      assert front == events[..n];
      forall i | 0 <= i < n
        ensures AcceptedAt(s, front, i) <==> AcceptedAt(s, events, i)
      {
        PrefixOfPrefix(events, i);
      }
      if Run(s, events).formSubmitted && !Run(s, front).formSubmitted {
        assert AcceptedAt(s, events, n);
      }
    }
  }

  /** A run without an accepted submit leaves `formSubmitted` and the results as they were. */
  lemma {:induction false} RejectedRunKeepsResults(s: FormState, events: seq<Event>)
    requires forall i :: 0 <= i < |events| ==> !AcceptedAt(s, events, i)
    ensures Run(s, events).formSubmitted == s.formSubmitted
    ensures Run(s, events).results == s.results
    decreases |events|
  {
    if events != [] {
      var n := |events| - 1;
      forall i | 0 <= i < n
        ensures !AcceptedAt(s, events[..n], i)
      {
        PrefixOfPrefix(events, i);
        assert !AcceptedAt(s, events, i);
      }
      RejectedRunKeepsResults(s, events[..n]);
      assert !AcceptedAt(s, events, n);
    }
  }

  /** The results on show are the ones computed at the last submit that passed validation. */
  lemma {:induction false} ResultsOfLastAccepted(s: FormState, events: seq<Event>, k: int)
    requires 0 <= k < |events| && AcceptedAt(s, events, k)
    requires forall j :: k < j < |events| ==> !AcceptedAt(s, events, j)
    ensures Run(s, events).formSubmitted
    ensures Run(s, events).results == events[k].ageOf(Run(s, events[..k]).inputs)
    decreases |events|
  {
    var n := |events| - 1;
    if k < n {
      PrefixOfPrefix(events, k);
      forall j | k < j < n
        ensures !AcceptedAt(s, events[..n], j)
      {
        PrefixOfPrefix(events, j);
        assert !AcceptedAt(s, events, j);
      }
      ResultsOfLastAccepted(s, events[..n], k);
      assert !AcceptedAt(s, events, n);
    } else {
      assert events[..n] == events[..k];
    }
  }

  /** Submitting the same inputs twice (same clock) leaves the same state as submitting once. */
  lemma SubmitIdempotent(s: FormState, ageOf: AgeOf)
    ensures Submit(Submit(s, ageOf), ageOf) == Submit(s, ageOf)
  {
  }

  /** The errors a submit leaves do not depend on the errors, results or flag before it. */
  lemma SubmitOverwritesErrors(s: FormState, t: FormState, ageOf: AgeOf)
    requires s.inputs == t.inputs
    ensures Submit(s, ageOf).errors == Submit(t, ageOf).errors
  {
  }

  /** One result cell: the "--" placeholder, or a `CountUp` animating to `end`. */
  datatype Cell = Placeholder | Count(end: int)

  datatype Display = Display(years: Cell, months: Cell, days: Cell)

  /** The result area: "--" in each cell until the form has been submitted, then the results. */
  function DisplayOf(s: FormState): (d: Display)
    ensures d.years == Placeholder <==> !s.formSubmitted
    ensures d.months == Placeholder <==> !s.formSubmitted
    ensures d.days == Placeholder <==> !s.formSubmitted
    ensures s.formSubmitted ==>
      d.years.end == s.results.years && d.months.end == s.results.months && d.days.end == s.results.days
  {
    if !s.formSubmitted then Display(Placeholder, Placeholder, Placeholder)
    else Display(Count(s.results.years), Count(s.results.months), Count(s.results.days))
  }

  /**
   * From the page's first render, all three cells show "--" exactly until a submit passes
   * validation, and from then on they show the stored results.
   */
  lemma PlaceholderUntilAccepted(events: seq<Event>)
    ensures var r := Run(Initial, events).results;
      DisplayOf(Run(Initial, events)) ==
        if forall i :: 0 <= i < |events| ==> !AcceptedAt(Initial, events, i)
        then Display(Placeholder, Placeholder, Placeholder)
        else Display(Count(r.years), Count(r.months), Count(r.days))
  {
    SubmittedIffAccepted(Initial, events);
  }

  /** The `Home` component's state, one field per `useState`. */
  class Home {
    var day: Option<int>
    var month: Option<int>
    var year: Option<int>
    var dayError: string
    var monthError: string
    var yearError: string
    var daysResult: int
    var monthsResult: int
    var yearsResult: int
    var formSubmitted: bool

    function State(): (s: FormState)
      reads this
    {
      FormState(Inputs(day, month, year), Errors(dayError, monthError, yearError),
                Age(yearsResult, monthsResult, daysResult), formSubmitted)
    }

    constructor ()
      ensures State() == Initial
    {
      day, month, year := Some(0), Some(0), Some(0);
      dayError, monthError, yearError := "", "", "";
      daysResult, monthsResult, yearsResult := 0, 0, 0;
      formSubmitted := false;
    }

    /** The day input's `onChange`, given the already parsed value. */
    method SetDay(v: Option<int>)
      modifies this`day
      ensures State() == Step(old(State()), DayChanged(v))
    {
      day := v;
    }

    method SetMonth(v: Option<int>)
      modifies this`month
      ensures State() == Step(old(State()), MonthChanged(v))
    {
      month := v;
    }

    method SetYear(v: Option<int>)
      modifies this`year
      ensures State() == Step(old(State()), YearChanged(v))
    {
      year := v;
    }

    /**
     * `validateDate`: writes all three error fields from its arguments and reports whether
     * none of them holds an error.
     */
    method ValidateDate(day: Option<int>, month: Option<int>, year: Option<int>) returns (isValid: bool)
      modifies this`dayError, this`monthError, this`yearError
      ensures Errors(dayError, monthError, yearError) == ErrorsFor(Inputs(day, month, year))
      ensures isValid <==> dayError == "" && monthError == "" && yearError == ""
    {
      isValid := true;

      if !Truthy(day) {
        dayError := Required;
        isValid := false;
      } else {
        var dayOk := Accepts(DaySchema, day.value);
        dayError := if dayOk then "" else InvalidDay;
        if !dayOk { isValid := false; }
      }

      if !Truthy(month) {
        monthError := Required;
        isValid := false;
      } else {
        var monthOk := Accepts(MonthSchema, month.value);
        monthError := if monthOk then "" else InvalidMonth;
        if !monthOk { isValid := false; }
      }

      if !Truthy(year) {
        yearError := Required;
        isValid := false;
      } else {
        var yearOk := Accepts(YearSchema, year.value);
        yearError := if yearOk then "" else NotInPast;
        if !yearOk { isValid := false; }
      }
    }

    /** The state effects of `calculateAge`: mark the form submitted and store the three numbers. */
    method CalculateAge(ageOf: AgeOf)
      modifies this`formSubmitted, this`daysResult, this`monthsResult, this`yearsResult
      ensures formSubmitted
      ensures Age(yearsResult, monthsResult, daysResult) == ageOf(Inputs(day, month, year))
    {
      var age := ageOf(Inputs(day, month, year));
      formSubmitted := true;
      daysResult := age.days;
      monthsResult := age.months;
      yearsResult := age.years;
    }

    /** `handleSubmit`: validate the current inputs and, only if they pass, compute the age. */
    method HandleSubmit(ageOf: AgeOf)
      modifies this
      ensures State() == Submit(old(State()), ageOf)
    {
      var valid := ValidateDate(day, month, year);
      if valid {
        CalculateAge(ageOf);
      }
    }
  }
}
