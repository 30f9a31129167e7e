# Age calculator form: validation and submit gate

This project models the logic of the single page of the age calculator app
(`src/pages/index.tsx`): the three zod number schemas, `validateDate`, which checks
day, month and year each on its own and writes one error string per field, and
`handleSubmit`, which runs `calculateAge` only when validation passes. The page's
`useState` fields are the class `AgeForm.Home`. The pure specification of the same state is
`AgeForm.FormState` with `AgeForm.Step`, and the class's methods are proved against it.

- `wrappers.dfy`: `Option`. A parsed input is an `Option<int>`, where `None` stands for the
  NaN that `parseInt` returns for a blank field.
- `validation.dfy`: the schemas (day 1..31, month 1..12, year 1925..2023) and JavaScript
  truthiness (NaN and 0 are falsy). `FieldError` gives one field's message:
  "This field is required", "" or the field's own range message. `ErrorsFor` applies it to all
  three fields.
- `age_form.dfy`: the page state and the events that change it (an input changes, or a submit).
  `Run` folds a sequence of events. Lemmas over runs show three things:
  - `formSubmitted` never goes back to false.
  - It is true exactly when some submit passed validation.
  - The results on show are those of the last submit that passed.

  The class `Home` has the ten `useState` fields and the methods `SetDay`, `SetMonth`,
  `SetYear`, `ValidateDate`, `CalculateAge` and `HandleSubmit`.

The date arithmetic of `calculateAge` is not modelled. A submit receives it as a function
`AgeOf` from the inputs to the three numbers. That function stands for the engine's parsing of
`${year}-${month}-${day}`, the clock reading at that moment and the UTC field extraction.
The model proves that exactly these numbers are stored, and only when validation passes.

`calculateAge` takes the days result from `getUTCDate` (src/pages/index.tsx:31), which is
1-based, so the stored days result is 1..31 or NaN, never 0.

## Model

| member | source | states |
|---|---|---|
| Validation.Accepts | src/pages/index.tsx:7-9 | the definition the other contracts are written in: a schema's `safeParse` succeeds exactly when the number lies within its inclusive `min` and `max` |
| Validation.Truthy | src/pages/index.tsx:41 | the definition the other contracts are written in: a parsed number is falsy exactly when it is NaN or 0 (the same test at lines 50 and 59) |
| Validation.FieldError | src/pages/index.tsx:41-66 | a field gets "This field is required" exactly when it is 0 or NaN; "" exactly when it is nonzero and inside its schema's inclusive bounds; its own range message exactly when it is nonzero and outside them |
| Validation.ErrorsFor | src/pages/index.tsx:38-69 | all three errors are empty exactly when day is a nonzero value in 1..31, month a nonzero value in 1..12 and year a nonzero value in 1925..2023 |
| Validation.FieldsIndependent | src/pages/index.tsx:38-69 | each field's error depends only on that field's input |
| Validation.InRangeAccepted | src/pages/index.tsx:38-69 | every in-range triple passes with three empty errors, including ones that are not calendar dates (31 February) |
| Validation.NegativeIsRangeError | src/pages/index.tsx:41-46 | negative values are truthy and get the range messages, not "required" |
| Validation.ZeroAndBlankAreRequired | src/pages/index.tsx:41-43 | 0 and NaN both give "This field is required" in every field |
| Validation.BoundaryMessages | src/pages/index.tsx:45-64 | 32, 13 and 1924 get "Must be a valid day", "Must be a valid month" and "Must be in the past"; 2024 is "Must be in the past"; 31/2/2023 passes |
| AgeForm.Submit | src/pages/index.tsx:71-76 | a submit keeps the inputs and rewrites all three errors from them; if they are all clear it sets formSubmitted and stores ageOf(inputs); otherwise formSubmitted and the results are unchanged |
| AgeForm.Step | src/pages/index.tsx:71-76 | one event, a submit or an input change (the `onChange` setters at lines 105, 127 and 149): an input change sets exactly its own input and leaves the other inputs, the errors, the results and formSubmitted as they were; no event resets formSubmitted |
| AgeForm.SubmittedStaysSubmitted | src/pages/index.tsx:32 | once formSubmitted is true, it is true after any sequence of events |
| AgeForm.SubmittedIffAccepted | src/pages/index.tsx:71-76 | after a run, formSubmitted holds exactly when it held before or some submit in the run passed validation |
| AgeForm.RejectedRunKeepsResults | src/pages/index.tsx:73-75 | a run in which no submit passes validation leaves formSubmitted and the three results unchanged |
| AgeForm.ResultsOfLastAccepted | src/pages/index.tsx:32-35 | after a run, the results are those that the last validated submit computed from the inputs of its moment |
| AgeForm.SubmitIdempotent | src/pages/index.tsx:38-76 | submitting twice with the same inputs and clock leaves the same state as submitting once |
| AgeForm.SubmitOverwritesErrors | src/pages/index.tsx:41-66 | the errors after a submit depend only on the inputs, not on any earlier errors, results or flag |
| AgeForm.PlaceholderUntilAccepted | src/pages/index.tsx:177-199 | from the first render, each result cell shows "--" until a submit passes validation, and the stored results after that |
| AgeForm.DisplayOf | src/pages/index.tsx:177-199 | each result cell shows "--" exactly when formSubmitted is false; once it is true, the cells animate to the stored years, months and days |
| AgeForm.Home.constructor | src/pages/index.tsx:12-21 | the initial state: inputs 0, empty errors, results 0, formSubmitted false |
| AgeForm.Home.SetDay | src/pages/index.tsx:105 | only the day input changes |
| AgeForm.Home.SetMonth | src/pages/index.tsx:127 | only the month input changes |
| AgeForm.Home.SetYear | src/pages/index.tsx:149 | only the year input changes |
| AgeForm.Home.ValidateDate | src/pages/index.tsx:38-69 | writes the three error fields as ErrorsFor gives them and returns true exactly when all three are empty; nothing else changes |
| AgeForm.Home.CalculateAge | src/pages/index.tsx:23-36 | sets formSubmitted and stores the host-computed age of the current inputs; nothing else changes |
| AgeForm.Home.HandleSubmit | src/pages/index.tsx:71-76 | the new state is Submit of the old state |

## Left out

- The date arithmetic of `calculateAge` (src/pages/index.tsx:25-31). It relies on three things
  outside the page's source: how the engine parses the non-ISO string `${year}-${month}-${day}`
  under `Date.parse` (section 21.4.3.2 of ECMA-262), the wall clock, and the millisecond-to-UTC
  calendar conversion. It is a parameter `AgeOf`.
- AgeForm.Home.CalculateAge: the results are `int`s, so a NaN result cannot be stored. That happens
  when the engine rejects the date string, which it may do for a day that is not in its month.
- The `onChange` handlers' `parseInt` (src/pages/index.tsx:105, 127, 149). The setters take
  already parsed values. An input `parseInt` turns into Infinity is out of range in the source
  too; the model has an unbounded integer in its place, which gets the same message.
- The internals of zod. Only the inclusive `min`/`max` bounds are modelled. The non-NaN results
  of `parseInt` are integers or +/-Infinity; +/-Infinity fails `.int()` and the bounds alike, so
  the bounds alone decide. NaN never reaches a schema because it is falsy.
- React's deferred state updates. The setters apply at once in the model. Within one handler,
  nothing reads a field after setting it, so the state at the end of the handler is the same.
- `e.preventDefault()` (src/pages/index.tsx:24, 72) is not modelled as such. It cancels the
  browser's own form submission, which would reload the page and put every `useState` field back
  to its initial value. The model keeps its state from one submit to the next, which matches the
  page only because of this call.
- The browser's constraint validation of the `type="number"` inputs with `min`/`max`
  (src/pages/index.tsx:101-104, 123-126, 145-148; the form at line 89 has no `noValidate`). The
  browser cancels the submit for values such as day "32", "0" or "1.5", so `handleSubmit` never
  runs for them. In the model a submit can happen with any inputs, so its runs are a superset of
  those a browser produces, and every proved property still holds on the browser's runs. On the
  page, the range messages and the "required" message for 0 appear only for inputs the browser
  accepts and `parseInt` reads differently (year "2.02e3" becomes 2, for example).
- The JSX layout, Next.js `Head`/`Image`, the `CountUp` animation and the error-dependent CSS
  classes: these are presentation only.
- tailwind.config.ts: styling configuration with no logic.
