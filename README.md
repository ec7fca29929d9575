# Fortune calculator: a Dafny model

This project models the interactive part of a fortune-telling landing page:

- **The calculator form** (`FortuneCalculator`). It keeps four state cells: the
  name, an optional birthdate, whether the report is shown, and whether a
  calculation is running. The calculate handler checks the name and birthdate.
  It then starts the spinner and schedules a deferred completion. That
  completion calls the `onCalculate` callback, shows the report and stops the
  spinner. The reset handler only hides the report.
- **The report card** (`FortuneResult`). This part is pure. A fixed table maps
  each of five rating tiers to its profile: label, colours, icon and
  description. The score is shown as text and as a progress value. The
  recommendations are split into a "do" column and an "avoid" column.
- **The testimonial cards** (`Testimonials`). A row of five stars, where star
  `i` is filled when `i < rating`. The avatar's fallback is the name's first
  character.

Modules:

- `Wrappers`: the `Option` type. It stands for JavaScript's `T | undefined` and
  for omitted props.
- `NumberText`: how an integer score is written as text. It comes with its
  parser and a proof that the two round-trip.
- `Recommendations`: a recommendation, and the filter that builds the "do" and
  "avoid" columns, with the proofs that it keeps order and partitions the input.
- `FortuneResult`: the rating table, the props and their defaults, and
  `Render`.
- `Testimonials`: the star row, the fallback initial, and the default
  testimonials.
- `FortuneCalculator`: the class `Calculator`. Its fields are the four state
  cells, plus two more:
  - `timers`: the completions scheduled and not yet run, oldest first. Each one
    holds the name and birthdate its closure captured.
  - `calls`: the log of `onCalculate` invocations.

  The deferred completion is the explicit step `FireTimer`.

How the model treats things outside the code:

- The 1500 ms delay is not modelled. The environment decides when `FireTimer`
  runs, and `FireTimer` requires that a completion is scheduled.
- The current moment is a parameter of `SelectDate`.
- The date formatter (`format(birthdate, "yyyy-MM-dd")`) is a function
  parameter of `Render`.

Two predicates describe the calculator's state:

- `Calculator.Valid()` holds after every operation.
- `Calculator.SingleFlight()` is kept by every operation except the raw
  `HandleCalculate`: `PressCalculate`, `FireTimer`, `HandleReset`,
  `PressReset`, `SetName` and `SelectDate`. These are the events the page can
  produce. `SingleFlight()` says that at most one completion is pending, and
  only while the spinner shows.

Behaviour of the code a reader might not expect:

- The calculate handler does not check `isCalculating`. Only the button's
  `disabled` does that. A second direct call schedules a second completion,
  which `CalculateTwiceUnguarded` shows.
- Reset only hides the report. Nothing is discarded, and nothing stops a
  pending completion.
- There is no engine, no failure path and no timeout. The report always shows
  the default mock data, under the current name and birthdate (see
  `ResultIsDefaultReport`).
- The score is not clamped to 0..100.
- A name is not trimmed.
- The name field stays editable while a calculation runs. `onCalculate` gets
  the name captured at the click, but the report shows the edited name (see
  `EditWhilePending`).

## Model

| member | source | states |
|---|---|---|
| `FortuneCalculator.Calculator.constructor` | src/components/FortuneCalculator.tsx:19-29 | name is `initialName` or "", birthdate is `initialBirthdate` or 1 January 1990, report hidden, not calculating, nothing scheduled or called |
| `FortuneCalculator.Accepts` | src/components/FortuneCalculator.tsx:32 | the submit guard holds iff the name is non-empty and a birthdate is present |
| `FortuneCalculator.AcceptsUntrimmedName` | src/components/FortuneCalculator.tsx:32 | the guard tests only that the name is non-empty and a birthdate is present; a name of blanks passes |
| `FortuneCalculator.DayDisabled` | src/components/FortuneCalculator.tsx:104 | the current moment itself is never disabled, and a disabled day is never before now (that a later day is refused is stated by `SelectDate`) |
| `FortuneCalculator.Calculator.ButtonEnabled` | src/components/FortuneCalculator.tsx:118 | the button is enabled iff the handler's guard holds and no calculation is running |
| `FortuneCalculator.Calculator.Render` | src/components/FortuneCalculator.tsx:48-172 | the report card is shown iff `showResult`; the form shows the button's enabled state and the spinner iff calculating |
| `FortuneCalculator.Calculator.SetName` | src/components/FortuneCalculator.tsx:74-75 | the name becomes the input text verbatim; nothing else changes |
| `FortuneCalculator.Calculator.SelectDate` | src/components/FortuneCalculator.tsx:99-105 | a day after the current moment never becomes the birthdate; any other pick, or a deselection, replaces it; nothing else changes |
| `FortuneCalculator.Calculator.HandleCalculate` | src/components/FortuneCalculator.tsx:31-42 | with an empty name or no birthdate nothing changes; otherwise the spinner starts and one completion holding the current name and birthdate is scheduled; the report view, name, birthdate and callback log are untouched |
| `FortuneCalculator.Calculator.FireTimer` | src/components/FortuneCalculator.tsx:37-41 | the oldest completion calls `onCalculate` exactly once with its captured request, then the report shows and the spinner stops |
| `FortuneCalculator.Calculator.HandleReset` | src/components/FortuneCalculator.tsx:44-46 | the report is hidden; name, birthdate, spinner and pending completions are unchanged |
| `FortuneCalculator.Calculator.PressCalculate` | src/components/FortuneCalculator.tsx:115-118 | from the idle form with the button enabled, the phase becomes pending and one request is scheduled; from any other phase nothing is scheduled and the phase stays |
| `FortuneCalculator.Calculator.PressReset` | src/components/FortuneCalculator.tsx:166-168 | the report is always hidden afterwards; from the settled report the phase returns to idle, keeping the draft, and a pending completion stays pending |
| `FortuneCalculator.CalculateThenReset` | src/components/FortuneCalculator.tsx:31-46 | a full cycle through the buttons calls `onCalculate` once with the typed name and default birthdate, and ends at the idle form with the draft kept |
| `FortuneCalculator.CalculateTwiceUnguarded` | src/components/FortuneCalculator.tsx:31-42 | two direct calls of the handler schedule two completions, so `onCalculate` runs twice |
| `FortuneCalculator.EditWhilePending` | src/components/FortuneCalculator.tsx:37-41 | `onCalculate` gets the name captured at the click, while the report shows the name typed since |
| `FortuneCalculator.ResultIsDefaultReport` | src/components/FortuneCalculator.tsx:162-165 | the card gets the current name and formatted birthdate ("" when absent); tier, score, recommendations and interpretation are the defaults |
| `FortuneCalculator.ResultArgs` | src/components/FortuneCalculator.tsx:162-165 | the card gets the name and the formatted birthdate ("" when absent); tier, score, recommendations and interpretation are left to the card's defaults |
| `FortuneResult.KeyRoundTrip` | src/components/FortuneResult.tsx:25-30 | the five tier keys and the tiers correspond one to one, in both directions |
| `FortuneResult.LookupProfile` | src/components/FortuneResult.tsx:40-76 | a key finds a profile iff it is one of the five tier keys |
| `FortuneResult.Profile` | src/components/FortuneResult.tsx:112 | the profile shown for a tier is the table's entry under its key |
| `FortuneResult.RatingConfigTotal` | src/components/FortuneResult.tsx:40-76 | every tier has an entry, every entry belongs to a tier, and there are exactly five |
| `FortuneResult.ProfileLabels` | src/components/FortuneResult.tsx:41-75 | labels are great 大吉, good 小吉, neutral 中平, bad 小凶, terrible 大凶, and each label reads back as its own tier |
| `FortuneResult.ProfileLabelsDistinct` | src/components/FortuneResult.tsx:41-75 | two tiers with the same label are the same tier |
| `Recommendations.Column` | src/components/FortuneResult.tsx:176-178 | a column is no longer than the input and holds only items of its kind |
| `Recommendations.ColumnMembers` | src/components/FortuneResult.tsx:176-200 | an item is in a column iff it is a recommendation of that column's kind |
| `Recommendations.ColumnAppend` | src/components/FortuneResult.tsx:176-200 | filtering a concatenation is the concatenation of the filtered parts |
| `Recommendations.ColumnOfOneKind` | src/components/FortuneResult.tsx:176-200 | items all of one kind fill that column and leave the other empty |
| `Recommendations.ColumnPosition` | src/components/FortuneResult.tsx:176-200 | the item at index `i` sits in its column right after the earlier items of its kind |
| `Recommendations.ColumnOrder` | src/components/FortuneResult.tsx:176-200 | of two items of one kind, the earlier comes first in the column |
| `Recommendations.ColumnsMultiset` | src/components/FortuneResult.tsx:176-200 | the two columns together are the input, counted with multiplicity |
| `Recommendations.ColumnsPartition` | src/components/FortuneResult.tsx:176-200 | the two columns together hold exactly the input as a multiset, their lengths sum to its length, every item is in exactly one |
| `FortuneResult.DefaultReport` | src/components/FortuneResult.tsx:78-111 | with no props the report is tier good-fortune, score 78, three "do" items followed by two "avoid" items |
| `FortuneResult.WithDefaults` | src/components/FortuneResult.tsx:78-111 | each prop the caller passes is used as given; each missing prop takes its default value |
| `FortuneResult.RenderShowsScore` | src/components/FortuneResult.tsx:160-162 | the score text reads back as the score, and the progress value is the score, unclamped |
| `FortuneResult.Render` | src/components/FortuneResult.tsx:112-211 | the badge label identifies the rating tier, the progress value is the score, and the two columns together hold as many items as the recommendations |
| `FortuneResult.RenderShowsIdentity` | src/components/FortuneResult.tsx:127 | the header starts with the name and ends with the birthdate, verbatim |
| `FortuneResult.RenderShowsRating` | src/components/FortuneResult.tsx:112-155 | badge label, badge colour, headline and its colour are the tier's table entry |
| `FortuneResult.RenderColumnsPartition` | src/components/FortuneResult.tsx:176-211 | the rendered columns partition the recommendations by kind |
| `FortuneResult.RenderExample` | src/components/FortuneResult.tsx:112-211 | a good-fortune report scored 78 with one item of each kind shows 小吉, "78/100" and one entry per column |
| `NumberText.NatToText` | src/components/FortuneResult.tsx:160 | a numeral is a non-empty digit string with no leading zero |
| `NumberText.NatToTextRoundTrip` | src/components/FortuneResult.tsx:160 | a numeral's digit value is the number written |
| `NumberText.IntToText` | src/components/FortuneResult.tsx:160 | the text is non-empty and starts with '-' iff the number is negative |
| `NumberText.IntToTextRoundTrip` | src/components/FortuneResult.tsx:160 | parsing the text gives back the number |
| `NumberText.IntToTextInjective` | src/components/FortuneResult.tsx:160 | different scores are shown as different texts |
| `Testimonials.StarRating` | src/components/TestimonialsSection.tsx:21-33 | a rating row has exactly five stars |
| `Testimonials.StarFilledIff` | src/components/TestimonialsSection.tsx:24-28 | star `i` is filled iff `i < rating`, so the filled stars form a prefix |
| `Testimonials.CountFilledPrefix` | src/components/TestimonialsSection.tsx:24-28 | a row whose filled stars are exactly its first `m` has `m` filled stars |
| `Testimonials.FilledCountIsClamped` | src/components/TestimonialsSection.tsx:24-28 | the number of filled stars is the rating clamped to 0..5 |
| `Testimonials.AvatarFallback` | src/components/TestimonialsSection.tsx:62 | the fallback is the name's first character, or "" for an empty name |
| `Testimonials.DefaultStars` | src/components/TestimonialsSection.tsx:77-102 | the three default testimonials show 5, 4 and 5 filled stars |

## Left out

- Layout, CSS classes, animations, icons and the widget library (card,
  popover, calendar, progress bar). These are presentation only. The profile
  table's `icon` is kept as data, though the card never renders it.
- The other page sections, DOM scrolling, navigation and the header menu
  toggle. They have no logic beyond static content.
- The 1500 ms delay and the clock. Time enters only as the `now` given to
  `SelectDate`. When a completion fires is up to the caller of `FireTimer`.
- The date library's `format`. It is a function parameter, not a definition.
- Calendar dates as real dates. `LocalTime` is a plain (year, month index, day,
  millisecond) record ordered lexicographically. JavaScript's normalisation of
  out-of-range fields is not modelled.
- What `onCalculate` does. The default does nothing, and the model only logs
  its arguments in `calls`.
- React's re-rendering and batching of state updates. The updates in one
  handler happen in the order written.
- `NumberText.IntToText`: models JavaScript's number-to-text conversion only for
  safe integers, whose magnitude is at most 2^53. A larger number prints the
  shortest digits that identify the double it rounds to, padded with zeros, and
  from 10^21 on in exponent form; many larger integers are not JavaScript
  numbers at all. Non-integers use fraction notation. None of this is covered.
- `Testimonials.StarRating`: takes an integer rating. JavaScript allows a
  fractional one.
- `Testimonials.AvatarFallback`: takes the first character of a string of
  Unicode scalar values. JavaScript's `charAt(0)` takes the first UTF-16 code
  unit, which differs for a name that starts outside the Basic Multilingual
  Plane.
- The testimonial section's title, subtitle and card layout. They carry no
  logic beyond passing values through.
