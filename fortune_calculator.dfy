/**
 * The fortune calculator form: a name field, a birthdate picker, a calculate
 * button and, once a calculation completes, the report card with a reset
 * button. Its four state cells are the fields of `Calculator`; the deferred
 * completion that the button schedules is an explicit step, `FireTimer`.
 */
module FortuneCalculator {
  import opened Wrappers
  import FortuneResult

  /**
   * A JavaScript Date read in local time: year, month index (0 is January),
   * day of the month, and milliseconds into the day.
   */
  datatype LocalTime = LocalTime(year: int, month: int, day: int, ms: int)

  /** `a > b` on dates: `a` is a strictly later moment than `b`. */
  predicate After(a: LocalTime, b: LocalTime) {
    || a.year > b.year
    || (a.year == b.year && a.month > b.month)
    || (a.year == b.year && a.month == b.month && a.day > b.day)
    || (a.year == b.year && a.month == b.month && a.day == b.day && a.ms > b.ms)
  }

  /** `new Date(1990, 0, 1)`: midnight at the start of 1 January 1990. */
  const DefaultBirthdate: LocalTime := LocalTime(1990, 0, 1, 0)

  /** The name and birthdate a scheduled completion captured when it was scheduled. */
  datatype Request = Request(name: string, birthdate: LocalTime)

  /** The guard of `handleCalculate`: it goes on only with a non-empty name and a birthdate. */
  predicate Accepts(name: string, birthdate: Option<LocalTime>): (ok: bool)
    ensures ok <==> |name| > 0 && birthdate.Some?
  {
    !(name == "" || birthdate.None?)
  }

  /** Only emptiness is tested: a name of blanks passes, and so does any date the state holds. */
  lemma AcceptsUntrimmedName(name: string, date: LocalTime)
    ensures Accepts(name, Some(date)) <==> |name| > 0
    ensures Accepts("  ", Some(date))
    ensures !Accepts(name, None)
  {
  }

  /** The calendar's `disabled` test: a day later than the current moment cannot be picked. */
  predicate DayDisabled(date: LocalTime, now: LocalTime): (disabled: bool)
    ensures date == now ==> !disabled
    ensures disabled ==> !After(now, date)
  {
    After(date, now)
  }

  /** The lifecycle of one calculation as the page shows it. */
  datatype Phase = Idle | Pending | Settled

  /** What the component renders: the form, or the report card with a reset button. */
  datatype Screen =
    | Form(nameValue: string, birthdate: Option<LocalTime>, buttonEnabled: bool, spinner: bool)
    | Report(props: FortuneResult.Props)

  /**
   * The props the form hands to the report card: the name, and the birthdate
   * formatted as "yyyy-MM-dd" (`format` stands for the date library's formatter),
   * or "" when no birthdate is selected. Nothing else is passed.
   */
  function ResultArgs(name: string, birthdate: Option<LocalTime>, format: LocalTime -> string): (a: FortuneResult.Args)
    ensures a.name == Some(name)
    ensures birthdate.Some? ==> a.birthdate == Some(format(birthdate.value))
    ensures birthdate.None? ==> a.birthdate == Some("")
    ensures a.rating.None? && a.score.None? && a.recommendations.None? && a.interpretation.None?
  {
    FortuneResult.Args(
      Some(name),
      Some(if birthdate.Some? then format(birthdate.value) else ""),
      None, None, None, None)
  }

  /**
   * There is no fortune computation: the card always shows the default tier,
   * score, recommendations and interpretation, under the current name and birthdate.
   */
  lemma ResultIsDefaultReport(name: string, birthdate: Option<LocalTime>, format: LocalTime -> string)
    ensures var p := FortuneResult.WithDefaults(ResultArgs(name, birthdate, format));
      && p.name == name
      && p.birthdate == (if birthdate.Some? then format(birthdate.value) else "")
      && p.rating == FortuneResult.GoodFortune && p.score == 78
      && p.recommendations == FortuneResult.DefaultRecommendations
      && p.interpretation == FortuneResult.DefaultInterpretation
  {
  }

  class Calculator {
    var name: string
    var birthdate: Option<LocalTime>
    var showResult: bool
    var isCalculating: bool
    /** Completions scheduled by the calculate handler and not yet run, oldest first. */
    var timers: seq<Request>
    /** The `onCalculate` invocations so far, in order. */
    var calls: seq<Request>

    /** A pending spinner has a completion behind it, and no request carries an empty name. */
    ghost predicate Valid()
      reads this
    {
      && (isCalculating ==> |timers| > 0)
      && (forall i :: 0 <= i < |timers| ==> timers[i].name != "")
      && (forall i :: 0 <= i < |calls| ==> calls[i].name != "")
    }

    /**
     * When the page is driven through its buttons: at most one completion is
     * scheduled, exactly while the spinner shows, and never under the report.
     */
    ghost predicate SingleFlight()
      reads this
    {
      && |timers| <= 1
      && (isCalculating <==> |timers| == 1)
      && (isCalculating ==> !showResult)
    }

    /** Mounting with the optional props `initialName` (default "") and `initialBirthdate`. */
    constructor (initialName: Option<string>, initialBirthdate: Option<LocalTime>)
      ensures Valid() && SingleFlight()
      ensures name == initialName.GetOr("")
      ensures birthdate == Some(initialBirthdate.GetOr(DefaultBirthdate))
      ensures !showResult && !isCalculating
      ensures timers == [] && calls == []
    {
      name := initialName.GetOr("");
      birthdate := Some(initialBirthdate.GetOr(DefaultBirthdate));
      showResult := false;
      isCalculating := false;
      timers := [];
      calls := [];
    }

    /** The calculate button is enabled: the handler's guard, and no calculation running. */
    function ButtonEnabled(): (enabled: bool)
      reads this
      ensures enabled <==> Accepts(name, birthdate) && !isCalculating
    {
      !(name == "" || birthdate.None? || isCalculating)
    }

    function CurrentPhase(): Phase
      reads this
    {
      if isCalculating then Pending else if showResult then Settled else Idle
    }

    /** The rendered screen; `format` stands for the date library's formatter. */
    function Render(format: LocalTime -> string): (s: Screen)
      reads this
      ensures s.Report? <==> showResult
      ensures s.Form? ==> s.buttonEnabled == ButtonEnabled() && s.spinner == isCalculating
    {
      if !showResult then Form(name, birthdate, ButtonEnabled(), isCalculating)
      else Report(FortuneResult.WithDefaults(ResultArgs(name, birthdate, format)))
    }

    /** The name field's change handler: stores the text as typed, without trimming. */
    method SetName(value: string)
      requires Valid()
      modifies this
      ensures Valid() && (old(SingleFlight()) ==> SingleFlight())
      ensures name == value
      ensures birthdate == old(birthdate) && showResult == old(showResult)
      ensures isCalculating == old(isCalculating)
      ensures timers == old(timers) && calls == old(calls)
    {
      name := value;
    }

    /**
     * The user picks `selection` in the calendar at moment `now` (None: the
     * selected day was clicked again and deselected). A disabled day cannot be picked.
     */
    method SelectDate(selection: Option<LocalTime>, now: LocalTime)
      requires Valid()
      modifies this
      ensures Valid() && (old(SingleFlight()) ==> SingleFlight())
      ensures birthdate == if selection.Some? && DayDisabled(selection.value, now) then old(birthdate) else selection
      ensures birthdate != old(birthdate) && birthdate.Some? ==> !After(birthdate.value, now)
      ensures name == old(name) && showResult == old(showResult)
      ensures isCalculating == old(isCalculating)
      ensures timers == old(timers) && calls == old(calls)
    {
      if !(selection.Some? && DayDisabled(selection.value, now)) {
        birthdate := selection;
      }
    }

    /**
     * `handleCalculate`: without a name or a birthdate nothing happens; otherwise
     * the spinner starts and a completion is scheduled that holds the current
     * name and birthdate. It does not look at `isCalculating` itself.
     */
    method HandleCalculate()
      requires Valid()
      modifies this
      ensures Valid()
      ensures !old(Accepts(name, birthdate)) ==>
        isCalculating == old(isCalculating) && timers == old(timers)
      ensures old(Accepts(name, birthdate)) ==>
        isCalculating && timers == old(timers) + [Request(old(name), old(birthdate).value)]
      ensures name == old(name) && birthdate == old(birthdate)
      ensures showResult == old(showResult) && calls == old(calls)
    {
      if name == "" || birthdate.None? {
        return;
      }
      isCalculating := true;
      timers := timers + [Request(name, birthdate.value)];
    }

    /**
     * The oldest scheduled completion runs: it calls `onCalculate` once with the
     * values it captured, shows the report and stops the spinner.
     */
    method FireTimer()
      requires Valid() && timers != []
      modifies this
      ensures Valid() && (old(SingleFlight()) ==> SingleFlight())
      ensures calls == old(calls) + [old(timers)[0]]
      ensures timers == old(timers)[1..]
      ensures showResult && !isCalculating
      ensures name == old(name) && birthdate == old(birthdate)
    {
      calls := calls + [timers[0]];
      timers := timers[1..];
      showResult := true;
      isCalculating := false;
    }

    /** `handleReset`: hides the report; the form keeps its name and birthdate. */
    method HandleReset()
      requires Valid()
      modifies this
      ensures Valid() && (old(SingleFlight()) ==> SingleFlight())
      ensures !showResult
      ensures name == old(name) && birthdate == old(birthdate)
      ensures isCalculating == old(isCalculating)
      ensures timers == old(timers) && calls == old(calls)
    {
      showResult := false;
    }

    /**
     * A click on the calculate button. The button exists only while the form is
     * shown and reacts only while enabled; then it runs `handleCalculate`.
     */
    method PressCalculate()
      requires Valid()
      modifies this
      ensures Valid() && (old(SingleFlight()) ==> SingleFlight())
      ensures old(CurrentPhase()) == Idle && old(ButtonEnabled()) ==>
        CurrentPhase() == Pending && timers == old(timers) + [Request(old(name), old(birthdate).value)]
      ensures !(old(CurrentPhase()) == Idle && old(ButtonEnabled())) ==>
        CurrentPhase() == old(CurrentPhase()) && timers == old(timers)
      ensures name == old(name) && birthdate == old(birthdate)
      ensures showResult == old(showResult) && calls == old(calls)
    {
      if !showResult && ButtonEnabled() {
        HandleCalculate();
      }
    }

    /** A click on the reset button, which exists only under the report. */
    method PressReset()
      requires Valid()
      modifies this
      ensures Valid() && (old(SingleFlight()) ==> SingleFlight())
      ensures !showResult
      ensures old(CurrentPhase()) == Settled ==> CurrentPhase() == Idle
      ensures old(CurrentPhase()) != Settled ==> CurrentPhase() == old(CurrentPhase())
      ensures name == old(name) && birthdate == old(birthdate)
      ensures isCalculating == old(isCalculating)
      ensures timers == old(timers) && calls == old(calls)
    {
      if showResult {
        HandleReset();
      }
    }
  }

  /**
   * One full cycle through the buttons: type a name, press calculate, let the
   * completion run, press reset. `onCalculate` runs once with the typed name
   * and the default birthdate, and the page is back at the form with its draft.
   */
  method CalculateThenReset(typed: string) returns (calls: seq<Request>, phase: Phase, draft: string)
    requires typed != ""
    ensures calls == [Request(typed, DefaultBirthdate)]
    ensures phase == Idle && draft == typed
  {
    var c := new Calculator(None, None);
    c.SetName(typed);
    c.PressCalculate();
    assert c.CurrentPhase() == Pending;
    c.PressCalculate();
    c.FireTimer();
    assert c.CurrentPhase() == Settled;
    c.PressReset();
    calls, phase, draft := c.calls, c.CurrentPhase(), c.name;
  }

  /**
   * Called twice without the button's guard, `handleCalculate` schedules two
   * completions, and `onCalculate` then runs twice.
   */
  method CalculateTwiceUnguarded(typed: string) returns (scheduled: nat, calls: seq<Request>)
    requires typed != ""
    ensures scheduled == 2
    ensures calls == [Request(typed, DefaultBirthdate), Request(typed, DefaultBirthdate)]
  {
    var c := new Calculator(Some(typed), None);
    c.HandleCalculate();
    c.HandleCalculate();
    scheduled := |c.timers|;
    c.FireTimer();
    c.FireTimer();
    calls := c.calls;
  }

  /**
   * The name field stays editable while the spinner runs: the completion passes
   * the name captured at the click to `onCalculate`, while the report card shows
   * the name typed since.
   */
  method EditWhilePending(first: string, second: string, format: LocalTime -> string)
    returns (calls: seq<Request>, shownName: string)
    requires first != ""
    ensures calls == [Request(first, DefaultBirthdate)]
    ensures shownName == second
  {
    var c := new Calculator(None, None);
    c.SetName(first);
    c.PressCalculate();
    c.SetName(second);
    c.FireTimer();
    var screen := c.Render(format);
    FortuneResult.DefaultReport();
    calls, shownName := c.calls, screen.props.name;
  }
}
