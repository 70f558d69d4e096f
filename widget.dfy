/** The WeatherWidget component's state and its event handlers: the search
    form's submit handler, the theme toggle and the input's change handler.
    The network request and the JSON parse are replaced by a FetchOutcome
    argument. The state is given once as a value (UiState) with pure
    transitions, and once as the component object (WeatherWidget) whose
    methods update its fields step by step and are proved to follow those
    transitions. */
module Widget {
  import opened Text
  import opened Advice

  datatype Option<T> = None | Some(value: T)

  /** The record shown in the summary. */
  datatype WeatherData = WeatherData(temperature: real, description: string, location: string, unit: string)

  /** What the provider round trip yields: the three fields read from a
      well-formed response body, or a failure of any kind (network error,
      non-OK status, unparsable body). */
  datatype FetchOutcome = Ok(temperature: real, text: string, name: string) | Fail

  const BlankInputError: string := "Please enter a valid location."
  const NotFoundError: string := "City not found. Please try again."

  /** The component's five state hooks. */
  datatype UiState = UiState(
    location: string,
    weather: Option<WeatherData>,
    error: Option<string>,
    isLoading: bool,
    isDarkTheme: bool)

  function InitialState(): UiState {
    UiState("", None, None, false, false)
  }

  /** The state between events when searches do not overlap: nothing is
      loading, a summary and an error are never both present, and any
      summary carries the unit "C". */
  predicate Settled(s: UiState) {
    && !s.isLoading
    && !(s.weather.Some? && s.error.Some?)
    && (s.weather.Some? ==> s.weather.value.unit == "C")
  }

  /** The state after a step of the submit handler, with the query it
      sends to the provider (None when it sends nothing). */
  datatype Submission = Submission(state: UiState, request: Option<string>)

  /** The synchronous part of the submit handler, up to the request: a
      blank input is rejected at once, anything else starts loading and
      clears the error. */
  function BeginSearch(s: UiState): Submission {
    var trimmed := Trim(s.location);
    if trimmed == "" then
      Submission(s.(error := Some(BlankInputError), weather := None), None)
    else
      Submission(s.(isLoading := true, error := None), Some(trimmed))
  }

  /** The part of the submit handler after the request: the outcome is
      stored, and loading ends whichever way it went. */
  function SettleSearch(s: UiState, outcome: FetchOutcome): UiState {
    match outcome
    case Ok(t, text, name) =>
      s.(weather := Some(WeatherData(t, text, name, "C")), isLoading := false)
    case Fail =>
      s.(error := Some(NotFoundError), weather := None, isLoading := false)
  }

  /** One whole search, with nothing else happening in between. */
  function SearchResult(s: UiState, outcome: FetchOutcome): Submission {
    var begun := BeginSearch(s);
    if begun.request.None? then begun
    else Submission(SettleSearch(begun.state, outcome), begun.request)
  }

  function Toggled(s: UiState): UiState {
    s.(isDarkTheme := !s.isDarkTheme)
  }

  function WithLocation(s: UiState, value: string): UiState {
    s.(location := value)
  }

  /** A blank input (only whitespace, or empty) sends nothing, shows the
      validation error, clears the summary and leaves loading as it was. */
  lemma BlankInputRejected(s: UiState, outcome: FetchOutcome)
    requires AllWhitespace(s.location)
    ensures var r := SearchResult(s, outcome);
            && r.request == None
            && r.state.error == Some(BlankInputError)
            && r.state.weather == None
            && r.state.isLoading == s.isLoading
            && r.state.location == s.location
            && r.state.isDarkTheme == s.isDarkTheme
  {
    TrimBlank(s.location);
  }

  /** Any other input sends exactly one query: the input with the
      whitespace around it removed, which is not empty, has no whitespace
      at either end and is unchanged by trimming again. */
  lemma QueryIsTrimmedInput(s: UiState, outcome: FetchOutcome)
    requires !AllWhitespace(s.location)
    ensures var r := SearchResult(s, outcome);
            && r.request.Some?
            && r.request.value == Trim(s.location)
            && r.request.value != ""
            && Tight(r.request.value)
            && Trim(r.request.value) == r.request.value
  {
    TrimBlank(s.location);
    TrimTight(s.location);
    TrimIdempotent(s.location);
  }

  /** While the request is outstanding the widget is loading and shows no
      error; when it settles loading is over, whatever the outcome. */
  lemma LoadingOnlyWhileFetching(s: UiState, outcome: FetchOutcome)
    requires !AllWhitespace(s.location)
    ensures BeginSearch(s).state.isLoading && BeginSearch(s).state.error == None
    ensures !SettleSearch(BeginSearch(s).state, outcome).isLoading
  {
    TrimBlank(s.location);
  }

  /** A search that reaches the provider ends with the outcome shown and
      nothing left of the previous one: on success the response fields
      with unit "C" and no error, on failure the not-found error and no
      summary. */
  lemma SearchOutcomeShown(s: UiState, outcome: FetchOutcome)
    requires !AllWhitespace(s.location)
    ensures var r := SearchResult(s, outcome).state;
            && !r.isLoading
            && (outcome.Ok? ==>
                  r.weather == Some(WeatherData(outcome.temperature, outcome.text, outcome.name, "C"))
                  && r.error == None)
            && (outcome.Fail? ==> r.error == Some(NotFoundError) && r.weather == None)
  {
    TrimBlank(s.location);
  }

  /** After any completed search started from a settled state the widget
      is settled again, with exactly one of a summary and an error. */
  lemma SearchSettles(s: UiState, outcome: FetchOutcome)
    requires Settled(s)
    ensures var r := SearchResult(s, outcome).state;
            Settled(r) && (r.weather.Some? != r.error.Some?)
  {
  }

  /** Whatever the state it starts from, a search run to completion leaves
      exactly one of a summary and an error: the blank path sets the error
      and clears the summary, the success path clears the error and sets
      the summary, and the failure path does the reverse. */
  lemma SearchLeavesExactlyOne(s: UiState, outcome: FetchOutcome)
    ensures var r := SearchResult(s, outcome).state;
            r.weather.Some? != r.error.Some?
  {
  }

  /** A search never changes the input text or the theme. */
  lemma SearchKeepsInputAndTheme(s: UiState, outcome: FetchOutcome)
    ensures SearchResult(s, outcome).state.location == s.location
    ensures SearchResult(s, outcome).state.isDarkTheme == s.isDarkTheme
  {
  }

  /** The widget starts settled, and every handler keeps it so. */
  lemma SettledIsInvariant(s: UiState, outcome: FetchOutcome, value: string)
    requires Settled(s)
    ensures Settled(InitialState())
    ensures Settled(SearchResult(s, outcome).state)
    ensures Settled(Toggled(s))
    ensures Settled(WithLocation(s, value))
  {
    SearchSettles(s, outcome);
  }

  /** Toggling flips the theme, touches nothing else, and toggling twice
      restores the state. */
  lemma ToggleInvolution(s: UiState)
    ensures Toggled(s).isDarkTheme == !s.isDarkTheme
    ensures Toggled(s).(isDarkTheme := s.isDarkTheme) == s
    ensures Toggled(Toggled(s)) == s
  {
  }

  /** The handler itself keeps no request order: if a second search begins
      before the first settles, the first settling ends loading while the
      second is still outstanding, and if the first failed and the second
      then succeeds, the widget shows a summary and an error at once. */
  lemma OverlappingSearchesShowBoth(t: real, text: string, name: string)
    ensures var s0 := WithLocation(InitialState(), "Paris");
            var first := BeginSearch(s0).state;
            var second := BeginSearch(first).state;
            var firstFailed := SettleSearch(second, Fail);
            var r := SettleSearch(firstFailed, Ok(t, text, name));
            && !firstFailed.isLoading
            && r.weather.Some? && r.error.Some? && !Settled(r)
  {
    var s0 := WithLocation(InitialState(), "Paris");
    assert Trim(s0.location) == "Paris" by {
      assert s0.location == [] + "Paris" + [];
      TrimOfPadded([], "Paris", []);
    }
    var first := BeginSearch(s0).state;
    assert first == s0.(isLoading := true);
    assert BeginSearch(first).state == first;
  }

  /** The weather block of the page: temperature sentence, condition
      sentence, place name and glyph. */
  datatype Summary = Summary(temperature: TemperatureMessage, condition: ConditionMessage, place: string, icon: Icon)

  /** What the page shows for a state: the error line, the weather block,
      whether the submit button is enabled and its label, and the theme
      button's label. */
  datatype View = View(
    error: Option<string>,
    summary: Option<Summary>,
    submitEnabled: bool,
    submitLabel: string,
    themeLabel: string)

  function SummaryOf(w: WeatherData): Summary {
    Summary(TemperatureMessageFor(w.temperature, w.unit), WeatherMessage(w.description), w.location, Animation(w.description))
  }

  function Render(s: UiState): View {
    View(
      s.error,
      if s.weather.Some? then Some(SummaryOf(s.weather.value)) else None,
      !s.isLoading,
      if s.isLoading then "Loading..." else "Search",
      if s.isDarkTheme then "Light Mode" else "Dark Mode")
  }

  /** In a settled widget the bare-reading branch of the temperature
      message never shows: every summary carries Celsius advice for its
      band, and the submit button is enabled. */
  lemma SettledSummaryIsAdvice(s: UiState)
    requires Settled(s) && s.weather.Some?
    ensures Render(s).submitEnabled
    ensures Render(s).summary.Some?
    ensures Render(s).summary.value.temperature.Advice?
    ensures InBand(s.weather.value.temperature, Render(s).summary.value.temperature.band)
  {
    CelsiusMessageBand(s.weather.value.temperature);
  }

  /** A search for "Paris" answered with 22 degrees and "Sunny" shows the
      pleasant sentence for 22, the sunny advisory, the place and the sun
      glyph, and no error. */
  lemma ParisExample(s: UiState)
    requires s.location == "Paris"
    ensures var v := Render(SearchResult(s, Ok(22.0, "Sunny", "Paris")).state);
            && v.error == None
            && v.summary == Some(Summary(Advice(Pleasant, 22.0), SunnyAdvice, "Paris", SunIcon))
  {
    assert Trim(s.location) == "Paris" by {
      assert s.location == [] + "Paris" + [];
      TrimOfPadded([], "Paris", []);
    }
    SunnyInAnyCase("Sunny");
  }

  /** A failed search shows the not-found message and no weather block. */
  lemma FailureView(s: UiState)
    requires !AllWhitespace(s.location)
    ensures Render(SearchResult(s, Fail).state).error == Some(NotFoundError)
    ensures Render(SearchResult(s, Fail).state).summary == None
  {
    TrimBlank(s.location);
  }

  /** The theme changes only the theme label, and two toggles give back
      the same page. */
  lemma ToggleOnlyRestyles(s: UiState)
    ensures Render(Toggled(s)).(themeLabel := Render(s).themeLabel) == Render(s)
    ensures Render(Toggled(s)).themeLabel != Render(s).themeLabel
    ensures Render(Toggled(Toggled(s))) == Render(s)
  {
  }

  /** The component object: its fields are the state hooks, and each
      handler updates them in the order the source sets them. */
  class WeatherWidget {
    var location: string
    var weather: Option<WeatherData>
    var error: Option<string>
    var isLoading: bool
    var isDarkTheme: bool

    function State(): UiState
      reads this
    {
      UiState(location, weather, error, isLoading, isDarkTheme)
    }

    predicate Valid()
      reads this
    {
      Settled(State())
    }

    constructor ()
      ensures Valid()
      ensures State() == InitialState()
    {
      location := "";
      weather := None;
      error := None;
      isLoading := false;
      isDarkTheme := false;
    }

    /** The input's change handler stores the raw text, untrimmed. */
    method SetLocation(value: string)
      requires Valid()
      modifies this
      ensures Valid()
      ensures State() == WithLocation(old(State()), value)
    {
      location := value;
    }

    /** The submit handler, run to completion with the provider's answer
      `outcome`; returns the query sent, if any. */
    method Search(outcome: FetchOutcome) returns (request: Option<string>)
      requires Valid()
      modifies this
      ensures Valid()
      ensures State() == SearchResult(old(State()), outcome).state
      ensures request == SearchResult(old(State()), outcome).request
      ensures weather.Some? != error.Some?
    {
      var trimmedLocation := Trim(location);
      if trimmedLocation == "" {
        error := Some(BlankInputError);
        weather := None;
        request := None;
        return;
      }
      isLoading := true;
      error := None;
      request := Some(trimmedLocation);
      match outcome {
        case Ok(t, text, name) =>
          weather := Some(WeatherData(t, text, name, "C"));
        case Fail =>
          error := Some(NotFoundError);
          weather := None;
      }
      isLoading := false;
    }

    method ToggleTheme()
      requires Valid()
      modifies this
      ensures Valid()
      ensures State() == Toggled(old(State()))
    {
      isDarkTheme := !isDarkTheme;
    }
  }
}
