/** The weather context: the provider's fetch state (`data`, `loading`,
    `error`), the transitions `getWeather` makes, the effect that starts a
    fetch when the city changes, and `useWeather`'s missing-provider error.

    The HTTP request is not modelled: a fetch is started by `Start` and later
    settled by `Resolve` with an abstract outcome. Each request remembers the
    city it was issued for, but nothing looks at it when it completes. */
module Context {
  import opened Wrappers

  /** One day of the forecast as the weather service returns it. */
  datatype DayWeather = DayWeather(
    conditions: string, datetime: string,
    temp: real, pressure: real, humidity: real, windspeed: real,
    sunrise: string, sunset: string, feelslike: real)

  /** The response body. `days` is optional because the payload is not
      checked at run time and the components test for its absence. */
  datatype WeatherData = WeatherData(address: string, days: Option<seq<DayWeather>>)

  const FailMessage: string := "Failed to fetch weather data. Please try again or check your API key."
  const MissingProviderMessage: string := "useWeather must be used within a WeatherProvider"

  /** JavaScript truthiness of a `string | null` value. */
  predicate Truthy(s: Option<string>)
  {
    s.Some? && s.value != ""
  }

  /** The three state fields of the provider. */
  datatype FetchState = FetchState(data: Option<WeatherData>, loading: bool, error: Option<string>)

  const Initial: FetchState := FetchState(None, false, None)

  /** How the HTTP call settled. */
  datatype Outcome = Ok(body: WeatherData) | Failed

  /** A fetch in flight, with the city its URL was built from. */
  datatype Request = Request(city: Option<string>)

  /** The synchronous part of `getWeather`: raise `loading`, clear `error`. */
  function Start(s: FetchState): FetchState
  {
    s.(loading := true, error := None)
  }

  /** The part of `getWeather` after the request settles. */
  function Resolve(s: FetchState, o: Outcome): FetchState
  {
    match o
    case Ok(body) => s.(data := Some(body), loading := false)
    case Failed => s.(error := Some(FailMessage), loading := false)
  }

  /** The invariant the transitions keep: no error is shown while loading,
      and the only error ever stored is the fixed message. */
  predicate Consistent(s: FetchState)
  {
    (s.loading ==> s.error == None) && (s.error.Some? ==> s.error.value == FailMessage)
  }

  /** Starting keeps the previous data, raises `loading` and clears `error`;
      completing lowers `loading` and does exactly one of replacing the data
      or storing the fixed error, leaving the other field as it was. */
  lemma TransitionEffects(s: FetchState, o: Outcome)
    ensures Start(s).data == s.data && Start(s).loading && Start(s).error == None
    ensures !Resolve(s, o).loading
    ensures o.Ok? ==> Resolve(s, o).data == Some(o.body) && Resolve(s, o).error == s.error
    ensures o.Failed? ==> Resolve(s, o).error == Some(FailMessage) && Resolve(s, o).data == s.data
  {
  }

  /** Events of the fetch lifecycle as they reach the provider. */
  datatype Event = Begin(req: Request) | Complete(req: Request, outcome: Outcome)

  function Step(s: FetchState, e: Event): FetchState
  {
    match e
    case Begin(_) => Start(s)
    case Complete(_, o) => Resolve(s, o)
  }

  /** The state after a sequence of events, oldest first. */
  function Run(s: FetchState, events: seq<Event>): FetchState
    decreases |events|
  {
    if events == [] then s else Run(Step(s, events[0]), events[1..])
  }

  lemma {:induction false} RunAppend(s: FetchState, events: seq<Event>, e: Event)
    ensures Run(s, events + [e]) == Step(Run(s, events), e)
    decreases |events|
  {
    if events != [] {
      assert (events + [e])[1..] == events[1..] + [e];
      RunAppend(Step(s, events[0]), events[1..], e);
    }
  }

  /** Every interleaving of starts and completions keeps the invariant. */
  lemma {:induction false} RunConsistent(s: FetchState, events: seq<Event>)
    requires Consistent(s)
    ensures Consistent(Run(s, events))
    decreases |events|
  {
    if events != [] {
      RunConsistent(Step(s, events[0]), events[1..]);
    }
  }

  /** There is no request-id check: the last completion to arrive decides
      `loading` and the field it writes, whichever request it belongs to. */
  lemma LastCompletionWins(s: FetchState, events: seq<Event>, req: Request, o: Outcome)
    ensures var t := Run(s, events + [Complete(req, o)]);
      !t.loading
      && (o.Ok? ==> t.data == Some(o.body))
      && (o.Failed? ==> t.error == Some(FailMessage))
  {
    RunAppend(s, events, Complete(req, o));
  }

  /** A response for an older city that arrives after the newer one
      overwrites it. */
  lemma StaleResponseOverwrites(a: string, b: string, older: WeatherData, newer: WeatherData)
    requires a != b && older != newer
    ensures var t := Run(Initial, [Begin(Request(Some(a))), Begin(Request(Some(b))),
                                   Complete(Request(Some(b)), Ok(newer)),
                                   Complete(Request(Some(a)), Ok(older))]);
      t.data == Some(older) && t.data != Some(newer) && !t.loading
  {
    var first := [Begin(Request(Some(a))), Begin(Request(Some(b))), Complete(Request(Some(b)), Ok(newer))];
    assert first + [Complete(Request(Some(a)), Ok(older))]
        == [Begin(Request(Some(a))), Begin(Request(Some(b))),
            Complete(Request(Some(b)), Ok(newer)), Complete(Request(Some(a)), Ok(older))];
    LastCompletionWins(Initial, first, Request(Some(a)), Ok(older));
  }

  /** A stale failure that arrives after a fresh success leaves both the new
      data and the error message in place. */
  lemma StaleFailureAfterSuccess(a: string, b: string, newer: WeatherData)
    requires a != b
    ensures var t := Run(Initial, [Begin(Request(Some(a))), Begin(Request(Some(b))),
                                   Complete(Request(Some(b)), Ok(newer)),
                                   Complete(Request(Some(a)), Failed)]);
      t.data == Some(newer) && t.error == Some(FailMessage) && !t.loading
  {
    var starts := [Begin(Request(Some(a))), Begin(Request(Some(b)))];
    var first := starts + [Complete(Request(Some(b)), Ok(newer))];
    assert first + [Complete(Request(Some(a)), Failed)]
        == [Begin(Request(Some(a))), Begin(Request(Some(b))),
            Complete(Request(Some(b)), Ok(newer)), Complete(Request(Some(a)), Failed)];
    RunAppend(Initial, starts, Complete(Request(Some(b)), Ok(newer)));
    RunAppend(Initial, first, Complete(Request(Some(a)), Failed));
  }

  /** `useWeather`: the context value, or the error it throws without a provider. */
  function UseWeather<T>(context: Option<T>): (r: Result<T, string>)
    ensures r.Failure? <==> context.None?
    ensures r.Failure? ==> r.error == MissingProviderMessage
    ensures r.Success? ==> r.value == context.value
  {
    match context
    case None => Failure(MissingProviderMessage)
    case Some(v) => Success(v)
  }

  /** The provider's state. `city` is the query the consumers read and write
      through `setCity`; `clearWeather` is supplied by the caller. */
  class WeatherStore {
    var city: Option<string>
    var data: Option<WeatherData>
    var loading: bool
    var error: Option<string>

    function Fetch(): FetchState
      reads this
    {
      FetchState(data, loading, error)
    }

    predicate Valid()
      reads this
    {
      Consistent(Fetch())
    }

    /** First render: the three `useState` initial values. Mounting the
        provider is this constructor followed by `CityEffect` (see `Mount`). */
    constructor (initialCity: Option<string>)
      ensures city == initialCity && Fetch() == Initial && Valid()
    {
      city := initialCity;
      data, loading, error := None, false, None;
    }

    /** `getWeather` up to the request: a request for the current city. */
    method StartFetch() returns (req: Request)
      modifies this`loading, this`error
      ensures req == Request(city)
      ensures Fetch() == Start(old(Fetch())) && Valid()
    {
      loading := true;
      error := None;
      req := Request(city);
    }

    /** The effect keyed on `city`: fetch when the city is truthy. */
    method CityEffect() returns (req: Option<Request>)
      modifies this`loading, this`error
      ensures req.Some? <==> Truthy(city)
      ensures req.Some? ==> req.value == Request(city) && Fetch() == Start(old(Fetch()))
      ensures req.None? ==> Fetch() == old(Fetch())
      ensures old(Valid()) ==> Valid()
    {
      if city.Some? && city.value != "" {
        var r := StartFetch();
        req := Some(r);
      } else {
        req := None;
      }
    }

    /** `setCity`: a new value re-runs the effect; the same value changes
        nothing, so no fetch starts. */
    method SetCity(c: Option<string>) returns (req: Option<Request>)
      modifies this
      ensures city == c
      ensures req.Some? <==> c != old(city) && Truthy(c)
      ensures req.Some? ==> req.value == Request(c) && Fetch() == Start(old(Fetch()))
      ensures req.None? ==> Fetch() == old(Fetch())
      ensures old(Valid()) ==> Valid()
    {
      if c != city {
        city := c;
        req := CityEffect();
      } else {
        req := None;
      }
    }

    /** The request settled with a body. `req` is not consulted. */
    method CompleteOk(req: Request, body: WeatherData)
      modifies this`data, this`loading
      ensures Fetch() == Resolve(old(Fetch()), Ok(body))
      ensures old(Valid()) ==> Valid()
    {
      data := Some(body);
      loading := false;
    }

    /** The request failed. `req` is not consulted. */
    method CompleteFail(req: Request)
      modifies this`loading, this`error
      ensures Fetch() == Resolve(old(Fetch()), Failed)
      ensures old(Valid()) ==> Valid()
    {
      error := Some(FailMessage);
      loading := false;
    }

    /** `clearWeather`, which the provider does not define: whatever `clear`
        makes of the fetch state; the city is left alone. */
    method ClearWeather(clear: FetchState -> FetchState)
      modifies this`data, this`loading, this`error
      ensures Fetch() == clear(old(Fetch()))
    {
      var t := clear(Fetch());
      data, loading, error := t.data, t.loading, t.error;
    }
  }

  /** Mounting `WeatherProvider`: the initial state, then the effect's first
      run, which fetches exactly when the initial city is truthy. */
  method Mount(initialCity: Option<string>) returns (store: WeatherStore, req: Option<Request>)
    ensures fresh(store) && store.city == initialCity && store.Valid()
    ensures req.Some? <==> Truthy(initialCity)
    ensures req.Some? ==> req.value == Request(initialCity) && store.Fetch() == Start(Initial)
    ensures req.None? ==> store.Fetch() == Initial
  {
    store := new WeatherStore(initialCity);
    req := store.CityEffect();
  }
}
