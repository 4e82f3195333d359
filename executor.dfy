/** `execute_tool`: the dispatch of a tool name to its handler, the binding
    of the input object to the handler's keyword parameters, each handler's
    branches (no key, failed request, decoded response) and the catching of
    every failure as an error payload. The network is replaced by an
    environment that says which keys are configured and what each request
    returned. */
module Executor {
  import opened Common
  import opened Raw
  import opened ToolDefinitions
  import Restaurants
  import Movies
  import Places
  import Travel

  /** The tools `execute_tool` knows. */
  datatype ToolKind = SearchRestaurants | SearchMovies | SearchPlaces | GetTravelInfo

  function NameOf(k: ToolKind): (name: string) {
    match k
    case SearchRestaurants => "search_restaurants"
    case SearchMovies => "search_movies"
    case SearchPlaces => "search_places"
    case GetTravelInfo => "get_travel_info"
  }

  /** The `if`/`elif` chain on the tool name. */
  function ToolOf(name: string): (k: Option<ToolKind>) {
    if name == "search_restaurants" then Some(SearchRestaurants)
    else if name == "search_movies" then Some(SearchMovies)
    else if name == "search_places" then Some(SearchPlaces)
    else if name == "get_travel_info" then Some(GetTravelInfo)
    else None
  }

  /** A name selects a tool exactly when it is that tool's name. */
  lemma ToolOfInverse(name: string, k: ToolKind)
    ensures ToolOf(name) == Some(k) <==> name == NameOf(k)
  {
    assert "search_movies"[7] != "search_places"[7];
  }

  /** How a handler's outcome can fail. The exception message `str(e)` is
      not modelled; each kind of failure gets a fixed message. */
  datatype Failure =
    | BadArguments   // the input does not bind to the handler's parameters
    | TypeMismatch   // a string reached arithmetic, a comparison or a slice
    | RequestFailed  // the HTTP request or the decoding of its body raised

  datatype Outcome<T> = Done(value: T) | Failed(failure: Failure)

  /** A keyword parameter of a handler and its default, if any. */
  datatype Param = Param(name: string, default: Option<Value>)

  /** The handlers' signatures, in declaration order. No name repeats, and
      every search handler ends with a `limit` that has a default. */
  function Params(k: ToolKind): (ps: seq<Param>)
    ensures forall i, j :: 0 <= i < j < |ps| ==> ps[i].name != ps[j].name
    ensures k != GetTravelInfo ==> |ps| > 0 && ps[|ps| - 1].name == "limit" && ps[|ps| - 1].default.Some?
  {
    match k
    case SearchRestaurants =>
      [Param("area", None), Param("max_budget_per_person", None),
       Param("cuisine", Some(StrVal(""))), Param("limit", Some(IntVal(5)))]
    case SearchMovies =>
      [Param("preferred_genre", Some(StrVal(""))), Param("max_ticket_price", Some(IntVal(400))),
       Param("limit", Some(IntVal(5)))]
    case SearchPlaces =>
      [Param("interests", Some(StrVal("sightseeing"))), Param("max_entry_fee", Some(IntVal(200))),
       Param("area", Some(StrVal("Hyderabad"))), Param("limit", Some(IntVal(6)))]
    case GetTravelInfo =>
      [Param("origin", None), Param("destination", None)]
  }

  predicate IsParam(ps: seq<Param>, name: string) {
    exists p :: p in ps && p.name == name
  }

  /** Python's binding of `**tool_input` to keyword parameters: every key
      must name a parameter and every parameter without a default must be
      given; the bound values follow the parameter order. */
  function Bind(ps: seq<Param>, input: map<string, Value>): (r: Outcome<seq<Value>>)
    ensures r.Done? <==>
      (forall k :: k in input ==> IsParam(ps, k)) &&
      (forall p :: p in ps && p.default.None? ==> p.name in input)
    ensures r.Done? ==> |r.value| == |ps|
    ensures r.Done? ==> forall i :: 0 <= i < |ps| ==>
      r.value[i] == if ps[i].name in input then input[ps[i].name] else ps[i].default.value
    ensures r.Failed? ==> r.failure == BadArguments
  {
    if !(forall k :: k in input ==> IsParam(ps, k)) then Failed(BadArguments)
    else if !(forall p :: p in ps && p.default.None? ==> p.name in input) then Failed(BadArguments)
    else
      Done(seq(|ps|, i requires 0 <= i < |ps| =>
        if ps[i].name in input then input[ps[i].name]
        else assert ps[i] in ps; ps[i].default.value))
  }

  /** A request outcome: the decoded body, or an exception. */
  datatype Fetch<T> = Fetched(body: T) | FetchFailed

  /** What the outside world contributes to one call: which API keys are
      configured and what each service returned. A missing `results` or
      `showtimes` key is `None`. */
  datatype Env = Env(
    googleKey: bool,
    serpKey: bool,
    restaurantsResponse: Fetch<Option<seq<RawPlace>>>,
    moviesResponse: Fetch<Option<seq<RawShowtime>>>,
    placesResponse: Fetch<Option<seq<RawPlace>>>,
    travelResponse: Fetch<RawMatrix>)

  /** The result `execute_tool` serialises. */
  datatype Payload =
    | RestaurantList(restaurants: seq<Restaurants.Restaurant>)
    | MovieList(movies: seq<Movies.Movie>)
    | PlaceList(places: seq<Places.Place>)
    | TravelReport(travel: Travel.TravelInfo)
    | Error(message: string)

  /** `search_restaurants`. Every path that yields restaurants compares costs
      with the budget, so a string budget always fails. */
  function RunRestaurants(area: Value, budget: Value, limit: Value, env: Env): (r: Outcome<Payload>)
    ensures r.Done? ==> budget.IntVal? && r.value.RestaurantList?
    ensures env.googleKey && env.restaurantsResponse.FetchFailed? ==> r == Failed(RequestFailed)
    ensures !env.googleKey ==> (r.Done? <==> budget.IntVal?)
    ensures !env.googleKey && budget.IntVal? ==>
      r == Done(RestaurantList(Restaurants.MockRestaurants(budget.i)))
    ensures env.googleKey && env.restaurantsResponse.Fetched? && limit.IntVal? && budget.IntVal? ==>
      r == Done(RestaurantList(Restaurants.RestaurantResults(
        env.restaurantsResponse.body.GetOr([]), area, budget.i, limit.i)))
  {
    if !env.googleKey then
      if budget.IntVal? then Done(RestaurantList(Restaurants.MockRestaurants(budget.i)))
      else Failed(TypeMismatch)
    else
      match env.restaurantsResponse
      case FetchFailed => Failed(RequestFailed)
      case Fetched(body) =>
        if !limit.IntVal? || !budget.IntVal? then Failed(TypeMismatch)
        else Done(RestaurantList(Restaurants.RestaurantResults(body.GetOr([]), area, budget.i, limit.i)))
  }

  /** `search_movies`. Every path that yields movies compares or estimates
      with the maximum price, so a string maximum always fails. */
  function RunMovies(genre: Value, maxPrice: Value, limit: Value, env: Env): (r: Outcome<Payload>)
    ensures r.Done? ==> maxPrice.IntVal? && r.value.MovieList?
    ensures env.serpKey && env.moviesResponse.FetchFailed? ==> r == Failed(RequestFailed)
    ensures !env.serpKey ==> (r.Done? <==> maxPrice.IntVal?)
    ensures !env.serpKey && maxPrice.IntVal? ==>
      r == Done(MovieList(Movies.MockMovies(maxPrice.i)))
    ensures env.serpKey && env.moviesResponse.Fetched? && limit.IntVal? && maxPrice.IntVal? ==>
      r == Done(MovieList(Movies.MovieResults(
        env.moviesResponse.body.GetOr([]), genre, maxPrice.i, limit.i)))
  {
    if !env.serpKey then
      if maxPrice.IntVal? then Done(MovieList(Movies.MockMovies(maxPrice.i)))
      else Failed(TypeMismatch)
    else
      match env.moviesResponse
      case FetchFailed => Failed(RequestFailed)
      case Fetched(body) =>
        if !limit.IntVal? || !maxPrice.IntVal? then Failed(TypeMismatch)
        else Done(MovieList(Movies.MovieResults(body.GetOr([]), genre, maxPrice.i, limit.i)))
  }

  /** `search_places`. Fetched results are not compared with the maximum
      fee, so a string maximum fails only when the built-in list is used. */
  function RunPlaces(maxFee: Value, area: Value, limit: Value, env: Env): (r: Outcome<Payload>)
    ensures r.Done? ==> r.value.PlaceList?
    ensures env.googleKey && env.placesResponse.FetchFailed? ==> r == Failed(RequestFailed)
    ensures !env.googleKey ==> (r.Done? <==> maxFee.IntVal?)
    ensures !env.googleKey && maxFee.IntVal? ==>
      r == Done(PlaceList(Places.MockPlaces(maxFee.i)))
    ensures env.googleKey && env.placesResponse.Fetched? && limit.IntVal? && maxFee.IntVal? ==>
      r == Done(PlaceList(Places.PlaceResults(
        env.placesResponse.body.GetOr([]), area, maxFee.i, limit.i)))
    ensures env.googleKey && env.placesResponse.Fetched? && limit.IntVal? && !maxFee.IntVal? ==>
      var visited := Places.Visited(Slice(env.placesResponse.body.GetOr([]), limit.i), area);
      r == if visited != [] then Done(PlaceList(visited)) else Failed(TypeMismatch)
  {
    if !env.googleKey then
      if maxFee.IntVal? then Done(PlaceList(Places.MockPlaces(maxFee.i)))
      else Failed(TypeMismatch)
    else
      match env.placesResponse
      case FetchFailed => Failed(RequestFailed)
      case Fetched(body) =>
        if !limit.IntVal? then Failed(TypeMismatch)
        else
          var raw := body.GetOr([]);
          if maxFee.IntVal? then Done(PlaceList(Places.PlaceResults(raw, area, maxFee.i, limit.i)))
          else
            var visited := Places.Visited(Slice(raw, limit.i), area);
            if visited != [] then Done(PlaceList(visited)) else Failed(TypeMismatch)
  }

  /** `get_travel_info`. */
  function RunTravel(origin: Value, destination: Value, env: Env): (r: Outcome<Payload>)
    ensures r.Done? ==> r.value.TravelReport? && r.value.travel.mode == "Uber/Ola"
    ensures r.Failed? <==> env.googleKey && env.travelResponse.FetchFailed?
    ensures !env.googleKey ==> r == Done(TravelReport(Travel.MockTravel(origin, destination)))
    ensures env.googleKey && env.travelResponse.Fetched? ==>
      r == Done(TravelReport(Travel.TravelFromMatrix(env.travelResponse.body, origin, destination)))
  {
    if !env.googleKey then Done(TravelReport(Travel.MockTravel(origin, destination)))
    else
      match env.travelResponse
      case FetchFailed => Failed(RequestFailed)
      case Fetched(m) => Done(TravelReport(Travel.TravelFromMatrix(m, origin, destination)))
  }

  /** The handler of `k` applied to its bound arguments. */
  function Run(k: ToolKind, args: seq<Value>, env: Env): (r: Outcome<Payload>)
    requires |args| == |Params(k)|
  {
    match k
    case SearchRestaurants => RunRestaurants(args[0], args[1], args[3], env)
    case SearchMovies => RunMovies(args[0], args[1], args[2], env)
    case SearchPlaces => RunPlaces(args[1], args[2], args[3], env)
    case GetTravelInfo => RunTravel(args[0], args[1], env)
  }

  function FailureMessage(f: Failure): (message: string) {
    match f
    case BadArguments => "invalid arguments"
    case TypeMismatch => "invalid argument type"
    case RequestFailed => "request failed"
  }

  /** `execute_tool`: total by construction; an unknown name and every
      handler failure become an error payload. */
  function ExecuteTool(name: string, input: map<string, Value>, env: Env): (p: Payload)
    ensures !p.Error? ==> ToolOf(name).Some? && Answers(ToolOf(name).value, p)
  {
    match ToolOf(name)
    case None => Error("Unknown tool: " + name)
    case Some(k) =>
      match Bind(Params(k), input)
      case Failed(f) => Error(FailureMessage(f))
      case Done(args) =>
        match Run(k, args, env)
        case Failed(f) => Error(FailureMessage(f))
        case Done(p) => p
  }

  /** The payload variant each tool answers with. */
  predicate Answers(k: ToolKind, p: Payload) {
    match k
    case SearchRestaurants => p.RestaurantList?
    case SearchMovies => p.MovieList?
    case SearchPlaces => p.PlaceList?
    case GetTravelInfo => p.TravelReport?
  }

  /** The unknown-tool payload is returned exactly for names that select no
      tool; a known name yields its own variant or an error. */
  lemma ExecuteToolDispatch(name: string, input: map<string, Value>, env: Env)
    ensures ExecuteTool(name, input, env) == Error("Unknown tool: " + name) <==> ToolOf(name).None?
    ensures ToolOf(name).Some? ==>
      var p := ExecuteTool(name, input, env);
      p.Error? || Answers(ToolOf(name).value, p)
  {
    if ToolOf(name).Some? {
      var k := ToolOf(name).value;
      match Bind(Params(k), input)
      case Failed(f) =>
        assert FailureMessage(f)[0] != "Unknown tool: "[0];
      case Done(args) =>
        match Run(k, args, env)
        case Failed(f) =>
          assert FailureMessage(f)[0] != "Unknown tool: "[0];
        case Done(p) =>
    }
  }

  /** A known name whose input binds runs that tool's handler on the bound
      arguments: its result is the payload, and its failure the error. */
  lemma ExecuteToolRuns(k: ToolKind, input: map<string, Value>, env: Env)
    ensures Bind(Params(k), input).Done? ==>
      var out := Run(k, Bind(Params(k), input).value, env);
      ExecuteTool(NameOf(k), input, env) ==
        if out.Done? then out.value else Error(FailureMessage(out.failure))
  {
    ToolOfInverse(NameOf(k), k);
  }

  /** An input key that is no parameter of the handler is an error for every
      known tool. */
  lemma UnexpectedArgumentIsError(k: ToolKind, input: map<string, Value>, env: Env, key: string)
    requires key in input && !IsParam(Params(k), key)
    ensures ExecuteTool(NameOf(k), input, env) == Error(FailureMessage(BadArguments))
  {
    ToolOfInverse(NameOf(k), k);
  }

  /** A request that raises is an error, not an exception. */
  lemma FailedRequestIsError(k: ToolKind, input: map<string, Value>, env: Env)
    requires Bind(Params(k), input).Done?
    requires match k
      case SearchRestaurants => env.googleKey && env.restaurantsResponse.FetchFailed?
      case SearchMovies => env.serpKey && env.moviesResponse.FetchFailed?
      case SearchPlaces => env.googleKey && env.placesResponse.FetchFailed?
      case GetTravelInfo => env.googleKey && env.travelResponse.FetchFailed?
    ensures ExecuteTool(NameOf(k), input, env) == Error(FailureMessage(RequestFailed))
  {
    ToolOfInverse(NameOf(k), k);
  }

  /** The tool schema entry that describes `k`. */
  function DefinitionOf(k: ToolKind): (d: ToolDefinition)
    ensures d in Definitions && d.name == NameOf(k)
  {
    match k
    case SearchRestaurants => Definitions[0]
    case SearchMovies => Definitions[1]
    case SearchPlaces => Definitions[2]
    case GetTravelInfo => Definitions[3]
  }

  /** The declared names are exactly the dispatched ones, in both
      directions. */
  lemma DefinitionsMatchDispatch(name: string)
    ensures name in DeclaredNames() <==> ToolOf(name).Some?
  {
    var names := DeclaredNames();
    assert names == ["search_restaurants", "search_movies", "search_places", "get_travel_info"];
  }

  /** Each schema entry agrees with its handler's signature: every declared
      property is a parameter, and every parameter without a default is
      declared required. */
  lemma DefinitionsMatchSignatures(k: ToolKind)
    ensures forall p :: p in DefinitionOf(k).properties ==> IsParam(Params(k), p.name)
    ensures forall q :: q in Params(k) && q.default.None? ==> q.name in DefinitionOf(k).required
  {
    var d, ps := DefinitionOf(k), Params(k);
    forall p | p in d.properties ensures IsParam(ps, p.name) {
      match k
      case SearchRestaurants =>
        if p == d.properties[0] { assert ps[0].name == p.name; }
        else if p == d.properties[1] { assert ps[1].name == p.name; }
        else { assert ps[2].name == p.name; }
      case SearchMovies =>
        if p == d.properties[0] { assert ps[0].name == p.name; }
        else { assert ps[1].name == p.name; }
      case SearchPlaces =>
        if p == d.properties[0] { assert ps[0].name == p.name; }
        else if p == d.properties[1] { assert ps[1].name == p.name; }
        else { assert ps[2].name == p.name; }
      case GetTravelInfo =>
        if p == d.properties[0] { assert ps[0].name == p.name; }
        else { assert ps[1].name == p.name; }
    }
  }

  /** The request of `k` did not raise (or was not made). */
  predicate RequestSucceeds(k: ToolKind, env: Env) {
    match k
    case SearchRestaurants => !env.googleKey || env.restaurantsResponse.Fetched?
    case SearchMovies => !env.serpKey || env.moviesResponse.Fetched?
    case SearchPlaces => !env.googleKey || env.placesResponse.Fetched?
    case GetTravelInfo => !env.googleKey || env.travelResponse.Fetched?
  }

  /** An input the schema admits binds to the handler's parameters. */
  lemma ConformingInputBinds(k: ToolKind, input: map<string, Value>)
    requires Conforms(DefinitionOf(k), input)
    ensures Bind(Params(k), input).Done?
  {
    DefinitionsMatchSignatures(k);
    var d, ps := DefinitionOf(k), Params(k);
    forall key | key in input ensures IsParam(ps, key) {
      var t := PropertyType(d, key);
      assert Property(key, t.value) in d.properties;
    }
  }

  /** An input the schema admits gives `max_budget_per_person` as an integer and never
      gives `limit`. */
  lemma ConformingRestaurantsInput(input: map<string, Value>)
    requires Conforms(DefinitionOf(SearchRestaurants), input)
    ensures "max_budget_per_person" in input && input["max_budget_per_person"].IntVal?
    ensures "limit" !in input
  {
    var d := DefinitionOf(SearchRestaurants);
    assert "max_budget_per_person" in d.required;
    assert PropertyType(d, "max_budget_per_person") == Some(IntegerType);
    assert PropertyType(d, "limit").None?;
  }

  lemma ConformingRestaurantsCall(input: map<string, Value>, env: Env)
    requires Conforms(DefinitionOf(SearchRestaurants), input)
    requires RequestSucceeds(SearchRestaurants, env)
    ensures ExecuteTool(NameOf(SearchRestaurants), input, env).RestaurantList?
  {
    var k := SearchRestaurants;
    ToolOfInverse(NameOf(k), k);
    ConformingInputBinds(k, input);
    ConformingRestaurantsInput(input);
    var args := Bind(Params(k), input).value;
    assert args[1] == input["max_budget_per_person"] && args[3] == IntVal(5);
  }

  /** An input the schema admits gives `max_ticket_price` as an integer and never
      gives `limit`. */
  lemma ConformingMoviesInput(input: map<string, Value>)
    requires Conforms(DefinitionOf(SearchMovies), input)
    ensures "max_ticket_price" in input && input["max_ticket_price"].IntVal?
    ensures "limit" !in input
  {
    var d := DefinitionOf(SearchMovies);
    assert "max_ticket_price" in d.required;
    assert PropertyType(d, "max_ticket_price") == Some(IntegerType);
    assert PropertyType(d, "limit").None?;
  }

  lemma ConformingMoviesCall(input: map<string, Value>, env: Env)
    requires Conforms(DefinitionOf(SearchMovies), input)
    requires RequestSucceeds(SearchMovies, env)
    ensures ExecuteTool(NameOf(SearchMovies), input, env).MovieList?
  {
    var k := SearchMovies;
    ToolOfInverse(NameOf(k), k);
    ConformingInputBinds(k, input);
    ConformingMoviesInput(input);
    var args := Bind(Params(k), input).value;
    assert args[1] == input["max_ticket_price"] && args[2] == IntVal(5);
  }

  /** An input the schema admits gives `max_entry_fee` as an integer and never
      gives `limit`. */
  lemma ConformingPlacesInput(input: map<string, Value>)
    requires Conforms(DefinitionOf(SearchPlaces), input)
    ensures "max_entry_fee" in input && input["max_entry_fee"].IntVal?
    ensures "limit" !in input
  {
    var d := DefinitionOf(SearchPlaces);
    assert "max_entry_fee" in d.required;
    assert PropertyType(d, "max_entry_fee") == Some(IntegerType);
    assert PropertyType(d, "limit").None?;
  }

  lemma ConformingPlacesCall(input: map<string, Value>, env: Env)
    requires Conforms(DefinitionOf(SearchPlaces), input)
    requires RequestSucceeds(SearchPlaces, env)
    ensures ExecuteTool(NameOf(SearchPlaces), input, env).PlaceList?
  {
    var k := SearchPlaces;
    ToolOfInverse(NameOf(k), k);
    ConformingInputBinds(k, input);
    ConformingPlacesInput(input);
    var args := Bind(Params(k), input).value;
    assert args[1] == input["max_entry_fee"] && args[3] == IntVal(6);
  }

  /** A call whose input the schema admits never fails on its arguments: it
      yields the tool's own payload unless the request itself raised. */
  lemma ConformingCallSucceeds(k: ToolKind, input: map<string, Value>, env: Env)
    requires Conforms(DefinitionOf(k), input)
    requires RequestSucceeds(k, env)
    ensures Answers(k, ExecuteTool(NameOf(k), input, env))
  {
    match k
    case SearchRestaurants => ConformingRestaurantsCall(input, env);
    case SearchMovies => ConformingMoviesCall(input, env);
    case SearchPlaces => ConformingPlacesCall(input, env);
    case GetTravelInfo =>
      ToolOfInverse(NameOf(k), k);
      ConformingInputBinds(k, input);
  }

  /** However it was produced, a restaurant list from `execute_tool` was
      asked for with an integer budget and costs at most half of it. */
  lemma ExecutedRestaurantsWithinBudget(input: map<string, Value>, env: Env)
    requires ExecuteTool(NameOf(SearchRestaurants), input, env).RestaurantList?
    ensures "max_budget_per_person" in input && input["max_budget_per_person"].IntVal?
    ensures forall r :: r in ExecuteTool(NameOf(SearchRestaurants), input, env).restaurants ==>
      2 * r.estimatedCost <= input["max_budget_per_person"].i
  {
    ToolOfInverse(NameOf(SearchRestaurants), SearchRestaurants);
    var ps := Params(SearchRestaurants);
    assert ps[1] in ps;
    var args := Bind(ps, input).value;
    if env.googleKey {
      var body := env.restaurantsResponse.body;
      Restaurants.RestaurantResultsHalfBudget(body.GetOr([]), args[0], args[1].i, args[3].i);
    }
  }
}
