/** Movie search: the three-tier ticket price estimate, the built-in
    listings used when no SerpAPI key is configured, and the shaping of a
    `showtimes` response into movie records. */
module Movies {
  import opened Common
  import opened Raw

  /** One movie showing as the tool reports it. The genre is a `Value`
      because the caller's `preferred_genre` argument is copied into it. */
  datatype Movie = Movie(
    title: string,
    theatre: string,
    genre: Value,
    rating: string,
    ticketPrice: int,
    duration: string,
    bookingUrl: string)

  /** The ticket price assumed for a caller's maximum: premium, standard or
      matinee. */
  function EstimateTicketPrice(maxPrice: int): (price: int)
    ensures price in {150, 220, 350}
  {
    if maxPrice >= 400 then 350
    else if maxPrice >= 250 then 220
    else 150
  }

  /** The price depends only on which threshold the maximum reaches. */
  lemma TicketPriceTiers(maxPrice: int)
    ensures EstimateTicketPrice(maxPrice) == 350 <==> maxPrice >= 400
    ensures EstimateTicketPrice(maxPrice) == 220 <==> 250 <= maxPrice < 400
    ensures EstimateTicketPrice(maxPrice) == 150 <==> maxPrice < 250
  {
  }

  /** A higher maximum never gives a lower estimate. */
  lemma TicketPriceMonotone(a: int, b: int)
    requires a <= b
    ensures EstimateTicketPrice(a) <= EstimateTicketPrice(b)
  {
  }

  /** The estimate stays within the caller's maximum once that is at least
      150; below 150 it exceeds it (a maximum of 100 gives 150). */
  lemma TicketPriceWithinMaximum(maxPrice: int)
    ensures maxPrice >= 150 ==> EstimateTicketPrice(maxPrice) <= maxPrice
    ensures maxPrice < 150 ==> EstimateTicketPrice(maxPrice) > maxPrice
  {
  }

  const ListingsUrl := "https://in.bookmyshow.com/movies/hyderabad"

  /** The three built-in listings, in their fixed order. */
  const Catalogue: seq<Movie> := [
    Movie("Check BookMyShow for Latest Shows", "AMB Cinemas, Gachibowli",
          StrVal("Action"), "8.1/10", 300, "2h 25m", ListingsUrl),
    Movie("PVR Inorbit – Current Blockbuster", "PVR Inorbit Mall, HITEC City",
          StrVal("Thriller"), "7.8/10", 350, "2h 10m", ListingsUrl),
    Movie("INOX GVK One – Matinee Show", "INOX GVK One, Banjara Hills",
          StrVal("Comedy"), "7.2/10", 200, "1h 55m", ListingsUrl)
  ]

  /** `ticket_price <= budget`. */
  function WithinPrice(budget: int): (within: Movie -> bool) {
    (m: Movie) => m.ticketPrice <= budget
  }

  /** The built-in listings whose price is within the budget, at most three,
      in listing order. The genre argument is ignored by the source and is
      not a parameter here. */
  function MockMovies(budget: int): (r: seq<Movie>)
    ensures |r| <= 3
    ensures forall m :: m in r ==> m in Catalogue && m.ticketPrice <= budget
    ensures r == Filter(Catalogue, WithinPrice(budget))
  {
    FilterSound(Catalogue, WithinPrice(budget));
    Slice(Filter(Catalogue, WithinPrice(budget)), 3)
  }

  /** Every listing within the budget is offered. */
  lemma MockMoviesComplete(budget: int, m: Movie)
    requires m in Catalogue && m.ticketPrice <= budget
    ensures m in MockMovies(budget)
  {
    FilterComplete(Catalogue, WithinPrice(budget), m);
  }

  /** A budget below 200 leaves no listing at all. */
  lemma MockMoviesEmptyBelow200(budget: int)
    requires budget < 200
    ensures MockMovies(budget) == []
  {
    var c, p := Catalogue, WithinPrice(budget);
    assert c[2..][1..] == [] && !p(c[2]);
    assert Filter(c[2..], p) == [];
    assert c[1..][1..] == c[2..] && !p(c[1]);
    assert Filter(c[1..], p) == [];
    assert !p(c[0]);
  }

  /** The record built from one showtime; the genre is the requested one when
      that is truthy, else "Drama". */
  function ToMovie(m: RawShowtime, genre: Value, maxPrice: int): (r: Movie)
    ensures m.name.None? ==> r.title == "Unknown"
    ensures r.genre == if Truthy(genre) then genre else StrVal("Drama")
    ensures r.ticketPrice in {150, 220, 350}
  {
    Movie(
      m.name.GetOr("Unknown"),
      "PVR / INOX / AMB Cinemas",
      if Truthy(genre) then genre else StrVal("Drama"),
      m.rating.GetOr("7.5/10"),
      EstimateTicketPrice(maxPrice),
      m.duration.GetOr("2h 30m"),
      "https://in.bookmyshow.com")
  }

  /** One movie per showtime, in order. */
  function Shown(raw: seq<RawShowtime>, genre: Value, maxPrice: int): (r: seq<Movie>)
    ensures |r| == |raw|
    ensures forall i :: 0 <= i < |raw| ==> r[i] == ToMovie(raw[i], genre, maxPrice)
  {
    seq(|raw|, i requires 0 <= i < |raw| => ToMovie(raw[i], genre, maxPrice))
  }

  /** What `search_movies` returns for a fetched `showtimes` list: one record
      per showtime among the first `limit`, or the built-in listings when
      there is none. */
  function MovieResults(raw: seq<RawShowtime>, genre: Value, maxPrice: int, limit: int): (r: seq<Movie>)
    ensures limit >= 0 ==> |r| <= Max(limit, 3)
  {
    var shown := Shown(Slice(raw, limit), genre, maxPrice);
    if shown == [] then MockMovies(maxPrice) else shown
  }

  /** The loop of `search_movies` after the response is decoded. */
  method SearchFetchedMovies(raw: seq<RawShowtime>, genre: Value, maxPrice: int, limit: int)
    returns (results: seq<Movie>)
    ensures results == MovieResults(raw, genre, maxPrice, limit)
  {
    var considered := Slice(raw, limit);
    results := [];
    for i := 0 to |considered|
      invariant |results| == i
      invariant forall j :: 0 <= j < i ==> results[j] == ToMovie(considered[j], genre, maxPrice)
    {
      results := results + [ToMovie(considered[i], genre, maxPrice)];
    }
    if results == [] {
      results := MockMovies(maxPrice);
    }
  }

  /** Every showtime among the first `limit` yields exactly one record, in
      order, each priced by the estimate for the caller's maximum; with none,
      the result is the built-in listings. */
  lemma MovieResultsShape(raw: seq<RawShowtime>, genre: Value, maxPrice: int, limit: int)
    ensures var considered := Slice(raw, limit);
      var r := MovieResults(raw, genre, maxPrice, limit);
      (considered == [] ==> r == MockMovies(maxPrice)) &&
      (considered != [] ==>
        |r| == |considered| && (limit >= 0 ==> |r| <= limit) &&
        r == Shown(considered, genre, maxPrice) &&
        forall i :: 0 <= i < |r| ==>
          r[i].title == considered[i].name.GetOr("Unknown") &&
          r[i].ticketPrice == EstimateTicketPrice(maxPrice))
  {
  }

  /** For a maximum of at least 150 no returned ticket exceeds it, on either
      branch. */
  lemma MovieResultsWithinMaximum(raw: seq<RawShowtime>, genre: Value, maxPrice: int, limit: int)
    requires maxPrice >= 150
    ensures forall m :: m in MovieResults(raw, genre, maxPrice, limit) ==> m.ticketPrice <= maxPrice
  {
    TicketPriceWithinMaximum(maxPrice);
  }
}
