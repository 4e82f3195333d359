/** Restaurant search: the built-in catalogue used when no Google key is
    configured, the price-level to cost mapping, and the shaping of a Places
    response into restaurant records with a budget cut-off. */
module Restaurants {
  import opened Common
  import opened Raw

  /** One restaurant as the tool reports it. Catalogue entries carry no
      price level or place id; the model writes those as `None`. The address
      is a `Value` because the caller's `area` argument is copied into it
      unchanged when the service gives no address. */
  datatype Restaurant = Restaurant(
    name: Option<string>,
    address: Value,
    ratingTenths: int,
    priceLevel: Option<int>,
    estimatedCost: int,
    mapsUrl: string,
    placeId: Option<string>)

  function Entry(name: string, address: string, ratingTenths: int, cost: int, url: string): (r: Restaurant) {
    Restaurant(Some(name), StrVal(address), ratingTenths, None, cost, url, None)
  }

  /** The seven built-in restaurants, in their fixed order. */
  const Catalogue: seq<Restaurant> := [
    Entry("Paradise Biryani", "MG Road, Secunderabad", 44, 320,
          "https://maps.google.com/?q=Paradise+Biryani+Hyderabad"),
    Entry("Bawarchi Restaurant", "RTC X Roads, Hyderabad", 43, 280,
          "https://maps.google.com/?q=Bawarchi+Hyderabad"),
    Entry("Rayalaseema Ruchulu", "Banjara Hills, Hyderabad", 42, 350,
          "https://maps.google.com/?q=Rayalaseema+Ruchulu+Hyderabad"),
    Entry("AB's – Absolute Barbecues", "Jubilee Hills, Hyderabad", 45, 700,
          "https://maps.google.com/?q=AB%27s+Absolute+Barbecues+Hyderabad"),
    Entry("Ohri's Jiva Imperia", "Basheer Bagh, Hyderabad", 41, 600,
          "https://maps.google.com/?q=Ohri%27s+Hyderabad"),
    Entry("Shah Ghouse Cafe", "Tolichowki, Hyderabad", 45, 200,
          "https://maps.google.com/?q=Shah+Ghouse+Hyderabad"),
    Entry("Chutneys", "Banjara Hills, Hyderabad", 43, 250,
          "https://maps.google.com/?q=Chutneys+Hyderabad")
  ]

  /** `estimated_cost <= budget * 0.5`, in exact integers. */
  function Affordable(budget: int): (affordable: Restaurant -> bool) {
    (r: Restaurant) => 2 * r.estimatedCost <= budget
  }

  /** The catalogue restaurants costing at most half the budget, at most
      four of them, in catalogue order. */
  function MockRestaurants(budget: int): (r: seq<Restaurant>)
    ensures |r| <= 4
    ensures forall x :: x in r ==> x in Catalogue && 2 * x.estimatedCost <= budget
    ensures r <= Filter(Catalogue, Affordable(budget))
    ensures |r| == Min(4, |Filter(Catalogue, Affordable(budget))|)
  {
    FilterSound(Catalogue, Affordable(budget));
    Slice(Filter(Catalogue, Affordable(budget)), 4)
  }

  /** Fewer than four affordable catalogue entries: every one is listed. */
  lemma MockRestaurantsComplete(budget: int, x: Restaurant)
    requires x in Catalogue && 2 * x.estimatedCost <= budget
    requires |Filter(Catalogue, Affordable(budget))| <= 4
    ensures x in MockRestaurants(budget)
  {
    FilterComplete(Catalogue, Affordable(budget), x);
  }

  /** A budget of 800 allows dishes up to 400: the first four such entries. */
  lemma MockRestaurantsAt800()
    ensures MockRestaurants(800) == [Catalogue[0], Catalogue[1], Catalogue[2], Catalogue[5]]
  {
    var c := Catalogue;
    assert Filter(c, Affordable(800)) == [c[0], c[1], c[2], c[5], c[6]];
  }

  /** The rough per-person cost for a Google price level (1 to 4); any other
      level costs as much as level 2. */
  function CostOfLevel(level: int): (cost: int)
    ensures level == 1 ==> cost == 150
    ensures level == 3 ==> cost == 600
    ensures level == 4 ==> cost == 1200
    ensures level !in {1, 3, 4} ==> cost == 350
    ensures cost in {150, 350, 600, 1200}
  {
    var costMap := map[1 := 150, 2 := 350, 3 := 600, 4 := 1200];
    if level in costMap then costMap[level] else 350
  }

  /** Dearer price levels never cost less. */
  lemma CostOfLevelMonotone(a: int, b: int)
    requires 1 <= a <= b <= 4
    ensures CostOfLevel(a) <= CostOfLevel(b)
  {
  }

  /** The record built from one search result; a missing price level counts
      as 2, a missing address is the requested area, a missing rating 4.0. */
  function ToRestaurant(p: RawPlace, area: Value): (r: Restaurant)
    ensures r.estimatedCost in {150, 350, 600, 1200}
    ensures p.priceLevel.None? ==> r.priceLevel == Some(2) && r.estimatedCost == 350
    ensures p.formattedAddress.None? ==> r.address == area
    ensures r.placeId == p.placeId
  {
    var level := p.priceLevel.GetOr(2);
    Restaurant(
      p.name,
      if p.formattedAddress.Some? then StrVal(p.formattedAddress.value) else area,
      p.ratingTenths.GetOr(40),
      Some(level),
      CostOfLevel(level),
      PlaceUrl(p.placeId),
      p.placeId)
  }

  /** A record's cost is the cost of the result's price level, level 2 when
      the result has none. */
  lemma ToRestaurantCost(p: RawPlace, area: Value)
    ensures ToRestaurant(p, area).priceLevel == Some(p.priceLevel.GetOr(2))
    ensures ToRestaurant(p, area).estimatedCost == CostOfLevel(p.priceLevel.GetOr(2))
  {
  }

  /** `est_cost > max_budget_per_person * 0.45`, in exact integers. */
  predicate TooPricey(cost: int, budget: int) {
    20 * cost > 9 * budget
  }

  /** The complement of `TooPricey`, as a filter predicate. */
  function Fits(budget: int): (fits: Restaurant -> bool) {
    (x: Restaurant) => !TooPricey(x.estimatedCost, budget)
  }

  /** One record per search result, in order, before the budget cut-off. */
  function Shaped(raw: seq<RawPlace>, area: Value): (r: seq<Restaurant>)
    ensures |r| == |raw|
    ensures forall i :: 0 <= i < |raw| ==> r[i] == ToRestaurant(raw[i], area)
  {
    seq(|raw|, i requires 0 <= i < |raw| => ToRestaurant(raw[i], area))
  }

  /** The records of `raw`, in order, leaving out those too pricey for the
      budget. */
  function Kept(raw: seq<RawPlace>, area: Value, budget: int): (r: seq<Restaurant>)
    ensures |r| <= |raw|
    ensures forall x :: x in r ==> !TooPricey(x.estimatedCost, budget)
    decreases |raw|
  {
    if raw == [] then []
    else
      var rest := Kept(raw[..|raw| - 1], area, budget);
      var x := ToRestaurant(raw[|raw| - 1], area);
      if TooPricey(x.estimatedCost, budget) then rest else rest + [x]
  }

  /** Every kept record comes from a raw record, and every raw record whose
      cost fits is kept. */
  lemma {:induction false} KeptMembers(raw: seq<RawPlace>, area: Value, budget: int)
    ensures forall x :: x in Kept(raw, area, budget) ==>
      exists p :: p in raw && x == ToRestaurant(p, area)
    ensures forall p :: p in raw && !TooPricey(ToRestaurant(p, area).estimatedCost, budget) ==>
      ToRestaurant(p, area) in Kept(raw, area, budget)
    decreases |raw|
  {
    if raw != [] {
      var init := raw[..|raw| - 1];
      KeptMembers(init, area, budget);
      assert raw == init + [raw[|raw| - 1]];
      forall x | x in Kept(raw, area, budget)
        ensures exists p :: p in raw && x == ToRestaurant(p, area)
      {
        if x in Kept(init, area, budget) {
          var p :| p in init && x == ToRestaurant(p, area);
          assert p in raw;
        } else {
          assert raw[|raw| - 1] in raw;
        }
      }
    }
  }

  /** The kept records are exactly the shaped results that fit the budget,
      in the order of the results. */
  lemma {:induction false} KeptIsFilter(raw: seq<RawPlace>, area: Value, budget: int)
    ensures Kept(raw, area, budget) == Filter(Shaped(raw, area), Fits(budget))
    decreases |raw|
  {
    if raw != [] {
      var init := raw[..|raw| - 1];
      KeptIsFilter(init, area, budget);
      var x := ToRestaurant(raw[|raw| - 1], area);
      assert Shaped(raw, area) == Shaped(init, area) + [x];
      FilterAppend(Shaped(init, area), [x], Fits(budget));
      assert [x][1..] == [];
    }
  }

  /** What `search_restaurants` returns for a fetched result list: the kept
      records among the first `limit`, or the catalogue when none is kept. */
  function RestaurantResults(raw: seq<RawPlace>, area: Value, budget: int, limit: int): (r: seq<Restaurant>)
    ensures limit >= 0 ==> |r| <= Max(limit, 4)
  {
    var kept := Kept(Slice(raw, limit), area, budget);
    if kept == [] then MockRestaurants(budget) else kept
  }

  /** The loop of `search_restaurants` after the response is decoded. */
  method SearchFetchedRestaurants(raw: seq<RawPlace>, area: Value, budget: int, limit: int)
    returns (results: seq<Restaurant>)
    ensures results == RestaurantResults(raw, area, budget, limit)
  {
    var considered := Slice(raw, limit);
    var kept: seq<Restaurant> := [];
    for i := 0 to |considered|
      invariant kept == Kept(considered[..i], area, budget)
    {
      assert considered[..i + 1][..i] == considered[..i];
      var r := ToRestaurant(considered[i], area);
      if TooPricey(r.estimatedCost, budget) {
        continue;
      }
      kept := kept + [r];
    }
    assert considered[..|considered|] == considered;
    results := if kept == [] then MockRestaurants(budget) else kept;
  }

  /** Results from the service: at most `limit` of them, exactly the records
      of the first `limit` raw results that are within 45% of the budget, in
      the results' order, with none of those left out; otherwise the
      catalogue. */
  lemma RestaurantResultsShape(raw: seq<RawPlace>, area: Value, budget: int, limit: int)
    ensures var kept := Kept(Slice(raw, limit), area, budget);
      var r := RestaurantResults(raw, area, budget, limit);
      (kept == [] ==> r == MockRestaurants(budget)) &&
      (kept != [] ==>
        (limit >= 0 ==> |r| <= limit) &&
        r == Filter(Shaped(Slice(raw, limit), area), Fits(budget)) &&
        (forall x :: x in r ==>
          (20 * x.estimatedCost <= 9 * budget &&
           exists p :: p in Slice(raw, limit) && x == ToRestaurant(p, area))) &&
        (forall p :: p in Slice(raw, limit) && 20 * ToRestaurant(p, area).estimatedCost <= 9 * budget ==>
           ToRestaurant(p, area) in r))
  {
    KeptMembers(Slice(raw, limit), area, budget);
    KeptIsFilter(Slice(raw, limit), area, budget);
  }

  /** Whichever branch produced them, no returned restaurant costs more than
      half the budget. */
  lemma RestaurantResultsHalfBudget(raw: seq<RawPlace>, area: Value, budget: int, limit: int)
    ensures forall x :: x in RestaurantResults(raw, area, budget, limit) ==>
      2 * x.estimatedCost <= budget
  {
    var kept := Kept(Slice(raw, limit), area, budget);
    if kept != [] {
      forall x | x in kept ensures 2 * x.estimatedCost <= budget {
        KeptMembers(Slice(raw, limit), area, budget);
        var p :| p in Slice(raw, limit) && x == ToRestaurant(p, area);
        assert x.estimatedCost >= 150;
      }
    }
  }
}
