/** Attraction search: the entry-fee lookup by name, the built-in list of
    attractions used when no Google key is configured, and the shaping of a
    Places response into attraction records. */
module Places {
  import opened Common
  import opened Raw

  /** Known attractions by a lower-case fragment of their name, in the
      order they are tried, with their entry fee in rupees. */
  const FeeTable: seq<(string, int)> := [
    ("golconda", 35), ("charminar", 25), ("ramoji", 1150),
    ("birla", 0), ("hussain sagar", 0), ("lumbini", 50),
    ("nehru zoo", 80), ("salar jung", 20), ("qutb shahi", 15),
    ("snow world", 799), ("wonderla", 999)
  ]

  /** The fee assumed for an attraction the table does not know. */
  const DefaultFee := 50

  /** The value of the first entry of `table` whose key occurs in `s`, or
      `default` when none does. */
  function FirstMatch(table: seq<(string, int)>, s: string, default: int): (v: int)
    ensures v == default || exists i :: 0 <= i < |table| && v == table[i].1
  {
    if table == [] then default
    else if Contains(s, table[0].0) then table[0].1
    else
      var v := FirstMatch(table[1..], s, default);
      assert v != default ==> exists i :: 0 <= i < |table| - 1 && v == table[1..][i].1;
      assert forall i :: 0 <= i < |table| - 1 ==> table[1..][i] == table[i + 1];
      v
  }

  /** `i` is the first entry of `table` whose key occurs in `s`. */
  predicate IsFirstMatch(table: seq<(string, int)>, s: string, i: int) {
    0 <= i < |table| && Contains(s, table[i].0) &&
    forall j :: 0 <= j < i ==> !Contains(s, table[j].0)
  }

  /** Either some key matches and the lookup returns the value of the first
      matching key, or no key matches and it returns the default. */
  lemma {:induction false} FirstMatchSpec(table: seq<(string, int)>, s: string, default: int)
    ensures (exists i :: IsFirstMatch(table, s, i) && FirstMatch(table, s, default) == table[i].1) ||
            ((forall j :: 0 <= j < |table| ==> !Contains(s, table[j].0)) &&
             FirstMatch(table, s, default) == default)
  {
    if table != [] && !Contains(s, table[0].0) {
      FirstMatchSpec(table[1..], s, default);
      if i :| IsFirstMatch(table[1..], s, i) && FirstMatch(table[1..], s, default) == table[1..][i].1 {
        assert IsFirstMatch(table, s, i + 1);
      } else {
        forall j | 0 <= j < |table| ensures !Contains(s, table[j].0) {
          if j > 0 {
            assert table[1..][j - 1] == table[j];
          }
        }
      }
    } else if table != [] {
      assert IsFirstMatch(table, s, 0);
    }
  }

  /** The fee assumed for an attraction with this name. */
  function EntryFee(name: string): (fee: int) {
    FirstMatch(FeeTable, Lower(name), DefaultFee)
  }

  /** `_estimate_entry_fee`: lower-case the name, then try the keys in table
      order and return the value of the first one that occurs in it. */
  method EstimateEntryFee(name: string) returns (fee: int)
    ensures fee == EntryFee(name)
    ensures (exists i :: IsFirstMatch(FeeTable, Lower(name), i) && fee == FeeTable[i].1) ||
            ((forall j :: 0 <= j < |FeeTable| ==> !Contains(Lower(name), FeeTable[j].0)) &&
             fee == DefaultFee)
  {
    var nameLower := Lower(name);
    for i := 0 to |FeeTable|
      invariant forall j :: 0 <= j < i ==> !Contains(nameLower, FeeTable[j].0)
      invariant FirstMatch(FeeTable[i..], nameLower, DefaultFee) == EntryFee(name)
    {
      assert FeeTable[i..][1..] == FeeTable[i + 1..];
      var (key, value) := FeeTable[i];
      if Contains(nameLower, key) {
        assert IsFirstMatch(FeeTable, nameLower, i);
        return value;
      }
    }
    return DefaultFee;
  }

  /** The fee is always a table value or the default. */
  lemma EntryFeeRange(name: string)
    ensures EntryFee(name) in {35, 25, 1150, 0, 50, 80, 20, 15, 799, 999}
  {
    FirstMatchSpec(FeeTable, Lower(name), DefaultFee);
  }

  /** Matching ignores the case of ASCII letters in the name. */
  lemma EntryFeeCaseInsensitive(name: string)
    ensures EntryFee(Lower(name)) == EntryFee(name)
  {
    LowerIdempotent(name);
  }

  /** The name reaches a known attraction's key: the fee is that of the
      first key in table order that it contains. */
  lemma EntryFeeOfKnown(name: string, i: int)
    requires IsFirstMatch(FeeTable, Lower(name), i)
    ensures EntryFee(name) == FeeTable[i].1
  {
    FirstMatchSpec(FeeTable, Lower(name), DefaultFee);
    if k :| IsFirstMatch(FeeTable, Lower(name), k) && EntryFee(name) == FeeTable[k].1 {
      assert !(k < i) && !(i < k);
    }
  }

  /** A name that starts with a table key gets that key's fee when no earlier
      key occurs in it: "Golconda Fort" costs 35. */
  lemma EntryFeeGolconda()
    ensures EntryFee("Golconda Fort") == 35
  {
    var s := Lower("Golconda Fort");
    assert s[..8] == "golconda";
    assert Contains(s, "golconda");
  }

  /** One attraction as the tool reports it. The address is a `Value`
      because the caller's `area` argument is copied into it. */
  datatype Place = Place(
    name: Option<string>,
    address: Value,
    ratingTenths: int,
    entryFee: int,
    mapsUrl: string,
    visitDurationMins: int)

  function Entry(name: string, address: string, ratingTenths: int, fee: int, mins: int, url: string): (p: Place) {
    Place(Some(name), StrVal(address), ratingTenths, fee, url, mins)
  }

  /** The six built-in attractions, in their fixed order. */
  const Catalogue: seq<Place> := [
    Entry("Hussain Sagar Lake & Tank Bund", "Tank Bund Road, Hyderabad", 43, 0, 60,
          "https://maps.google.com/?q=Hussain+Sagar+Lake"),
    Entry("Golconda Fort", "Ibrahim Bagh, Hyderabad", 44, 35, 90,
          "https://maps.google.com/?q=Golconda+Fort"),
    Entry("Charminar", "Charminar, Old City, Hyderabad", 45, 25, 60,
          "https://maps.google.com/?q=Charminar+Hyderabad"),
    Entry("Lumbini Park", "Secretariat Road, Hyderabad", 41, 50, 60,
          "https://maps.google.com/?q=Lumbini+Park+Hyderabad"),
    Entry("Birla Mandir", "Naubath Pahad, Hyderabad", 46, 0, 45,
          "https://maps.google.com/?q=Birla+Mandir+Hyderabad"),
    Entry("Inorbit Mall", "HITEC City, Hyderabad", 43, 0, 120,
          "https://maps.google.com/?q=Inorbit+Mall+Hyderabad")
  ]

  /** `entry_fee <= budget * 0.15`, in exact integers. */
  function FeeWithin(budget: int): (within: Place -> bool) {
    (p: Place) => 100 * p.entryFee <= 15 * budget
  }

  /** The built-in attractions whose fee is at most 15% of the budget, at
      most four, in list order. The interests argument is ignored by the
      source and is not a parameter here. */
  function MockPlaces(budget: int): (r: seq<Place>)
    ensures |r| <= 4
    ensures forall p :: p in r ==> p in Catalogue && 100 * p.entryFee <= 15 * budget
    ensures r <= Filter(Catalogue, FeeWithin(budget))
    ensures |r| == Min(4, |Filter(Catalogue, FeeWithin(budget))|)
  {
    FilterSound(Catalogue, FeeWithin(budget));
    Slice(Filter(Catalogue, FeeWithin(budget)), 4)
  }

  /** The default budget of 200 allows fees up to 30: the first four such. */
  lemma MockPlacesAt200()
    ensures MockPlaces(200) == [Catalogue[0], Catalogue[2], Catalogue[4], Catalogue[5]]
  {
    var c := Catalogue;
    assert Filter(c, FeeWithin(200)) == [c[0], c[2], c[4], c[5]];
  }

  /** The record built from one search result: the fee is looked up by name
      (an absent name is the empty string) and the visit lasts an hour. */
  function ToPlace(p: RawPlace, area: Value): (r: Place)
    ensures p.formattedAddress.None? ==> r.address == area
    ensures r.entryFee in {35, 25, 1150, 0, 50, 80, 20, 15, 799, 999}
    ensures r.visitDurationMins == 60
  {
    EntryFeeRange(p.name.GetOr(""));
    Place(
      p.name,
      if p.formattedAddress.Some? then StrVal(p.formattedAddress.value) else area,
      p.ratingTenths.GetOr(40),
      EntryFee(p.name.GetOr("")),
      PlaceUrl(p.placeId),
      60)
  }

  /** One attraction per search result, in order. */
  function Visited(raw: seq<RawPlace>, area: Value): (r: seq<Place>)
    ensures |r| == |raw|
    ensures forall i :: 0 <= i < |raw| ==> r[i] == ToPlace(raw[i], area)
  {
    seq(|raw|, i requires 0 <= i < |raw| => ToPlace(raw[i], area))
  }

  /** What `search_places` returns for a fetched result list: one record per
      result among the first `limit`, or the built-in list when there is
      none. */
  function PlaceResults(raw: seq<RawPlace>, area: Value, budget: int, limit: int): (r: seq<Place>)
    ensures limit >= 0 ==> |r| <= Max(limit, 4)
  {
    var visited := Visited(Slice(raw, limit), area);
    if visited == [] then MockPlaces(budget) else visited
  }

  /** The loop of `search_places` after the response is decoded. */
  method SearchFetchedPlaces(raw: seq<RawPlace>, area: Value, budget: int, limit: int)
    returns (results: seq<Place>)
    ensures results == PlaceResults(raw, area, budget, limit)
  {
    var considered := Slice(raw, limit);
    results := [];
    for i := 0 to |considered|
      invariant |results| == i
      invariant forall j :: 0 <= j < i ==> results[j] == ToPlace(considered[j], area)
    {
      var p := considered[i];
      var fee := EstimateEntryFee(p.name.GetOr(""));
      results := results + [Place(
        p.name,
        if p.formattedAddress.Some? then StrVal(p.formattedAddress.value) else area,
        p.ratingTenths.GetOr(40),
        fee,
        PlaceUrl(p.placeId),
        60)];
    }
    if results == [] {
      results := MockPlaces(budget);
    }
  }

  /** Every result among the first `limit` yields exactly one record, in
      order, with its fee looked up by name and a one-hour visit; with none,
      the result is the built-in list. */
  lemma PlaceResultsShape(raw: seq<RawPlace>, area: Value, budget: int, limit: int)
    ensures var considered := Slice(raw, limit);
      var r := PlaceResults(raw, area, budget, limit);
      (considered == [] ==> r == MockPlaces(budget)) &&
      (considered != [] ==>
        |r| == |considered| && (limit >= 0 ==> |r| <= limit) &&
        r == Visited(considered, area) &&
        forall i :: 0 <= i < |r| ==>
          r[i].name == considered[i].name &&
          r[i].entryFee == EntryFee(considered[i].name.GetOr("")) &&
          r[i].visitDurationMins == 60)
  {
  }
}
