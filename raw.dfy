/** The records the external services return, as the tools read them. The
    Places and showtime fields are read with `dict.get`, so each is optional
    and a missing field is `None`. The Distance Matrix fields are read by
    subscript; their `None` stands for the `KeyError` or `IndexError` that
    `get_travel_info` catches. The fetch itself is not modelled: these
    records are the input the result-shaping code receives. */
module Raw {
  import opened Common

  /** One entry of a Google Places text search `results` list. The rating is
      kept in tenths of a point (a 4.3 rating is 43). */
  datatype RawPlace = RawPlace(
    name: Option<string>,
    formattedAddress: Option<string>,
    ratingTenths: Option<int>,
    priceLevel: Option<int>,
    placeId: Option<string>)

  /** One entry of a SerpAPI `showtimes` list. */
  datatype RawShowtime = RawShowtime(
    name: Option<string>,
    rating: Option<string>,
    duration: Option<string>)

  /** One element of a Distance Matrix row: `distance.value` in metres and
      `duration.value` in seconds, each `None` where subscripting either
      level would raise `KeyError`. */
  datatype RawElement = RawElement(distanceMeters: Option<int>, durationSeconds: Option<int>)

  /** A Distance Matrix row; `elements` is `None` where `row["elements"]`
      would raise `KeyError`. */
  datatype RawRow = RawRow(elements: Option<seq<RawElement>>)

  /** A Distance Matrix response; `rows` is `None` where `data["rows"]`
      would raise `KeyError`. */
  datatype RawMatrix = RawMatrix(rows: Option<seq<RawRow>>)

  /** The Google Maps link the tools build from a place id. Python's
      f-string writes a missing id as `None`. */
  function PlaceUrl(placeId: Option<string>): (url: string)
    ensures "https://www.google.com/maps/place/?q=place_id:" <= url
  {
    "https://www.google.com/maps/place/?q=place_id:" + placeId.GetOr("None")
  }
}
