/** The static tool schema offered to the reasoning service: each tool's
    name, its declared input properties with their JSON types, and which of
    them are required. The natural-language descriptions are not modelled. */
module ToolDefinitions {
  import opened Common

  datatype JsonType = StringType | IntegerType

  datatype Property = Property(name: string, typ: JsonType)

  datatype ToolDefinition = ToolDefinition(
    name: string,
    properties: seq<Property>,
    required: seq<string>)

  /** `TOOL_DEFINITIONS`, in its declared order. */
  const Definitions: seq<ToolDefinition> := [
    ToolDefinition("search_restaurants",
      [Property("area", StringType), Property("max_budget_per_person", IntegerType),
       Property("cuisine", StringType)],
      ["area", "max_budget_per_person"]),
    ToolDefinition("search_movies",
      [Property("preferred_genre", StringType), Property("max_ticket_price", IntegerType)],
      ["max_ticket_price"]),
    ToolDefinition("search_places",
      [Property("interests", StringType), Property("max_entry_fee", IntegerType),
       Property("area", StringType)],
      ["max_entry_fee"]),
    ToolDefinition("get_travel_info",
      [Property("origin", StringType), Property("destination", StringType)],
      ["origin", "destination"])
  ]

  /** The declared tool names, in order. */
  function DeclaredNames(): (names: seq<string>)
    ensures |names| == |Definitions|
    ensures forall i :: 0 <= i < |Definitions| ==> names[i] == Definitions[i].name
  {
    seq(|Definitions|, i requires 0 <= i < |Definitions| => Definitions[i].name)
  }

  /** The declared type of property `name` of tool `d`, if it has one. */
  function PropertyType(d: ToolDefinition, name: string): (t: Option<JsonType>)
    ensures t.Some? <==> exists p :: p in d.properties && p.name == name
    ensures t.Some? ==> Property(name, t.value) in d.properties
  {
    TypeIn(d.properties, name)
  }

  function TypeIn(ps: seq<Property>, name: string): (t: Option<JsonType>)
    ensures t.Some? <==> exists p :: p in ps && p.name == name
    ensures t.Some? ==> Property(name, t.value) in ps
  {
    if ps == [] then None
    else if ps[0].name == name then Some(ps[0].typ)
    else
      var t := TypeIn(ps[1..], name);
      assert forall p :: p in ps[1..] ==> p in ps;
      assert forall p :: p in ps && p != ps[0] ==> p in ps[1..];
      t
  }

  /** A tool definition is well formed when it names only declared
      properties as required and declares no property twice. */
  predicate WellFormed(d: ToolDefinition) {
    (forall r :: r in d.required ==> PropertyType(d, r).Some?) &&
    (forall i, j :: 0 <= i < j < |d.properties| ==> d.properties[i].name != d.properties[j].name)
  }

  lemma RestaurantsWellFormed()
    ensures WellFormed(Definitions[0])
  {
    var d := Definitions[0];
    assert PropertyType(d, "area").Some? && PropertyType(d, "max_budget_per_person").Some?;
  }

  lemma MoviesWellFormed()
    ensures WellFormed(Definitions[1])
  {
    assert PropertyType(Definitions[1], "max_ticket_price").Some?;
  }

  lemma PlacesWellFormed()
    ensures WellFormed(Definitions[2])
  {
    assert PropertyType(Definitions[2], "max_entry_fee").Some?;
  }

  lemma TravelWellFormed()
    ensures WellFormed(Definitions[3])
  {
    var d := Definitions[3];
    assert PropertyType(d, "origin").Some? && PropertyType(d, "destination").Some?;
  }

  /** Every tool's required list names only its declared properties, and no
      tool name is declared twice. */
  lemma DefinitionsWellFormed()
    ensures forall d :: d in Definitions ==> WellFormed(d)
    ensures forall i, j :: 0 <= i < j < |Definitions| ==> Definitions[i].name != Definitions[j].name
  {
    RestaurantsWellFormed();
    MoviesWellFormed();
    PlacesWellFormed();
    TravelWellFormed();
    assert Definitions[1].name[7] != Definitions[2].name[7];
  }

  /** A JSON value of the declared type. */
  predicate HasType(v: Value, t: JsonType) {
    match t
    case StringType => v.StrVal?
    case IntegerType => v.IntVal?
  }

  /** An input object that the schema of `d` admits: only declared
      properties, each of its declared type, and every required one. */
  predicate Conforms(d: ToolDefinition, input: map<string, Value>) {
    (forall k :: k in input ==> PropertyType(d, k).Some? && HasType(input[k], PropertyType(d, k).value)) &&
    (forall r :: r in d.required ==> r in input)
  }
}
