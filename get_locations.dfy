/**
  The location list (`getLocations`): every `location` element of the locations
  document becomes a `Location` record, field by field from fixed source keys,
  with two closed-vocabulary fields.
*/
module GetLocations {
  import opened Wrappers
  import opened Tree
  import opened Decoders
  import opened Common

  /** `(0)` parcel machine, `(1)` post office. */
  datatype LocationType = ParcelMachine | PostOffice

  datatype Location = Location(
    id: string,
    name: string,
    locationType: LocationType,
    country: CountryCode,
    county: string,
    town: string,
    village: string,
    smallPlace: string,
    street: string,
    area: string,
    house: string,
    apartment: string,
    xCoordinate: string,
    yCoordinate: string)

  const NotTypeFlag := "expected 1 or 0"
  const NotCountry := "expected LT, LV, or EE"

  /** The wire flag of a location type. */
  function TypeFlag(t: LocationType): string {
    match t
    case ParcelMachine => "0"
    case PostOffice => "1"
  }

  /** The `type` field: `'0'` and `'1'` are the only accepted values. */
  function TypeDecoder(n: Node): (r: Result<LocationType>)
    ensures forall t :: r == Ok(t) <==> n == Str(TypeFlag(t))
    ensures r.Err? <==> n !in {Str("0"), Str("1")}
    ensures r.Err? ==> r.msg == NotTypeFlag
  {
    if n == Str("0") then Ok(ParcelMachine)
    else if n == Str("1") then Ok(PostOffice)
    else Err(NotTypeFlag)
  }

  /** The `a0_name` field: exactly `LT`, `LV` or `EE`, kept as they are. */
  function CountryDecoder(n: Node): (r: Result<CountryCode>)
    ensures forall c :: r == Ok(c) <==> n == Str(CountryText(c))
    ensures r.Err? <==> n !in {Str("LT"), Str("LV"), Str("EE")}
    ensures r.Err? ==> r.msg == NotCountry
  {
    if n == Str("LT") || n == Str("LV") || n == Str("EE") then Ok(ParseCountry(n.text).value)
    else Err(NotCountry)
  }

  /** `locationDecoder`: fourteen field decoders, in declaration order. */
  function LocationDecoder(n: Node): Result<Location> {
    var id :- Field("zip", AsString, n);
    var name :- Field("name", AsString, n);
    var locationType :- Field("type", TypeDecoder, n);
    var country :- Field("a0_name", CountryDecoder, n);
    var county :- Field("a1_name", AsString, n);
    var town :- Field("a2_name", AsString, n);
    var village :- Field("a3_name", AsString, n);
    var smallPlace :- Field("a4_name", AsString, n);
    var street :- Field("a5_name", AsString, n);
    var area :- Field("a6_name", AsString, n);
    var house :- Field("a7_name", AsString, n);
    var apartment :- Field("a8_name", AsString, n);
    var x :- Field("x_coordinate", AsString, n);
    var y :- Field("y_coordinate", AsString, n);
    Ok(Location(id, name, locationType, country, county, town, village, smallPlace,
                street, area, house, apartment, x, y))
  }

  // A reference description of the same record, written as a schema: which key
  // feeds each field and which values it accepts.

  datatype Kind = Text | Flag | Country

  const Schema: seq<(string, Kind)> := [
    ("zip", Text), ("name", Text), ("type", Flag), ("a0_name", Country),
    ("a1_name", Text), ("a2_name", Text), ("a3_name", Text), ("a4_name", Text),
    ("a5_name", Text), ("a6_name", Text), ("a7_name", Text), ("a8_name", Text),
    ("x_coordinate", Text), ("y_coordinate", Text)]

  /** What is wrong with key `key` of `n` for a field of kind `kind`, if anything. */
  function FieldProblem(n: Node, key: string, kind: Kind): Option<string> {
    if key !in Keys(n) then Some(MissingField(key))
    else
      var v := n.fields[key];
      match kind
      case Text => if v.Str? then None else Some(NotString)
      case Flag => if v in {Str("0"), Str("1")} then None else Some(NotTypeFlag)
      case Country => if v in {Str("LT"), Str("LV"), Str("EE")} then None else Some(NotCountry)
  }

  /** The problem of the first field of `schema`, from index `i` on, that has one. */
  function FirstProblem(schema: seq<(string, Kind)>, n: Node, i: nat := 0): Option<string>
    requires i <= |schema|
    decreases |schema| - i
  {
    if i == |schema| then None
    else
      match FieldProblem(n, schema[i].0, schema[i].1)
      case Some(e) => Some(e)
      case None => FirstProblem(schema, n, i + 1)
  }

  /** From index `i` on, there is no first problem exactly when no field has a problem. */
  lemma {:induction false} FirstProblemNone(schema: seq<(string, Kind)>, n: Node, i: nat := 0)
    requires i <= |schema|
    ensures FirstProblem(schema, n, i).None? <==>
      forall j | i <= j < |schema| :: FieldProblem(n, schema[j].0, schema[j].1).None?
    decreases |schema| - i
  {
    if i < |schema| {
      FirstProblemNone(schema, n, i + 1);
    }
  }

  /** The text at `key`, for a node the schema accepts. */
  function TextAt(n: Node, key: string): string {
    if key in Keys(n) && n.fields[key].Str? then n.fields[key].text else ""
  }

  /** The record the schema describes: each field read directly from its source key. */
  function LocationFrom(n: Node): Location {
    Location(
      TextAt(n, "zip"), TextAt(n, "name"),
      if TextAt(n, "type") == "0" then ParcelMachine else PostOffice,
      if TextAt(n, "a0_name") == "LT" then LT else if TextAt(n, "a0_name") == "LV" then LV else EE,
      TextAt(n, "a1_name"), TextAt(n, "a2_name"), TextAt(n, "a3_name"), TextAt(n, "a4_name"),
      TextAt(n, "a5_name"), TextAt(n, "a6_name"), TextAt(n, "a7_name"), TextAt(n, "a8_name"),
      TextAt(n, "x_coordinate"), TextAt(n, "y_coordinate"))
  }

  lemma FirstProblemHit(schema: seq<(string, Kind)>, n: Node, i: nat)
    requires i < |schema| && FieldProblem(n, schema[i].0, schema[i].1).Some?
    ensures FirstProblem(schema, n, i) == FieldProblem(n, schema[i].0, schema[i].1)
  {
  }

  lemma FirstProblemSkip(schema: seq<(string, Kind)>, n: Node, i: nat)
    requires i < |schema| && FieldProblem(n, schema[i].0, schema[i].1).None?
    ensures FirstProblem(schema, n, i) == FirstProblem(schema, n, i + 1)
  {
  }

  /** A text field decodes to the text at its key, or fails with the field's problem. */
  lemma TextFieldAgrees(n: Node, key: string)
    ensures Field(key, AsString, n) ==
      match FieldProblem(n, key, Text) case None => Ok(TextAt(n, key)) case Some(e) => Err(e)
  {
  }

  lemma FlagFieldAgrees(n: Node)
    ensures Field("type", TypeDecoder, n) ==
      match FieldProblem(n, "type", Flag)
      case None => Ok(if TextAt(n, "type") == "0" then ParcelMachine else PostOffice)
      case Some(e) => Err(e)
  {
  }

  lemma CountryFieldAgrees(n: Node)
    ensures Field("a0_name", CountryDecoder, n) ==
      match FieldProblem(n, "a0_name", Country)
      case None => Ok(if TextAt(n, "a0_name") == "LT" then LT else if TextAt(n, "a0_name") == "LV" then LV else EE)
      case Some(e) => Err(e)
  {
  }

  /**
    `locationDecoder` agrees with the schema: it yields the record read from the
    fixed source keys when every field is acceptable, and otherwise fails with the
    problem of the first bad field in declaration order. The proof walks the fields
    in stretches.
  */
  lemma LocationDecoderMatchesSchema(n: Node)
    ensures LocationDecoder(n) ==
      match FirstProblem(Schema, n)
      case None => Ok(LocationFrom(n))
      case Some(e) => Err(e)
  {
    TextFieldAgrees(n, "zip");
    if FieldProblem(n, "zip", Text).Some? { FirstProblemHit(Schema, n, 0); return; }
    FirstProblemSkip(Schema, n, 0);
    TextFieldAgrees(n, "name");
    if FieldProblem(n, "name", Text).Some? { FirstProblemHit(Schema, n, 1); return; }
    FirstProblemSkip(Schema, n, 1);
    FlagFieldAgrees(n);
    if FieldProblem(n, "type", Flag).Some? { FirstProblemHit(Schema, n, 2); return; }
    FirstProblemSkip(Schema, n, 2);
    CountryFieldAgrees(n);
    if FieldProblem(n, "a0_name", Country).Some? { FirstProblemHit(Schema, n, 3); return; }
    FirstProblemSkip(Schema, n, 3);
    MatchesFromField4(n);
  }

  lemma MatchesFromField4(n: Node)
    requires FirstProblem(Schema, n) == FirstProblem(Schema, n, 4)
    requires FieldProblem(n, "zip", Text).None?
    requires FieldProblem(n, "name", Text).None?
    requires FieldProblem(n, "type", Flag).None?
    requires FieldProblem(n, "a0_name", Country).None?
    ensures LocationDecoder(n) ==
      match FirstProblem(Schema, n)
      case None => Ok(LocationFrom(n))
      case Some(e) => Err(e)
  {
    TextFieldAgrees(n, "zip");
    TextFieldAgrees(n, "name");
    FlagFieldAgrees(n);
    CountryFieldAgrees(n);
    TextFieldAgrees(n, "a1_name");
    if FieldProblem(n, "a1_name", Text).Some? { FirstProblemHit(Schema, n, 4); return; }
    FirstProblemSkip(Schema, n, 4);
    TextFieldAgrees(n, "a2_name");
    if FieldProblem(n, "a2_name", Text).Some? { FirstProblemHit(Schema, n, 5); return; }
    FirstProblemSkip(Schema, n, 5);
    TextFieldAgrees(n, "a3_name");
    if FieldProblem(n, "a3_name", Text).Some? { FirstProblemHit(Schema, n, 6); return; }
    FirstProblemSkip(Schema, n, 6);
    TextFieldAgrees(n, "a4_name");
    if FieldProblem(n, "a4_name", Text).Some? { FirstProblemHit(Schema, n, 7); return; }
    FirstProblemSkip(Schema, n, 7);
    MatchesFromField8(n);
  }

  lemma MatchesFromField8(n: Node)
    requires FirstProblem(Schema, n) == FirstProblem(Schema, n, 8)
    requires FieldProblem(n, "zip", Text).None?
    requires FieldProblem(n, "name", Text).None?
    requires FieldProblem(n, "type", Flag).None?
    requires FieldProblem(n, "a0_name", Country).None?
    requires FieldProblem(n, "a1_name", Text).None?
    requires FieldProblem(n, "a2_name", Text).None?
    requires FieldProblem(n, "a3_name", Text).None?
    requires FieldProblem(n, "a4_name", Text).None?
    ensures LocationDecoder(n) ==
      match FirstProblem(Schema, n)
      case None => Ok(LocationFrom(n))
      case Some(e) => Err(e)
  {
    TextFieldAgrees(n, "zip");
    TextFieldAgrees(n, "name");
    FlagFieldAgrees(n);
    CountryFieldAgrees(n);
    TextFieldAgrees(n, "a1_name");
    TextFieldAgrees(n, "a2_name");
    TextFieldAgrees(n, "a3_name");
    TextFieldAgrees(n, "a4_name");
    TextFieldAgrees(n, "a5_name");
    if FieldProblem(n, "a5_name", Text).Some? { FirstProblemHit(Schema, n, 8); return; }
    FirstProblemSkip(Schema, n, 8);
    TextFieldAgrees(n, "a6_name");
    if FieldProblem(n, "a6_name", Text).Some? { FirstProblemHit(Schema, n, 9); return; }
    FirstProblemSkip(Schema, n, 9);
    TextFieldAgrees(n, "a7_name");
    if FieldProblem(n, "a7_name", Text).Some? { FirstProblemHit(Schema, n, 10); return; }
    FirstProblemSkip(Schema, n, 10);
    MatchesFromField11(n);
  }

  lemma MatchesFromField11(n: Node)
    requires FirstProblem(Schema, n) == FirstProblem(Schema, n, 11)
    requires FieldProblem(n, "zip", Text).None?
    requires FieldProblem(n, "name", Text).None?
    requires FieldProblem(n, "type", Flag).None?
    requires FieldProblem(n, "a0_name", Country).None?
    requires FieldProblem(n, "a1_name", Text).None?
    requires FieldProblem(n, "a2_name", Text).None?
    requires FieldProblem(n, "a3_name", Text).None?
    requires FieldProblem(n, "a4_name", Text).None?
    requires FieldProblem(n, "a5_name", Text).None?
    requires FieldProblem(n, "a6_name", Text).None?
    requires FieldProblem(n, "a7_name", Text).None?
    ensures LocationDecoder(n) ==
      match FirstProblem(Schema, n)
      case None => Ok(LocationFrom(n))
      case Some(e) => Err(e)
  {
    TextFieldAgrees(n, "zip");
    TextFieldAgrees(n, "name");
    FlagFieldAgrees(n);
    CountryFieldAgrees(n);
    TextFieldAgrees(n, "a1_name");
    TextFieldAgrees(n, "a2_name");
    TextFieldAgrees(n, "a3_name");
    TextFieldAgrees(n, "a4_name");
    TextFieldAgrees(n, "a5_name");
    TextFieldAgrees(n, "a6_name");
    TextFieldAgrees(n, "a7_name");
    TextFieldAgrees(n, "a8_name");
    if FieldProblem(n, "a8_name", Text).Some? { FirstProblemHit(Schema, n, 11); return; }
    FirstProblemSkip(Schema, n, 11);
    TextFieldAgrees(n, "x_coordinate");
    if FieldProblem(n, "x_coordinate", Text).Some? { FirstProblemHit(Schema, n, 12); return; }
    FirstProblemSkip(Schema, n, 12);
    TextFieldAgrees(n, "y_coordinate");
    if FieldProblem(n, "y_coordinate", Text).Some? { FirstProblemHit(Schema, n, 13); return; }
    FirstProblemSkip(Schema, n, 13);
  }

  /** A node every field decoder of the schema accepts. */
  predicate IsLocation(n: Node) {
    forall i | 0 <= i < |Schema| :: FieldProblem(n, Schema[i].0, Schema[i].1).None?
  }

  /** A `Location` is produced exactly when all fourteen fields are acceptable, and it is the one read from their keys. */
  lemma LocationDecoded(n: Node)
    ensures LocationDecoder(n).Ok? <==> IsLocation(n)
    ensures LocationDecoder(n).Ok? ==> LocationDecoder(n).value == LocationFrom(n)
  {
    LocationDecoderMatchesSchema(n);
    FirstProblemNone(Schema, n);
  }

  /** The path of the location list in the parsed document. */
  const ListPath := [Key("locations"), Key("location")]

  /**
    `getLocations` after the transport: a failed status is rejected with its text
    before anything is decoded; otherwise the `locations/location` array is decoded.
  */
  function GetLocations(reply: Reply): (r: Result<seq<Location>>)
    ensures !reply.ok ==> r == Err(reply.statusText)
  {
    if !reply.ok then Err(reply.statusText)
    else At(ListPath, n => ArrayOf(LocationDecoder, n), reply.body)
  }

  /**
    On a successful status the list has one record per element of the array at
    `locations/location`, in order, each read from its element; it fails when that
    node is missing or not an array, or when any element is not a location.
  */
  lemma LocationsListed(reply: Reply)
    requires reply.ok
    ensures GetLocations(reply).Ok? <==>
      Walk(ListPath, reply.body).Ok? && Walk(ListPath, reply.body).value.Arr? &&
      forall i | 0 <= i < |Walk(ListPath, reply.body).value.items| ::
        IsLocation(Walk(ListPath, reply.body).value.items[i])
    ensures GetLocations(reply).Ok? ==>
      var items := Walk(ListPath, reply.body).value.items;
      |GetLocations(reply).value| == |items| &&
      forall i | 0 <= i < |items| :: GetLocations(reply).value[i] == LocationFrom(items[i])
  {
    match Walk(ListPath, reply.body)
    case Err(_) =>
    case Ok(list) =>
      if list.Arr? {
        forall i | 0 <= i < |list.items| {
          LocationDecoded(list.items[i]);
        }
      }
  }

  /**
    A document with a single location, which the parser leaves as a bare element
    rather than an array, is rejected.
  */
  lemma LoneLocationRejected(reply: Reply, location: map<string, Node>)
    requires reply.ok && Walk(ListPath, reply.body) == Ok(Obj(location))
    ensures GetLocations(reply) == Err(NotArray)
  {
  }
}
