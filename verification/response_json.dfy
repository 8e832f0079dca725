/** The JSON document written for a `Response`, as a value tree.

    Three rules shape it: the starship is written through a null-serializer that
    emits an empty object, so the `starship` key always holds an object; a present
    starship omits its null fields and writes its class under the key `class`;
    the other two fields are written under their own names, with null written as
    JSON `null`. */
module ResponseJson {
  import opened Wrappers
  import opened Models
  import opened Responses

  datatype Json = Null | Str(text: string) | Obj(members: seq<Member>)
  datatype Member = Member(key: string, value: Json)

  const StarshipKey := "starship"
  const CrewKey := "crew"
  const IsLeiaOnPlanetKey := "isLeiaOnPlanet"

  /** A nullable string field, written even when null. */
  function Nullable(s: Option<string>): Json {
    match s
    case None => Null
    case Some(text) => Str(text)
  }

  /** A nullable string field of a ship, left out when null. */
  function NonNullMember(key: string, s: Option<string>): (ms: seq<Member>)
    ensures |ms| <= 1
    ensures forall m :: m in ms <==> s.Some? && m == Member(key, Str(s.value))
  {
    match s
    case None => []
    case Some(text) => [Member(key, Str(text))]
  }

  /** The value a ship holds under each key it can be written with. */
  function ShipField(s: Starship, key: string): Option<string> {
    if key == "name" then s.name
    else if key == "class" then s.starshipClass
    else if key == "model" then s.model
    else None
  }

  ghost predicate DistinctKeys(ms: seq<Member>) {
    forall a, b :: 0 <= a < b < |ms| ==> ms[a].key != ms[b].key
  }

  /** The members of a present ship. Their order inside the object is not part of
      the model: no property here depends on it. */
  function ShipMembers(s: Starship): seq<Member> {
    NonNullMember("name", s.name)
    + NonNullMember("class", s.starshipClass)
    + NonNullMember("model", s.model)
  }

  lemma ShipMembersHaveDistinctKeys(s: Starship)
    ensures DistinctKeys(ShipMembers(s))
  {
  }

  lemma ShipMembersAreFields(s: Starship)
    ensures forall m :: m in ShipMembers(s) ==> m.value.Str? && ShipField(s, m.key) == Some(m.value.text)
  {
  }

  lemma ShipFieldsAreMembers(s: Starship)
    ensures forall k :: ShipField(s, k).Some? ==> Member(k, Str(ShipField(s, k).value)) in ShipMembers(s)
  {
  }

  /** A present ship is written with its own non-null fields and nothing else. */
  function EncodeStarship(s: Starship): (j: Json)
    ensures j.Obj?
    ensures DistinctKeys(j.members)
    ensures forall m :: m in j.members ==> m.value.Str? && ShipField(s, m.key) == Some(m.value.text)
    ensures forall k :: ShipField(s, k).Some? ==> Member(k, Str(ShipField(s, k).value)) in j.members
  {
    ShipMembersHaveDistinctKeys(s);
    ShipMembersAreFields(s);
    ShipFieldsAreMembers(s);
    Obj(ShipMembers(s))
  }

  /** The `starship` value: an empty object for null, the ship's own object otherwise. */
  function EncodeStarshipField(s: Option<Starship>): (j: Json)
    ensures j.Obj?
    ensures s.None? ==> j.members == []
    ensures s.Some? ==> j == EncodeStarship(s.value)
  {
    match s
    case None => Obj([])
    case Some(ship) => EncodeStarship(ship)
  }

  function EncodeResponse(r: Response): (j: Json)
    ensures j.Obj? && |j.members| == 3
    ensures j.members[0].key == StarshipKey
    ensures j.members[1].key == CrewKey
    ensures j.members[2].key == IsLeiaOnPlanetKey
    ensures j.members[0].value.Obj?
    ensures j.members[0].value == EncodeStarshipField(r.starship)
    ensures r.starship.None? ==> j.members[0].value == Obj([])
    ensures j.members[1].value.Null? <==> r.crew.None?
    ensures forall c :: j.members[1].value == Str(c) <==> r.crew == Some(c)
    ensures j.members[2].value.Null? <==> r.isLeiaOnPlanet.None?
    ensures forall p :: j.members[2].value == Str(p) <==> r.isLeiaOnPlanet == Some(p)
  {
    Obj([Member(StarshipKey, EncodeStarshipField(r.starship)),
         Member(CrewKey, Nullable(r.crew)),
         Member(IsLeiaOnPlanetKey, Nullable(r.isLeiaOnPlanet))])
  }

  /** A ship with every field null. */
  const BlankStarship := Starship(None, None, None)

  /** The empty object cannot tell an absent ship from a ship whose fields are all null. */
  lemma AbsentAndBlankStarshipLookAlike()
    ensures EncodeStarshipField(None) == EncodeStarshipField(Some(BlankStarship)) == Obj([])
  {
  }

  /** Two ships written the same way are the same ship. */
  lemma EncodeStarshipInjective(a: Starship, b: Starship)
    requires EncodeStarship(a) == EncodeStarship(b)
    ensures a == b
  {
  }

  /** Absent or all-null. */
  predicate ShowsNoShip(s: Option<Starship>) {
    s == None || s == Some(BlankStarship)
  }

  /** The written document determines the response, except that an absent ship and
      an all-null ship are both written as `{}`. */
  lemma EncodeResponseDeterminesResponse(a: Response, b: Response)
    ensures EncodeResponse(a) == EncodeResponse(b) <==>
              && a.crew == b.crew
              && a.isLeiaOnPlanet == b.isLeiaOnPlanet
              && (a.starship == b.starship || (ShowsNoShip(a.starship) && ShowsNoShip(b.starship)))
  {
    var ja, jb := EncodeResponse(a), EncodeResponse(b);
    if ja == jb {
      assert ja.members[1] == jb.members[1] && ja.members[2] == jb.members[2];
      assert a.crew == b.crew by {
        if a.crew.Some? { assert ja.members[1].value == Str(a.crew.value); }
      }
      assert a.isLeiaOnPlanet == b.isLeiaOnPlanet by {
        if a.isLeiaOnPlanet.Some? { assert ja.members[2].value == Str(a.isLeiaOnPlanet.value); }
      }
      assert ja.members[0] == jb.members[0];
      StarshipFieldDeterminesShip(a.starship, b.starship);
    } else if a.crew == b.crew && a.isLeiaOnPlanet == b.isLeiaOnPlanet && ShowsNoShip(a.starship) {
      AbsentAndBlankStarshipLookAlike();
    }
  }

  lemma StarshipFieldDeterminesShip(a: Option<Starship>, b: Option<Starship>)
    requires EncodeStarshipField(a) == EncodeStarshipField(b)
    ensures a == b || (ShowsNoShip(a) && ShowsNoShip(b))
  {
    match (a, b)
    case (Some(x), Some(y)) => EncodeStarshipInjective(x, y);
    case (None, Some(y)) => EmptyObjectMeansBlank(y);
    case (Some(x), None) => EmptyObjectMeansBlank(x);
    case (None, None) =>
  }

  lemma EmptyObjectMeansBlank(s: Starship)
    requires EncodeStarship(s).members == []
    ensures s == BlankStarship
  {
  }

  /** The failure envelope as written: `{"starship": {}, "crew": "0", "isLeiaOnPlanet": "false"}`. */
  lemma DefaultsDocument()
    ensures EncodeResponse(Defaults) ==
              Obj([Member("starship", Obj([])),
                   Member("crew", Str("0")),
                   Member("isLeiaOnPlanet", Str("false"))])
  {
  }
}
