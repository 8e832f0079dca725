/** The `/information` endpoint: one ship lookup and a presence check that needs a
    planet lookup and a person lookup, merged into one `Response`.

    Each HTTP fetch plus JSON decode is an input: a `Catalog` answers a search URL
    with either a failure or a decoded first page. Every function returns the
    lookups it performed, in order, next to its outcome. */
module Controller {
  import opened Wrappers
  import opened Models
  import opened Responses

  /** The fixed search keywords. */
  const DeathStar := "Death Star"
  const LeiaOrgana := "Leia Organa"
  const Alderaan := "Alderaan"

  /** Sentinel returned for a planet search without exactly one match. */
  const Unresolved := ""

  /** The three search prefixes the controller is constructed with,
      each ending in `?search=`. */
  datatype Config = Config(
    starshipSearchUrl: string,
    peopleSearchUrl: string,
    planetSearchUrl: string)

  /** Why a lookup or the presence check throws. */
  datatype Error =
    | TransportError    // the request could not complete or was not successful
    | DecodeError       // the body does not decode into the expected page
    | NullDereference   // a method was called on a null entry or a null homeworld

  /** The outcome of fetching one search URL and decoding its body. */
  type Fetch<T> = Result<SearchPage<T>, Error>

  datatype Catalog = Catalog(
    starships: string -> Fetch<StarshipResponse>,
    people: string -> Fetch<Person>,
    planets: string -> Fetch<PlanetResponse>)

  datatype Collection = Starships | People | Planets

  /** One outbound request. */
  datatype Lookup = Lookup(collection: Collection, url: string)

  /** A value together with the lookups made to compute it. */
  datatype Traced<T> = Traced(value: T, lookups: seq<Lookup>)

  datatype Status = Ok | InternalServerError

  /** `ResponseEntity<Response>`. */
  datatype Entity = Entity(status: Status, body: Response)

  function ShipSearch(cfg: Config): Lookup {
    Lookup(Starships, cfg.starshipSearchUrl + DeathStar)
  }

  function PersonSearch(cfg: Config): Lookup {
    Lookup(People, cfg.peopleSearchUrl + LeiaOrgana)
  }

  function PlanetSearch(cfg: Config): Lookup {
    Lookup(Planets, cfg.planetSearchUrl + Alderaan)
  }

  /** The authoritative-match rule shared by all three lookups: the list is
      non-null and has exactly one entry. */
  predicate ExactlyOne<T>(results: Option<seq<T>>) {
    results.Some? && |results.value| == 1
  }

  /** The single entry of a page, when there is exactly one. */
  function Single<T>(results: Option<seq<T>>): (r: Option<T>)
    ensures r.Some? <==> ExactlyOne(results)
    ensures r.Some? ==> results.value == [r.value]
  {
    if results.None? || |results.value| != 1 then None else Some(results.value[0])
  }

  /** `String.valueOf(boolean)`. */
  function BoolText(b: bool): (s: string)
    ensures s == "true" || s == "false"
    ensures b <==> s == "true"
  {
    if b then "true" else "false"
  }

  /** `getStarship`. */
  function GetStarship(cfg: Config, catalog: Catalog): (r: Traced<Result<StarshipInformation, Error>>)
    ensures r.lookups == [ShipSearch(cfg)]
    ensures var fetched := catalog.starships(ShipSearch(cfg).url);
      && (fetched.Failure? ==> r.value == Failure(fetched.error))
      && (fetched.Success? && !ExactlyOne(fetched.value.results) ==> r.value == Success(NoStarshipInformation))
      && (fetched.Success? && fetched.value.results == Some([None]) ==> r.value == Failure(NullDereference))
      && (fetched.Success? && ExactlyOne(fetched.value.results) && fetched.value.results.value[0].Some? ==>
            var entry := fetched.value.results.value[0].value;
            && r.value.Success?
            && r.value.value.starship == Some(Starship(entry.name, entry.starshipClass, entry.model))
            && r.value.value.crewCount == entry.crew)
  {
    var search := ShipSearch(cfg);
    var value: Result<StarshipInformation, Error> :=
      match catalog.starships(search.url)
      case Failure(e) => Failure(e)
      case Success(page) =>
        var entry: Option<Option<StarshipResponse>> := Single(page.results);
        match entry
        case None => Success(NoStarshipInformation)
        case Some(None) => Failure(NullDereference)
        case Some(Some(entry)) => Success(StarshipInformation(Some(ProjectStarship(entry)), entry.crew));
    Traced(value, [search])
  }

  /** `getPlanetUrl`: the canonical URL of the planet, `""` when the search is not
      authoritative, null when the single match has a null URL. */
  function GetPlanetUrl(cfg: Config, catalog: Catalog): (r: Traced<Result<Option<string>, Error>>)
    ensures r.lookups == [PlanetSearch(cfg)]
    ensures var fetched := catalog.planets(PlanetSearch(cfg).url);
      && (fetched.Failure? ==> r.value == Failure(fetched.error))
      && (fetched.Success? && !ExactlyOne(fetched.value.results) ==> r.value == Success(Some(Unresolved)))
      && (fetched.Success? && fetched.value.results == Some([None]) ==> r.value == Failure(NullDereference))
      && (forall planet: PlanetResponse :: fetched.Success? && fetched.value.results == Some([Some(planet)]) ==>
            r.value == Success(planet.url))
  {
    var search := PlanetSearch(cfg);
    var value: Result<Option<string>, Error> :=
      match catalog.planets(search.url)
      case Failure(e) => Failure(e)
      case Success(page) =>
        var entry: Option<Option<PlanetResponse>> := Single(page.results);
        match entry
        case None => Success(Some(Unresolved))
        case Some(None) => Failure(NullDereference)
        case Some(Some(planet)) => Success(planet.url);
    Traced(value, [search])
  }

  /** `homeworld.equals(planetUrl)`: Java string equality, false against null. */
  function SameReference(homeworld: string, planetUrl: Option<string>): (b: bool)
    ensures b <==> planetUrl.Some? && planetUrl.value == homeworld
  {
    planetUrl == Some(homeworld)
  }

  /** `isLeiaOnAlderaan`: resolve the planet first, then look the person up. */
  function IsLeiaOnAlderaan(cfg: Config, catalog: Catalog): (r: Traced<Result<bool, Error>>)
    ensures GetPlanetUrl(cfg, catalog).value.Failure? ==>
              r == Traced(Failure(GetPlanetUrl(cfg, catalog).value.error), [PlanetSearch(cfg)])
    ensures GetPlanetUrl(cfg, catalog).value.Success? ==> r.lookups == [PlanetSearch(cfg), PersonSearch(cfg)]
    ensures r.value == Success(true) ==>
              && catalog.people(PersonSearch(cfg).url).Success?
              && ExactlyOne(catalog.people(PersonSearch(cfg).url).value.results)
    ensures GetPlanetUrl(cfg, catalog).value.Success? ==>
      var planetUrl := GetPlanetUrl(cfg, catalog).value.value;
      var fetched := catalog.people(PersonSearch(cfg).url);
      && (fetched.Failure? ==> r.value == Failure(fetched.error))
      && (fetched.Success? && !ExactlyOne(fetched.value.results) ==> r.value == Success(false))
      && (fetched.Success? && fetched.value.results == Some([None]) ==> r.value == Failure(NullDereference))
      && (fetched.Success? && fetched.value.results == Some([Some(Person(None))]) ==>
            r.value == Failure(NullDereference))
      && (forall homeworld: string :: fetched.Success? && fetched.value.results == Some([Some(Person(Some(homeworld)))]) ==>
            r.value == Success(SameReference(homeworld, planetUrl)))
  {
    var planet := GetPlanetUrl(cfg, catalog);
    match planet.value
    case Failure(e) => Traced(Failure(e), planet.lookups)
    case Success(planetUrl) =>
      var search := PersonSearch(cfg);
      var value: Result<bool, Error> :=
        match catalog.people(search.url)
        case Failure(e) => Failure(e)
        case Success(page) =>
          var entry: Option<Option<Person>> := Single(page.results);
          match entry
          case None => Success(false)
          case Some(None) => Failure(NullDereference)
          case Some(Some(person)) =>
            match person.homeworld
            case None => Failure(NullDereference)
            case Some(homeworld) => Success(SameReference(homeworld, planetUrl));
      Traced(value, planet.lookups + [search])
  }

  /** `getStarshipInformation`: the ship lookup, then the presence check, merged on
      success; any failure of either becomes status 500 with an all-defaults body. */
  function GetStarshipInformation(cfg: Config, catalog: Catalog): (r: Traced<Entity>)
    ensures r.value.status == Ok <==>
              GetStarship(cfg, catalog).value.Success? && IsLeiaOnAlderaan(cfg, catalog).value.Success?
    ensures r.value.status == Ok ==>
              var info := GetStarship(cfg, catalog).value.value;
              && r.value.body.starship == info.starship
              && r.value.body.crew == info.crewCount
              && r.value.body.isLeiaOnPlanet == Some(BoolText(IsLeiaOnAlderaan(cfg, catalog).value.value))
    ensures r.value.status == InternalServerError ==>
              r.value.body == Response(None, Some("0"), Some("false"))
    ensures GetStarship(cfg, catalog).value.Failure? ==> r.lookups == [ShipSearch(cfg)]
    ensures GetStarship(cfg, catalog).value.Success? ==>
              r.lookups == [ShipSearch(cfg)] + IsLeiaOnAlderaan(cfg, catalog).lookups
  {
    var ship := GetStarship(cfg, catalog);
    match ship.value
    case Failure(_) => Traced(Entity(InternalServerError, Build([])), ship.lookups)
    case Success(info) =>
      var presence := IsLeiaOnAlderaan(cfg, catalog);
      var lookups := ship.lookups + presence.lookups;
      match presence.value
      case Failure(_) => Traced(Entity(InternalServerError, Build([])), lookups)
      case Success(present) =>
        var body := Build([SetStarship(info.starship), SetCrew(info.crewCount),
                           SetIsLeiaOnPlanet(Some(BoolText(present)))]);
        FullChainSetsEveryField(info.starship, info.crewCount, Some(BoolText(present)));
        Traced(Entity(Ok, body), lookups)
  }
}
