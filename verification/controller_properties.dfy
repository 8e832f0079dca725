/** What the endpoint promises, stated directly over the catalog's answers. */
module ControllerProperties {
  import opened Wrappers
  import opened Models
  import opened Responses
  import opened Controller

  function ShipFetch(cfg: Config, catalog: Catalog): Fetch<StarshipResponse> {
    catalog.starships(ShipSearch(cfg).url)
  }

  function PersonFetch(cfg: Config, catalog: Catalog): Fetch<Person> {
    catalog.people(PersonSearch(cfg).url)
  }

  function PlanetFetch(cfg: Config, catalog: Catalog): Fetch<PlanetResponse> {
    catalog.planets(PlanetSearch(cfg).url)
  }

  /** The person search decoded to exactly one non-null person. */
  predicate OnePerson(f: Fetch<Person>, person: Person) {
    f == Success(SearchPage(Some([Some(person)])))
  }

  /** Without exactly one person match the answer is "not present", whatever the
      planet search returned, provided it did not fail. */
  lemma PresenceFalseWithoutSinglePerson(cfg: Config, catalog: Catalog)
    requires GetPlanetUrl(cfg, catalog).value.Success?
    requires PersonFetch(cfg, catalog).Success?
    requires !ExactlyOne(PersonFetch(cfg, catalog).value.results)
    ensures IsLeiaOnAlderaan(cfg, catalog).value == Success(false)
  {
  }

  /** With exactly one person, presence is plain string equality of the homeworld
      and the resolved planet URL. */
  lemma PresenceIsHomeworldEquality(cfg: Config, catalog: Catalog, person: Person, homeworld: string)
    requires GetPlanetUrl(cfg, catalog).value.Success?
    requires OnePerson(PersonFetch(cfg, catalog), person)
    requires person.homeworld == Some(homeworld)
    ensures IsLeiaOnAlderaan(cfg, catalog).value.Success?
    ensures IsLeiaOnAlderaan(cfg, catalog).value.value <==>
              GetPlanetUrl(cfg, catalog).value.value == Some(homeworld)
  {
  }

  /** A single person with a null homeworld makes `equals` throw, and the whole
      request answers 500. */
  lemma NullHomeworldFailsRequest(cfg: Config, catalog: Catalog, person: Person)
    requires GetPlanetUrl(cfg, catalog).value.Success?
    requires OnePerson(PersonFetch(cfg, catalog), person)
    requires person.homeworld.None?
    ensures IsLeiaOnAlderaan(cfg, catalog).value == Failure(NullDereference)
    ensures GetStarshipInformation(cfg, catalog).value.status == InternalServerError
  {
  }

  /** A single null entry in the person search makes `getHomeworld` throw, and the
      whole request answers 500. */
  lemma NullPersonEntryFailsRequest(cfg: Config, catalog: Catalog)
    requires GetPlanetUrl(cfg, catalog).value.Success?
    requires PersonFetch(cfg, catalog) == Success(SearchPage(Some([None])))
    ensures IsLeiaOnAlderaan(cfg, catalog).value == Failure(NullDereference)
    ensures GetStarshipInformation(cfg, catalog).value == Entity(InternalServerError, Defaults)
  {
  }

  /** Presence in terms of the two raw searches. The planet side is satisfied either
      by a single planet whose URL is the homeworld, or, when the planet search is
      not authoritative, by a homeworld equal to the empty sentinel. */
  lemma PresenceCharacterization(cfg: Config, catalog: Catalog)
    ensures IsLeiaOnAlderaan(cfg, catalog).value == Success(true) <==>
              var planets := PlanetFetch(cfg, catalog);
              var people := PersonFetch(cfg, catalog);
              && planets.Success? && people.Success?
              && ExactlyOne(people.value.results)
              && people.value.results.value[0].Some?
              && people.value.results.value[0].value.homeworld.Some?
              && var homeworld := people.value.results.value[0].value.homeworld.value;
                 if ExactlyOne(planets.value.results) then
                   planets.value.results.value[0] == Some(PlanetResponse(Some(homeworld)))
                 else
                   homeworld == ""
  {
  }

  /** An unresolved planet is the empty string, so only an empty homeworld matches it. */
  lemma UnresolvedPlanetMatchesOnlyEmptyHomeworld(cfg: Config, catalog: Catalog, person: Person, homeworld: string)
    requires PlanetFetch(cfg, catalog).Success?
    requires !ExactlyOne(PlanetFetch(cfg, catalog).value.results)
    requires OnePerson(PersonFetch(cfg, catalog), person)
    requires person.homeworld == Some(homeworld)
    ensures IsLeiaOnAlderaan(cfg, catalog).value == Success(homeworld == "")
  {
  }

  /** A failed fetch or decode of any of the three searches yields the error
      envelope, whichever search it was. */
  lemma AnyFailedFetchGivesErrorEnvelope(cfg: Config, catalog: Catalog)
    requires || ShipFetch(cfg, catalog).Failure?
             || PlanetFetch(cfg, catalog).Failure?
             || PersonFetch(cfg, catalog).Failure?
    ensures GetStarshipInformation(cfg, catalog).value == Entity(InternalServerError, Defaults)
  {
  }

  /** A 200 answer means all three searches were fetched and decoded, and its body
      carries the ship projection and the presence flag as text. */
  lemma OkMeansAllFetchesSucceeded(cfg: Config, catalog: Catalog)
    requires GetStarshipInformation(cfg, catalog).value.status == Ok
    ensures ShipFetch(cfg, catalog).Success?
    ensures PlanetFetch(cfg, catalog).Success?
    ensures PersonFetch(cfg, catalog).Success?
    ensures GetStarshipInformation(cfg, catalog).lookups ==
              [ShipSearch(cfg), PlanetSearch(cfg), PersonSearch(cfg)]
    ensures GetStarshipInformation(cfg, catalog).value.body.isLeiaOnPlanet in {Some("true"), Some("false")}
  {
  }

  /** Ship absence alone is not an error: a non-authoritative ship search with a
      successful presence check answers 200 with no ship and crew "0". */
  lemma MissingShipIsNotAnError(cfg: Config, catalog: Catalog)
    requires ShipFetch(cfg, catalog).Success?
    requires !ExactlyOne(ShipFetch(cfg, catalog).value.results)
    requires IsLeiaOnAlderaan(cfg, catalog).value.Success?
    ensures GetStarshipInformation(cfg, catalog).value.status == Ok
    ensures GetStarshipInformation(cfg, catalog).value.body.starship == None
    ensures GetStarshipInformation(cfg, catalog).value.body.crew == Some("0")
  {
  }

  /** A single ship's crew reaches the body unchanged, null included. */
  lemma CrewIsCopiedVerbatim(cfg: Config, catalog: Catalog, entry: StarshipResponse)
    requires ShipFetch(cfg, catalog) == Success(SearchPage(Some([Some(entry)])))
    requires IsLeiaOnAlderaan(cfg, catalog).value.Success?
    ensures GetStarshipInformation(cfg, catalog).value.status == Ok
    ensures GetStarshipInformation(cfg, catalog).value.body.crew == entry.crew
    ensures GetStarshipInformation(cfg, catalog).value.body.starship ==
              Some(Starship(entry.name, entry.starshipClass, entry.model))
  {
  }

  /** Lookups run in a fixed order (ship, planet, person) with the fixed keywords,
      and each stops the sequence when it fails. */
  lemma LookupsFollowFixedOrder(cfg: Config, catalog: Catalog)
    ensures var lookups := GetStarshipInformation(cfg, catalog).lookups;
      && 1 <= |lookups| <= 3
      && lookups == [Lookup(Starships, cfg.starshipSearchUrl + "Death Star"),
                     Lookup(Planets, cfg.planetSearchUrl + "Alderaan"),
                     Lookup(People, cfg.peopleSearchUrl + "Leia Organa")][..|lookups|]
      && (|lookups| == 1 <==> GetStarship(cfg, catalog).value.Failure?)
      && (|lookups| == 2 <==> GetStarship(cfg, catalog).value.Success? && GetPlanetUrl(cfg, catalog).value.Failure?)
  {
  }
}
