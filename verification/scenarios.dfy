/** The controller's unit tests as concrete instances. A mocked search URL answers
    with its page; any other URL is unanswered, which the controller sees as a
    failed fetch. */
module Scenarios {
  import opened Wrappers
  import opened Models
  import opened Responses
  import opened Controller

  const TestConfig := Config(
    "https://swapi.dev/api/starships/?search=",
    "https://swapi.dev/api/people/?search=",
    "https://swapi.dev/api/planets/?search=")

  const AlderaanUrl := "https://swapi.dev/api/planets/2/"

  function OnePlanetPage(url: string): SearchPage<PlanetResponse> {
    SearchPage(Some([Some(PlanetResponse(Some(url)))]))
  }

  function OnePersonPage(homeworld: string): SearchPage<Person> {
    SearchPage(Some([Some(Person(Some(homeworld)))]))
  }

  /** Only the planet and people searches of the presence tests are mocked. */
  function PresenceCatalog(homeworld: string): Catalog {
    Catalog(
      _ => Failure(TransportError),
      u => if u == "https://swapi.dev/api/people/?search=Leia Organa"
           then Success(OnePersonPage(homeworld)) else Failure(TransportError),
      u => if u == "https://swapi.dev/api/planets/?search=Alderaan"
           then Success(OnePlanetPage(AlderaanUrl)) else Failure(TransportError))
  }

  /** Leia's homeworld is the resolved Alderaan URL: present. */
  lemma LeiaOnAlderaan()
    ensures IsLeiaOnAlderaan(TestConfig, PresenceCatalog(AlderaanUrl)).value == Success(true)
  {
  }

  /** Leia's homeworld is planet 3, Alderaan resolves to planet 2: not present. */
  lemma LeiaNotOnAlderaan()
    ensures IsLeiaOnAlderaan(TestConfig, PresenceCatalog("https://swapi.dev/api/planets/3/")).value == Success(false)
  {
  }

  const DeathStarEntry := StarshipResponse(Some("Death Star"), Some("Star Destroyer"), Some("Model"), Some("2"))

  function ShipCatalog(): Catalog {
    Catalog(
      u => if u == "https://swapi.dev/api/starships/?search=Death Star"
           then Success(SearchPage(Some([Some(DeathStarEntry)]))) else Failure(TransportError),
      _ => Failure(TransportError),
      _ => Failure(TransportError))
  }

  /** One Death Star match: its fields and crew "2" are copied. */
  lemma DeathStarFound()
    ensures GetStarship(TestConfig, ShipCatalog()).value ==
              Success(StarshipInformation(Some(Starship(Some("Death Star"), Some("Star Destroyer"), Some("Model"))), Some("2")))
  {
  }

  /** The ship search cannot be answered: status 500 with every field at its default,
      and no presence lookup is made. */
  lemma ShipLookupFailure()
    ensures GetStarshipInformation(TestConfig, PresenceCatalog(AlderaanUrl)).value ==
              Entity(InternalServerError, Response(None, Some("0"), Some("false")))
    ensures |GetStarshipInformation(TestConfig, PresenceCatalog(AlderaanUrl)).lookups| == 1
  {
  }

  /** The merge test's ship: name "name", class "class", model "model", crew "2". */
  const MergeTestEntry := StarshipResponse(Some("name"), Some("class"), Some("model"), Some("2"))

  /** The ship search answers with the merge test's ship; presence uses the mocked
      planet and people searches. */
  function MergeCatalog(shipResults: seq<Option<StarshipResponse>>): Catalog {
    Catalog(
      u => if u == "https://swapi.dev/api/starships/?search=Death Star"
           then Success(SearchPage(Some(shipResults))) else Failure(TransportError),
      PresenceCatalog(AlderaanUrl).people,
      PresenceCatalog(AlderaanUrl).planets)
  }

  /** Ship found and Leia present: 200 with that ship, crew "2" and "true". */
  lemma FullAnswer()
    ensures GetStarshipInformation(TestConfig, MergeCatalog([Some(MergeTestEntry)])).value ==
            Entity(Ok, Response(Some(Starship(Some("name"), Some("class"), Some("model"))),
                                Some("2"), Some("true")))
  {
  }

  /** No ship found and Leia present: 200 with no ship, crew "0" and "true". */
  lemma NoStarshipAnswer()
    ensures GetStarshipInformation(TestConfig, MergeCatalog([])).value ==
            Entity(Ok, Response(None, Some("0"), Some("true")))
  {
  }
}
