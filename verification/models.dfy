/** The records the controller reads from the catalog and the intermediate record it
    builds for one ship. Every Java field is a nullable reference, so every field is
    an `Option`. */
module Models {
  import opened Wrappers

  /** One entry of a starship search (`StarshipResponse`). */
  datatype StarshipResponse = StarshipResponse(
    name: Option<string>,
    starshipClass: Option<string>,
    model: Option<string>,
    crew: Option<string>)

  /** One entry of a people search (`Person`); only the homeworld is decoded. */
  datatype Person = Person(homeworld: Option<string>)

  /** One entry of a planet search (`PlanetResponse`); only the URL is decoded. */
  datatype PlanetResponse = PlanetResponse(url: Option<string>)

  /** A decoded first page of a search (`SwapiStarshipResponse`, `SwapiPersonResponse`,
      `SwapiPlanetResponse`). The list itself may be null, and so may each entry
      (a JSON `null` inside `results` decodes to a null reference). */
  datatype SearchPage<T> = SearchPage(results: Option<seq<Option<T>>>)

  /** The ship as it is returned to clients (`Starship`). */
  datatype Starship = Starship(
    name: Option<string>,
    starshipClass: Option<string>,
    model: Option<string>)

  /** What `getStarship` produces: the projected ship and its crew text. */
  datatype StarshipInformation = StarshipInformation(
    starship: Option<Starship>,
    crewCount: Option<string>)

  /** Crew text of an information record built without setting it. */
  const DefaultCrewCount := "0"

  /** `StarshipInformation.builder().build()`: no ship, crew "0". */
  const NoStarshipInformation := StarshipInformation(None, Some(DefaultCrewCount))

  /** The client-facing ship is the search entry without its crew. */
  function ProjectStarship(entry: StarshipResponse): Starship
  {
    Starship(entry.name, entry.starshipClass, entry.model)
  }
}
