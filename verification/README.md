# Starship information endpoint — a Dafny model

The service answers one `GET /information` request: what is the crew of the
"Death Star", and is "Leia Organa" on "Alderaan"? It makes three keyword
searches against the Star Wars catalog API (starships, planets, people) and
merges them into one `Response` document.

The model covers the controller's decision policy:

- a search counts only when its decoded `results` list is non-null and has
  exactly one entry (`Controller.ExactlyOne`, `Controller.Single`); anything
  else is a default value, never an error;
- one ship match is projected to a `Starship` plus its crew text, copied
  verbatim; otherwise the result is "no ship, crew `"0"`";
- the planet URL (or the sentinel `""`) is resolved first, then compared by
  plain string equality with the homeworld of the single matched person;
- on success the answer is status 200 with the merged document; any exception
  in either step gives status 500 with the all-defaults document.

Fetching a URL and decoding its body is an input: a `Controller.Catalog`
holds, per collection, a function from search URL to either a failure or a
decoded first page. Java's nullable references are `Option`s, including the
entries of `results` (a JSON `null` entry decodes to a null reference, and
dereferencing it throws). Every controller function returns the lookups it
made next to its outcome, so the order and URLs of the outbound requests are
part of what is proved.

Modules:

- `Wrappers` — `Option` and `Result`.
- `Models` — the search records, `Starship` and `StarshipInformation`.
- `Responses` — the `Response` document and its generated builder, modelled as
  a sequence of setter calls in which the last call for a field wins and an
  unset field keeps its default.
- `ResponseJson` — the JSON document written for a `Response`, as a value
  tree: an absent starship is written `{}`, a present one with its non-null
  fields.
- `Controller` — `getStarship`, `getPlanetUrl`, `isLeiaOnAlderaan`,
  `getStarshipInformation`.
- `ControllerProperties` — the endpoint's promises stated over the raw
  search answers.
- `Scenarios` — the controller's unit tests as concrete lemmas.

## Notable behaviour of the code

- A single ship match with no crew field gives a null crew, not `"0"`.
  `StarshipInformation` declares `crewCount = "0"` as a builder default
  (StarshipInformation.java lines 14-15), but the controller always calls
  `crewCount(starshipResponse.getCrew())` (StarshipController.java line 74),
  and an explicit call overrides the default even with null
  (`ControllerProperties.CrewIsCopiedVerbatim`).
- A failing ship lookup is not downgraded to "no ship": the single `catch` at
  StarshipController.java lines 51-54 covers both `getStarship()` and
  `isLeiaOnAlderaan()`, so either failure gives status 500 with the defaults,
  as the unit test at StarshipControllerTest.java lines 103-108 expects
  (`ControllerProperties.AnyFailedFetchGivesErrorEnvelope`).
- The planet sentinel `""` (StarshipController.java line 108) is an ordinary
  string: when the planet search is not authoritative, a person whose
  homeworld is the empty string is reported present
  (`ControllerProperties.UnresolvedPlanetMatchesOnlyEmptyHomeworld`,
  `ControllerProperties.PresenceCharacterization`).

`SwapiPersonResponse` is modelled as `SearchPage<Person>`; its shape, a
`results` list of `Person`, follows from its use at StarshipController.java
lines 89-94.

## Model

| member | source | states |
|---|---|---|
| Controller.Single | src/main/java/com/example/demo/StarshipController.java:68-71 | a page yields an entry exactly when its `results` is non-null with size one, and then the list is exactly that entry |
| Controller.BoolText | src/main/java/com/example/demo/StarshipController.java:49 | the presence flag is written as `"true"` or `"false"`, `"true"` exactly when present |
| Controller.GetStarship | src/main/java/com/example/demo/StarshipController.java:64-77 | one ship search with the "Death Star" keyword; a failed fetch propagates; no single match gives no ship and crew `"0"`; a single null entry throws; a single match gives its name, class and model and its crew unchanged |
| Controller.GetPlanetUrl | src/main/java/com/example/demo/StarshipController.java:103-112 | one planet search with the "Alderaan" keyword; a failed fetch propagates; no single match gives `""`; a single match gives its URL, null included |
| Controller.SameReference | src/main/java/com/example/demo/StarshipController.java:94 | `String.equals`: true exactly when the planet URL is non-null and identical to the homeworld |
| Controller.IsLeiaOnAlderaan | src/main/java/com/example/demo/StarshipController.java:85-95 | the planet lookup runs first and its failure ends the check before any person lookup; otherwise planet then person are looked up, and over the person search: a failed fetch propagates, no single match gives false, a single null entry or a null homeworld throws, a homeworld gives its `equals` with the planet URL |
| Controller.GetStarshipInformation | src/main/java/com/example/demo/StarshipController.java:43-56 | status 200 exactly when both the ship lookup and the presence check succeed, with the ship, its crew and the flag as text; otherwise 500 with no ship, crew `"0"`, flag `"false"`; a failed ship lookup makes no presence lookups |
| ControllerProperties.PresenceFalseWithoutSinglePerson | src/main/java/com/example/demo/StarshipController.java:90-92 | a person search without exactly one match answers "not present", whatever the planet URL |
| ControllerProperties.PresenceIsHomeworldEquality | src/main/java/com/example/demo/StarshipController.java:94 | with one person, presence holds exactly when the resolved planet URL equals the homeworld |
| ControllerProperties.NullPersonEntryFailsRequest | src/main/java/com/example/demo/StarshipController.java:94 | a single null entry in the person search throws, and the endpoint answers 500 with the defaults |
| ControllerProperties.NullHomeworldFailsRequest | src/main/java/com/example/demo/StarshipController.java:94 | a single person with a null homeworld throws, and the endpoint answers 500 |
| ControllerProperties.PresenceCharacterization | src/main/java/com/example/demo/StarshipController.java:85-112 | presence in terms of the two raw searches: both fetched, one non-null person with a homeworld, and either one planet whose URL is that homeworld or a non-authoritative planet search and an empty homeworld |
| ControllerProperties.UnresolvedPlanetMatchesOnlyEmptyHomeworld | src/main/java/com/example/demo/StarshipController.java:107-108 | an unresolved planet is `""`, so only an empty homeworld matches it |
| ControllerProperties.AnyFailedFetchGivesErrorEnvelope | src/main/java/com/example/demo/StarshipController.java:51-54 | a failed fetch of any of the three searches gives status 500 with the all-defaults document |
| ControllerProperties.OkMeansAllFetchesSucceeded | src/main/java/com/example/demo/StarshipController.java:44-50 | status 200 implies all three searches were fetched, in the order ship, planet, person, and the flag is `"true"` or `"false"` |
| ControllerProperties.MissingShipIsNotAnError | src/main/java/com/example/demo/StarshipController.java:68-70 | a ship search without exactly one match, with a successful presence check, answers 200 with no ship and crew `"0"` |
| ControllerProperties.CrewIsCopiedVerbatim | src/main/java/com/example/demo/StarshipController.java:71-76 | with one ship match and a successful presence check, the body's crew is the match's crew, null included, and its ship is the match's name, class and model |
| ControllerProperties.LookupsFollowFixedOrder | src/main/java/com/example/demo/StarshipController.java:45-46 | the lookups are a prefix of ship, planet, person, each URL its prefix plus the fixed keyword; one lookup exactly when the ship lookup fails, two exactly when the planet lookup fails |
| Responses.Build | src/main/java/com/example/demo/models/Response.java:13-20 | each field is the argument of the last setter called for it, null included, or its default (no ship, `"0"`, `"false"`) when none was called |
| Responses.DefaultsAreNullStarshipZeroCrewNotPresent | src/main/java/com/example/demo/models/Response.java:13-20 | a response built with no setter has no ship, crew `"0"` and flag `"false"` |
| Responses.SingleSetterOverridesOnlyItsField | src/main/java/com/example/demo/models/Response.java:13-20 | one setter call changes its own field and leaves the other two at their defaults |
| Responses.FullChainSetsEveryField | src/main/java/com/example/demo/StarshipController.java:49 | setting ship, crew and flag in turn yields exactly those three values |
| ResponseJson.EncodeStarship | src/main/java/com/example/demo/models/Starship.java:10-15 | a present ship is an object whose members are exactly its non-null fields under `name`, `class`, `model`, each key once |
| ResponseJson.EncodeStarshipField | src/main/java/com/example/demo/models/EmptyStarshipSerializer.java:11-13 | the `starship` value is always an object: the empty object when there is no ship, the ship's own object otherwise |
| ResponseJson.EncodeResponse | src/main/java/com/example/demo/models/Response.java:13-20 | the document has the keys `starship`, `crew`, `isLeiaOnPlanet` in that order; the ship value is the starship field's encoding, so always an object; crew and flag are their text or JSON null |
| ResponseJson.AbsentAndBlankStarshipLookAlike | src/main/java/com/example/demo/models/Response.java:14 | no ship and a ship with all fields null are both written `{}` |
| ResponseJson.EncodeStarshipInjective | src/main/java/com/example/demo/models/Starship.java:10-15 | two ships written alike are equal |
| ResponseJson.EncodeResponseDeterminesResponse | src/main/java/com/example/demo/models/Response.java:13-20 | two responses are written alike exactly when crew and flag agree and the ships agree or both show as `{}` |
| ResponseJson.DefaultsDocument | src/main/java/com/example/demo/StarshipController.java:52-54 | the error envelope is written `{"starship": {}, "crew": "0", "isLeiaOnPlanet": "false"}` |
| Scenarios.LeiaOnAlderaan | src/test/java/com/example/demo/StarshipControllerTest.java:133-165 | homeworld and resolved planet both `.../planets/2/`: present |
| Scenarios.LeiaNotOnAlderaan | src/test/java/com/example/demo/StarshipControllerTest.java:168-200 | homeworld `.../planets/3/` against `.../planets/2/`: not present |
| Scenarios.DeathStarFound | src/test/java/com/example/demo/StarshipControllerTest.java:110-131 | one Death Star match with crew `"2"` gives that ship and crew `"2"` |
| Scenarios.ShipLookupFailure | src/test/java/com/example/demo/StarshipControllerTest.java:88-109 | an unanswered ship search gives 500 with the defaults and no further lookups |
| Scenarios.FullAnswer | src/test/java/com/example/demo/StarshipControllerTest.java:41-63 | a ship named "name" with class "class", model "model", crew `"2"` and presence true give 200 with that ship, crew `"2"`, `"true"` |
| Scenarios.NoStarshipAnswer | src/test/java/com/example/demo/StarshipControllerTest.java:65-86 | no ship found and presence true give 200 with no ship, crew `"0"`, `"true"` |

## Left out

- HTTP transport and JSON decoding (`RestTemplate.getForEntity` and the
  `ObjectMapper` write-then-read at StarshipController.java lines 66-67, 88-89,
  105-106): replaced by the `Catalog` input. A response body that decodes to a
  null page throws at the `getResults()` call; the model folds that into a
  failed fetch, which leads to the same 500 answer.
- `AppConfig` and `SwapiConfig` (bean wiring, base URL plus
  `/<collection>/?search=`): the three search prefixes are plain `Config`
  parameters.
- Jackson's decoding annotations (`starship_class`, ignored unknown
  properties) and Lombok's getters and `equals`: records are plain datatypes.
- The `StarshipInformation` builder: modelled by the two records it produces
  (`NoStarshipInformation`, and the ship plus crew set explicitly), not as a
  builder of its own.
- The JSON text: the document is a value tree; string escaping and whitespace
  are not modelled, nor is the order of the members inside the ship object
  (Jackson may move the renamed `class` property after the others).
- HTTP status beyond 200 and 500, exception types and messages beyond three
  error kinds, and the unit tests' spying mechanics.
- Concurrency: the endpoint is sequential and holds no shared state.
