# Covid19Tracker: domain mappers and world screen states

A Dafny model of two sequential pieces of the Covid19Tracker Android app.

1. **The domain model and its mappers.** `CovidTracker.kt` holds the immutable domain values. `DomainMappers.kt` converts between three record shapes. The first is the wire DTOs decoded from the remote JSON. The second is the persisted Room rows, data views and query results. The third is those domain values. The same file has `mapEntityValid`, which turns a stream of nullable query results into a stream of `Either<DomainError, R>`.
2. **The world screen.** `WorldViewModel.kt` collects each use-case stream. In every collected `Either<StateError, State<T>>`, a `Left` goes to `handleError`, which posts nothing. A `Right` goes to one of four `handleScreenState*` handlers, which posts exactly one `ScreenState` to the live `_screenState`.

Modules, one per source file or package:

- `Base` holds Kotlin's nullable `T?` (as `Option`), arrow's `Either`, `List.map` (as `MapList`) and `Map.values` (as `Values`).
- `DomainModel` holds `CovidTracker.kt`, plus the `DomainError` type of the same package.
- `ApiModel` holds the wire DTOs.
- `RoomEntities` holds the persisted rows. It has exactly the fields the mappers read and write, since those classes are not part of this model.
- `DomainMappers` holds every mapper in `DomainMappers.kt`.
- `WorldUi` holds the `State` and `ScreenState` types and the `Posts` specification of a collect loop. It also holds the `WorldViewModel` class: a `screenState` field, a ghost history `posted` of every value posted, the pure choice made by each handler, the handlers themselves and the four collect loops.

How the source's constructs are modelled:

- A `Long` is an `int` restricted to the signed 64-bit range.
- A `Double` is its 64-bit pattern. It is only ever copied.
- A JSON object that decodes to an insertion-ordered `Map` becomes its list of entries in iteration order.
- A `Flow` becomes the sequence of its emissions, and `collect` becomes a loop over that sequence.
- A force-unwrap `!!` and the `first()` of an empty map throw in the source. Each becomes a precondition.

Three facts about the code that a reader might not expect:

- The `Long` count fields are not restricted to non-negative values (`CountsMayBeNegative`).
- The catch branch of `mapEntityValid` builds a `flow { … }` whose body never calls `emit`, so its fallback stream is empty. It does not deliver the `DatabaseDomainError` it constructs. The branch cannot be reached anyway: building the lazy `map` does not throw.
- `handleError` posts nothing. The screen therefore never shows an error state. When the use case's first emission is `Right(State.Loading)`, the first post is `Loading` (`PostsStartWithLoading`). More generally, the posts are the successful emissions in order, each passed through the handler (`PostsAreHandledRights`), so what comes first is decided by the first successful emission.

## Model

| member | source | states |
|---|---|---|
| `Base.MapList` | app/src/main/java/com/jaimegc/covid19tracker/domain/model/DomainMappers.kt:21-22 | `List.map` keeps the length, and element `i` of the result is `f` applied to element `i` of the input |
| `Base.Values` | app/src/main/java/com/jaimegc/covid19tracker/domain/model/DomainMappers.kt:21-22 | `Map.values` has one value per entry, in iteration order |
| `Base.MapListAppend` | app/src/main/java/com/jaimegc/covid19tracker/ui/world/WorldViewModel.kt:65-72 | `List.map` distributes over concatenation, so mapping works element by element |
| `DomainModel.CountsMayBeNegative` | app/src/main/java/com/jaimegc/covid19tracker/domain/model/CovidTracker.kt:21-36 | the count fields are signed 64-bit values; a `Stats` value with negative counts exists |
| `DomainModel.WorldDateIndependentOfStatsDate` | app/src/main/java/com/jaimegc/covid19tracker/domain/model/CovidTracker.kt:8-12 | nothing ties `WorldStats.date` to `stats.date`: for any stats there is a world value whose two dates differ |
| `DomainMappers.CovidTrackerDtoToDomain` | app/src/main/java/com/jaimegc/covid19tracker/domain/model/DomainMappers.kt:15-19 | needs a non-empty `dates` map; the countries are those of the first date entry, one per country value in map order; the world is the total, stamped with the payload's `updatedAt` |
| `DomainMappers.CovidTrackerDtoUsesFirstDateOnly` | app/src/main/java/com/jaimegc/covid19tracker/domain/model/DomainMappers.kt:15-19 | date entries after the first do not affect the snapshot |
| `DomainMappers.DateDtoToDomain` | app/src/main/java/com/jaimegc/covid19tracker/domain/model/DomainMappers.kt:21-22 | one `CountryStats` per country value, same length and order |
| `DomainMappers.DateCountryDtoToDomain` | app/src/main/java/com/jaimegc/covid19tracker/domain/model/DomainMappers.kt:24-45 | `id`, `name` and `nameEs` are copied; `date`, `source` and each `today*` metric go into the matching `Stats` field |
| `DomainMappers.TotalDtoToDomain` | app/src/main/java/com/jaimegc/covid19tracker/domain/model/DomainMappers.kt:47-67 | the total's `date` is both the world date and the stats date; `updatedAt` is the argument unchanged; each `today*` metric goes into the matching `Stats` field |
| `DomainMappers.PojoToDomain` | app/src/main/java/com/jaimegc/covid19tracker/domain/model/DomainMappers.kt:69-73 | needs a non-null `worldStats` and, in every joined row, a non-null country and stats row; keeps the length and order of `countriesStats`; each element is the country row combined with its stats row; the world is the mapped world row |
| `DomainMappers.CountryAndStatsToDomain` | app/src/main/java/com/jaimegc/covid19tracker/domain/model/DomainMappers.kt:75-76 | needs both sides of the join to be non-null; gives the same value as `CountryEntity.toDomain(stats)` |
| `DomainMappers.WorldStatsEntityToDomain` | app/src/main/java/com/jaimegc/covid19tracker/domain/model/DomainMappers.kt:78-83 | the row's date is both the world date and the stats date; `updatedAt` is kept; mapping the result back gives the row itself |
| `DomainMappers.CountryEntityToDomain` | app/src/main/java/com/jaimegc/covid19tracker/domain/model/DomainMappers.kt:85-91 | the identity comes from the country row and the stats from the stats row; mapping either part back gives that row again |
| `DomainMappers.StatsEmbeddedToDomain` | app/src/main/java/com/jaimegc/covid19tracker/domain/model/DomainMappers.kt:93-109 | the date of the result is the argument; `source` and each of the twelve metrics are copied to the `Stats` field of the same name |
| `DomainMappers.StatsEntityToDomain` | app/src/main/java/com/jaimegc/covid19tracker/domain/model/DomainMappers.kt:163-179 | the embedded metrics are read at the row's own date |
| `DomainMappers.CountryStatsToEntity` | app/src/main/java/com/jaimegc/covid19tracker/domain/model/DomainMappers.kt:111-116 | keeps `id`, `name` and `nameEs`; the row has no stats field |
| `DomainMappers.CountryStatsToEntityIgnoresStats` | app/src/main/java/com/jaimegc/covid19tracker/domain/model/DomainMappers.kt:111-116 | the country row does not depend on the stats that are dropped |
| `DomainMappers.WorldStatsToEntity` | app/src/main/java/com/jaimegc/covid19tracker/domain/model/DomainMappers.kt:118-123 | keeps `date` and `updatedAt` and embeds the stats |
| `DomainMappers.StatsToEmbedded` | app/src/main/java/com/jaimegc/covid19tracker/domain/model/DomainMappers.kt:125-140 | the embedded form carries no date: read back at any date, it gives the original stats with that date; read back at their own date, it gives the stats unchanged |
| `DomainMappers.StatsToEntity` | app/src/main/java/com/jaimegc/covid19tracker/domain/model/DomainMappers.kt:142-161 | the row's `idCountryFk` is the given key and its date is the stats date; it reads back as the same stats |
| `DomainMappers.StatsEntityRoundTrip` | app/src/main/java/com/jaimegc/covid19tracker/domain/model/DomainMappers.kt:142-179 | stats row → domain → stats row under the same key is the identity |
| `DomainMappers.StatsEmbeddedRoundTrip` | app/src/main/java/com/jaimegc/covid19tracker/domain/model/DomainMappers.kt:93-140 | embedded → domain (at any date) → embedded is the identity |
| `DomainMappers.WorldStatsRoundTrip` | app/src/main/java/com/jaimegc/covid19tracker/domain/model/DomainMappers.kt:78-83 | world → row → world keeps everything except that `stats.date` becomes the world `date`; it gives back the original value exactly when the two dates already agree |
| `DomainMappers.CountryStatsRoundTrip` | app/src/main/java/com/jaimegc/covid19tracker/domain/model/DomainMappers.kt:85-91 | storing a country as its country row and its stats row, then reading both back, gives the same country |
| `DomainMappers.MapEntityValid` | app/src/main/java/com/jaimegc/covid19tracker/domain/model/DomainMappers.kt:181-193 | one result per item, in order; a null item gives `Left(DatabaseEmptyData)`; an item the mapper flags invalid also gives `Left(DatabaseEmptyData)`; a valid item gives `Right` of the mapped value |
| `DomainMappers.MapEntityValidAppend` | app/src/main/java/com/jaimegc/covid19tracker/domain/model/DomainMappers.kt:183-190 | items are classified independently: mapping a concatenated stream is the concatenation of the two mapped streams |
| `DomainMappers.MapEntityValidRightIff` | app/src/main/java/com/jaimegc/covid19tracker/domain/model/DomainMappers.kt:183-190 | a result is `Right` if and only if its item is present and valid; every `Left` is `DatabaseEmptyData` |
| `WorldUi.Posts` | app/src/main/java/com/jaimegc/covid19tracker/ui/world/WorldViewModel.kt:29-55 | a collect loop posts at most one value per collected result |
| `WorldUi.PostsAppend` | app/src/main/java/com/jaimegc/covid19tracker/ui/world/WorldViewModel.kt:29-55 | posts follow emission order: the posts of a concatenated stream are those of the first part, then those of the second |
| `WorldUi.PostsAreHandledRights` | app/src/main/java/com/jaimegc/covid19tracker/ui/world/WorldViewModel.kt:29-55 | the posts are exactly the `Right` results, in emission order, each passed through the handler |
| `WorldUi.PostsOfErrorsOnly` | app/src/main/java/com/jaimegc/covid19tracker/ui/world/WorldViewModel.kt:92-94 | a stream of `Left` results posts nothing |
| `WorldUi.PostsOfSuccessesOnly` | app/src/main/java/com/jaimegc/covid19tracker/ui/world/WorldViewModel.kt:29-55 | a stream of `Right` results posts exactly one value per result, in order |
| `WorldUi.PostsStartWithLoading` | app/src/main/java/com/jaimegc/covid19tracker/ui/world/WorldViewModel.kt:57-90 | a stream whose first result is `Right(State.Loading)` posts the handler's loading screen first |
| `WorldUi.WorldViewModel.constructor` | app/src/main/java/com/jaimegc/covid19tracker/ui/world/WorldViewModel.kt:20-27 | the live value starts unset and nothing has been posted |
| `WorldUi.WorldViewModel.PostValue` | app/src/main/java/com/jaimegc/covid19tracker/ui/world/WorldViewModel.kt:26 | the posted value becomes the live value and is appended to the history |
| `WorldUi.WorldViewModel.CovidTrackerScreenState` | app/src/main/java/com/jaimegc/covid19tracker/ui/world/WorldViewModel.kt:57-63 | `Loading` gives `Loading`; `Success(data)` gives `Render(SuccessCovidTracker(toUI(data)))` |
| `WorldUi.WorldViewModel.WorldStatsScreenState` | app/src/main/java/com/jaimegc/covid19tracker/ui/world/WorldViewModel.kt:65-72 | `Loading` gives `Loading`; `Success(data)` gives `Render(SuccessWorldStatsBarCharts(…))` holding one `toChartUI` per world row, in order |
| `WorldUi.WorldViewModel.CountriesBarScreenState` | app/src/main/java/com/jaimegc/covid19tracker/ui/world/WorldViewModel.kt:74-81 | `Loading` gives `Loading`; `Success(data)` gives `Render(SuccessCountriesStatsBarCharts(…))` holding one `toChartUI` per country, in order |
| `WorldUi.WorldViewModel.CountriesLineScreenState` | app/src/main/java/com/jaimegc/covid19tracker/ui/world/WorldViewModel.kt:83-90 | `Loading` gives `Loading`; `Success(data)` gives `Render(SuccessCountriesStatsLineCharts(…))` holding one `toChartUI` per country, in order |
| `WorldUi.WorldViewModel.HandleScreenStateCovidTracker` | app/src/main/java/com/jaimegc/covid19tracker/ui/world/WorldViewModel.kt:57-63 | posts exactly the value its choice function gives |
| `WorldUi.WorldViewModel.HandleScreenStateWorldStats` | app/src/main/java/com/jaimegc/covid19tracker/ui/world/WorldViewModel.kt:65-72 | posts exactly the value its choice function gives |
| `WorldUi.WorldViewModel.HandleScreenStateCountriesBarStats` | app/src/main/java/com/jaimegc/covid19tracker/ui/world/WorldViewModel.kt:74-81 | posts exactly the value its choice function gives |
| `WorldUi.WorldViewModel.HandleScreenStateCountriesLineStats` | app/src/main/java/com/jaimegc/covid19tracker/ui/world/WorldViewModel.kt:83-90 | posts exactly the value its choice function gives |
| `WorldUi.WorldViewModel.HandleError` | app/src/main/java/com/jaimegc/covid19tracker/ui/world/WorldViewModel.kt:92-94 | changes nothing: no post, and the live value and the history stay as they are |
| `WorldUi.WorldViewModel.GetCovidTrackerLast` | app/src/main/java/com/jaimegc/covid19tracker/ui/world/WorldViewModel.kt:29-34 | the history grows by `Posts(emitted, CovidTrackerScreenState)`, and the live value is the last post |
| `WorldUi.WorldViewModel.GetWorldAllStats` | app/src/main/java/com/jaimegc/covid19tracker/ui/world/WorldViewModel.kt:36-41 | the history grows by `Posts(emitted, WorldStatsScreenState)`, and the live value is the last post |
| `WorldUi.WorldViewModel.GetCountriesStatsOrderByConfirmed` | app/src/main/java/com/jaimegc/covid19tracker/ui/world/WorldViewModel.kt:43-48 | the history grows by `Posts(emitted, CountriesBarScreenState)`, and the live value is the last post |
| `WorldUi.WorldViewModel.GetCountriesAndStatsWithMostConfirmed` | app/src/main/java/com/jaimegc/covid19tracker/ui/world/WorldViewModel.kt:50-55 | the history grows by `Posts(emitted, CountriesLineScreenState)`, and the live value is the last post |
| `WorldUi.WorldViewModel.LoadingThenSuccessPostsLoadingThenRender` | app/src/test/java/com/jaimegc/covid19tracker/viewmodel/WorldViewModelTest.kt:73-94 | the stream `[Right(Loading), Right(Success(x))]` posts `[Loading, Render(SuccessCovidTracker(toUI(x)))]` |

## Left out

- `CountryFragment.kt` and `WorldFragment.kt` are Android UI code: adapters, menus, spinners and view visibility. They are not part of this model.
- `NumberExtensions.kt` is not part of this model. It is locale-dependent `NumberFormat` formatting and `Double` rounding.
- `toUI`, `toChartUI` and `CountryListStats` are not part of this model. They are three `const` function fields of the view model that are never looked into: `toUI`, and one field for each of the two `toChartUI` overloads (`worldStatsToChartUI` and `countryListStatsToChartUI`), and the UI model types are type parameters.
- The grouping done by `toPojoCountriesOrdered`, `toPojoRegionsOrdered` and `toPojoSubRegionsOrdered` is not part of this model. Only their test is available, not their code.
- `viewModelScope.launch`, coroutines, `Flow` laziness and cancellation, and `LiveData`/`postValue` threading are left out. A collect loop is sequential, and every post is recorded. The real `postValue` may hand an observer only the latest of several quick posts.
- The use cases (`getCovidTrackerByDate("2020-04-21")` and the others) are not part of this model. Each collect loop takes the use case's emissions as its `emitted` argument, so the hard-coded date plays no part.
- The `try`/`catch` around `mapEntityValid` is left out; exceptions are not modelled. Building the lazy `map` cannot throw. Even if it did, the fallback `flow { … }` never calls `emit`, so it would be the empty stream.
- In `mapEntityValid`, `mapper` runs twice per item in the source. The model calls it as a pure function.
- The `ScreenState.Error` variant of the app's screen-state type is not modelled, because this view model never posts it.
- The substitution of `""` for a missing `source` in the wire JSON is not part of this model. It happens inside the DTO classes' decoding; the mappers copy `source` as it is.
- A `Double` is kept as its bit pattern. Kotlin's `Double` equality, which treats every NaN as equal, is not distinguished from bit equality.
- The model reads only a map's values, so uniqueness of its keys is not modelled.
