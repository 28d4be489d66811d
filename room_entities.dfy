/** The persisted rows, data views and query results the mappers read and write,
    with exactly the fields they use. A nullable relation is an `Option`. */
module RoomEntities {
  import opened Base
  import opened DomainModel

  /** The metrics embedded in a stats row: everything in `Stats` except the date. */
  datatype StatsEmbedded = StatsEmbedded(
    source: string,
    confirmed: Long,
    deaths: Long,
    newConfirmed: Long,
    newDeaths: Long,
    newOpenCases: Long,
    newRecovered: Long,
    openCases: Long,
    recovered: Long,
    vsYesterdayConfirmed: Double,
    vsYesterdayDeaths: Double,
    vsYesterdayOpenCases: Double,
    vsYesterdayRecovered: Double)

  /** One row per (country, date), keyed to its country by `idCountryFk`. */
  datatype StatsEntity = StatsEntity(date: string, stats: StatsEmbedded, idCountryFk: string)

  datatype WorldStatsEntity = WorldStatsEntity(date: string, updatedAt: string, stats: StatsEmbedded)

  datatype CountryEntity = CountryEntity(id: string, name: string, nameEs: string)

  /** A country joined with one of its stats rows; either side may be null. */
  datatype CountryAndStatsDV = CountryAndStatsDV(country: Option<CountryEntity>, stats: Option<StatsEntity>)

  datatype WorldAndCountriesStatsPojo = WorldAndCountriesStatsPojo(
    worldStats: Option<WorldStatsEntity>,
    countriesStats: seq<CountryAndStatsDV>)
}
