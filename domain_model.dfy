/** The immutable domain values of `CovidTracker.kt` (all Kotlin `data class`es with
    `val` fields, so their equality is structural over every field), and the
    `DomainError` taxonomy of the same package. */
module DomainModel {

  const LONG_MIN: int := -0x8000_0000_0000_0000
  const LONG_MAX: int := 0x7FFF_FFFF_FFFF_FFFF

  /** Kotlin `Long`: a signed 64-bit integer. Nothing forces it to be non-negative. */
  type Long = x: int | LONG_MIN <= x <= LONG_MAX

  /** Kotlin `Double`, kept as its 64-bit pattern: the model only ever copies it. */
  datatype Double = Double(bits: bv64)

  datatype Stats = Stats(
    date: string,
    source: string,
    confirmed: Long,
    deaths: Long,
    newConfirmed: Long,
    newDeaths: Long,
    newOpenCases: Long,
    newRecovered: Long,
    openCases: Long,
    recovered: Long,
    vsYesterdayConfirmed: Double,
    vsYesterdayDeaths: Double,
    vsYesterdayOpenCases: Double,
    vsYesterdayRecovered: Double)

  datatype CountryStats = CountryStats(id: string, name: string, nameEs: string, stats: Stats)

  /** The world row: `date` is its own field, not tied to `stats.date`. */
  datatype WorldStats = WorldStats(date: string, updatedAt: string, stats: Stats)

  /** One snapshot: exactly one world row and the countries in list order. */
  datatype CovidTracker = CovidTracker(countriesStats: seq<CountryStats>, worldStats: WorldStats)

  datatype DomainError = DatabaseEmptyData | DatabaseDomainError(description: string)

  /** The count fields are signed: a `Stats` value may hold negative counts. */
  lemma CountsMayBeNegative()
    ensures exists s: Stats :: s.confirmed < 0 && s.deaths < 0 && s.openCases < 0
  {
    var z := Double(0);
    var s := Stats("", "", -1, -1, 0, 0, 0, 0, -1, 0, z, z, z, z);
    assert s.confirmed < 0 && s.deaths < 0 && s.openCases < 0;
  }

  /** Nothing in `WorldStats` ties its `date` to the date inside its `stats`. */
  lemma WorldDateIndependentOfStatsDate(s: Stats)
    ensures exists w: WorldStats :: w.stats == s && w.date != w.stats.date
  {
    var w := WorldStats(s.date + "x", "", s);
    assert |w.date| != |s.date|;
  }
}
