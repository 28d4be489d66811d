/** The wire records the mappers read, with exactly the fields they use. A JSON
    object keyed by date or by country id becomes its list of entries in document
    order, which is the iteration order of the decoded map. */
module ApiModel {
  import opened DomainModel

  datatype CovidTrackerDto = CovidTrackerDto(
    dates: seq<(string, CovidTrackerDateDto)>,
    total: CovidTrackerTotalDto,
    updatedAt: string)

  datatype CovidTrackerDateDto = CovidTrackerDateDto(countries: seq<(string, CovidTrackerDateCountryDto)>)

  datatype CovidTrackerDateCountryDto = CovidTrackerDateCountryDto(
    id: string,
    name: string,
    nameEs: string,
    date: string,
    source: string,
    todayConfirmed: Long,
    todayDeaths: Long,
    todayNewConfirmed: Long,
    todayNewDeaths: Long,
    todayNewOpenCases: Long,
    todayNewRecovered: Long,
    todayOpenCases: Long,
    todayRecovered: Long,
    todayVsYesterdayConfirmed: Double,
    todayVsYesterdayDeaths: Double,
    todayVsYesterdayOpenCases: Double,
    todayVsYesterdayRecovered: Double)

  datatype CovidTrackerTotalDto = CovidTrackerTotalDto(
    date: string,
    source: string,
    todayConfirmed: Long,
    todayDeaths: Long,
    todayNewConfirmed: Long,
    todayNewDeaths: Long,
    todayNewOpenCases: Long,
    todayNewRecovered: Long,
    todayOpenCases: Long,
    todayRecovered: Long,
    todayVsYesterdayConfirmed: Double,
    todayVsYesterdayDeaths: Double,
    todayVsYesterdayOpenCases: Double,
    todayVsYesterdayRecovered: Double)
}
