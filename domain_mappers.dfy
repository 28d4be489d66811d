/** The conversions of `DomainMappers.kt` between the wire records, the persisted
    rows and the domain values, and `mapEntityValid`, which classifies a stream of
    nullable query results into `Either<DomainError, R>`. A `Flow` is its sequence
    of emissions. */
module DomainMappers {
  import opened Base
  import opened DomainModel
  import opened ApiModel
  import opened RoomEntities

  // ---------------------------------------------------------------- wire -> domain

  /** `CovidTrackerDto.toDomain`: the countries of the FIRST date entry and the
      world total stamped with the payload's `updatedAt`. `first()` throws on an
      empty map, hence the precondition. */
  function CovidTrackerDtoToDomain(dto: CovidTrackerDto): (r: CovidTracker)
    requires |dto.dates| > 0
    ensures |r.countriesStats| == |dto.dates[0].1.countries|
    ensures forall i :: 0 <= i < |r.countriesStats| ==>
              r.countriesStats[i] == DateCountryDtoToDomain(dto.dates[0].1.countries[i].1)
    ensures r.worldStats == TotalDtoToDomain(dto.total, dto.updatedAt)
  {
    CovidTracker(DateDtoToDomain(dto.dates[0].1), TotalDtoToDomain(dto.total, dto.updatedAt))
  }

  /** `CovidTrackerDateDto.toDomain`: one `CountryStats` per country value, in map order. */
  function DateDtoToDomain(d: CovidTrackerDateDto): (r: seq<CountryStats>)
    ensures |r| == |d.countries|
    ensures forall i :: 0 <= i < |r| ==> r[i] == DateCountryDtoToDomain(d.countries[i].1)
  {
    MapList(Values(d.countries), DateCountryDtoToDomain)
  }

  /** `CovidTrackerDateCountryDto.toDomain`: identity fields copied, each `today*`
      metric copied into the matching `Stats` field, the record's own date kept. */
  function DateCountryDtoToDomain(c: CovidTrackerDateCountryDto): (r: CountryStats)
    ensures r.id == c.id && r.name == c.name && r.nameEs == c.nameEs
    ensures r.stats.date == c.date && r.stats.source == c.source
    ensures r.stats.confirmed == c.todayConfirmed && r.stats.deaths == c.todayDeaths
    ensures r.stats.newConfirmed == c.todayNewConfirmed && r.stats.newDeaths == c.todayNewDeaths
    ensures r.stats.newOpenCases == c.todayNewOpenCases && r.stats.newRecovered == c.todayNewRecovered
    ensures r.stats.openCases == c.todayOpenCases && r.stats.recovered == c.todayRecovered
    ensures r.stats.vsYesterdayConfirmed == c.todayVsYesterdayConfirmed
    ensures r.stats.vsYesterdayDeaths == c.todayVsYesterdayDeaths
    ensures r.stats.vsYesterdayOpenCases == c.todayVsYesterdayOpenCases
    ensures r.stats.vsYesterdayRecovered == c.todayVsYesterdayRecovered
  {
    CountryStats(
      id := c.id,
      name := c.name,
      nameEs := c.nameEs,
      stats := Stats(
        date := c.date,
        source := c.source,
        confirmed := c.todayConfirmed,
        deaths := c.todayDeaths,
        newConfirmed := c.todayNewConfirmed,
        newDeaths := c.todayNewDeaths,
        newOpenCases := c.todayNewOpenCases,
        newRecovered := c.todayNewRecovered,
        openCases := c.todayOpenCases,
        recovered := c.todayRecovered,
        vsYesterdayConfirmed := c.todayVsYesterdayConfirmed,
        vsYesterdayDeaths := c.todayVsYesterdayDeaths,
        vsYesterdayOpenCases := c.todayVsYesterdayOpenCases,
        vsYesterdayRecovered := c.todayVsYesterdayRecovered))
  }

  /** `CovidTrackerTotalDto.toDomain(updatedAt)`: the total's date is both the
      world date and the stats date; `updatedAt` comes from the argument. */
  function TotalDtoToDomain(t: CovidTrackerTotalDto, updatedAt: string): (w: WorldStats)
    ensures w.date == t.date && w.stats.date == t.date && w.updatedAt == updatedAt
    ensures w.stats.source == t.source
    ensures w.stats.confirmed == t.todayConfirmed && w.stats.deaths == t.todayDeaths
    ensures w.stats.newConfirmed == t.todayNewConfirmed && w.stats.newDeaths == t.todayNewDeaths
    ensures w.stats.newOpenCases == t.todayNewOpenCases && w.stats.newRecovered == t.todayNewRecovered
    ensures w.stats.openCases == t.todayOpenCases && w.stats.recovered == t.todayRecovered
    ensures w.stats.vsYesterdayConfirmed == t.todayVsYesterdayConfirmed
    ensures w.stats.vsYesterdayDeaths == t.todayVsYesterdayDeaths
    ensures w.stats.vsYesterdayOpenCases == t.todayVsYesterdayOpenCases
    ensures w.stats.vsYesterdayRecovered == t.todayVsYesterdayRecovered
  {
    WorldStats(
      date := t.date,
      updatedAt := updatedAt,
      stats := Stats(
        date := t.date,
        source := t.source,
        confirmed := t.todayConfirmed,
        deaths := t.todayDeaths,
        newConfirmed := t.todayNewConfirmed,
        newDeaths := t.todayNewDeaths,
        newOpenCases := t.todayNewOpenCases,
        newRecovered := t.todayNewRecovered,
        openCases := t.todayOpenCases,
        recovered := t.todayRecovered,
        vsYesterdayConfirmed := t.todayVsYesterdayConfirmed,
        vsYesterdayDeaths := t.todayVsYesterdayDeaths,
        vsYesterdayOpenCases := t.todayVsYesterdayOpenCases,
        vsYesterdayRecovered := t.todayVsYesterdayRecovered))
  }

  /** Only the first date entry matters: whatever follows it is ignored. */
  lemma CovidTrackerDtoUsesFirstDateOnly(dto: CovidTrackerDto, later: seq<(string, CovidTrackerDateDto)>)
    requires |dto.dates| > 0
    ensures CovidTrackerDtoToDomain(dto.(dates := [dto.dates[0]] + later)) == CovidTrackerDtoToDomain(dto)
  {
  }

  // ------------------------------------------------------------- persisted -> domain

  /** `WorldAndCountriesStatsPojo.toDomain`: the countries in query order, one
      domain value each. `worldStats!!` and the `!!` on each joined country and
      stats row throw on null, hence the preconditions. */
  function PojoToDomain(p: WorldAndCountriesStatsPojo): (r: CovidTracker)
    requires p.worldStats.Some?
    requires forall i :: 0 <= i < |p.countriesStats| ==>
               p.countriesStats[i].country.Some? && p.countriesStats[i].stats.Some?
    ensures |r.countriesStats| == |p.countriesStats|
    ensures forall i :: 0 <= i < |p.countriesStats| ==>
              r.countriesStats[i] == CountryEntityToDomain(p.countriesStats[i].country.value, p.countriesStats[i].stats.value)
    ensures r.worldStats == WorldStatsEntityToDomain(p.worldStats.value)
  {
    var rows := p.countriesStats;
    CovidTracker(
      countriesStats := seq(|rows|, i requires 0 <= i < |rows| => CountryAndStatsToDomain(rows[i])),
      worldStats := WorldStatsEntityToDomain(p.worldStats.value))
  }

  /** `CountryAndStatsDV.toDomain`: the same value `CountryEntity.toDomain(stats)` builds. */
  function CountryAndStatsToDomain(dv: CountryAndStatsDV): (r: CountryStats)
    requires dv.country.Some? && dv.stats.Some?
    ensures r == CountryEntityToDomain(dv.country.value, dv.stats.value)
  {
    CountryStats(dv.country.value.id, dv.country.value.name, dv.country.value.nameEs,
                 StatsEntityToDomain(dv.stats.value))
  }

  /** `WorldStatsEntity.toDomain`: the row's date becomes both the world date and
      the stats date; mapping back gives the row itself. */
  function WorldStatsEntityToDomain(e: WorldStatsEntity): (w: WorldStats)
    ensures w.date == e.date && w.stats.date == e.date && w.updatedAt == e.updatedAt
    ensures WorldStatsToEntity(w) == e
  {
    WorldStats(date := e.date, updatedAt := e.updatedAt, stats := StatsEmbeddedToDomain(e.stats, e.date))
  }

  /** `CountryEntity.toDomain(stats)`: the identity of the row, the stats of the
      other row; mapping both parts back gives both rows. */
  function CountryEntityToDomain(e: CountryEntity, stats: StatsEntity): (c: CountryStats)
    ensures CountryStatsToEntity(c) == e
    ensures c.stats == StatsEntityToDomain(stats)
    ensures StatsToEntity(c.stats, stats.idCountryFk) == stats
  {
    CountryStats(id := e.id, name := e.name, nameEs := e.nameEs, stats := StatsEntityToDomain(stats))
  }

  /** `StatsEmbedded.toDomain(date)`: the date comes only from the argument; every
      other field is copied to the `Stats` field of the same name. */
  function StatsEmbeddedToDomain(e: StatsEmbedded, date: string): (s: Stats)
    ensures s.date == date && s.source == e.source
    ensures s.confirmed == e.confirmed && s.deaths == e.deaths
    ensures s.newConfirmed == e.newConfirmed && s.newDeaths == e.newDeaths
    ensures s.newOpenCases == e.newOpenCases && s.newRecovered == e.newRecovered
    ensures s.openCases == e.openCases && s.recovered == e.recovered
    ensures s.vsYesterdayConfirmed == e.vsYesterdayConfirmed
    ensures s.vsYesterdayDeaths == e.vsYesterdayDeaths
    ensures s.vsYesterdayOpenCases == e.vsYesterdayOpenCases
    ensures s.vsYesterdayRecovered == e.vsYesterdayRecovered
  {
    Stats(
      date := date,
      source := e.source,
      confirmed := e.confirmed,
      deaths := e.deaths,
      newConfirmed := e.newConfirmed,
      newDeaths := e.newDeaths,
      newOpenCases := e.newOpenCases,
      newRecovered := e.newRecovered,
      openCases := e.openCases,
      recovered := e.recovered,
      vsYesterdayConfirmed := e.vsYesterdayConfirmed,
      vsYesterdayDeaths := e.vsYesterdayDeaths,
      vsYesterdayOpenCases := e.vsYesterdayOpenCases,
      vsYesterdayRecovered := e.vsYesterdayRecovered)
  }

  /** `StatsEntity.toDomain`: the embedded metrics read at the row's date. */
  function StatsEntityToDomain(e: StatsEntity): (s: Stats)
    ensures s.date == e.date
    ensures s == StatsEmbeddedToDomain(e.stats, e.date)
  {
    Stats(
      date := e.date,
      source := e.stats.source,
      confirmed := e.stats.confirmed,
      deaths := e.stats.deaths,
      newConfirmed := e.stats.newConfirmed,
      newDeaths := e.stats.newDeaths,
      newOpenCases := e.stats.newOpenCases,
      newRecovered := e.stats.newRecovered,
      openCases := e.stats.openCases,
      recovered := e.stats.recovered,
      vsYesterdayConfirmed := e.stats.vsYesterdayConfirmed,
      vsYesterdayDeaths := e.stats.vsYesterdayDeaths,
      vsYesterdayOpenCases := e.stats.vsYesterdayOpenCases,
      vsYesterdayRecovered := e.stats.vsYesterdayRecovered)
  }

  // ------------------------------------------------------------- domain -> persisted

  /** `CountryStats.toEntity`: keeps exactly the identity fields; the stats are dropped. */
  function CountryStatsToEntity(c: CountryStats): (e: CountryEntity)
    ensures e.id == c.id && e.name == c.name && e.nameEs == c.nameEs
  {
    CountryEntity(id := c.id, name := c.name, nameEs := c.nameEs)
  }

  /** `WorldStats.toEntity`: date and timestamp kept, stats embedded without their date. */
  function WorldStatsToEntity(w: WorldStats): (e: WorldStatsEntity)
    ensures e.date == w.date && e.updatedAt == w.updatedAt
    ensures e.stats == StatsToEmbedded(w.stats)
  {
    WorldStatsEntity(date := w.date, updatedAt := w.updatedAt, stats := StatsToEmbedded(w.stats))
  }

  /** `Stats.toEmbedded`: every field but the date. Reading it back at any date
      gives the original stats with that date in place of its own. */
  function StatsToEmbedded(s: Stats): (e: StatsEmbedded)
    ensures forall date :: StatsEmbeddedToDomain(e, date) == s.(date := date)
    ensures StatsEmbeddedToDomain(e, s.date) == s
  {
    StatsEmbedded(
      source := s.source,
      confirmed := s.confirmed,
      deaths := s.deaths,
      newConfirmed := s.newConfirmed,
      newDeaths := s.newDeaths,
      newOpenCases := s.newOpenCases,
      newRecovered := s.newRecovered,
      openCases := s.openCases,
      recovered := s.recovered,
      vsYesterdayConfirmed := s.vsYesterdayConfirmed,
      vsYesterdayDeaths := s.vsYesterdayDeaths,
      vsYesterdayOpenCases := s.vsYesterdayOpenCases,
      vsYesterdayRecovered := s.vsYesterdayRecovered)
  }

  /** `Stats.toEntity(idCountryFk)`: a row keyed to the given country that reads
      back as the same stats. */
  function StatsToEntity(s: Stats, idCountryFk: string): (e: StatsEntity)
    ensures e.idCountryFk == idCountryFk && e.date == s.date
    ensures StatsEntityToDomain(e) == s
  {
    StatsEntity(
      date := s.date,
      stats := StatsEmbedded(
        source := s.source,
        confirmed := s.confirmed,
        deaths := s.deaths,
        newConfirmed := s.newConfirmed,
        newDeaths := s.newDeaths,
        newOpenCases := s.newOpenCases,
        newRecovered := s.newRecovered,
        openCases := s.openCases,
        recovered := s.recovered,
        vsYesterdayConfirmed := s.vsYesterdayConfirmed,
        vsYesterdayDeaths := s.vsYesterdayDeaths,
        vsYesterdayOpenCases := s.vsYesterdayOpenCases,
        vsYesterdayRecovered := s.vsYesterdayRecovered),
      idCountryFk := idCountryFk)
  }

  // -------------------------------------------------------------------- round-trips

  /** Persisted -> domain -> persisted is the identity on stats rows. */
  lemma StatsEntityRoundTrip(e: StatsEntity)
    ensures StatsToEntity(StatsEntityToDomain(e), e.idCountryFk) == e
  {
  }

  /** Embedded -> domain -> embedded is the identity, at any date. */
  lemma StatsEmbeddedRoundTrip(e: StatsEmbedded, date: string)
    ensures StatsToEmbedded(StatsEmbeddedToDomain(e, date)) == e
  {
  }

  /** A world value survives storage exactly when its two dates agree; otherwise
      the stats come back carrying the world date. */
  lemma WorldStatsRoundTrip(w: WorldStats)
    ensures WorldStatsEntityToDomain(WorldStatsToEntity(w)) == w.(stats := w.stats.(date := w.date))
    ensures WorldStatsEntityToDomain(WorldStatsToEntity(w)) == w <==> w.stats.date == w.date
  {
  }

  /** A country stored as its identity row and its stats row reads back unchanged. */
  lemma CountryStatsRoundTrip(c: CountryStats, idCountryFk: string)
    ensures CountryEntityToDomain(CountryStatsToEntity(c), StatsToEntity(c.stats, idCountryFk)) == c
  {
  }

  /** The country row does not depend on the stats. */
  lemma CountryStatsToEntityIgnoresStats(c: CountryStats, other: Stats)
    ensures CountryStatsToEntity(c.(stats := other)) == CountryStatsToEntity(c)
  {
  }

  // ----------------------------------------------------------------- mapEntityValid

  /** The classification of one emitted item: null and invalid both become
      `DatabaseEmptyData`, a valid item its mapped value. */
  function ClassifyItem<T, R>(item: Option<T>, mapper: T -> (bool, R)): Either<DomainError, R>
  {
    match item
    case None => Left(DatabaseEmptyData)
    case Some(x) => if mapper(x).0 then Right(mapper(x).1) else Left(DatabaseEmptyData)
  }

  /** `mapEntityValid`: one result per emitted item, in emission order, classified
      as absent, invalid or valid. */
  function MapEntityValid<T, R>(parse: seq<Option<T>>, mapper: T -> (bool, R)): (r: seq<Either<DomainError, R>>)
    ensures |r| == |parse|
    ensures forall i :: 0 <= i < |parse| && parse[i].None? ==> r[i] == Left(DatabaseEmptyData)
    ensures forall i :: 0 <= i < |parse| && parse[i].Some? && !mapper(parse[i].value).0 ==>
              r[i] == Left(DatabaseEmptyData)
    ensures forall i :: 0 <= i < |parse| && parse[i].Some? && mapper(parse[i].value).0 ==>
              r[i] == Right(mapper(parse[i].value).1)
  {
    if parse == [] then [] else [ClassifyItem(parse[0], mapper)] + MapEntityValid(parse[1..], mapper)
  }

  /** The combinator works item by item: mapping a concatenation of two streams
      is the concatenation of their mappings. */
  lemma MapEntityValidAppend<T, R>(a: seq<Option<T>>, b: seq<Option<T>>, mapper: T -> (bool, R))
    ensures MapEntityValid(a + b, mapper) == MapEntityValid(a, mapper) + MapEntityValid(b, mapper)
  {
  }

  /** An item yields a value exactly when it is present and valid; an error is
      always `DatabaseEmptyData`, never a `DatabaseDomainError`. */
  lemma MapEntityValidRightIff<T, R>(parse: seq<Option<T>>, mapper: T -> (bool, R), i: nat)
    requires i < |parse|
    ensures MapEntityValid(parse, mapper)[i].Right? <==> parse[i].Some? && mapper(parse[i].value).0
    ensures MapEntityValid(parse, mapper)[i].Left? ==> MapEntityValid(parse, mapper)[i].left == DatabaseEmptyData
  {
  }
}
