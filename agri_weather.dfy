/**
 * The agricultural rules of the weather service
 * (backend/api/Wheather/wheatherapi.py): which location parameters a request
 * uses, how 3-hourly forecast items are grouped into days, and the
 * irrigation, pest, disease, frost and field-work assessments built on them.
 *
 * Temperatures, humidity and precipitation are `real`: the rules only compare
 * and add them, and averages are exact here. Calendar dates are taken as
 * given on each forecast item (the code derives them from a timestamp).
 */
module AgriWeather {
  import opened Wrappers
  import opened PyText

  datatype WeatherError = KeyError(key: string) | WeatherAPIError(message: string)

  // ---------------------------------------------------------------------
  // Location parameters

  datatype LocationQuery = ByCity(q: string) | ByCoordinates(lat: real, lon: real)

  const MissingLocation := "Either city name or coordinates (lat, lon) must be provided"

  /** The `q` or `lat`/`lon` parameters of `get_current_weather` and
      `get_weather_forecast`: a non-empty city wins; otherwise both
      coordinates must be present (zero is a valid coordinate); otherwise
      WeatherAPIError is raised. */
  function LocationParams(city: Option<string>, lat: Option<real>, lon: Option<real>): (r: Result<LocationQuery, WeatherError>)
    ensures r.Err? <==> (city.None? || city.value == "") && (lat.None? || lon.None?)
    ensures r.Err? ==> r.error == WeatherAPIError(MissingLocation)
    ensures city.Some? && city.value != "" ==> r == Ok(ByCity(city.value))
    ensures r.Ok? && r.value.ByCoordinates? ==>
      (city.None? || city.value == "") && lat == Some(r.value.lat) && lon == Some(r.value.lon)
  {
    if city.Some? && city.value != "" then Ok(ByCity(city.value))
    else if lat.Some? && lon.Some? then Ok(ByCoordinates(lat.value, lon.value))
    else Err(WeatherAPIError(MissingLocation))
  }

  // ---------------------------------------------------------------------
  // Forecast items and days

  /** One 3-hour item of the forecast list. `rain3h`/`snow3h` are the optional
      `rain['3h']`/`snow['3h']` values. */
  datatype ForecastItem = ForecastItem(
    date: string, temp: real, humidity: real,
    rain3h: Option<real>, snow3h: Option<real>, weather: string)

  /** `item.get('rain', {}).get('3h', 0) + item.get('snow', {}).get('3h', 0)`. */
  function ItemPrecipitation(x: ForecastItem): real {
    x.rain3h.GetOr(0.0) + x.snow3h.GetOr(0.0)
  }

  /** The `daily_data` dictionary of one day being accumulated. */
  datatype Daily = Daily(temps: seq<real>, humidity: seq<real>, precipitation: real, weather: seq<string>)

  /** One item added to the day's accumulator. */
  function AddItem(d: Daily, x: ForecastItem): Daily {
    Daily(d.temps + [x.temp], d.humidity + [x.humidity], d.precipitation + ItemPrecipitation(x), d.weather + [x.weather])
  }

  /** The accumulator after a run of items has been added to a fresh one. */
  function DailyOf(run: seq<ForecastItem>): (d: Daily)
    ensures |d.temps| == |run| && |d.humidity| == |run| && |d.weather| == |run|
  {
    if run == [] then Daily([], [], 0.0, []) else AddItem(DailyOf(run[..|run| - 1]), run[|run| - 1])
  }

  /** The aggregated day `_aggregate_daily_forecast` returns. */
  datatype DayForecast = DayForecast(
    date: string, minTemp: real, maxTemp: real, avgTemp: real,
    humidityAvg: real, precipitationTotal: real, weather: string)

  function MinOf(s: seq<real>): (m: real)
    requires s != []
    ensures m in s && forall k :: 0 <= k < |s| ==> m <= s[k]
  {
    if |s| == 1 then s[0]
    else
      var rest := MinOf(s[1..]);
      if s[0] <= rest then s[0] else rest
  }

  function MaxOf(s: seq<real>): (m: real)
    requires s != []
    ensures m in s && forall k :: 0 <= k < |s| ==> s[k] <= m
  {
    if |s| == 1 then s[0]
    else
      var rest := MaxOf(s[1..]);
      if s[0] >= rest then s[0] else rest
  }

  function SumOf(s: seq<real>): real {
    if s == [] then 0.0 else s[0] + SumOf(s[1..])
  }

  /** `_aggregate_daily_forecast(daily_data, date)`. */
  function Aggregate(d: Daily, date: string): DayForecast
    requires d.temps != [] && d.humidity != [] && d.weather != []
  {
    DayForecast(date, MinOf(d.temps), MaxOf(d.temps), SumOf(d.temps) / (|d.temps| as real),
                SumOf(d.humidity) / (|d.humidity| as real), d.precipitation, d.weather[0])
  }

  // ---------------------------------------------------------------------
  // Grouping items into days

  /** The maximal runs of consecutive items that share a date, in order. */
  function Runs(s: seq<ForecastItem>): (R: seq<seq<ForecastItem>>)
    ensures (R == []) == (s == [])
    ensures forall k :: 0 <= k < |R| ==> R[k] != []
    ensures forall k, j :: 0 <= k < |R| && 0 <= j < |R[k]| ==> R[k][j].date == R[k][0].date
  {
    if s == [] then []
    else
      var init, x := Runs(s[..|s| - 1]), s[|s| - 1];
      if init != [] && init[|init| - 1][0].date == x.date
      then init[..|init| - 1] + [init[|init| - 1] + [x]]
      else init + [[x]]
  }

  /** The aggregated days of a series of runs. */
  function DaysOf(R: seq<seq<ForecastItem>>): (days: seq<DayForecast>)
    requires forall k :: 0 <= k < |R| ==> R[k] != []
    ensures |days| == |R|
    ensures forall k :: 0 <= k < |R| ==> days[k].date == R[k][0].date
  {
    if R == [] then []
    else DaysOf(R[..|R| - 1]) + [Aggregate(DailyOf(R[|R| - 1]), R[|R| - 1][0].date)]
  }

  /** Concatenation of a series of runs. */
  function Flatten(R: seq<seq<ForecastItem>>): seq<ForecastItem> {
    if R == [] then [] else Flatten(R[..|R| - 1]) + R[|R| - 1]
  }

  /** One more item either extends the last run (same date) or opens a new one. */
  lemma RunsSnoc(s: seq<ForecastItem>, x: ForecastItem)
    ensures var R := Runs(s);
      Runs(s + [x]) == if R != [] && R[|R| - 1][0].date == x.date
                       then R[..|R| - 1] + [R[|R| - 1] + [x]]
                       else R + [[x]]
  {
    assert (s + [x])[..|s|] == s;
  }

  lemma FlattenSnoc(R: seq<seq<ForecastItem>>, run: seq<ForecastItem>)
    ensures Flatten(R + [run]) == Flatten(R) + run
  {
    assert (R + [run])[..|R|] == R;
  }

  /** The runs put back together give the items back. */
  lemma {:induction false} RunsFlatten(s: seq<ForecastItem>)
    ensures Flatten(Runs(s)) == s
  {
    if s != [] {
      var init, x := s[..|s| - 1], s[|s| - 1];
      assert s == init + [x];
      RunsFlatten(init);
      RunsSnoc(init, x);
      var R: seq<seq<ForecastItem>> := Runs(init);
      if R != [] && R[|R| - 1][0].date == x.date {
        var P, L := R[..|R| - 1], R[|R| - 1];
        assert R == P + [L];
        FlattenSnoc(P, L);
        FlattenSnoc(P, L + [x]);
      } else {
        FlattenSnoc(R, [x]);
      }
    }
  }

  /** Neighbouring runs have different dates: no run could be longer. */
  lemma {:induction false} RunsMaximal(s: seq<ForecastItem>)
    ensures var R := Runs(s);
      forall k :: 0 <= k < |R| - 1 ==> R[k][0].date != R[k + 1][0].date
  {
    if s != [] {
      var init, x := s[..|s| - 1], s[|s| - 1];
      assert s == init + [x];
      RunsMaximal(init);
      RunsSnoc(init, x);
      var R: seq<seq<ForecastItem>> := Runs(init);
      if R != [] && R[|R| - 1][0].date == x.date {
        ExtendKeepsApart(R, x);
      } else {
        OpenKeepsApart(R, x);
      }
    }
  }

  /** Neighbouring runs of `R` have different dates. */
  predicate Apart(R: seq<seq<ForecastItem>>)
    requires forall k :: 0 <= k < |R| ==> R[k] != []
  {
    forall k :: 0 <= k < |R| - 1 ==> R[k][0].date != R[k + 1][0].date
  }

  /** Extending the last run keeps neighbouring runs apart. */
  lemma ExtendKeepsApart(R: seq<seq<ForecastItem>>, x: ForecastItem)
    requires R != [] && forall k :: 0 <= k < |R| ==> R[k] != []
    requires Apart(R)
    ensures var R' := R[..|R| - 1] + [R[|R| - 1] + [x]];
      forall k :: 0 <= k < |R'| - 1 ==> R'[k][0].date != R'[k + 1][0].date
  {
    var R': seq<seq<ForecastItem>> := R[..|R| - 1] + [R[|R| - 1] + [x]];
    forall k | 0 <= k < |R'| - 1
      ensures R'[k][0].date != R'[k + 1][0].date
    {
      assert R'[k] == R[k];
      assert R'[k + 1][0] == R[k + 1][0];
    }
  }

  /** Opening a run of a date other than the last run's keeps neighbouring runs apart. */
  lemma OpenKeepsApart(R: seq<seq<ForecastItem>>, x: ForecastItem)
    requires forall k :: 0 <= k < |R| ==> R[k] != []
    requires Apart(R)
    requires R != [] ==> R[|R| - 1][0].date != x.date
    ensures var R' := R + [[x]];
      forall k :: 0 <= k < |R'| - 1 ==> R'[k][0].date != R'[k + 1][0].date
  {
    var R': seq<seq<ForecastItem>> := R + [[x]];
    forall k | 0 <= k < |R'| - 1
      ensures R'[k][0].date != R'[k + 1][0].date
    {
      assert R'[k] == R[k];
      if k + 1 < |R| {
        assert R'[k + 1] == R[k + 1];
      }
    }
  }

  lemma DailyOfSnoc(run: seq<ForecastItem>, x: ForecastItem)
    ensures DailyOf(run + [x]) == AddItem(DailyOf(run), x)
  {
    assert (run + [x])[..|run|] == run;
  }

  lemma DaysOfSnoc(R: seq<seq<ForecastItem>>, run: seq<ForecastItem>)
    requires forall k :: 0 <= k < |R| ==> R[k] != []
    requires run != []
    ensures DaysOf(R + [run]) == DaysOf(R) + [Aggregate(DailyOf(run), run[0].date)]
  {
    assert (R + [run])[..|R|] == R;
  }

  /** The loop state after the items `done`: the open day's date and
      accumulator, and the closed days before it. */
  ghost predicate GroupedSoFar(done: seq<ForecastItem>, current: Option<string>, daily: Option<Daily>,
                               forecasts: seq<DayForecast>)
  {
    if done == [] then current.None? && daily.None? && forecasts == []
    else
      var R := Runs(done);
      current == Some(R[|R| - 1][0].date) && daily == Some(DailyOf(R[|R| - 1]))
      && forecasts == DaysOf(R[..|R| - 1])
  }

  /** `_format_forecast_data(data, days)` on `data['list']`: groups the first
      `days * 8` items into days, one per maximal run of equal dates, in order.
      An empty selection raises KeyError, because the day accumulator is still
      the empty dictionary when its 'temps' entry is read. */
  method FormatForecastData(list: seq<ForecastItem>, days: int) returns (r: Result<seq<DayForecast>, WeatherError>)
    ensures r.Err? <==> Take(list, days * 8) == []
    ensures r.Err? ==> r.error == KeyError("temps")
    ensures r.Ok? ==> r.value == DaysOf(Runs(Take(list, days * 8)))
  {
    r := GroupDays(Take(list, days * 8));
  }

  /** The `for item in …` loop of `_format_forecast_data` and the closing of the last day. */
  method GroupDays(items: seq<ForecastItem>) returns (r: Result<seq<DayForecast>, WeatherError>)
    ensures r.Err? <==> items == []
    ensures r.Err? ==> r.error == KeyError("temps")
    ensures r.Ok? ==> r.value == DaysOf(Runs(items))
  {
    var forecasts: seq<DayForecast> := [];
    var current: Option<string> := None;
    var daily: Option<Daily> := None;
    var i := 0;
    while i < |items|
      invariant 0 <= i <= |items|
      invariant GroupedSoFar(items[..i], current, daily, forecasts)
    {
      assert items[..i + 1] == items[..i] + [items[i]];
      current, daily, forecasts := AbsorbItem(items[..i], items[i], current, daily, forecasts);
      i := i + 1;
    }
    if daily.None? {
      return Err(KeyError("temps"));
    }
    assert items[..i] == items;
    CloseLastDay(items, current, daily, forecasts);
    forecasts := forecasts + [Aggregate(daily.value, current.value)];
    return Ok(forecasts);
  }

  /** After the loop, closing the open day gives one day per run. */
  lemma CloseLastDay(items: seq<ForecastItem>, current: Option<string>, daily: Option<Daily>,
                     forecasts: seq<DayForecast>)
    requires GroupedSoFar(items, current, daily, forecasts) && daily.Some?
    ensures current.Some?
    ensures forecasts + [Aggregate(daily.value, current.value)] == DaysOf(Runs(items))
  {
    var R := Runs(items);
    DaysOfSnoc(R[..|R| - 1], R[|R| - 1]);
    assert R[..|R| - 1] + [R[|R| - 1]] == R;
  }

  /** The loop body for one item: a new date closes the open day and opens a
      fresh one; then the item is added to the open day. */
  method AbsorbItem(ghost done: seq<ForecastItem>, item: ForecastItem,
                    current: Option<string>, daily: Option<Daily>, forecasts: seq<DayForecast>)
    returns (current': Option<string>, daily': Option<Daily>, forecasts': seq<DayForecast>)
    requires GroupedSoFar(done, current, daily, forecasts)
    ensures GroupedSoFar(done + [item], current', daily', forecasts')
  {
    current', daily', forecasts' := current, daily, forecasts;
    if current != Some(item.date) {
      if current.Some? {
        forecasts' := forecasts + [Aggregate(daily.value, current.value)];
      }
      current' := Some(item.date);
      daily' := Some(Daily([], [], 0.0, []));
      NewDayStep(done, item, current, daily, forecasts);
    } else {
      SameDayStep(done, item, current, daily, forecasts);
    }
    daily' := Some(AddItem(daily'.value, item));
  }

  /** An item of a new date closes the open day (if any) and opens its own. */
  lemma NewDayStep(done: seq<ForecastItem>, item: ForecastItem,
                   current: Option<string>, daily: Option<Daily>, forecasts: seq<DayForecast>)
    requires GroupedSoFar(done, current, daily, forecasts)
    requires current != Some(item.date)
    ensures current.Some? ==> daily.Some?
    ensures GroupedSoFar(done + [item], Some(item.date), Some(AddItem(Daily([], [], 0.0, []), item)),
                         if current.Some? then forecasts + [Aggregate(daily.value, current.value)] else forecasts)
  {
    var R := Runs(done);
    RunsSnoc(done, item);
    if current.Some? {
      DaysOfSnoc(R[..|R| - 1], R[|R| - 1]);
      assert R[..|R| - 1] + [R[|R| - 1]] == R;
    }
    var R' := R + [[item]];
    assert R'[..|R'| - 1] == R;
    DailyOfSnoc([], item);
  }

  /** An item of the open day's date joins it. */
  lemma SameDayStep(done: seq<ForecastItem>, item: ForecastItem,
                    current: Option<string>, daily: Option<Daily>, forecasts: seq<DayForecast>)
    requires GroupedSoFar(done, current, daily, forecasts)
    requires current == Some(item.date)
    ensures daily.Some?
    ensures GroupedSoFar(done + [item], current, Some(AddItem(daily.value, item)), forecasts)
  {
    var R := Runs(done);
    RunsSnoc(done, item);
    var P, L := R[..|R| - 1], R[|R| - 1];
    var R' := P + [L + [item]];
    assert R'[..|R'| - 1] == P;
    DailyOfSnoc(L, item);
  }

  /** Each forecast day covers one maximal run of the selected items: the
      days' dates are the run dates, neighbours differ, and the runs together
      are exactly the selected items. */
  lemma ForecastDaysCoverItems(list: seq<ForecastItem>, days: int)
    ensures var R := Runs(Take(list, days * 8));
      Flatten(R) == Take(list, days * 8)
      && |DaysOf(R)| == |R|
      && forall k :: 0 <= k < |R| - 1 ==> DaysOf(R)[k].date != DaysOf(R)[k + 1].date
  {
    RunsFlatten(Take(list, days * 8));
    RunsMaximal(Take(list, days * 8));
  }

  // ---------------------------------------------------------------------
  // Assessments

  /** The current conditions; `precipitation` may be absent. */
  datatype CurrentWeather = CurrentWeather(temperature: real, humidity: real, precipitation: Option<real>)

  datatype Level = Low | Medium | High

  /** The `precipitation_total` of each day, added up. */
  function PrecipitationSum(days: seq<DayForecast>): real {
    if days == [] then 0.0 else days[0].precipitationTotal + PrecipitationSum(days[1..])
  }

  /** The irrigation score: 2 for little recent rain, 3 for a dry three-day
      outlook, 2 for dry air, 2 for heat. */
  function IrrigationScore(recent: real, forecast: real, humidity: real, temp: real): (s: int)
    ensures 0 <= s <= 9
  {
    (if recent < 2.0 then 2 else 0) + (if forecast < 5.0 then 3 else 0)
    + (if humidity < 40.0 then 2 else 0) + (if temp > 30.0 then 2 else 0)
  }

  /** The need level for a score. */
  function NeedLevel(score: int): (l: Level)
    ensures l == High <==> score >= 6
    ensures l == Medium <==> 4 <= score < 6
    ensures l == Low <==> score < 4
  {
    if score >= 6 then High else if score >= 4 then Medium else Low
  }

  /** Drier, more humid-free and hotter conditions never lower the score. */
  lemma IrrigationScoreMonotone(recent: real, forecast: real, humidity: real, temp: real,
                                recent': real, forecast': real, humidity': real, temp': real)
    requires recent' <= recent && forecast' <= forecast && humidity' <= humidity && temp' >= temp
    ensures IrrigationScore(recent, forecast, humidity, temp) <= IrrigationScore(recent', forecast', humidity', temp')
  {
  }

  datatype Irrigation = Irrigation(
    level: Level, score: int,
    recentPrecipitation: real, forecastPrecipitation: real, humidity: real, temperature: real)

  /** `_assess_irrigation_need(current, forecast)`. */
  method AssessIrrigationNeed(current: CurrentWeather, forecasts: seq<DayForecast>) returns (r: Irrigation)
    ensures r.recentPrecipitation == current.precipitation.GetOr(0.0)
    ensures r.forecastPrecipitation == PrecipitationSum(Take(forecasts, 3))
    ensures r.humidity == current.humidity && r.temperature == current.temperature
    ensures r.score == IrrigationScore(r.recentPrecipitation, r.forecastPrecipitation, r.humidity, r.temperature)
    ensures 0 <= r.score <= 9
    ensures r.level == NeedLevel(r.score)
  {
    var recent := current.precipitation.GetOr(0.0);
    var forecast := PrecipitationSum(Take(forecasts, 3));
    var humidity := current.humidity;
    var temp := current.temperature;
    var score := 0;
    if recent < 2.0 {
      score := score + 2;
    }
    if forecast < 5.0 {
      score := score + 3;
    }
    if humidity < 40.0 {
      score := score + 2;
    }
    if temp > 30.0 {
      score := score + 2;
    }
    var level: Level;
    if score >= 6 {
      level := High;
    } else if score >= 4 {
      level := Medium;
    } else {
      level := Low;
    }
    return Irrigation(level, score, recent, forecast, humidity, temp);
  }

  /** `_assess_pest_risk`: warm and humid weather favours pests. */
  function PestRisk(temp: real, humidity: real): (l: Level)
    ensures l == High <==> temp > 25.0 && humidity > 70.0
    ensures l == Medium <==> !(temp > 25.0 && humidity > 70.0) && temp > 20.0 && humidity > 60.0
  {
    if temp > 25.0 && humidity > 70.0 then High
    else if temp > 20.0 && humidity > 60.0 then Medium
    else Low
  }

  /** `_assess_disease_risk`, with precipitation defaulting to 0. */
  function DiseaseRisk(humidity: real, precipitation: Option<real>): (l: Level)
    ensures l == High <==> humidity > 80.0 && precipitation.GetOr(0.0) > 1.0
    ensures l == Medium <==> !(humidity > 80.0 && precipitation.GetOr(0.0) > 1.0) && humidity > 70.0
  {
    if humidity > 80.0 && precipitation.GetOr(0.0) > 1.0 then High
    else if humidity > 70.0 then Medium
    else Low
  }

  function Rank(l: Level): int {
    match l
    case Low => 0
    case Medium => 1
    case High => 2
  }

  /** Warmer or more humid weather never lowers the pest risk; more humid or
      wetter weather never lowers the disease risk. */
  lemma RisksMonotone(temp: real, humidity: real, precip: real, temp': real, humidity': real, precip': real)
    requires temp <= temp' && humidity <= humidity' && precip <= precip'
    ensures Rank(PestRisk(temp, humidity)) <= Rank(PestRisk(temp', humidity'))
    ensures Rank(DiseaseRisk(humidity, Some(precip))) <= Rank(DiseaseRisk(humidity', Some(precip')))
  {
  }

  /** Conditions for field work: a moderate maximum, no cold night, no rain. */
  predicate IsOptimal(d: DayForecast) {
    15.0 <= d.maxTemp <= 28.0 && d.minTemp > 5.0 && d.precipitationTotal < 1.0
  }

  function DateOf(d: DayForecast): string {
    d.date
  }

  /** `_get_optimal_activity_time(forecast)`: the dates, in order, of the
      days among the first three that suit field work. */
  method OptimalActivityDays(forecasts: seq<DayForecast>) returns (dates: seq<string>)
    ensures dates == Map(DateOf, Filter(IsOptimal, Take(forecasts, 3)))
    ensures |dates| <= 3
    ensures forall k :: 0 <= k < |dates| ==> exists j :: 0 <= j < |forecasts| && j < 3 && IsOptimal(forecasts[j]) && forecasts[j].date == dates[k]
  {
    var window := Take(forecasts, 3);
    dates := [];
    var i := 0;
    while i < |window|
      invariant 0 <= i <= |window|
      invariant dates == Map(DateOf, Filter(IsOptimal, window[..i]))
    {
      assert window[..i + 1] == window[..i] + [window[i]];
      FilterSnoc(IsOptimal, window[..i], window[i]);
      if IsOptimal(window[i]) {
        MapSnoc(DateOf, Filter(IsOptimal, window[..i]), window[i]);
        dates := dates + [window[i].date];
      }
      i := i + 1;
    }
    assert window[..i] == window;
    ghost var kept := Filter(IsOptimal, window);
    forall k | 0 <= k < |dates|
      ensures exists j :: 0 <= j < |forecasts| && j < 3 && IsOptimal(forecasts[j]) && forecasts[j].date == dates[k]
    {
      assert kept[k] in window;
      var j :| 0 <= j < |window| && window[j] == kept[k];
      assert forecasts[j] == window[j];
    }
  }

  /** One entry of `risk_days`. */
  datatype FrostDay = FrostDay(date: string, minTemp: real, level: Level)

  predicate IsFrostDay(d: DayForecast) {
    d.minTemp <= 2.0
  }

  function FrostEntry(d: DayForecast): FrostDay {
    FrostDay(d.date, d.minTemp, if d.minTemp <= 0.0 then High else Medium)
  }

  datatype FrostRisk = FrostRisk(hasRisk: bool, riskDays: seq<FrostDay>)

  /** `_assess_frost_risk(forecast)`: one entry, in order, for every day whose
      minimum is at most 2 degrees, 'High' when it is at most 0 and 'Medium'
      otherwise; `has_risk` says whether there is any. */
  method AssessFrostRisk(forecasts: seq<DayForecast>) returns (r: FrostRisk)
    ensures r.riskDays == Map(FrostEntry, Filter(IsFrostDay, forecasts))
    ensures r.hasRisk <==> exists k :: 0 <= k < |forecasts| && forecasts[k].minTemp <= 2.0
    ensures forall k :: 0 <= k < |r.riskDays| ==>
      r.riskDays[k].minTemp <= 2.0 && (r.riskDays[k].level == High <==> r.riskDays[k].minTemp <= 0.0)
  {
    var days := CollectFrostDays(forecasts);
    FilterNonEmpty(IsFrostDay, forecasts);
    return FrostRisk(|days| > 0, days);
  }

  /** The `for day_forecast in forecast['forecasts']` loop of `_assess_frost_risk`. */
  method CollectFrostDays(forecasts: seq<DayForecast>) returns (days: seq<FrostDay>)
    ensures days == Map(FrostEntry, Filter(IsFrostDay, forecasts))
  {
    days := [];
    var i := 0;
    while i < |forecasts|
      invariant 0 <= i <= |forecasts|
      invariant days == Map(FrostEntry, Filter(IsFrostDay, forecasts[..i]))
    {
      assert forecasts[..i + 1] == forecasts[..i] + [forecasts[i]];
      FilterSnoc(IsFrostDay, forecasts[..i], forecasts[i]);
      var minTemp := forecasts[i].minTemp;
      if minTemp <= 2.0 {
        MapSnoc(FrostEntry, Filter(IsFrostDay, forecasts[..i]), forecasts[i]);
        days := days + [FrostDay(forecasts[i].date, minTemp, if minTemp <= 0.0 then High else Medium)];
      }
      i := i + 1;
    }
    assert forecasts[..i] == forecasts;
  }
}
