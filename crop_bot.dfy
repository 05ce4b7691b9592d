/**
 * The command-line crop recommendation bot of crop_recommendation.py: the
 * city read from the question with `re.search(r'in\s+([A-Za-z ]+)', ...)`,
 * the soil estimate completed with average values, the validation of the
 * seven model inputs, the average-weather fallback and the bounded history
 * a successful answer is recorded in.
 *
 * The language model, the weather lookup and the crop classifier are
 * inputs: the soil reply and the weather are functions of the city, the
 * report is the reply of the final call.
 */
module CropRecommendation {
  import opened Wrappers
  import opened PyText
  import opened ChatHistory

  // ---------------------------------------------------------------------
  // The city in the question

  /** The regular-expression class `[A-Za-z ]`. */
  predicate IsCityChar(c: char) {
    IsAsciiLetter(c) || c == ' '
  }

  /** The length of the run of whitespace starting at `j`. */
  function SpaceRun(s: string, j: nat): (n: nat)
    requires j <= |s|
    ensures j + n <= |s|
    ensures forall m :: j <= m < j + n ==> IsSpace(s[m])
    ensures j + n == |s| || !IsSpace(s[j + n])
    decreases |s| - j
  {
    if j < |s| && IsSpace(s[j]) then 1 + SpaceRun(s, j + 1) else 0
  }

  /** The length of the run of `[A-Za-z ]` starting at `j`. */
  function CityRun(s: string, j: nat): (n: nat)
    requires j <= |s|
    ensures j + n <= |s|
    ensures forall m :: j <= m < j + n ==> IsCityChar(s[m])
    ensures j + n == |s| || !IsCityChar(s[j + n])
    decreases |s| - j
  {
    if j < |s| && IsCityChar(s[j]) then 1 + CityRun(s, j + 1) else 0
  }

  /** How much of the whitespace after "in" `\s+` keeps when the group must
      start right after it: the largest `k` in [1, w] with a `[A-Za-z ]`
      character at `base + k`, or 0 when there is none. This is where the
      greedy `\s+` backtracks to. */
  function GroupStart(s: string, base: nat, w: nat): (k: nat)
    requires base + w <= |s|
    ensures k <= w
    ensures k > 0 ==> base + k < |s| && IsCityChar(s[base + k])
    ensures forall p :: base + k < p <= base + w && p < |s| ==> !IsCityChar(s[p])
    decreases w
  {
    if w == 0 then 0
    else if base + w < |s| && IsCityChar(s[base + w]) then w
    else GroupStart(s, base, w - 1)
  }

  /** `in\s+([A-Za-z ]+)` matches at `i` with `k` whitespace characters and
      the group ending at `e`. */
  predicate Fits(s: string, i: nat, k: nat, e: nat) {
    OccursAt("in", s, i) && 1 <= k && i + 2 + k < e <= |s| &&
    (forall m :: i + 2 <= m < i + 2 + k ==> IsSpace(s[m])) &&
    (forall m :: i + 2 + k <= m < e ==> IsCityChar(s[m]))
  }

  /** The group of the match at `i`, if the pattern matches there. */
  function MatchAt(s: string, i: nat): (r: Option<string>)
    requires i <= |s|
    ensures r.Some? ==> r.value != [] && forall m :: 0 <= m < |r.value| ==> IsCityChar(r.value[m])
  {
    if !OccursAt("in", s, i) then None
    else
      var w := SpaceRun(s, i + 2);
      var k := GroupStart(s, i + 2, w);
      if k == 0 then None
      else Some(s[i + 2 + k..i + 2 + k + CityRun(s, i + 2 + k)])
  }

  /** A match found at `i` is one the pattern allows, with the longest
      whitespace and then the longest group any match at `i` has. */
  lemma MatchAtSound(s: string, i: nat)
    requires i <= |s| && MatchAt(s, i).Some?
    ensures exists k: nat, e: nat :: (Fits(s, i, k, e) && MatchAt(s, i).value == s[i + 2 + k..e] &&
      forall k': nat, e': nat :: Fits(s, i, k', e') ==> k' <= k && e' <= e)
  {
    var w := SpaceRun(s, i + 2);
    var k := GroupStart(s, i + 2, w);
    var e := i + 2 + k + CityRun(s, i + 2 + k);
    assert Fits(s, i, k, e);
    forall k': nat, e': nat | Fits(s, i, k', e')
      ensures k' <= k && e' <= e
    {
      WithinRuns(s, i + 2, k', e');
    }
  }

  /** Any match with `k'` whitespace characters after "in" at `j - 2` and its
      group ending at `e'` uses no more whitespace, and ends no later, than
      the one `MatchAt` reports. */
  lemma WithinRuns(s: string, j: nat, k': nat, e': nat)
    requires 1 <= k' && j + k' < e' <= |s|
    requires forall m :: j <= m < j + k' ==> IsSpace(s[m])
    requires forall m :: j + k' <= m < e' ==> IsCityChar(s[m])
    ensures var k := GroupStart(s, j, SpaceRun(s, j));
      k' <= k && e' <= j + k + CityRun(s, j + k)
  {
    var w := SpaceRun(s, j);
    SpaceRunLongest(s, j, k');
    GroupStartAtLeast(s, j, w, k');
    var k := GroupStart(s, j, w);
    if e' > j + k {
      CityRunLongest(s, j + k, e' - (j + k));
    }
  }

  /** `GroupStart` is at least every position up to `w` where a group can
      start. */
  lemma GroupStartAtLeast(s: string, base: nat, w: nat, j: nat)
    requires base + w <= |s| && 1 <= j <= w && base + j < |s| && IsCityChar(s[base + j])
    ensures j <= GroupStart(s, base, w)
  {
  }

  /** No run of whitespace from `j` is longer than `SpaceRun`. */
  lemma {:induction false} SpaceRunLongest(s: string, j: nat, n: nat)
    requires j + n <= |s|
    requires forall m :: j <= m < j + n ==> IsSpace(s[m])
    ensures n <= SpaceRun(s, j)
    decreases n
  {
    if n > 0 {
      SpaceRunLongest(s, j + 1, n - 1);
    }
  }

  /** No run of `[A-Za-z ]` from `j` is longer than `CityRun`. */
  lemma {:induction false} CityRunLongest(s: string, j: nat, n: nat)
    requires j + n <= |s|
    requires forall m :: j <= m < j + n ==> IsCityChar(s[m])
    ensures n <= CityRun(s, j)
    decreases n
  {
    if n > 0 {
      CityRunLongest(s, j + 1, n - 1);
    }
  }

  /** The pattern matches at `i` whenever some match there is possible. */
  lemma MatchAtComplete(s: string, i: nat, k: nat, e: nat)
    requires i <= |s| && Fits(s, i, k, e)
    ensures MatchAt(s, i).Some?
  {
    SpaceRunLongest(s, i + 2, k);
    assert IsCityChar(s[i + 2 + k]);
  }

  /** `i` is the leftmost position the pattern matches at. */
  predicate LeftmostAt(s: string, i: nat)
    requires i <= |s|
  {
    MatchAt(s, i).Some? && forall j :: 0 <= j < i ==> MatchAt(s, j).None?
  }

  /** `re.search`: the first match at or after `from`. */
  function Search(s: string, from: nat): (r: Option<string>)
    requires from <= |s|
    ensures r.Some? ==> exists i :: (from <= i <= |s| && MatchAt(s, i) == r &&
      forall j :: from <= j < i ==> MatchAt(s, j).None?)
    ensures r.None? ==> forall j :: from <= j <= |s| ==> MatchAt(s, j).None?
    ensures r.Some? ==> forall m :: 0 <= m < |r.value| ==> IsCityChar(r.value[m])
    decreases |s| - from
  {
    if MatchAt(s, from).Some? then MatchAt(s, from)
    else if from == |s| then None
    else
      var r := Search(s, from + 1);
      assert r.Some? ==> exists i :: (from <= i <= |s| && MatchAt(s, i) == r &&
        forall j :: from <= j < i ==> MatchAt(s, j).None?) by {
        if r.Some? {
          var i :| from + 1 <= i <= |s| && MatchAt(s, i) == r && forall j :: from + 1 <= j < i ==> MatchAt(s, j).None?;
          assert forall j :: from <= j < i ==> MatchAt(s, j).None?;
        }
      }
      r
  }

  /** The city `parse_user_input` reads: the stripped group of the first
      match, or "Pune". */
  function ParseCity(message: string): (city: string)
    ensures Search(message, 0).None? ==> city == "Pune"
    ensures Search(message, 0).Some? ==>
      (forall m :: 0 <= m < |city| ==> IsCityChar(city[m])) &&
      (city == [] || (city[0] != ' ' && city[|city| - 1] != ' '))
  {
    match Search(message, 0)
    case None => "Pune"
    case Some(group) =>
      StrippedGroup(group);
      Strip(group)
  }

  /** Stripping the group leaves only `[A-Za-z ]` characters. */
  lemma StrippedGroup(group: string)
    requires forall m :: 0 <= m < |group| ==> IsCityChar(group[m])
    ensures forall m :: 0 <= m < |Strip(group)| ==> IsCityChar(Strip(group)[m])
  {
    var city := Strip(group);
    StripContained(group);
    var off :| 0 <= off <= |group| - |city| && OccursAt(city, group, off);
    forall m | 0 <= m < |city|
      ensures IsCityChar(city[m])
    {
      assert city[m] == group[off..off + |city|][m] == group[off + m];
    }
  }

  /** The city comes from the leftmost match, and that match is the longest
      one there. */
  lemma CityFromLeftmostMatch(message: string)
    requires Search(message, 0).Some?
    ensures exists i :: (0 <= i <= |message| && LeftmostAt(message, i) &&
      ParseCity(message) == Strip(MatchAt(message, i).value))
  {
  }

  /** `\s` also matches the ASCII separators 28-31: the unit separator
      between "in" and the name still yields the city. */
  lemma UnitSeparatorIsSpace()
    ensures ParseCity("in\U{001F}Delhi") == "Delhi"
  {
    var s := "in\U{001F}Delhi";
    assert OccursAt("in", s, 0);
    assert SpaceRun(s, 3) == 0;
    assert SpaceRun(s, 2) == 1;
    assert GroupStart(s, 2, 1) == 1;
    assert CityRun(s, 8) == 0;
    assert CityRun(s, 7) == 1;
    assert CityRun(s, 6) == 2;
    assert CityRun(s, 5) == 3;
    assert CityRun(s, 4) == 4;
    assert CityRun(s, 3) == 5;
    assert s[3..8] == "Delhi";
    assert MatchAt(s, 0) == Some("Delhi");
    assert Search(s, 0) == Some("Delhi");
    StripUnchanged("Delhi");
  }

  /** "in" counts even at the end of a longer word. */
  lemma CityAfterWordEndingInIn()
    ensures ParseCity("plain lands") == "lands"
  {
    var s := "plain lands";
    assert s[0] == 'p' && s[1] == 'l' && s[2] == 'a' && s[3] == 'i' && s[4] == 'n' && s[5] == ' ';
    assert s[6..] == "lands";
    assert !OccursAt("in", s, 0) by { assert s[0..2][0] == 'p'; }
    assert !OccursAt("in", s, 1) by { assert s[1..3][0] == 'l'; }
    assert !OccursAt("in", s, 2) by { assert s[2..4][0] == 'a'; }
    assert OccursAt("in", s, 3);
    assert SpaceRun(s, 6) == 0;
    assert SpaceRun(s, 5) == 1;
    assert GroupStart(s, 5, 1) == 1;
    assert CityRun(s, 11) == 0;
    assert CityRun(s, 10) == 1;
    assert CityRun(s, 9) == 2;
    assert CityRun(s, 8) == 3;
    assert CityRun(s, 7) == 4;
    assert CityRun(s, 6) == 5;
    assert s[6..11] == "lands";
    assert MatchAt(s, 3) == Some("lands");
    assert Search(s, 2) == Search(s, 3);
    assert Search(s, 1) == Search(s, 2);
    assert Search(s, 0) == Some("lands");
    LandsUnstripped();
  }

  lemma LandsUnstripped()
    ensures Strip("lands") == "lands"
  {
    var w := "lands";
    assert w[0] == 'l' && w[4] == 's';
    StripUnchanged(w);
  }

  // ---------------------------------------------------------------------
  // Soil estimate

  /** `avg_values`: N, P, K, temperature, humidity, pH, rainfall. */
  const AvgValues: seq<real> := [50.55, 53.36, 48.15, 25.62, 71.48, 7.0, 103.46]

  const SoilKeys: set<string> := {"N", "P", "K", "pH"}

  /** The average a soil key falls back to: `avg_values` 0, 1, 2 and 5. */
  function SoilDefault(key: string): real
    requires key in SoilKeys
  {
    if key == "N" then AvgValues[0]
    else if key == "P" then AvgValues[1]
    else if key == "K" then AvgValues[2]
    else AvgValues[5]
  }

  /** What the soil reply of the language model turned out to be: not JSON,
      a JSON object, or an exception (the call failed, or the JSON was not
      an object and has no `setdefault`). */
  datatype SoilReply = Unparsable | Parsed(fields: map<string, real>) | Raised(error: string)

  /** `soil` is `fields` with every missing soil key set to its average. */
  ghost predicate FilledFrom(fields: map<string, real>, soil: map<string, real>) {
    (forall k :: k in SoilKeys ==> (k in soil &&
      soil[k] == if k in fields then fields[k] else SoilDefault(k))) &&
    (forall k :: k !in SoilKeys ==> (k in soil <==> k in fields)) &&
    (forall k :: k !in SoilKeys && k in fields ==> soil[k] == fields[k])
  }

  /** `d.setdefault(key, value)`, as the dictionary afterwards. */
  function SetDefault(d: map<string, real>, key: string, value: real): (r: map<string, real>)
    ensures key in r && r[key] == if key in d then d[key] else value
    ensures forall k :: k != key ==> (k in r <==> k in d)
    ensures forall k :: k != key && k in d ==> r[k] == d[k]
  {
    if key in d then d else d[key := value]
  }

  /** `estimate_soil_nutrients_llm` after the reply: an unreadable reply gives
      the four averages, a readable one keeps its values and gains the
      averages it lacks. */
  function SoilEstimate(reply: SoilReply): (r: Result<map<string, real>, string>)
    ensures reply.Raised? ==> r == Err(reply.error)
    ensures reply.Unparsable? ==> (r.Ok? && r.value.Keys == SoilKeys &&
      forall k :: k in SoilKeys ==> r.value[k] == SoilDefault(k))
    ensures reply.Parsed? ==> r.Ok? && FilledFrom(reply.fields, r.value)
  {
    match reply
    case Raised(e) => Err(e)
    case Unparsable => Ok(map["N" := AvgValues[0], "P" := AvgValues[1], "K" := AvgValues[2], "pH" := AvgValues[5]])
    case Parsed(fields) =>
      Ok(SetDefault(SetDefault(SetDefault(SetDefault(fields, "N", AvgValues[0]), "P", AvgValues[1]), "K", AvgValues[2]), "pH", AvgValues[5]))
  }

  /** The four `setdefault` calls, one after the other, on the parsed reply
      or on the fallback dictionary. */
  method EstimateSoilNutrients(reply: SoilReply) returns (soil: Result<map<string, real>, string>)
    ensures soil == SoilEstimate(reply)
  {
    var d: map<string, real>;
    match reply {
      case Raised(e) =>
        return Err(e);
      case Unparsable =>
        d := map["N" := AvgValues[0], "P" := AvgValues[1], "K" := AvgValues[2], "pH" := AvgValues[5]];
      case Parsed(fields) =>
        d := fields;
    }
    d := SetDefault(d, "N", AvgValues[0]);
    d := SetDefault(d, "P", AvgValues[1]);
    d := SetDefault(d, "K", AvgValues[2]);
    d := SetDefault(d, "pH", AvgValues[5]);
    soil := Ok(d);
  }

  // ---------------------------------------------------------------------
  // Model input

  const RequiredSoil: seq<string> := ["N", "P", "K", "pH"]
  const RequiredWeather: seq<string> := ["temperature", "humidity", "rainfall"]
  const MissingPrefix: string := "Missing required input(s) for model: "

  /** `missing`: the absent soil keys, then the absent weather keys, each in
      declaration order. */
  function Missing(soil: map<string, real>, weather: map<string, real>): (r: seq<string>)
    ensures forall k :: k in r <==> (k in RequiredSoil && k !in soil) || (k in RequiredWeather && k !in weather)
  {
    Absent(RequiredSoil, soil) + Absent(RequiredWeather, weather)
  }

  /** `[key for key in keys if key not in d]`. */
  function Absent(keys: seq<string>, d: map<string, real>): (r: seq<string>)
    ensures forall k :: k in r <==> k in keys && k !in d
    ensures r == [] <==> forall i :: 0 <= i < |keys| ==> keys[i] in d
  {
    if keys == [] then []
    else (if keys[0] in d then [] else [keys[0]]) + Absent(keys[1..], d)
  }

  /** `get_model_input`: a `ValueError` naming every missing input, or the
      row [N, P, K, temperature, humidity, pH, rainfall]. */
  function GetModelInput(soil: map<string, real>, weather: map<string, real>): (r: Result<seq<real>, string>)
    ensures r.Ok? <==> ("N" in soil && "P" in soil && "K" in soil && "pH" in soil &&
      "temperature" in weather && "humidity" in weather && "rainfall" in weather)
    ensures r.Err? ==> r.error == MissingPrefix + Join(Missing(soil, weather), ", ")
    ensures r.Ok? ==> r.value == [soil["N"], soil["P"], soil["K"],
      weather["temperature"], weather["humidity"], soil["pH"], weather["rainfall"]]
  {
    var missing := Missing(soil, weather);
    assert RequiredSoil[0] == "N" && RequiredSoil[1] == "P" && RequiredSoil[2] == "K" && RequiredSoil[3] == "pH";
    assert RequiredWeather[0] == "temperature" && RequiredWeather[1] == "humidity" && RequiredWeather[2] == "rainfall";
    if missing != [] then
      Err(MissingPrefix + Join(missing, ", "))
    else
      assert "N" !in missing && "P" !in missing && "K" !in missing && "pH" !in missing;
      assert "temperature" !in missing && "humidity" !in missing && "rainfall" !in missing;
      Ok([soil["N"], soil["P"], soil["K"], weather["temperature"], weather["humidity"], soil["pH"], weather["rainfall"]])
  }

  // ---------------------------------------------------------------------
  // One turn

  /** `get_weather_by_city`: `{"error": ...}` on any failure, otherwise the
      readings it extracts. */
  datatype WeatherLookup = WeatherError(message: string) | WeatherInfo(fields: map<string, real>)

  /** The keys of a successful `get_weather_by_city` result. */
  const WeatherInfoKeys: set<string> := {"city", "country", "temperature", "feels_like", "humidity",
    "pressure", "description", "main", "wind_speed", "visibility"}

  /** The average temperature, humidity and rainfall (`avg_values` 3, 4, 6)
      used when the weather lookup failed. */
  const AverageWeather: map<string, real> :=
    map["temperature" := AvgValues[3], "humidity" := AvgValues[4], "rainfall" := AvgValues[6]]

  /** The weather the model input is built from. */
  function WeatherUsed(lookup: WeatherLookup): (r: map<string, real>)
    ensures lookup.WeatherError? ==>
      r.Keys == {"temperature", "humidity", "rainfall"} &&
      r["temperature"] == 25.62 && r["humidity"] == 71.48 && r["rainfall"] == 103.46
    ensures lookup.WeatherInfo? ==> r == lookup.fields
  {
    match lookup
    case WeatherError(_) => AverageWeather
    case WeatherInfo(fields) => fields
  }

  /** The outside world during one `get_response`. */
  datatype Services = Services(
    soilLlm: string -> SoilReply,
    weatherLookup: string -> WeatherLookup,
    report: Result<string, string>)

  /** The result of a turn: the answer and the history afterwards. */
  datatype Turn = Turn(answer: string, history: seq<Message>)

  /** `get_response`, as a function of the history before the turn. */
  function Outcome(history: seq<Message>, message: string, services: Services): (t: Turn)
    // the soil estimate raised: its error, nothing recorded
    ensures var soil := SoilEstimate(services.soilLlm(ParseCity(message)));
      soil.Err? ==> t == Turn(ErrorReply(soil.error), history)
    // an input is missing: the `ValueError`, nothing recorded
    ensures var city := ParseCity(message);
      var soil := SoilEstimate(services.soilLlm(city));
      var input := if soil.Ok? then GetModelInput(soil.value, WeatherUsed(services.weatherLookup(city))) else Err("");
      soil.Ok? && input.Err? ==> t == Turn(ErrorReply(input.error), history)
    // the row is complete: the report's error, or the report recorded after the question
    ensures var city := ParseCity(message);
      var soil := SoilEstimate(services.soilLlm(city));
      var input := if soil.Ok? then GetModelInput(soil.value, WeatherUsed(services.weatherLookup(city))) else Err("");
      input.Ok? ==> t == match services.report
        case Err(e) => Turn(ErrorReply(e), history)
        case Ok(text) => Turn(text, Add(Add(history, Message("user", message)), Message("assistant", text)))
  {
    var city := ParseCity(message);
    match SoilEstimate(services.soilLlm(city))
    case Err(e) => Turn(ErrorReply(e), history)
    case Ok(soil) =>
      match GetModelInput(soil, WeatherUsed(services.weatherLookup(city)))
      case Err(e) => Turn(ErrorReply(e), history)
      case Ok(_) =>
        match services.report
        case Err(e) => Turn(ErrorReply(e), history)
        case Ok(text) => Turn(text, Add(Add(history, Message("user", message)), Message("assistant", text)))
  }

  /** With the weather lookup failing, the averages complete the row: the
      report becomes the answer and the exchange is recorded. */
  lemma WeatherErrorStillAnswers(history: seq<Message>, message: string, services: Services)
    requires !services.soilLlm(ParseCity(message)).Raised?
    requires services.weatherLookup(ParseCity(message)).WeatherError?
    requires services.report.Ok?
    ensures Outcome(history, message, services) == Turn(services.report.value,
      Add(Add(history, Message("user", message)), Message("assistant", services.report.value)))
  {
    var soil := SoilEstimate(services.soilLlm(ParseCity(message)));
    assert "N" in soil.value && "P" in soil.value && "K" in soil.value && "pH" in soil.value;
  }

  /** A successful weather lookup has no "rainfall", so the turn always ends
      in the error that names it, and the history is left as it was. */
  lemma LiveWeatherLacksRainfall(history: seq<Message>, message: string, services: Services)
    requires !services.soilLlm(ParseCity(message)).Raised?
    requires services.weatherLookup(ParseCity(message)).WeatherInfo?
    requires var f := services.weatherLookup(ParseCity(message)).fields;
      f.Keys <= WeatherInfoKeys && "temperature" in f && "humidity" in f
    ensures Outcome(history, message, services) ==
      Turn(ErrorReply("Missing required input(s) for model: rainfall"), history)
  {
    var city := ParseCity(message);
    var soil := SoilEstimate(services.soilLlm(city)).value;
    OnlyRainfallMissing(soil, services.weatherLookup(city).fields);
  }

  /** With the soil completed and the readings of a live lookup, rainfall is
      the one input missing. */
  lemma OnlyRainfallMissing(soil: map<string, real>, weather: map<string, real>)
    requires "N" in soil && "P" in soil && "K" in soil && "pH" in soil
    requires weather.Keys <= WeatherInfoKeys && "temperature" in weather && "humidity" in weather
    ensures GetModelInput(soil, weather) == Err("Missing required input(s) for model: rainfall")
  {
    assert "rainfall" !in weather;
    NothingButRainfall(soil, weather);
    assert Join(["rainfall"], ", ") == "rainfall";
    assert MissingPrefix + "rainfall" == "Missing required input(s) for model: rainfall";
  }

  lemma NothingButRainfall(soil: map<string, real>, weather: map<string, real>)
    requires "N" in soil && "P" in soil && "K" in soil && "pH" in soil
    requires "temperature" in weather && "humidity" in weather && "rainfall" !in weather
    ensures Missing(soil, weather) == ["rainfall"]
  {
    assert RequiredSoil[0] == "N" && RequiredSoil[1] == "P" && RequiredSoil[2] == "K" && RequiredSoil[3] == "pH";
    assert Absent(RequiredSoil, soil) == [];
    assert RequiredWeather[2..] == ["rainfall"] && RequiredWeather[1..] == ["humidity", "rainfall"];
    assert Absent(RequiredWeather[2..][1..], weather) == [];
    assert Absent(RequiredWeather[2..], weather) == ["rainfall"];
    assert Absent(RequiredWeather[1..], weather) == ["rainfall"];
  }

  class CropChatBot {
    /** `conversation_history`. */
    var history: seq<Message>

    constructor ()
      ensures history == []
    {
      history := [];
    }

    /** `add_to_history`: append, then keep the last 10. */
    method AddToHistory(role: string, content: string)
      modifies this
      ensures history == Add(old(history), Message(role, content))
    {
      history := history + [Message(role, content)];
      if |history| > MaxHistory {
        history := history[|history| - MaxHistory..];
      }
    }

    /** `get_response`: every failure returns "❌ Error: " and its text and
        leaves the history alone; a report is recorded after the question. */
    method GetResponse(message: string, services: Services) returns (answer: string)
      modifies this
      ensures Turn(answer, history) == Outcome(old(history), message, services)
    {
      var city := ParseCity(message);
      var soil := EstimateSoilNutrients(services.soilLlm(city));
      if soil.Err? {
        return ErrorReply(soil.error);
      }
      var weather: map<string, real>;
      match services.weatherLookup(city) {
        case WeatherError(_) =>
          weather := map["temperature" := AvgValues[3], "humidity" := AvgValues[4], "rainfall" := AvgValues[6]];
        case WeatherInfo(fields) =>
          weather := fields;
      }
      assert weather == WeatherUsed(services.weatherLookup(city));
      var input := GetModelInput(soil.value, weather);
      if input.Err? {
        return ErrorReply(input.error);
      }
      if services.report.Err? {
        return ErrorReply(services.report.error);
      }
      var enhanced := services.report.value;
      AddToHistory("user", message);
      AddToHistory("assistant", enhanced);
      answer := enhanced;
    }
  }
}
