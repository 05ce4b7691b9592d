/**
 * The weather-driven crop recommendation bot of
 * backend/api/Wheather/crop_recommendation.py ("Krishi Mitra"): intent
 * routing, the weather lookup and its estimation fallback, the ordering of
 * the seven model features, the top-three ranking, the suitability check
 * and the one piece of state the bot keeps between turns.
 *
 * Every reply of the language model, the weather lookup and the crop
 * classifier is an input (`Replies`): the model captures what the bot does
 * with them, not how they are produced.
 */
module WeatherCropBot {
  import opened Wrappers
  import opened PyText
  import opened Ranking

  // ---------------------------------------------------------------------
  // Model input

  /** `feature_order` of `get_model_input`. */
  const FeatureOrder: seq<string> := ["N", "P", "K", "temperature", "humidity", "pH", "rainfall"]

  /** `k` is the first of `keys` missing from `d`. */
  predicate FirstMissing(d: map<string, real>, keys: seq<string>, k: string) {
    exists i :: 0 <= i < |keys| && keys[i] == k && k !in d &&
      forall j :: 0 <= j < i ==> keys[j] in d
  }

  /** `[d[key] for key in keys]`; the `KeyError` names the first key missing. */
  function Lookup(d: map<string, real>, keys: seq<string>): (r: Result<seq<real>, string>)
    ensures r.Ok? <==> forall i :: 0 <= i < |keys| ==> keys[i] in d
    ensures r.Ok? ==> (|r.value| == |keys| &&
      forall i :: 0 <= i < |keys| ==> keys[i] in d && r.value[i] == d[keys[i]])
    ensures r.Err? ==> FirstMissing(d, keys, r.error)
  {
    if keys == [] then Ok([])
    else if keys[0] !in d then
      assert FirstMissing(d, keys, keys[0]) by {
        assert keys[0] == keys[0];
      }
      Err(keys[0])
    else
      match Lookup(d, keys[1..])
      case Ok(rest) => Ok([d[keys[0]]] + rest)
      case Err(k) =>
        var i :| 0 <= i < |keys[1..]| && keys[1..][i] == k && k !in d &&
          forall j :: 0 <= j < i ==> keys[1..][j] in d;
        assert keys[i + 1] == k && forall j :: 0 <= j < i + 1 ==> keys[j] in d;
        Err(k)
  }

  /** `get_model_input`: the row the classifier is given. */
  function ModelInput(d: map<string, real>): (r: Result<seq<real>, string>)
    ensures r.Ok? ==> |r.value| == |FeatureOrder|
    ensures r.Err? ==> r.error in FeatureOrder && r.error !in d
  {
    Lookup(d, FeatureOrder)
  }

  /** The row is the seven readings in the classifier's column order, and it
      exists exactly when none of them is missing. */
  lemma ModelInputRow(d: map<string, real>)
    ensures ModelInput(d).Ok? <==>
      "N" in d && "P" in d && "K" in d && "temperature" in d &&
      "humidity" in d && "pH" in d && "rainfall" in d
    ensures ModelInput(d).Ok? ==> (ModelInput(d).value ==
      [d["N"], d["P"], d["K"], d["temperature"], d["humidity"], d["pH"], d["rainfall"]])
    ensures ModelInput(d).Err? ==> ModelInput(d).error in FeatureOrder && ModelInput(d).error !in d
  {
    var r := ModelInput(d);
    assert FeatureOrder[0] == "N" && FeatureOrder[1] == "P" && FeatureOrder[2] == "K";
    assert FeatureOrder[3] == "temperature" && FeatureOrder[4] == "humidity";
    assert FeatureOrder[5] == "pH" && FeatureOrder[6] == "rainfall";
    if r.Ok? {
      assert |r.value| == 7;
    }
  }

  // ---------------------------------------------------------------------
  // Intent

  /** The fields `get_response` reads from the intent classifier's JSON. */
  datatype Classified = Classified(intent: Option<string>, location: Option<string>)

  /** The intent classifier's answer: its call raised (outside any `try`),
      its text is not JSON, it is JSON of another Python type than `dict`
      (`typeName` is "list", "str", "int", "float", "bool" or "NoneType"), or
      it is an object with these fields. */
  datatype IntentReply = IntentRaised(error: string) | NotJson | NonObject(typeName: string) | Object(fields: Classified)

  /** What `classify_intent` returns when the reply is not JSON. */
  const DefaultClassification: Classified := Classified(Some("general_query"), None)

  /** The message of the `AttributeError` that `.get` raises on a value of
      type `typeName`. */
  function NoGetError(typeName: string): string {
    "'" + typeName + "' object has no attribute 'get'"
  }

  /** `classify_intent` followed by `classified_data.get(...)`: the fields,
      with the default intent for a reply that is not JSON, or the exception
      that escapes `get_response`. */
  function ClassifyIntent(reply: IntentReply): (r: Result<Classified, string>)
    ensures r.Err? <==> reply.IntentRaised? || reply.NonObject?
    ensures reply.IntentRaised? ==> r == Err(reply.error)
    ensures reply.NonObject? ==> r == Err(NoGetError(reply.typeName))
    ensures reply.NotJson? ==> r == Ok(Classified(Some("general_query"), None))
    ensures reply.Object? ==> r == Ok(reply.fields)
  {
    match reply
    case IntentRaised(e) => Err(e)
    case NotJson => Ok(DefaultClassification)
    case NonObject(t) => Err(NoGetError(t))
    case Object(fields) => Ok(fields)
  }

  /** `not city or city.lower() == 'unknown'`. */
  predicate LocationMissing(location: Option<string>) {
    location.None? || location.value == [] || Lower(location.value) == "unknown"
  }

  // ---------------------------------------------------------------------
  // Suitability check

  predicate IsSuitable(verdict: (string, string)) {
    Lower(verdict.1) == "suitable"
  }

  function CropOf(verdict: (string, string)): string {
    verdict.0
  }

  /** `[crop for crop, status in results.items() if status.lower() == 'suitable']`. */
  function Suitable(verdicts: seq<(string, string)>): (r: seq<string>)
    ensures |r| <= |verdicts|
  {
    Map(CropOf, Filter(IsSuitable, verdicts))
  }

  /** A crop is kept exactly when the agronomist reply calls it suitable, in
      any letter case. */
  lemma SuitableExactly(verdicts: seq<(string, string)>, crop: string)
    ensures crop in Suitable(verdicts) <==>
      exists k :: 0 <= k < |verdicts| && verdicts[k].0 == crop && IsSuitable(verdicts[k])
  {
    var kept := Filter(IsSuitable, verdicts);
    if crop in Suitable(verdicts) {
      var i :| 0 <= i < |kept| && Suitable(verdicts)[i] == crop;
      assert kept[i] in verdicts && IsSuitable(kept[i]);
      var k :| 0 <= k < |verdicts| && verdicts[k] == kept[i];
    }
    if exists k :: 0 <= k < |verdicts| && verdicts[k].0 == crop && IsSuitable(verdicts[k]) {
      var k :| 0 <= k < |verdicts| && verdicts[k].0 == crop && IsSuitable(verdicts[k]);
      assert verdicts[k] in kept;
      var i :| 0 <= i < |kept| && kept[i] == verdicts[k];
      assert Suitable(verdicts)[i] == crop;
    }
  }

  /** `validate_recommendations`: the crops the reply calls suitable, or the
      ranking unchanged when the reply cannot be read. */
  function ValidateRecommendations(topCrops: seq<string>, verdicts: Option<seq<(string, string)>>): (r: seq<string>)
    ensures verdicts.None? ==> r == topCrops
    ensures verdicts.Some? ==> forall c :: c in r <==>
      exists k :: 0 <= k < |verdicts.value| && verdicts.value[k].0 == c && IsSuitable(verdicts.value[k])
  {
    match verdicts
    case None => topCrops
    case Some(v) =>
      forall c ensures c in Suitable(v) <==> exists k :: 0 <= k < |v| && v[k].0 == c && IsSuitable(v[k]) {
        SuitableExactly(v, c);
      }
      Suitable(v)
  }

  // ---------------------------------------------------------------------
  // One turn

  /** `get_agricultural_weather`: it raises `WeatherAPIError` on failure, or
      returns a report, which has an `"error"` key or not. */
  datatype WeatherOutcome = WeatherRaised | Report(hasErrorKey: bool)

  /** `llm_estimate_weather_and_soil` / `llm_parse_weather_and_soil`: the
      call raised, the reply held no parsable `{...}`, or the parsed object. */
  datatype Estimate = EstimateRaised | NoJson | Values(inputs: map<string, real>)

  /** Everything the outside world answers during one `get_response`:
      `probabilities` is `None` when `predict_proba` raised; `verdicts` is
      `Err` when the agronomist call raised, `Ok(None)` when its reply cannot
      be read as crop/status strings, and otherwise the verdicts. */
  datatype Replies = Replies(
    classification: IntentReply,
    weather: WeatherOutcome,
    estimate: Estimate,
    classes: seq<string>,
    probabilities: Option<seq<real>>,
    verdicts: Result<Option<seq<(string, string)>>, string>,
    report: Result<string, string>)

  /** `details`: the city, where the readings came from and the readings. */
  datatype Details = Details(city: string, dataSource: string, inputs: map<string, real>)

  const GreetingReply: string := "Hello! How can I help you with your farm planning today?"
  const AskLocationReply: string := "Of course, I can help. Please tell me your location (e.g., 'what to grow in Pune?')."
  const NoDataReply: string := "I'm sorry, I'm having trouble gathering the necessary data for your location. Please try again later."
  const GenericErrorReply: string := "❌ I encountered an unexpected error. Please try again."
  const OtherIntentReply: string := "I'm here to help with your farming questions! Ask me about crop recommendations."

  /** The outcome of a turn: the answer, or the exception that escapes
      `get_response`, and the state the bot keeps after it. */
  datatype Turn = Turn(answer: Result<string, string>, state: Option<Details>)

  /** `data_source` for a weather report. */
  function DataSource(hasErrorKey: bool): string {
    if hasErrorKey then "LLM Estimation" else "API"
  }

  /** A recommendation request got as far as a non-empty list of suitable
      crops: the only way the state is replaced. */
  predicate Recommends(r: Replies) {
    var c := ClassifyIntent(r.classification);
    c.Ok? && c.value.intent == Some("new_crop_recommendation") && !LocationMissing(c.value.location) &&
    ReachesSuitable(r)
  }

  /** Once the city is known, every call succeeded and some crop was judged suitable. */
  predicate ReachesSuitable(r: Replies) {
    r.weather.Report? && r.estimate.Values? && ModelInput(r.estimate.inputs).Ok? &&
    r.probabilities.Some? && r.verdicts.Ok? &&
    ValidateRecommendations(TopThree(r.classes, r.probabilities.value), r.verdicts.value) != []
  }

  /** The body of the `try` in `get_response` for a named city. */
  function Recommend(state: Option<Details>, city: string, r: Replies): (t: Turn)
    ensures t.answer.Ok?
    ensures ReachesSuitable(r) ==>
      t.state.Some? && t.state.value.city == city && t.state.value.inputs == r.estimate.inputs
    ensures !ReachesSuitable(r) ==> t.state == state
  {
    match r.weather
    case WeatherRaised => Turn(Ok(GenericErrorReply), state)
    case Report(hasErrorKey) =>
      match r.estimate
      case EstimateRaised => Turn(Ok(GenericErrorReply), state)
      case NoJson => Turn(Ok(NoDataReply), state)
      case Values(inputs) =>
        if ModelInput(inputs).Err? || r.probabilities.None? || r.verdicts.Err? then
          Turn(Ok(GenericErrorReply), state)
        else
          var suitable := ValidateRecommendations(TopThree(r.classes, r.probabilities.value), r.verdicts.value);
          if suitable == [] then Turn(Ok(GenericErrorReply), state)
          else
            var details := Some(Details(city, DataSource(hasErrorKey), inputs));
            match r.report
            case Ok(text) => Turn(Ok(text), details)
            case Err(_) => Turn(Ok(GenericErrorReply), details)
  }

  /** `get_response`, as a function of the state before the turn. */
  function Respond(state: Option<Details>, r: Replies): (t: Turn)
    // the classifier call raised, or its JSON has no `.get`: the exception escapes
    ensures ClassifyIntent(r.classification).Err? ==>
      t == Turn(Err(ClassifyIntent(r.classification).error), state)
    // every other path answers
    ensures ClassifyIntent(r.classification).Ok? ==> t.answer.Ok?
    ensures var c := ClassifyIntent(r.classification);
      c.Ok? && c.value.intent == Some("greeting") ==> t == Turn(Ok(GreetingReply), state)
    ensures var c := ClassifyIntent(r.classification);
      c.Ok? && c.value.intent == Some("new_crop_recommendation") && LocationMissing(c.value.location) ==>
        t == Turn(Ok(AskLocationReply), state)
    ensures var c := ClassifyIntent(r.classification);
      c.Ok? && c.value.intent != Some("greeting") && c.value.intent != Some("new_crop_recommendation") ==>
        t == Turn(Ok(OtherIntentReply), state)
    // only a recommendation that reaches suitable crops replaces the state
    ensures Recommends(r) ==> (t.state.Some? && t.state.value.inputs == r.estimate.inputs &&
      Some(t.state.value.city) == ClassifyIntent(r.classification).value.location)
    ensures !Recommends(r) ==> t.state == state
  {
    match ClassifyIntent(r.classification)
    case Err(e) => Turn(Err(e), state)
    case Ok(c) =>
      if c.intent == Some("greeting") then Turn(Ok(GreetingReply), state)
      else if c.intent == Some("new_crop_recommendation") then
        if LocationMissing(c.location) then Turn(Ok(AskLocationReply), state)
        else Recommend(state, c.location.value, r)
      else Turn(Ok(OtherIntentReply), state)
  }

  /** When a recommendation goes through, the answer is the report the
      language model wrote, or the generic error when writing it failed. */
  lemma RecommendationAnswer(state: Option<Details>, r: Replies)
    requires Recommends(r)
    ensures Respond(state, r).answer == match r.report
      case Ok(text) => Ok(text)
      case Err(_) => Ok(GenericErrorReply)
    ensures Respond(state, r).state.value.dataSource == DataSource(r.weather.hasErrorKey)
  {
    var c := ClassifyIntent(r.classification).value;
    assert Respond(state, r) == Recommend(state, c.location.value, r);
  }

  /** A weather lookup that raises ends the turn with the generic error: the
      estimation fallback is reached only through a report with an
      `"error"` key, which the lookup never returns. */
  lemma WeatherFailureGivesGenericError(state: Option<Details>, r: Replies)
    requires r.classification.Object? && r.classification.fields.intent == Some("new_crop_recommendation")
    requires !LocationMissing(r.classification.fields.location)
    requires r.weather == WeatherRaised
    ensures Respond(state, r) == Turn(Ok(GenericErrorReply), state)
  {
  }

  /** Once a weather report is in hand, the readings decide: an estimate call
      that raises or a missing feature (the `KeyError` of `get_model_input`)
      gives the generic error, and a reply without a JSON object gives the
      no-data apology; the state is kept on each of these paths. */
  lemma EstimateFailures(state: Option<Details>, r: Replies)
    requires r.classification.Object? && r.classification.fields.intent == Some("new_crop_recommendation")
    requires !LocationMissing(r.classification.fields.location)
    requires r.weather.Report?
    ensures r.estimate.EstimateRaised? ==> Respond(state, r) == Turn(Ok(GenericErrorReply), state)
    ensures r.estimate.NoJson? ==> Respond(state, r) == Turn(Ok(NoDataReply), state)
    ensures r.estimate.Values? && ModelInput(r.estimate.inputs).Err? ==>
      Respond(state, r) == Turn(Ok(GenericErrorReply), state)
  {
    var c := r.classification.fields;
    assert Respond(state, r) == Recommend(state, c.location.value, r);
  }

  /** When the agronomist reply rejects every crop, `llm_enhance` is handed an
      empty list and fails on its first element: the generic error, with the
      state kept. */
  lemma AllRejectedGivesGenericError(state: Option<Details>, r: Replies)
    requires r.classification.Object? && r.classification.fields.intent == Some("new_crop_recommendation")
    requires !LocationMissing(r.classification.fields.location)
    requires r.weather.Report? && r.estimate.Values? && ModelInput(r.estimate.inputs).Ok?
    requires r.probabilities.Some? && r.verdicts.Ok? && r.verdicts.value.Some?
    requires forall k :: 0 <= k < |r.verdicts.value.value| ==> !IsSuitable(r.verdicts.value.value[k])
    ensures Respond(state, r) == Turn(Ok(GenericErrorReply), state)
  {
  }

  /** The classifier's `predict_proba` or the agronomist call raising is
      caught by the `try`: the generic error, with the state kept. */
  lemma RankingFailureGivesGenericError(state: Option<Details>, r: Replies)
    requires r.classification.Object? && r.classification.fields.intent == Some("new_crop_recommendation")
    requires !LocationMissing(r.classification.fields.location)
    requires r.weather.Report? && r.estimate.Values?
    requires r.probabilities.None? || r.verdicts.Err?
    ensures Respond(state, r) == Turn(Ok(GenericErrorReply), state)
  {
  }

  /** A reply that cannot be read as the classifier's JSON is a general
      question, whatever the state. */
  lemma UnreadableIntentIsGeneral(state: Option<Details>, r: Replies)
    requires r.classification.NotJson?
    ensures Respond(state, r) == Turn(Ok(OtherIntentReply), state)
  {
  }

  /** A missing location, or one spelled "unknown" in any case, is asked for
      again before anything is looked up. */
  lemma UnknownCityAsksAgain(state: Option<Details>, r: Replies)
    requires r.classification.Object? && r.classification.fields.intent == Some("new_crop_recommendation")
    requires r.classification.fields.location == Some("UNKNOWN")
    ensures Respond(state, r) == Turn(Ok(AskLocationReply), state)
  {
    assert Lower("UNKNOWN") == "unknown";
  }

  /** The prompt context `classify_intent` builds from the state. */
  function ClassifyContext(state: Option<Details>): (r: string)
    ensures state.None? || state.value.city == [] ==> r == ""
    ensures state.Some? && state.value.city != [] ==> Contains(r, state.value.city)
  {
    match state
    case None => ""
    case Some(d) =>
      if d.city == [] then ""
      else
        var prefix := "The user has already asked about the location: ";
        var r := prefix + d.city + ".";
        assert OccursAt(d.city, r, |prefix|) by {
          assert r[|prefix|..|prefix| + |d.city|] == d.city;
        }
        r
  }

  class CropChatBot {
    /** `conversation_state`: empty until a recommendation goes through. */
    var conversationState: Option<Details>

    constructor ()
      ensures conversationState.None?
    {
      conversationState := None;
    }

    /** `get_response`: `Err` is the exception that escapes it. */
    method GetResponse(r: Replies) returns (answer: Result<string, string>)
      modifies this
      ensures Turn(answer, conversationState) == Respond(old(conversationState), r)
    {
      var classified := ClassifyIntent(r.classification);
      if classified.Err? {
        return Err(classified.error);
      }
      var intent := classified.value.intent;
      if intent == Some("greeting") {
        return Ok(GreetingReply);
      } else if intent == Some("new_crop_recommendation") {
        var city := classified.value.location;
        if LocationMissing(city) {
          return Ok(AskLocationReply);
        }
        if r.weather.WeatherRaised? {
          return Ok(GenericErrorReply);
        }
        var source := DataSource(r.weather.hasErrorKey);
        if r.estimate.EstimateRaised? {
          return Ok(GenericErrorReply);
        }
        if r.estimate.NoJson? {
          return Ok(NoDataReply);
        }
        var inputs := r.estimate.inputs;
        if ModelInput(inputs).Err? || r.probabilities.None? {
          return Ok(GenericErrorReply);
        }
        var top := TopThree(r.classes, r.probabilities.value);
        if r.verdicts.Err? {
          return Ok(GenericErrorReply);
        }
        var suitable := ValidateRecommendations(top, r.verdicts.value);
        if suitable == [] {
          return Ok(GenericErrorReply);
        }
        conversationState := Some(Details(city.value, source, inputs));
        match r.report
        case Ok(text) =>
          answer := Ok(text);
        case Err(_) =>
          answer := Ok(GenericErrorReply);
      } else {
        return Ok(OtherIntentReply);
      }
    }
  }
}
