/** The request handlers' own logic: the `extract` endpoint's empty check and removal of
    the latest day's pollutants, and the `predict` endpoint's validation and model choice. */
module Api {
  import opened Wrappers
  import opened Observations
  import opened Fetch
  import opened Features

  // ---------------------------------------------------------------------------------------
  // GET /extract/

  /** A day with both pollutant fields removed, as `pop('pm2p5', None)` followed by
      `pop('pm10', None)` leaves it; popping an absent key is not an error. */
  function Stripped(d: Day): (r: Day)
    ensures !Has(r, PM2p5) && !Has(r, PM10)
    ensures r.datetime == d.datetime && Weather(r) == Weather(d)
  {
    d.(pm2p5 := None, pm10 := None)
  }

  /** The fetched list after the latest day's pollutants are removed. */
  function StripLatest(s: seq<Day>): (r: seq<Day>)
    requires s != []
    ensures |r| == |s| && r[0] == Stripped(s[0])
    ensures forall k :: 1 <= k < |s| ==> r[k] == s[k]
  {
    [Stripped(s[0])] + s[1..]
  }

  /** Removing the latest day's pollutants a second time changes nothing. */
  lemma StripLatestIdempotent(s: seq<Day>)
    requires s != []
    ensures StripLatest(StripLatest(s)) == StripLatest(s)
  {
    assert StripLatest(s)[1..] == s[1..];
  }

  /** `get_weather` once `fetch_data` has returned `weatherData`, a new list: an empty list
      is answered with 404, and otherwise the first entry's two pollutant fields are popped
      in place. Writing `sorted_days.json` is not modelled. */
  method GetWeather(weatherData: seq<Day>) returns (r: Result<seq<Day>, Failure>)
    ensures weatherData == [] ==> r == Err(Http(404))
    ensures weatherData != [] ==> r == Ok(StripLatest(weatherData))
    ensures r.Ok? ==> |r.value| == |weatherData|
    ensures r.Ok? && NewestFirst(weatherData) ==> NewestFirst(r.value)
  {
    var days := new Day[|weatherData|](i requires 0 <= i < |weatherData| => weatherData[i]);
    if days.Length == 0 {
      return Err(Http(404));
    }
    days[0] := days[0].(pm2p5 := None);
    days[0] := days[0].(pm10 := None);
    r := Ok(days[..]);
    assert days[..] == StripLatest(weatherData);
  }

  /** The `extract` endpoint on a successful fetch: the provider's list sorted newest first,
      then stripped. */
  lemma ExtractSortsThenStrips(daysList: seq<Day>)
    requires daysList != []
    ensures NewestFirst(StripLatest(SortDays(daysList)))
    ensures |StripLatest(SortDays(daysList))| == |daysList|
  {
  }

  /** Stripping a newest-first rearrangement of the fetched days (as `SortDays` is) leaves a
      window that leads with a most recent day without pollutants, and whose other entries
      are fetched days, unchanged. */
  lemma ExtractedWindow(daysList: seq<Day>, sorted: seq<Day>)
    requires sorted != [] && NewestFirst(sorted) && multiset(sorted) == multiset(daysList)
    ensures !Has(StripLatest(sorted)[0], PM2p5) && !Has(StripLatest(sorted)[0], PM10)
    ensures forall d :: d in daysList ==> StripLatest(sorted)[0].datetime >= d.datetime
    ensures forall k :: 1 <= k < |sorted| ==> StripLatest(sorted)[k] in daysList
  {
    forall d | d in daysList ensures sorted[0].datetime >= d.datetime {
      assert d in multiset(sorted);
      var k :| 0 <= k < |sorted| && sorted[k] == d;
    }
    forall k | 1 <= k < |sorted| ensures sorted[k] in daysList {
      assert sorted[k] in multiset(daysList);
    }
  }

  /** When days 1..5 of a saved window carry the pollutant, the row built from it holds in
      offset `i`'s lag slot the reading of day `i` itself. */
  lemma ExtractedWindowLags(sorted: seq<Day>, p: Pollutant)
    requires |sorted| >= 6
    requires forall k :: 1 <= k < 6 ==> Has(sorted[k], p)
    ensures Preprocessed(StripLatest(sorted), p).Ok?
    ensures forall i :: 1 <= i <= 5 ==>
      Some(Preprocessed(StripLatest(sorted), p).value[5 * i + 3]) == Get(sorted[i], p)
  {
    var w := StripLatest(sorted);
    StrippedLatestLagsSameDay(w, p);
  }

  // ---------------------------------------------------------------------------------------
  // GET /predict/

  /** The two trained regressors, loaded once at start-up; only their identity matters here. */
  datatype Model = Pm25Model | Pm10Model

  /** What the endpoint hands to `model.predict`: the pollutant it reports and the model and
      row it uses. The prediction and its rounding are not modelled. */
  datatype Inference = Inference(pollutant: string, model: Model, inputData: seq<Reading>)

  /** The membership test on `pm_type`: only the two pollutant keys are accepted, anything
      else is answered with 400. */
  function ParsePollutant(pmType: string): (r: Result<Pollutant, Failure>)
    ensures r.Ok? <==> pmType == "pm2p5" || pmType == "pm10"
    ensures r.Ok? ==> r.value.Key() == pmType
    ensures r.Err? ==> r.error == Http(400)
  {
    if pmType == "pm2p5" then Ok(PM2p5)
    else if pmType == "pm10" then Ok(PM10)
    else Err(Http(400))
  }

  /** Every pollutant's key is accepted and names it back. */
  lemma ParseKey(p: Pollutant)
    ensures ParsePollutant(p.Key()) == Ok(p)
  {
  }

  /** The model dispatch: the PM2.5 model for `pm2p5` and the PM10 model for `pm10`. */
  function ModelFor(p: Pollutant): (m: Model)
    ensures m == Pm25Model <==> p.Key() == "pm2p5"
    ensures m == Pm10Model <==> p.Key() == "pm10"
  {
    match p
    case PM2p5 => Pm25Model
    case PM10 => Pm10Model
  }

  /** `predict_pm_values(pm_type)` over the saved window `snapshot`: validation first, then
      the feature row, then the model matching the key. */
  function PredictPmValues(pmType: string, snapshot: seq<Day>): (r: Result<Inference, Failure>)
    ensures pmType != "pm2p5" && pmType != "pm10" ==> r == Err(Http(400))
    ensures pmType == "pm2p5" || pmType == "pm10" ==>
      var p := ParsePollutant(pmType).value;
      r.Ok? <==> |snapshot| >= 6 && |Lags(snapshot, p)| >= 5
    ensures r.Err? ==> r.error == Http(400) || r.error == IndexError
    ensures r.Err? ==> (r.error == Http(400) <==> pmType != "pm2p5" && pmType != "pm10")
    ensures r.Ok? ==> r.value.pollutant == pmType && |r.value.inputData| == 29
    ensures r.Ok? ==> (r.value.model == Pm25Model <==> pmType == "pm2p5")
    ensures r.Ok? ==> (r.value.model == Pm10Model <==> pmType == "pm10")
  {
    match ParsePollutant(pmType)
    case Err(e) => Err(e)
    case Ok(p) =>
      match Preprocessed(snapshot, p)
      case Err(e) => Err(e)
      case Ok(inputData) => Ok(Inference(pmType, ModelFor(p), inputData))
  }

  /** An invalid `pm_type` is rejected whatever the saved window holds, so the window is never
      looked at. */
  lemma InvalidTypeIgnoresSnapshot(pmType: string, s1: seq<Day>, s2: seq<Day>)
    requires pmType != "pm2p5" && pmType != "pm10"
    ensures PredictPmValues(pmType, s1) == PredictPmValues(pmType, s2) == Err(Http(400))
  {
  }

  /** A valid request feeds the model exactly the feature builder's row for that pollutant. */
  lemma PredictUsesBuiltRow(pmType: string, snapshot: seq<Day>)
    requires PredictPmValues(pmType, snapshot).Ok?
    ensures ParsePollutant(pmType).Ok?
    ensures Preprocessed(snapshot, ParsePollutant(pmType).value)
         == Ok(PredictPmValues(pmType, snapshot).value.inputData)
  {
  }
}
