# AQI forecast API — a Dafny model of its data-shaping core

The service (`app.py`) fetches the last six days of weather and air-quality observations for
one station, saves them with the newest day's pollutant readings removed, and later turns
that saved window into a flat feature row for one of two trained regressors (PM2.5 or PM10).
This project models the parts of that flow that are logic rather than I/O:

- `fetch.dfy` (module `Fetch`): the sort of the provider's `days` list by `datetime`,
  newest first, as Python's stable `sorted(..., reverse=True)` does it — an insertion sort
  proved ordered, a permutation of its input, and stable per date.
- `features.dfy` (module `Features`): `preprocess_input_data` as an imperative method with
  the same two loops, proved equal to a specification function `Preprocessed`, and the
  lemmas about that function: where every reading lands, when an IndexError is raised, what
  the row depends on, and how lags are aligned by position in the filtered lag list rather
  than by day.
- `api.dfy` (module `Api`): the `extract` handler's 404 on an empty list and in-place
  removal of the first entry's pollutant fields, and the `predict` handler's `pm_type`
  check (400) and choice of model.
- `observations.dfy` and `wrappers.dfy`: the day record, the pollutant keys, the errors, and
  `Option`/`Result`.

Readings are modelled as `real` and are only copied. A `datetime` is an ISO date string,
whose lexicographic order is calendar order, so the model keeps a day number (`int`) in its
place. The feature row is 29 readings long: the loop at app.py:70-77 appends the four weather
readings for offset 0, then four weather readings and one lag for each of offsets 1..5. The
first lag therefore sits at index 8 (the ninth reading). `WorkedWindow` shows this layout on
a concrete window.

## Model

| member | source | states |
|---|---|---|
| `Features.PreprocessInputData` | app.py:49-79 | the two loops return exactly `Preprocessed(jsonData, pollutant)`: an IndexError for fewer than 6 entries or fewer than 5 lags, otherwise the six-offset row |
| `Features.Preprocessed` | app.py:59-77 | a successful row has 29 readings; the only failure is IndexError |
| `Features.Lags` | app.py:59-67 | the filtered lag list is never longer than the input |
| `Features.Layout` | app.py:70-77 | after `n` passes of the offset loop the row holds `5n - 1` readings (none for `n = 0`) |
| `Features.LagsAppend` | app.py:59-67 | the lag list of a concatenation is the concatenation of the lag lists |
| `Features.LagsAt` | app.py:66-67 | an entry carrying the key supplies the lag at the position equal to the number of key-carrying entries before it |
| `Features.LagsFrom` | app.py:66-67 | every lag comes from some key-carrying entry preceded by exactly that many key-carrying entries |
| `Features.LagsAllPresent` | app.py:66-67 | when every entry carries the key, lag `k` is entry `k`'s reading |
| `Features.LagsOfMissing` | app.py:66-67 | an entry without the key contributes no lag |
| `Features.LagsSkipMissing` | app.py:66-67 | removing an entry without the key from anywhere leaves the lag list unchanged |
| `Features.LagsDropAt` | app.py:66-67 | dropping entry `g`, which lacks the key, leaves the lag list unchanged |
| `Features.LayoutAt` | app.py:70-77 | offset 0's weather sits at indices 0..3; offset `i`'s weather at `5i - 1 .. 5i + 2` and lag `i - 1` at `5i + 3` |
| `Features.FeatureLayout` | app.py:70-77 | with 6 entries and 5 lags the row succeeds, has 29 readings, offset 0's weather at 0..3, and offset `i`'s weather at `5i - 1 .. 5i + 2` followed by the `(i - 1)`-th filtered lag at `5i + 3` |
| `Features.LayoutFrame` | app.py:70-77 | the first `n` passes read only the weather of the first `n` entries and the first `n - 1` lags |
| `Features.WindowDetermines` | app.py:59-77 | two successful inputs that agree on the first six entries' weather and the first five lags give the same row |
| `Features.LaterEntriesIgnored` | app.py:59-77 | appending entries to an input that succeeds leaves the row unchanged |
| `Features.ShortWindowFails` | app.py:70-74 | fewer than six entries raise IndexError |
| `Features.FewCarriersFail` | app.py:66-77 | if fewer than five entries carry the key, IndexError is raised, wherever the carriers sit |
| `Features.LagsCountCarriers` | app.py:59-67 | the lag list has exactly one reading per entry that carries the key |
| `Features.SucceedsIffEnoughCarriers` | app.py:66-77 | the row is built if and only if there are at least six entries and at least five of them carry the key; otherwise IndexError |
| `Features.FullWindowLagsPreviousDay` | app.py:66-77 | when entries 0..4 all carry the key, offset `i`'s lag slot holds entry `i - 1`'s reading |
| `Features.StrippedLatestLags` | app.py:66-67 | when entry 0 lacks the key and entries 1..5 carry it, the first five lags are the readings of entries 1..5 |
| `Features.StrippedLatestLagsSameDay` | app.py:66-77 | when entry 0 lacks the key and entries 1..5 carry it, the row succeeds and offset `i`'s lag slot holds entry `i`'s own reading |
| `Features.GapLagsSplit` | app.py:66-67 | entries 0 and `g` without the key drop out of the lag list |
| `Features.GapLags` | app.py:66-67 | with entries 0 and `g` missing the key, lags before position `g - 1` are entries `1..g-1` and later lags are shifted to entries `g+1..6` |
| `Features.GapShiftsLags` | app.py:66-77 | a second entry `g` without the key misaligns the row: from offset `g` on, offset `i`'s lag slot holds entry `i + 1`'s reading |
| `Features.WorkedWindow` | app.py:59-77 | for temperatures 10..15 and PM2.5 readings 20..24 on offsets 1..5, index 4 is 11, the first lag slot (index 8) is 20 and the last (index 28) is 24 |
| `Fetch.Insert` | app.py:36 | inserting into a newest-first list keeps it newest-first, adds exactly one entry and is a permutation of list plus entry |
| `Fetch.SortDays` | app.py:36 | the sorted list is non-increasing by `datetime`, has the input's length and is a permutation of the input |
| `Fetch.InsertStable` | app.py:36 | insertion keeps the relative order of each date's entries, the inserted one ahead of its equals |
| `Fetch.SortStable` | app.py:36 | for every date, the sorted list holds that date's entries in their input order |
| `Fetch.LatestFirst` | app.py:36 | the first sorted entry is an input entry no older than any other |
| `Api.Stripped` | app.py:106-107 | a popped entry has neither pollutant and keeps its date and weather |
| `Api.StripLatest` | app.py:104-107 | the stripped list has the same length, entry 0 popped and every other entry unchanged |
| `Api.StripLatestIdempotent` | app.py:104-107 | stripping twice equals stripping once |
| `Api.GetWeather` | app.py:103-116 | an empty fetched list is rejected with 404; otherwise the result is the list with entry 0's pollutants popped in place, of the same length, and still newest-first when the fetched list was |
| `Api.ExtractSortsThenStrips` | app.py:103-107 | on a non-empty fetch, the sorted then stripped window keeps the input's length and is newest-first |
| `Api.ExtractedWindow` | app.py:103-107 | a stripped newest-first rearrangement of the fetched days leads with a most recent day that has no pollutants; every other entry is a fetched day unchanged |
| `Api.ExtractedWindowLags` | app.py:104-107 | when days 1..5 of the saved window carry the pollutant, the row built from it holds day `i`'s own reading in offset `i`'s lag slot |
| `Api.ParsePollutant` | app.py:124-125 | exactly `pm2p5` and `pm10` are accepted, each naming its own key; anything else is 400 |
| `Api.ParseKey` | app.py:124-125 | both pollutant keys are accepted and name their pollutant |
| `Api.ModelFor` | app.py:135-138 | the PM2.5 model exactly for `pm2p5`, the PM10 model exactly for `pm10` |
| `Api.PredictPmValues` | app.py:123-138 | 400 is returned exactly when `pm_type` is neither `pm2p5` nor `pm10`; a valid one succeeds exactly when the saved window has 6 entries and 5 lags, and then reports `pm_type`, uses its model and a 29-reading row |
| `Api.InvalidTypeIgnoresSnapshot` | app.py:124-129 | an invalid `pm_type` is rejected with 400 whatever the saved window holds |
| `Api.PredictUsesBuiltRow` | app.py:132-138 | a successful request feeds the model exactly the feature builder's row for its pollutant |

## Left out

- The HTTP request to the weather provider (app.py:22-35, 37-39): the upstream call, the
  non-200 status passthrough and `data.get('days', [])` are network I/O. The model starts
  from the `days` list of a 200 response; `Fetch.SortDays` gives what `fetch_data` returns
  and `Api.GetWeather` takes that list.
- The computation of the date range (app.py:96-100): it reads the clock and parses and
  formats dates.
- Writing and reading `sorted_days.json` (app.py:108-113, 127-129, 144-148): file I/O. The
  `predict` handler takes the saved window as a parameter. The `items` endpoint returns the
  file verbatim and has no logic of its own. A missing or malformed file raises an uncaught
  error in the code; that path is not modelled.
- Loading the pickled models, `model.predict`, `predict_values` and `round(..., 2)`
  (app.py:43-46, 82-90, 140): opaque library calls on floating point.
- Api.PredictPmValues: returns the model and the row handed to `model.predict` rather than
  the rounded prediction, because the trained models are opaque.
- The `numpy` conversion `np.array(...).reshape(1, -1)` (app.py:79): the model keeps the row
  flat; the reshape only wraps it as a single sample.
- FastAPI routing, CORS middleware and the `greet` endpoint (app.py:10-20, 94, 122, 142,
  150-152): framework plumbing.
- Entries missing `temp`, `tempmin`, `tempmax`, `precip` or `datetime`, and JSON `null`
  values: the code would raise KeyError or build a malformed array. The model's `Day`
  always has these fields.
- `preprocess_input_data` accepts any string as the pollutant key. The model restricts it to
  the two pollutant keys, which is all that its only caller passes after validation.
- Entries are dictionaries that `pop` mutates in place. The model treats them as values in
  an array, so it does not capture aliasing of an entry dictionary; the code creates no such
  alias.
