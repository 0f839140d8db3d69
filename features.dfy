/** The feature builder, `preprocess_input_data`: six days of weather plus five pollutant
    lags flattened into one 29-reading row. */
module Features {
  import opened Wrappers
  import opened Observations

  /** The lag contributed by one entry: its pollutant reading when the key is present. */
  function LagOf(d: Day, p: Pollutant): seq<Reading> {
    match Get(d, p)
    case Some(v) => [v]
    case None => []
  }

  /** The `pm_lag_values` list: the pollutant readings of the entries that carry the key,
      in input order. Entries without the key leave no gap. */
  function Lags(days: seq<Day>, p: Pollutant): (r: seq<Reading>)
    ensures |r| <= |days|
  {
    if days == [] then []
    else Lags(days[..|days| - 1], p) + LagOf(days[|days| - 1], p)
  }

  /** The feature row after the first `n` passes of the offset loop: offset 0 gives its four
      weather readings, each later offset `i` its four readings and then `lags[i - 1]`. */
  function Layout(days: seq<Day>, lags: seq<Reading>, n: nat): (r: seq<Reading>)
    requires n <= |days| && (n == 0 || n - 1 <= |lags|)
    ensures |r| == if n == 0 then 0 else 5 * n - 1
  {
    if n == 0 then []
    else if n == 1 then Weather(days[0])
    else Layout(days, lags, n - 1) + Weather(days[n - 1]) + [lags[n - 2]]
  }

  /** What `preprocess_input_data` returns or raises: an IndexError when there are fewer than
      six entries or fewer than five lags, and otherwise the six-offset row. */
  function Preprocessed(days: seq<Day>, p: Pollutant): (r: Result<seq<Reading>, Failure>)
    ensures r.Ok? ==> |r.value| == 29
    ensures r.Err? ==> r.error == IndexError
  {
    var lags := Lags(days, p);
    if |days| < 6 || |lags| < 5 then Err(IndexError) else Ok(Layout(days, lags, 6))
  }

  /** `preprocess_input_data(json_data, pollutant)`: one pass over the entries collecting the
      four weather columns and the lag list, then the fixed loop over offsets 0..5, which
      raises IndexError as soon as it indexes past the end of a column or of the lag list. */
  method PreprocessInputData(jsonData: seq<Day>, pollutant: Pollutant)
    returns (r: Result<seq<Reading>, Failure>)
    ensures r == Preprocessed(jsonData, pollutant)
  {
    var tavgValues, tminValues, tmaxValues, prcpValues, pmLagValues := [], [], [], [], [];
    for k := 0 to |jsonData|
      invariant |tavgValues| == |tminValues| == |tmaxValues| == |prcpValues| == k
      invariant forall j :: 0 <= j < k ==>
        [tavgValues[j], tminValues[j], tmaxValues[j], prcpValues[j]] == Weather(jsonData[j])
      invariant pmLagValues == Lags(jsonData[..k], pollutant)
    {
      var entry := jsonData[k];
      tavgValues := tavgValues + [entry.temp];
      tminValues := tminValues + [entry.tempmin];
      tmaxValues := tmaxValues + [entry.tempmax];
      prcpValues := prcpValues + [entry.precip];
      match Get(entry, pollutant) {
        case Some(v) => pmLagValues := pmLagValues + [v];
        case None =>
      }
      assert pmLagValues == Lags(jsonData[..k], pollutant) + LagOf(entry, pollutant);
      assert jsonData[..k + 1][..k] == jsonData[..k];
    }
    assert jsonData[..|jsonData|] == jsonData;

    var inputData := [];
    for i := 0 to 6
      invariant i <= |jsonData| && (i == 0 || i - 1 <= |pmLagValues|)
      invariant inputData == Layout(jsonData, pmLagValues, i)
    {
      if i >= |tavgValues| {
        return Err(IndexError);
      }
      assert [tavgValues[i], tminValues[i], tmaxValues[i], prcpValues[i]] == Weather(jsonData[i]);
      inputData := inputData + [tavgValues[i], tminValues[i], tmaxValues[i], prcpValues[i]];
      if i != 0 {
        if i - 1 >= |pmLagValues| {
          return Err(IndexError);
        }
        inputData := inputData + [pmLagValues[i - 1]];
      }
      assert inputData == Layout(jsonData, pmLagValues, i + 1);
    }
    r := Ok(inputData);
  }

  // ---------------------------------------------------------------------------------------
  // The lag list

  /** Filtering distributes over concatenation. */
  lemma {:induction false} LagsAppend(s: seq<Day>, t: seq<Day>, p: Pollutant)
    ensures Lags(s + t, p) == Lags(s, p) + Lags(t, p)
    decreases |t|
  {
    if t == [] {
      assert s + t == s;
    } else {
      var t' := t[..|t| - 1];
      assert (s + t)[..|s + t| - 1] == s + t';
      assert (s + t)[|s + t| - 1] == t[|t| - 1];
      LagsAppend(s, t', p);
    }
  }

  /** An entry that carries the key supplies the lag whose position is the number of
      key-carrying entries before it. */
  lemma {:induction false} LagsAt(days: seq<Day>, p: Pollutant, k: nat)
    requires k < |days| && Has(days[k], p)
    ensures |Lags(days[..k], p)| < |Lags(days, p)|
    ensures Some(Lags(days, p)[|Lags(days[..k], p)|]) == Get(days[k], p)
  {
    assert days == days[..k] + [days[k]] + days[k + 1..];
    LagsAppend(days[..k] + [days[k]], days[k + 1..], p);
    LagsAppend(days[..k], [days[k]], p);
    assert [days[k]][..0] == [];
  }

  /** Conversely, every lag comes from a key-carrying entry, the one preceded by exactly as
      many key-carrying entries as the lag's position. */
  lemma {:induction false} LagsFrom(days: seq<Day>, p: Pollutant, j: nat)
    requires j < |Lags(days, p)|
    ensures exists k :: 0 <= k < |days| && Get(days[k], p) == Some(Lags(days, p)[j])
                        && |Lags(days[..k], p)| == j
    decreases |days|
  {
    var n := |days|;
    var init := days[..n - 1];
    assert Lags(days, p) == Lags(init, p) + LagOf(days[n - 1], p);
    if j < |Lags(init, p)| {
      LagsFrom(init, p, j);
      var k :| 0 <= k < |init| && Get(init[k], p) == Some(Lags(init, p)[j]) && |Lags(init[..k], p)| == j;
      PrefixOfPrefix(days, n - 1, k);
      assert Lags(days, p)[j] == Lags(init, p)[j];
    } else {
      assert Lags(days, p)[j] == LagOf(days[n - 1], p)[0];
      assert Get(days[n - 1], p) == Some(Lags(days, p)[j]);
      assert |Lags(days[..n - 1], p)| == j;
    }
  }

  lemma PrefixOfPrefix(s: seq<Day>, n: nat, k: nat)
    requires k < n <= |s|
    ensures s[..n][..k] == s[..k] && s[..n][k] == s[k]
  {
  }

  /** When every entry carries the key, the lag list is the entries' readings one for one. */
  lemma {:induction false} LagsAllPresent(s: seq<Day>, p: Pollutant)
    requires forall k :: 0 <= k < |s| ==> Has(s[k], p)
    ensures |Lags(s, p)| == |s|
    ensures forall k :: 0 <= k < |s| ==> Some(Lags(s, p)[k]) == Get(s[k], p)
    decreases |s|
  {
    if s != [] {
      LagsAllPresent(s[..|s| - 1], p);
    }
  }

  /** An entry without the key contributes nothing. */
  lemma LagsOfMissing(d: Day, p: Pollutant)
    requires !Has(d, p)
    ensures Lags([d], p) == []
  {
    assert [d][..0] == [];
  }

  /** Removing an entry without the key leaves the lag list unchanged. */
  lemma LagsSkipMissing(x: seq<Day>, d: Day, y: seq<Day>, p: Pollutant)
    requires !Has(d, p)
    ensures Lags(x + [d] + y, p) == Lags(x + y, p)
  {
    LagsAppend(x + [d], y, p);
    LagsAppend(x, [d], p);
    LagsAppend(x, y, p);
    LagsOfMissing(d, p);
  }

  /** The same, for entry `g` of `s`. */
  lemma LagsDropAt(s: seq<Day>, g: nat, p: Pollutant)
    requires g < |s| && !Has(s[g], p)
    ensures Lags(s, p) == Lags(s[..g] + s[g + 1..], p)
  {
    assert s == s[..g] + [s[g]] + s[g + 1..];
    LagsSkipMissing(s[..g], s[g], s[g + 1..], p);
  }

  // ---------------------------------------------------------------------------------------
  // The layout of the row

  /** Where each offset's readings sit in the row built by the first `n` passes. */
  lemma {:induction false} LayoutAt(days: seq<Day>, lags: seq<Reading>, n: nat, i: nat)
    requires 1 <= n <= |days| && n - 1 <= |lags| && i < n
    ensures i == 0 ==> Layout(days, lags, n)[..4] == Weather(days[0])
    ensures i != 0 ==> Layout(days, lags, n)[5 * i - 1 .. 5 * i + 3] == Weather(days[i])
    ensures i != 0 ==> Layout(days, lags, n)[5 * i + 3] == lags[i - 1]
    decreases n
  {
    if i < n - 1 {
      LayoutAt(days, lags, n - 1, i);
      var prefix := Layout(days, lags, n - 1);
      var v := Layout(days, lags, n);
      assert v == prefix + Weather(days[n - 1]) + [lags[n - 2]];
      assert v[..|prefix|] == prefix;
    }
  }

  /** The row has 29 readings: offset 0's weather at indices 0..3, and for offsets 1..5 the
      weather at `5i - 1 .. 5i + 2` followed by the `(i - 1)`-th lag at `5i + 3`. */
  lemma FeatureLayout(days: seq<Day>, p: Pollutant)
    requires |days| >= 6 && |Lags(days, p)| >= 5
    ensures Preprocessed(days, p).Ok?
    ensures |Preprocessed(days, p).value| == 29
    ensures Preprocessed(days, p).value[..4] == Weather(days[0])
    ensures forall i :: 1 <= i <= 5 ==>
      Preprocessed(days, p).value[5 * i - 1 .. 5 * i + 3] == Weather(days[i]) &&
      Preprocessed(days, p).value[5 * i + 3] == Lags(days, p)[i - 1]
  {
    var lags := Lags(days, p);
    LayoutAt(days, lags, 6, 0);
    forall i | 1 <= i <= 5
      ensures Layout(days, lags, 6)[5 * i - 1 .. 5 * i + 3] == Weather(days[i])
      ensures Layout(days, lags, 6)[5 * i + 3] == lags[i - 1]
    {
      LayoutAt(days, lags, 6, i);
    }
  }

  /** The first `n` passes read only the first `n` entries and the first `n - 1` lags. */
  lemma {:induction false} LayoutFrame(d1: seq<Day>, l1: seq<Reading>, d2: seq<Day>, l2: seq<Reading>, n: nat)
    requires n <= |d1| && n <= |d2| && (n == 0 || (n - 1 <= |l1| && n - 1 <= |l2|))
    requires forall k :: 0 <= k < n ==> Weather(d1[k]) == Weather(d2[k])
    requires n == 0 || l1[..n - 1] == l2[..n - 1]
    ensures Layout(d1, l1, n) == Layout(d2, l2, n)
    decreases n
  {
    if n > 1 {
      assert l1[..n - 2] == l1[..n - 1][..n - 2] && l2[..n - 2] == l2[..n - 1][..n - 2];
      LayoutFrame(d1, l1, d2, l2, n - 1);
      assert l1[n - 2] == l1[..n - 1][n - 2];
    }
  }

  // ---------------------------------------------------------------------------------------
  // What the row depends on

  /** The row depends only on the weather of the first six entries and the first five lags. */
  lemma WindowDetermines(d1: seq<Day>, d2: seq<Day>, p: Pollutant)
    requires Preprocessed(d1, p).Ok? && Preprocessed(d2, p).Ok?
    requires forall k :: 0 <= k < 6 ==> Weather(d1[k]) == Weather(d2[k])
    requires Lags(d1, p)[..5] == Lags(d2, p)[..5]
    ensures Preprocessed(d1, p) == Preprocessed(d2, p)
  {
    LayoutFrame(d1, Lags(d1, p), d2, Lags(d2, p), 6);
  }

  /** Entries after a window that already succeeds change nothing. */
  lemma LaterEntriesIgnored(days: seq<Day>, later: seq<Day>, p: Pollutant)
    requires Preprocessed(days, p).Ok?
    ensures Preprocessed(days + later, p) == Preprocessed(days, p)
  {
    LagsAppend(days, later, p);
    var l1, l2 := Lags(days, p), Lags(days + later, p);
    assert l2[..5] == l1[..5];
    LayoutFrame(days, l1, days + later, l2, 6);
  }

  /** The positions of the entries that carry the key. */
  function Carriers(days: seq<Day>, p: Pollutant): set<nat> {
    set k: nat | k < |days| && Has(days[k], p)
  }

  /** Dropping the last entry removes at most its own position from the carriers. */
  lemma CarriersStep(days: seq<Day>, p: Pollutant)
    requires days != []
    ensures |Carriers(days, p)| ==
      |Carriers(days[..|days| - 1], p)| + (if Has(days[|days| - 1], p) then 1 else 0)
  {
    var n := |days|;
    var init := days[..n - 1];
    var rest := Carriers(init, p);
    if Has(days[n - 1], p) {
      assert Carriers(days, p) == rest + {n - 1} by { CarriersSplit(days, init, p); }
      assert n - 1 !in rest;
    } else {
      assert Carriers(days, p) == rest by { CarriersSplit(days, init, p); }
    }
  }

  /** Positions before the last one carry the key in the whole input exactly when they do in its
      prefix. */
  lemma CarriersSplit(days: seq<Day>, init: seq<Day>, p: Pollutant)
    requires days != [] && init == days[..|days| - 1]
    ensures forall k: nat :: k in Carriers(days, p) <==>
      k in Carriers(init, p) || (k == |days| - 1 && Has(days[|days| - 1], p))
  {
    forall k: nat | k < |init| ensures days[k] == init[k] {}
  }

  /** The lag list has one reading per key-carrying entry. */
  lemma {:induction false} LagsCountCarriers(days: seq<Day>, p: Pollutant)
    ensures |Lags(days, p)| == |Carriers(days, p)|
    decreases |days|
  {
    if days == [] {
      assert Carriers(days, p) == {};
    } else {
      var n := |days|;
      LagsCountCarriers(days[..n - 1], p);
      CarriersStep(days, p);
      assert |Lags(days, p)| == |Lags(days[..n - 1], p)| + |LagOf(days[n - 1], p)|;
    }
  }

  /** The builder succeeds exactly when there are at least six entries and at least five of
      the entries, anywhere in the input, carry the key. */
  lemma SucceedsIffEnoughCarriers(days: seq<Day>, p: Pollutant)
    ensures Preprocessed(days, p).Ok? <==> |days| >= 6 && |Carriers(days, p)| >= 5
  {
    LagsCountCarriers(days, p);
  }

  /** The builder raises IndexError when the input has fewer than six entries. */
  lemma ShortWindowFails(days: seq<Day>, p: Pollutant)
    requires |days| < 6
    ensures Preprocessed(days, p) == Err(IndexError)
  {
  }

  /** It also raises IndexError when fewer than five entries carry the key, wherever those
      entries sit. */
  lemma {:induction false} FewCarriersFail(days: seq<Day>, p: Pollutant, carriers: set<nat>)
    requires forall k :: 0 <= k < |days| && Has(days[k], p) ==> k in carriers
    requires |carriers| < 5
    ensures Preprocessed(days, p) == Err(IndexError)
  {
    var lags := Lags(days, p);
    if |lags| >= 5 {
      // Five lags come from five distinct carrying entries.
      var source: set<nat> := {};
      for j := 0 to 5
        invariant |source| == j
        invariant source <= carriers
        invariant forall k :: k in source ==> k < |days| && |Lags(days[..k], p)| < j
      {
        LagsFrom(days, p, j);
        var k :| 0 <= k < |days| && Get(days[k], p) == Some(lags[j]) && |Lags(days[..k], p)| == j;
        assert k !in source;
        source := source + {k};
      }
      SubsetCard(source, carriers);
      assert false;
    }
  }

  lemma SubsetCard(a: set<nat>, b: set<nat>)
    requires a <= b
    ensures |a| <= |b|
  {
    assert b == a + (b - a);
  }

  // ---------------------------------------------------------------------------------------
  // Positional alignment of the lags

  /** With every one of the first five entries carrying the key, offset `i`'s lag slot holds
      the reading of entry `i - 1`, the day before it. */
  lemma FullWindowLagsPreviousDay(days: seq<Day>, p: Pollutant)
    requires |days| >= 6
    requires forall k :: 0 <= k < 5 ==> Has(days[k], p)
    ensures Preprocessed(days, p).Ok?
    ensures forall i :: 1 <= i <= 5 ==> Some(Preprocessed(days, p).value[5 * i + 3]) == Get(days[i - 1], p)
  {
    LagsAllPresent(days[..5], p);
    LagsAppend(days[..5], days[5..], p);
    assert days == days[..5] + days[5..];
    FeatureLayout(days, p);
  }

  /** With entry 0 lacking the key and entries 1..5 carrying it, the first five lags are
      the readings of entries 1..5. */
  lemma StrippedLatestLags(days: seq<Day>, p: Pollutant)
    requires |days| >= 6 && !Has(days[0], p)
    requires forall k :: 1 <= k < 6 ==> Has(days[k], p)
    ensures |Lags(days, p)| >= 5
    ensures forall j :: 0 <= j < 5 ==> Some(Lags(days, p)[j]) == Get(days[j + 1], p)
  {
    var mid := days[1..6];
    assert forall j :: 0 <= j < 5 ==> mid[j] == days[j + 1];
    StrippedSlices(days);
    LagsDropAt(days, 0, p);
    LagsAppend(mid, days[6..], p);
    LagsAllPresent(mid, p);
  }

  lemma StrippedSlices(days: seq<Day>)
    requires |days| >= 6
    ensures days[..0] + days[1..] == days[1..6] + days[6..]
  {
  }

  /** As the extract endpoint saves it, entry 0 has no pollutant; if entries 1..5 carry the
      key, offset `i`'s lag slot holds entry `i`'s own reading, not the previous day's. */
  lemma StrippedLatestLagsSameDay(days: seq<Day>, p: Pollutant)
    requires |days| >= 6 && !Has(days[0], p)
    requires forall k :: 1 <= k < 6 ==> Has(days[k], p)
    ensures Preprocessed(days, p).Ok?
    ensures forall i :: 1 <= i <= 5 ==> Some(Preprocessed(days, p).value[5 * i + 3]) == Get(days[i], p)
  {
    StrippedLatestLags(days, p);
    FeatureLayout(days, p);
    var lags := Lags(days, p);
    forall i | 1 <= i <= 5
      ensures Some(Preprocessed(days, p).value[5 * i + 3]) == Get(days[i], p)
    {
      assert Some(lags[i - 1]) == Get(days[i - 1 + 1], p);
    }
  }

  /** Removing entries 0 and `g` from the first seven, as slices. */
  lemma GapSlices(days: seq<Day>, g: nat)
    requires |days| >= 7 && 1 <= g <= 5
    ensures days[..0] + days[1..] == days[1..]
    ensures days[1..][..g - 1] + days[1..][g..] == (days[1..g] + days[g + 1..7]) + days[7..]
  {
  }

  /** Entries 0 and `g` without the key drop out of the lag list of the first seven. */
  lemma GapLagsSplit(days: seq<Day>, p: Pollutant, g: nat)
    requires |days| >= 7 && 1 <= g <= 5
    requires !Has(days[0], p) && !Has(days[g], p)
    ensures Lags(days, p) == Lags(days[1..g] + days[g + 1..7], p) + Lags(days[7..], p)
  {
    GapSlices(days, g);
    LagsDropAt(days, 0, p);
    LagsDropAt(days[1..], g - 1, p);
    LagsAppend(days[1..g] + days[g + 1..7], days[7..], p);
  }

  /** The lag list of a window whose entries 0 and `g` lack the key and whose entries up
      to 6 otherwise carry it: the readings of entries 1..6 with entry `g` skipped. */
  lemma GapLags(days: seq<Day>, p: Pollutant, g: nat)
    requires |days| >= 7 && 1 <= g <= 5
    requires !Has(days[0], p) && !Has(days[g], p)
    requires forall k :: 1 <= k < 7 && k != g ==> Has(days[k], p)
    ensures |Lags(days, p)| >= 5
    ensures forall j :: 0 <= j < g - 1 ==> Some(Lags(days, p)[j]) == Get(days[j + 1], p)
    ensures forall j :: g - 1 <= j < 5 ==> Some(Lags(days, p)[j]) == Get(days[j + 2], p)
  {
    var kept := days[1..g] + days[g + 1..7];
    forall k | 0 <= k < |kept| ensures kept[k] == days[if k < g - 1 then k + 1 else k + 2] && Has(kept[k], p) {
    }
    LagsAllPresent(kept, p);
    GapLagsSplit(days, p, g);
  }

  /** A further entry `g` without the key shifts every later lag by one position: from offset
      `g` on, offset `i`'s lag slot holds the reading of entry `i + 1`. */
  lemma GapShiftsLags(days: seq<Day>, p: Pollutant, g: nat)
    requires |days| >= 7 && 1 <= g <= 5
    requires !Has(days[0], p) && !Has(days[g], p)
    requires forall k :: 1 <= k < 7 && k != g ==> Has(days[k], p)
    ensures Preprocessed(days, p).Ok?
    ensures forall i :: 1 <= i < g ==> Some(Preprocessed(days, p).value[5 * i + 3]) == Get(days[i], p)
    ensures forall i :: g <= i <= 5 ==> Some(Preprocessed(days, p).value[5 * i + 3]) == Get(days[i + 1], p)
  {
    GapLags(days, p, g);
    FeatureLayout(days, p);
    var lags := Lags(days, p);
    forall i | 1 <= i < g
      ensures Some(Preprocessed(days, p).value[5 * i + 3]) == Get(days[i], p)
    {
      assert Some(lags[i - 1]) == Get(days[i - 1 + 1], p);
    }
    forall i | g <= i <= 5
      ensures Some(Preprocessed(days, p).value[5 * i + 3]) == Get(days[i + 1], p)
    {
      assert Some(lags[i - 1]) == Get(days[i - 1 + 2], p);
    }
  }

  /** A worked window: average temperatures 10..15 on offsets 0..5, the PM2.5 readings
      20..24 on offsets 1..5 and none on offset 0. Index 4 holds offset 1's average
      temperature and the first lag slot, index 8, holds 20. */
  lemma WorkedWindow(c: Reading)
    ensures var days := [
        Day(6, 10.0, c, c, c, None, None),
        Day(5, 11.0, c, c, c, Some(20.0), None),
        Day(4, 12.0, c, c, c, Some(21.0), None),
        Day(3, 13.0, c, c, c, Some(22.0), None),
        Day(2, 14.0, c, c, c, Some(23.0), None),
        Day(1, 15.0, c, c, c, Some(24.0), None)];
      && Preprocessed(days, PM2p5).Ok?
      && Preprocessed(days, PM2p5).value[4] == 11.0
      && Preprocessed(days, PM2p5).value[8] == 20.0
      && Preprocessed(days, PM2p5).value[28] == 24.0
  {
    var days := [
        Day(6, 10.0, c, c, c, None, None),
        Day(5, 11.0, c, c, c, Some(20.0), None),
        Day(4, 12.0, c, c, c, Some(21.0), None),
        Day(3, 13.0, c, c, c, Some(22.0), None),
        Day(2, 14.0, c, c, c, Some(23.0), None),
        Day(1, 15.0, c, c, c, Some(24.0), None)];
    StrippedLatestLagsSameDay(days, PM2p5);
    FeatureLayout(days, PM2p5);
    assert Preprocessed(days, PM2p5).value[5 * 1 - 1 .. 5 * 1 + 3] == Weather(days[1]);
  }
}
