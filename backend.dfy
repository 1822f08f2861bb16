/**
 * The `/predict` endpoint (backend/app.py) without its transport and its
 * database: the request body is a map from field names to already-typed
 * JSON values, and the fruit rows that the SQL query selects are given as a
 * sequence.  `Predict` runs the handler's checks, the prediction loop and
 * the 5 mm counting loop; the functions beside it specify those loops.
 */
module Backend {
  import opened Wrappers

  /** A JSON value as far as the handler cares: a date, a number, or something neither parser accepts. */
  datatype Json = JDate(day: int) | JNumber(value: real) | JOther

  /** One row of the query: the three axis lengths of a fruit, in mm. */
  datatype Fruit = Fruit(major: real, minor: real, subminor: real)

  /** The request fields after conversion. */
  datatype Params = Params(
    scanDay: int,
    harvestDay: int,
    growthRate: real,
    minDiameter: real,
    maxDiameter: real)

  /** One entry of the response histogram: `{bin_start, count}`. */
  datatype Bin = Bin(binStart: int, count: nat)

  datatype Reply =
    | BadRequest(error: string)
      // an exception while converting the named field (status 500)
    | ServerError(failedField: string)
    | Prediction(message: Option<string>, averageDiameter: real, histogram: seq<Bin>)

  const RequiredFields: seq<string> :=
    ["scan_date", "harvest_date", "growth_rate", "min_diameter", "max_diameter"]
  const BinSize: int := 5
  const MissingFieldPrefix: string := "Missing field: "
  const BadDateOrder: string := "Harvest date must be after scan date"
  const NoFruits: string := "No fruits found in diameter range"

  // ---------------------------------------------------------------------
  // Field presence
  // ---------------------------------------------------------------------

  /** The index of the first required field at or after `k` that `data` lacks, or 5 when there is none. */
  function FirstMissingFrom(data: map<string, Json>, k: nat): (r: nat)
    requires k <= |RequiredFields|
    ensures k <= r <= |RequiredFields|
    ensures forall j :: k <= j < r ==> RequiredFields[j] in data
    ensures r < |RequiredFields| ==> RequiredFields[r] !in data
    decreases |RequiredFields| - k
  {
    if k == |RequiredFields| || RequiredFields[k] !in data then k
    else FirstMissingFrom(data, k + 1)
  }

  function FirstMissing(data: map<string, Json>): nat
  {
    FirstMissingFrom(data, 0)
  }

  predicate AllPresent(data: map<string, Json>) {
    && "scan_date" in data && "harvest_date" in data && "growth_rate" in data
    && "min_diameter" in data && "max_diameter" in data
  }

  /** The `for field in [...]` loop: the first missing field, in the fixed order. */
  method CheckFields(data: map<string, Json>) returns (missing: Option<string>)
    ensures missing.None? <==> AllPresent(data)
    ensures missing.Some? ==>
      FirstMissing(data) < |RequiredFields| && missing.value == RequiredFields[FirstMissing(data)]
  {
    var k := 0;
    while k < |RequiredFields|
      invariant 0 <= k <= |RequiredFields|
      invariant forall j :: 0 <= j < k ==> RequiredFields[j] in data
      invariant FirstMissingFrom(data, k) == FirstMissing(data)
    {
      if RequiredFields[k] !in data {
        return Some(RequiredFields[k]);
      }
      k := k + 1;
    }
    return None;
  }

  // ---------------------------------------------------------------------
  // Conversion
  // ---------------------------------------------------------------------

  function AsDay(v: Json): Option<int> {
    if v.JDate? then Some(v.day) else None
  }

  function AsNumber(v: Json): Option<real> {
    if v.JNumber? then Some(v.value) else None
  }

  /** Whether the converter the handler applies to `field` accepts `v`: `strptime` for the dates, `float` otherwise. */
  predicate Converts(field: string, v: Json) {
    if field == "scan_date" || field == "harvest_date" then v.JDate? else v.JNumber?
  }

  /** `strptime` on the two dates, then `float` on the three numbers; the first that fails names the failure. */
  function ParseRequest(data: map<string, Json>): (r: Result<Params, string>)
    requires AllPresent(data)
    ensures r.Success? <==>
      && data["scan_date"].JDate? && data["harvest_date"].JDate?
      && data["growth_rate"].JNumber? && data["min_diameter"].JNumber? && data["max_diameter"].JNumber?
    ensures r.Failure? ==> r.error in RequiredFields && !Converts(r.error, data[r.error])
    ensures r.Success? ==>
      && data["scan_date"] == JDate(r.value.scanDay)
      && data["harvest_date"] == JDate(r.value.harvestDay)
      && data["growth_rate"] == JNumber(r.value.growthRate)
  {
    var scan := AsDay(data["scan_date"]);
    var harvest := AsDay(data["harvest_date"]);
    var growth := AsNumber(data["growth_rate"]);
    var lo := AsNumber(data["min_diameter"]);
    var hi := AsNumber(data["max_diameter"]);
    if scan.None? then Failure("scan_date")
    else if harvest.None? then Failure("harvest_date")
    else if growth.None? then Failure("growth_rate")
    else if lo.None? then Failure("min_diameter")
    else if hi.None? then Failure("max_diameter")
    else Success(Params(scan.value, harvest.value, growth.value, lo.value, hi.value))
  }

  // ---------------------------------------------------------------------
  // Predicted diameters
  // ---------------------------------------------------------------------

  /** The mean of a fruit's three axes grown for `daysDelta` days at `growthRate` mm per day. */
  function Predicted(f: Fruit, growthRate: real, daysDelta: int): (d: real)
    // no time passed: the measured mean; non-negative growth never shrinks a fruit
    ensures daysDelta == 0 ==> d == (f.major + f.minor + f.subminor) / 3.0
    ensures growthRate >= 0.0 && daysDelta >= 0 ==> d >= (f.major + f.minor + f.subminor) / 3.0
  {
    (f.major + f.minor + f.subminor) / 3.0 + growthRate * (daysDelta as real)
  }

  function Predictions(fruits: seq<Fruit>, growthRate: real, daysDelta: int): (ds: seq<real>)
    ensures |ds| == |fruits|
  {
    seq(|fruits|, i requires 0 <= i < |fruits| => Predicted(fruits[i], growthRate, daysDelta))
  }

  /** The `predicted_diameters.append` loop. */
  method PredictDiameters(fruits: seq<Fruit>, growthRate: real, daysDelta: int) returns (ds: seq<real>)
    ensures |ds| == |fruits|
    ensures forall i :: 0 <= i < |fruits| ==> ds[i] == Predicted(fruits[i], growthRate, daysDelta)
  {
    ds := [];
    var k := 0;
    while k < |fruits|
      invariant 0 <= k <= |fruits|
      invariant |ds| == k
      invariant forall i :: 0 <= i < k ==> ds[i] == Predicted(fruits[i], growthRate, daysDelta)
    {
      ds := ds + [Predicted(fruits[k], growthRate, daysDelta)];
      k := k + 1;
    }
  }

  // ---------------------------------------------------------------------
  // Sum, maximum and average
  // ---------------------------------------------------------------------

  function Sum(ds: seq<real>): real
  {
    if ds == [] then 0.0 else Sum(ds[..|ds| - 1]) + ds[|ds| - 1]
  }

  /** `max(predicted_diameters)` */
  function Max(ds: seq<real>): (m: real)
    requires |ds| > 0
    ensures exists i :: 0 <= i < |ds| && ds[i] == m
    ensures forall i :: 0 <= i < |ds| ==> ds[i] <= m
  {
    if |ds| == 1 then ds[0]
    else
      var m' := Max(ds[..|ds| - 1]);
      if ds[|ds| - 1] > m' then ds[|ds| - 1] else m'
  }

  function Min(ds: seq<real>): (m: real)
    requires |ds| > 0
    ensures exists i :: 0 <= i < |ds| && ds[i] == m
    ensures forall i :: 0 <= i < |ds| ==> m <= ds[i]
  {
    if |ds| == 1 then ds[0]
    else
      var m' := Min(ds[..|ds| - 1]);
      if ds[|ds| - 1] < m' then ds[|ds| - 1] else m'
  }

  function Average(ds: seq<real>): (a: real)
    requires |ds| > 0
    ensures a * (|ds| as real) == Sum(ds)
  {
    Sum(ds) / (|ds| as real)
  }

  lemma {:induction false} SumBounds(ds: seq<real>, lo: real, hi: real)
    requires forall i :: 0 <= i < |ds| ==> lo <= ds[i] <= hi
    ensures (|ds| as real) * lo <= Sum(ds) <= (|ds| as real) * hi
  {
    if ds != [] {
      SumBounds(ds[..|ds| - 1], lo, hi);
    }
  }

  /** The reported average lies between the smallest and the largest prediction. */
  lemma {:induction false} AverageWithinRange(ds: seq<real>)
    requires |ds| > 0
    ensures Min(ds) <= Average(ds) <= Max(ds)
  {
    var lo, hi, total, n := Min(ds), Max(ds), Sum(ds), |ds| as real;
    SumBounds(ds, lo, hi);
    QuotientBounds(total, n, lo, hi);
    assert Average(ds) == total / n;
  }

  lemma QuotientBounds(s: real, n: real, lo: real, hi: real)
    requires n > 0.0 && n * lo <= s <= n * hi
    ensures lo <= s / n <= hi
  {
  }

  // ---------------------------------------------------------------------
  // The 5 mm histogram
  // ---------------------------------------------------------------------

  /** `int(d // bin_size)` for a non-negative `d` */
  function BinOf(d: real): int
  {
    (d / (BinSize as real)).Floor
  }

  /** `len(bins)`: one bin per 5 mm up to and including the largest prediction. */
  function NumBins(ds: seq<real>): (n: int)
    requires |ds| > 0
    // the last bin is the one that holds the maximum
    ensures ((BinSize * (n - 1)) as real) <= Max(ds) < ((BinSize * n) as real)
    ensures Max(ds) >= 0.0 ==> n >= 1
  {
    BinOf(Max(ds)) + 1
  }

  /** `min(int(d // bin_size), len(bins) - 1)` */
  function BinIndex(d: real, n: int): (i: int)
    // the 5 mm bin of `d`, clamped to the last of `n` bins
    ensures i <= n - 1
    ensures i == n - 1 || ((BinSize * i) as real <= d < (BinSize * (i + 1)) as real)
    ensures d >= 0.0 && n >= 1 ==> 0 <= i
  {
    if BinOf(d) < n - 1 then BinOf(d) else n - 1
  }

  /** How many of `ds` land in bin `i` of `n`. */
  function CountInBin(ds: seq<real>, n: int, i: int): nat
  {
    if ds == [] then 0
    else CountInBin(ds[..|ds| - 1], n, i) + (if BinIndex(ds[|ds| - 1], n) == i then 1 else 0)
  }

  /** The counts of bins `0 .. n-1`. */
  function Histogram(ds: seq<real>, n: nat): (h: seq<nat>)
    ensures |h| == n
  {
    seq(n, i requires 0 <= i < n => CountInBin(ds, n, i))
  }

  function SumNat(s: seq<nat>): nat
  {
    if s == [] then 0 else SumNat(s[..|s| - 1]) + s[|s| - 1]
  }

  predicate NonNegative(ds: seq<real>) {
    forall i :: 0 <= i < |ds| ==> ds[i] >= 0.0
  }

  /** A diameter no larger than the maximum lands in bin `i` exactly when it lies in `[5i, 5i + 5)`: the clamp to the last bin never applies. */
  lemma BinIndexIsRange(ds: seq<real>, d: real, i: int)
    requires |ds| > 0 && NonNegative(ds)
    requires 0.0 <= d <= Max(ds)
    requires 0 <= i < NumBins(ds)
    ensures BinIndex(d, NumBins(ds)) == i <==>
      (BinSize * i) as real <= d < (BinSize * (i + 1)) as real
  {
  }

  lemma {:induction false} SumNatUpdate(s: seq<nat>, i: int, v: nat)
    requires 0 <= i < |s|
    ensures SumNat(s[i := v]) == SumNat(s) - s[i] + v
  {
    var t := s[i := v];
    if i < |s| - 1 {
      assert t[..|t| - 1] == s[..|s| - 1][i := v];
      SumNatUpdate(s[..|s| - 1], i, v);
    } else {
      assert t[..|t| - 1] == s[..|s| - 1];
    }
  }

  lemma {:induction false} SumNatZeros(n: nat)
    ensures SumNat(seq(n, _ => 0)) == 0
  {
    if n > 0 {
      assert seq(n, _ => 0)[..n - 1] == seq(n - 1, _ => 0);
      SumNatZeros(n - 1);
    }
  }

  /** Adding one diameter adds one to its own bin and changes no other. */
  lemma HistogramStep(ds: seq<real>, d: real, n: nat)
    requires 0 <= BinIndex(d, n) < n
    ensures Histogram(ds + [d], n) ==
      Histogram(ds, n)[BinIndex(d, n) := Histogram(ds, n)[BinIndex(d, n)] + 1]
  {
  }

  /** Every non-negative diameter is counted exactly once: the counts sum to the number of diameters. */
  lemma {:induction false} HistogramConserves(ds: seq<real>, n: nat)
    requires n > 0 && NonNegative(ds)
    ensures SumNat(Histogram(ds, n)) == |ds|
  {
    if ds == [] {
      assert Histogram(ds, n) == seq(n, _ => 0);
      SumNatZeros(n);
    } else {
      var init, d := ds[..|ds| - 1], ds[|ds| - 1];
      assert ds == init + [d];
      HistogramConserves(init, n);
      HistogramStep(init, d, n);
      SumNatUpdate(Histogram(init, n), BinIndex(d, n), Histogram(init, n)[BinIndex(d, n)] + 1);
    }
  }

  /** `bins = [0] * n` and the `bins[index] += 1` loop. */
  method CountBins(ds: seq<real>) returns (counts: seq<nat>)
    requires |ds| > 0 && NonNegative(ds)
    ensures |counts| == NumBins(ds)
    ensures forall i :: 0 <= i < |counts| ==> counts[i] == CountInBin(ds, |counts|, i)
    ensures SumNat(counts) == |ds|
  {
    var n := BinOf(Max(ds)) + 1;
    var bins := new nat[n](_ => 0);
    var k := 0;
    while k < |ds|
      invariant 0 <= k <= |ds|
      invariant forall i :: 0 <= i < n ==> bins[i] == CountInBin(ds[..k], n, i)
    {
      var index := BinIndex(ds[k], n);
      assert ds[..k + 1][..k] == ds[..k];
      bins[index] := bins[index] + 1;
      k := k + 1;
    }
    assert ds[..k] == ds;
    counts := bins[..];
    assert counts == Histogram(ds, n);
    HistogramConserves(ds, n);
  }

  /** `[{"bin_start": i * bin_size, "count": count} for i, count in enumerate(bins)]` */
  function Enumerate(counts: seq<nat>): (h: seq<Bin>)
    ensures |h| == |counts|
    ensures forall i :: 0 <= i < |h| ==> h[i].binStart == BinSize * i
    ensures CountsOf(h) == counts
  {
    seq(|counts|, i requires 0 <= i < |counts| => Bin(i * BinSize, counts[i]))
  }

  /** The counts of a response histogram, in order. */
  function CountsOf(h: seq<Bin>): seq<nat>
  {
    seq(|h|, i requires 0 <= i < |h| => h[i].count)
  }

  // ---------------------------------------------------------------------
  // The handler
  // ---------------------------------------------------------------------

  /**
   * The predictions are never negative for the request (negative ones
   * would index the histogram from its end).
   */
  predicate PredictionsNonNegative(data: map<string, Json>, fruits: seq<Fruit>) {
    AllPresent(data) ==>
      var parsed := ParseRequest(data);
      parsed.Success? ==>
        var p := parsed.value;
        p.harvestDay - p.scanDay >= 0 ==>
          forall i :: 0 <= i < |fruits| ==>
            Predicted(fruits[i], p.growthRate, p.harvestDay - p.scanDay) >= 0.0
  }

  method Predict(data: map<string, Json>, fruits: seq<Fruit>) returns (reply: Reply)
    requires PredictionsNonNegative(data, fruits)
    // the first missing field, in the fixed order, is named
    ensures !AllPresent(data) ==>
      reply == BadRequest(MissingFieldPrefix + RequiredFields[FirstMissing(data)])
    ensures AllPresent(data) && ParseRequest(data).Failure? ==>
      reply == ServerError(ParseRequest(data).error)
    // harvest before scan is refused; the same day is accepted
    ensures AllPresent(data) && ParseRequest(data).Success? ==>
      var p := ParseRequest(data).value;
      (p.harvestDay < p.scanDay <==> reply == BadRequest(BadDateOrder))
    ensures AllPresent(data) && ParseRequest(data).Success? && fruits == [] ==>
      var p := ParseRequest(data).value;
      p.scanDay <= p.harvestDay ==> reply == Prediction(Some(NoFruits), 0.0, [])
    ensures AllPresent(data) && ParseRequest(data).Success? && fruits != [] ==>
      var p := ParseRequest(data).value;
      var ds := Predictions(fruits, p.growthRate, p.harvestDay - p.scanDay);
      p.scanDay <= p.harvestDay ==>
        && reply.Prediction?
        && reply.message.None?
        && reply.averageDiameter == Average(ds)
        && |reply.histogram| == NumBins(ds)
        && (forall i :: 0 <= i < |reply.histogram| ==>
              reply.histogram[i] == Bin(BinSize * i, CountInBin(ds, |reply.histogram|, i)))
        && SumNat(CountsOf(reply.histogram)) == |fruits|
  {
    var missing := CheckFields(data);
    if missing.Some? {
      return BadRequest(MissingFieldPrefix + missing.value);
    }
    var parsed := ParseRequest(data);
    if parsed.Failure? {
      return ServerError(parsed.error);
    }
    var p := parsed.value;
    var daysDelta := p.harvestDay - p.scanDay;
    if daysDelta < 0 {
      return BadRequest(BadDateOrder);
    }
    if fruits == [] {
      return Prediction(Some(NoFruits), 0.0, []);
    }
    var ds := PredictDiameters(fruits, p.growthRate, daysDelta);
    assert ds == Predictions(fruits, p.growthRate, daysDelta);
    var average := Sum(ds) / (|ds| as real);
    var counts := CountBins(ds);
    var histogram := Enumerate(counts);
    reply := Prediction(None, average, histogram);
  }
}
