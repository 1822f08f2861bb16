/**
 * The submit handler of the estimator form (orchard-frontend/src/App.js).
 *
 * The component state `{error, loading, avgSize, histogram}` and the form
 * inputs are the fields of class `App`; `App.Submit` runs the handler's
 * ordered checks and state updates, with the outcome of the HTTP request
 * given as a parameter.  The pure parts of the handler (labelling the server
 * bins, the all-or-nothing type check, the chart guard) are functions, and
 * `AfterSubmit` states on values what `Submit` does to the state.
 */
module Frontend {
  import opened Wrappers
  import Format

  /** A bin count as it arrives in JSON: a number, or anything else. */
  datatype Count = Num(n: int) | NotNum

  /** A histogram bin as the server sends it: `{bin_start, count}`. */
  datatype RawBin = RawBin(binStart: int, count: Count)

  /** A bin ready for the chart: `{widthRange, count}`. */
  datatype DisplayBin = DisplayBin(widthRange: string, count: Count)

  /** The form inputs. An empty date field is `None`; dates are day numbers. */
  datatype Form = Form(
    scanDate: Option<int>,
    harvestDate: Option<int>,
    growthRate: string,
    minDiameter: int,
    maxDiameter: int)

  /** The part of the component state that the handler writes. */
  datatype View = View(
    error: Option<string>,
    loading: bool,
    avgSize: Option<real>,
    histogram: seq<DisplayBin>)

  /** How the request ends. */
  datatype Response =
    | Ok(averageDiameter: real, histogram: seq<RawBin>)
      // a 2xx JSON body whose `histogram` is not a list: the average is
      // stored, then `histogram.map` throws with `message`
    | OkWithoutHistogramList(averageDiameter: real, message: string)
    | NonOk(statusText: string)
      // `fetch` or `response.json()` rejected with `message`
    | Exn(message: string)

  const BinWidth: int := 20
  const MissingInputs: string := "Please fill all required inputs."
  const BadDateOrder: string := "Harvest date must be after scan date."
  const BadDiameterRange: string := "Min diameter cannot be greater than max diameter."
  const ConnectFailure: string := "Failed to connect to backend: "
  const ServerErrorPrefix: string := "Server error: "
  const EnDash: char := '\U{2013}'

  // ---------------------------------------------------------------------
  // Validation
  // ---------------------------------------------------------------------

  predicate RequiredPresent(f: Form) {
    f.scanDate.Some? && f.harvestDate.Some? && f.growthRate != ""
  }

  /** The message of the first failing check, or `None` when all pass. */
  function Validate(f: Form): (r: Option<string>)
    // a request is sent exactly for the inputs the form's invariant admits
    ensures r.None? <==>
      RequiredPresent(f) && f.scanDate.value < f.harvestDate.value && f.minDiameter <= f.maxDiameter
    // the first failure wins: each message implies that the earlier checks passed
    ensures r == Some(MissingInputs) <==> !RequiredPresent(f)
    ensures r == Some(BadDateOrder) <==>
      RequiredPresent(f) && f.harvestDate.value <= f.scanDate.value
    ensures r == Some(BadDiameterRange) <==>
      RequiredPresent(f) && f.scanDate.value < f.harvestDate.value && f.minDiameter > f.maxDiameter
  {
    if !RequiredPresent(f) then Some(MissingInputs)
    else if f.harvestDate.value <= f.scanDate.value then Some(BadDateOrder)
    else if f.minDiameter > f.maxDiameter then Some(BadDiameterRange)
    else None
  }

  // ---------------------------------------------------------------------
  // Histogram normalisation
  // ---------------------------------------------------------------------

  /** The label `${start}–${start + 20} mm`. */
  function Label(start: int): (s: string)
    // the text before the dash is the start, and the label ends in " mm"
    ensures Format.Before(s, EnDash) == Format.IntToString(start)
    ensures |s| >= 3 && s[|s| - 3..] == " mm"
  {
    var first := Format.IntToString(start);
    var rest := Format.IntToString(start + BinWidth) + " mm";
    assert EnDash !in first;
    Format.BeforeSeparator(first, EnDash, rest);
    first + [EnDash] + rest
  }

  /** Distinct bin starts get distinct labels, so the chart's categories do not collide. */
  lemma LabelInjective(a: int, b: int)
    requires Label(a) == Label(b)
    ensures a == b
  {
    Format.IntToStringInjective(a, b);
  }

  /** `histogram.map(({bin_start, count}) => ({widthRange, count}))` */
  function LabelBins(raw: seq<RawBin>): (r: seq<DisplayBin>)
    ensures |r| == |raw|
    ensures forall i :: 0 <= i < |raw| ==>
      r[i].widthRange == Label(raw[i].binStart) && r[i].count == raw[i].count
  {
    seq(|raw|, i requires 0 <= i < |raw| => DisplayBin(Label(raw[i].binStart), raw[i].count))
  }

  /**
   * `every(h => typeof h.count === 'number' && typeof h.widthRange === 'string')`;
   * every label is a string, so only the counts can fail.
   */
  function AllNumeric(h: seq<DisplayBin>): (b: bool)
    ensures b <==> forall i :: 0 <= i < |h| ==> h[i].count.Num?
  {
    h == [] || (h[0].count.Num? && AllNumeric(h[1..]))
  }

  /** The histogram the handler stores for a successful response. */
  function Normalise(raw: seq<RawBin>): (r: seq<DisplayBin>)
    // all or nothing: the whole labelled list, or the empty list
    ensures (forall i :: 0 <= i < |raw| ==> raw[i].count.Num?) ==>
      |r| == |raw| &&
      forall i :: 0 <= i < |raw| ==>
        r[i].widthRange == Label(raw[i].binStart) && r[i].count == raw[i].count
    ensures (exists i :: 0 <= i < |raw| && raw[i].count.NotNum?) ==> r == []
  {
    var labelled := LabelBins(raw);
    if AllNumeric(labelled) then labelled else []
  }

  /** Bins with distinct starts keep distinct labels through normalisation. */
  lemma NormalisedLabelsDistinct(raw: seq<RawBin>, i: int, j: int)
    requires forall k :: 0 <= k < |raw| ==> raw[k].count.Num?
    requires 0 <= i < j < |raw| && raw[i].binStart != raw[j].binStart
    ensures |Normalise(raw)| == |raw|
    ensures Normalise(raw)[i].widthRange != Normalise(raw)[j].widthRange
  {
    if Label(raw[i].binStart) == Label(raw[j].binStart) {
      LabelInjective(raw[i].binStart, raw[j].binStart);
    }
  }

  // ---------------------------------------------------------------------
  // The chart guard
  // ---------------------------------------------------------------------

  /**
   * The result block appears when `avgSize !== null`; inside it the chart
   * appears when the histogram is non-empty and every bin has a non-empty
   * label and a numeric count.
   */
  predicate ShowsChart(v: View): (b: bool)
    // the guard repeats the type check on the counts and adds non-empty labels
    ensures b <==>
      v.avgSize.Some? && v.histogram != [] && AllNumeric(v.histogram) &&
      forall i :: 0 <= i < |v.histogram| ==> v.histogram[i].widthRange != ""
  {
    && v.avgSize.Some?
    && |v.histogram| > 0
    && forall i :: 0 <= i < |v.histogram| ==>
         v.histogram[i].widthRange != "" && v.histogram[i].count.Num?
  }

  // ---------------------------------------------------------------------
  // The handler on values
  // ---------------------------------------------------------------------

  /** The state when the request has ended with `resp`. */
  function Settle(resp: Response): (r: View)
    ensures !r.loading
    ensures r.error.None? <==> resp.Ok?
    ensures r.avgSize.Some? <==> resp.Ok? || resp.OkWithoutHistogramList?
    ensures !resp.Ok? ==> r.histogram == []
  {
    match resp
    case Ok(avg, raw) => View(None, false, Some(avg), Normalise(raw))
    case OkWithoutHistogramList(avg, msg) => View(Some(ConnectFailure + msg), false, Some(avg), [])
    case NonOk(status) => View(Some(ConnectFailure + ServerErrorPrefix + status), false, None, [])
    case Exn(msg) => View(Some(ConnectFailure + msg), false, None, [])
  }

  /** The state after one press of Submit on form `f`, starting from `v`. */
  function AfterSubmit(v: View, f: Form, resp: Response): (r: View)
    // a validation failure writes the message and nothing else
    ensures Validate(f).Some? ==> r == v.(error := Validate(f))
    // every path that reaches the request ends with loading cleared
    ensures Validate(f).None? ==> !r.loading
    // a sent request always replaces the previous average and histogram
    ensures Validate(f).None? && (resp.NonOk? || resp.Exn?) ==>
      r.avgSize.None? && r.histogram == []
    ensures Validate(f).None? && resp.NonOk? ==>
      r.error == Some(ConnectFailure + ServerErrorPrefix + resp.statusText)
    ensures Validate(f).None? && resp.Exn? ==> r.error == Some(ConnectFailure + resp.message)
    // the average is stored before the histogram is labelled, so it survives a failing `map`
    ensures Validate(f).None? && resp.OkWithoutHistogramList? ==>
      r == View(Some(ConnectFailure + resp.message), false, Some(resp.averageDiameter), [])
    // on success the error stays cleared, the average is stored, and the
    // histogram is the normalised server list
    ensures Validate(f).None? && resp.Ok? ==>
      r == View(None, false, Some(resp.averageDiameter), Normalise(resp.histogram))
  {
    match Validate(f)
    case Some(msg) => v.(error := Some(msg))
    case None => Settle(resp)
  }

  /** After a successful response the chart shows exactly when the server sent bins and all counts are numbers. */
  lemma ChartAfterOk(v: View, f: Form, avg: real, raw: seq<RawBin>)
    requires Validate(f).None?
    ensures ShowsChart(AfterSubmit(v, f, Ok(avg, raw))) <==>
      |raw| > 0 && forall i :: 0 <= i < |raw| ==> raw[i].count.Num?
  {
  }

  /** A failed request leaves an error on screen and no chart. */
  lemma NoChartAfterFailure(v: View, f: Form, resp: Response)
    requires Validate(f).None? && !resp.Ok?
    ensures AfterSubmit(v, f, resp).error.Some?
    ensures !ShowsChart(AfterSubmit(v, f, resp))
  {
  }

  /** A validation failure leaves the previous result, chart included, on screen. */
  lemma ValidationFailureKeepsChart(v: View, f: Form, resp: Response)
    requires Validate(f).Some?
    ensures ShowsChart(AfterSubmit(v, f, resp)) == ShowsChart(v)
    ensures AfterSubmit(v, f, resp).histogram == v.histogram
  {
  }

  // ---------------------------------------------------------------------
  // The component
  // ---------------------------------------------------------------------

  class App {
    var scanDate: Option<int>
    var harvestDate: Option<int>
    var growthRate: string
    var minDiameter: int
    var maxDiameter: int
    var histogram: seq<DisplayBin>
    var avgSize: Option<real>
    var loading: bool
    var error: Option<string>

    function FormOf(): Form
      reads this
    {
      Form(scanDate, harvestDate, growthRate, minDiameter, maxDiameter)
    }

    function ViewOf(): View
      reads this
    {
      View(error, loading, avgSize, histogram)
    }

    /** The initial `useState` values. */
    constructor ()
      ensures FormOf() == Form(None, None, "", 20, 120)
      ensures ViewOf() == View(None, false, None, [])
    {
      scanDate, harvestDate, growthRate := None, None, "";
      minDiameter, maxDiameter := 20, 120;
      histogram, avgSize, loading, error := [], None, false, None;
    }

    /** `setLoading(true); setAvgSize(null); setHistogram([])` */
    method StartRequest()
      modifies this`loading, this`avgSize, this`histogram
      ensures loading && avgSize.None? && histogram == []
    {
      loading := true;
      avgSize := None;
      histogram := [];
    }

    /**
     * One press of Submit. The button is disabled while a request is in
     * flight, so the handler is never entered with `loading` set.
     */
    method Submit(resp: Response) returns (requested: bool)
      requires !loading
      modifies this`error, this`loading, this`avgSize, this`histogram
      ensures FormOf() == old(FormOf())
      ensures requested <==> Validate(FormOf()).None?
      ensures ViewOf() == AfterSubmit(old(ViewOf()), FormOf(), resp)
    {
      requested := false;
      error := None;
      if scanDate.None? || harvestDate.None? || growthRate == "" {
        error := Some(MissingInputs);
        return;
      }
      if harvestDate.value <= scanDate.value {
        error := Some(BadDateOrder);
        return;
      }
      if minDiameter > maxDiameter {
        error := Some(BadDiameterRange);
        return;
      }

      StartRequest();
      requested := true;

      match resp {
        case NonOk(status) =>
          error := Some(ConnectFailure + ServerErrorPrefix + status);
        case Exn(msg) =>
          error := Some(ConnectFailure + msg);
        case OkWithoutHistogramList(avg, msg) =>
          avgSize := Some(avg);
          error := Some(ConnectFailure + msg);
        case Ok(avg, raw) =>
          avgSize := Some(avg);
          var labelled := LabelBins(raw);
          if AllNumeric(labelled) {
            histogram := labelled;
          } else {
            histogram := [];
          }
      }
      loading := false;
    }
  }
}
