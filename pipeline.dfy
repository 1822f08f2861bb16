/**
 * The two halves together: what the form does with the histograms that the
 * `/predict` endpoint sends.  The endpoint's bins are 5 mm wide while the
 * form labels every bin as 20 mm wide; both widths are kept as written, so
 * the labels of neighbouring bins overlap.
 */
module Pipeline {
  import Frontend
  import Backend
  import opened Wrappers

  /** A histogram of the endpoint as JSON carries it to the form: every count is a number. */
  function ToWire(h: seq<Backend.Bin>): seq<Frontend.RawBin>
  {
    if h == [] then []
    else [Frontend.RawBin(h[0].binStart, Frontend.Num(h[0].count))] + ToWire(h[1..])
  }

  lemma {:induction false} ToWireAt(h: seq<Backend.Bin>, i: int)
    requires 0 <= i < |h|
    ensures |ToWire(h)| == |h|
    ensures ToWire(h)[i] == Frontend.RawBin(h[i].binStart, Frontend.Num(h[i].count))
  {
    if i > 0 {
      ToWireAt(h[1..], i - 1);
    } else if |h| > 1 {
      ToWireAt(h[1..], 0);
    }
  }

  /**
   * A histogram the endpoint computed for at least one fruit is charted in
   * full: bin `i`, which holds the diameters in [5i, 5i + 5), is labelled
   * with the range from 5i to 5i + 20 and keeps its count.
   */
  lemma PredictionIsCharted(v: Frontend.View, f: Frontend.Form, avg: real, h: seq<Backend.Bin>)
    requires Frontend.Validate(f).None? && |h| > 0
    requires forall i :: 0 <= i < |h| ==> h[i].binStart == Backend.BinSize * i
    ensures |Frontend.Normalise(ToWire(h))| == |h|
    ensures forall i :: 0 <= i < |h| ==>
      Frontend.Normalise(ToWire(h))[i] == Frontend.DisplayBin(Frontend.Label(Backend.BinSize * i), Frontend.Num(h[i].count))
    ensures Frontend.ShowsChart(Frontend.AfterSubmit(v, f, Frontend.Ok(avg, ToWire(h))))
  {
    var raw := ToWire(h);
    ToWireAt(h, 0);
    forall i | 0 <= i < |raw|
      ensures raw[i] == Frontend.RawBin(Backend.BinSize * i, Frontend.Num(h[i].count))
    {
      ToWireAt(h, i);
    }
    Frontend.ChartAfterOk(v, f, avg, raw);
  }

  /** The endpoint's reply for no matching fruit shows an average of 0 and no chart. */
  lemma NoFruitsShowsAverageOnly(v: Frontend.View, f: Frontend.Form)
    requires Frontend.Validate(f).None?
    ensures Frontend.AfterSubmit(v, f, Frontend.Ok(0.0, ToWire([]))).avgSize == Some(0.0)
    ensures !Frontend.ShowsChart(Frontend.AfterSubmit(v, f, Frontend.Ok(0.0, ToWire([]))))
  {
  }
}
