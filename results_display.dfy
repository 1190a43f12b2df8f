/**
 The results panel (`ResultsDisplay`): a function of its three props that
 picks one of three views (loading, "No Results Yet", results) and, in the
 results view, lays out one ranked row per prediction and either the
 Grad-CAM image or its placeholder.
 */
module ResultsDisplay {
  import opened Js

  /** One prediction (`Prediction`); the source's `class` field is `category` here. */
  datatype Prediction = Prediction(category: string, confidence: real, probability: real)

  /** The style of a row's rank badge: the first row is highlighted, the others muted. */
  datatype Badge = Highlighted | Muted

  /** One rendered prediction row: the prediction, its rank badge text and the badge style. */
  datatype Row = Row(prediction: Prediction, rankLabel: string, badge: Badge)

  /** The Grad-CAM card of the results view. */
  datatype GradcamPanel = GradcamImage(src: string) | Placeholder

  /** The three views the component returns. */
  datatype View = Loading | NoResults | Results(rows: seq<Row>, gradcam: GradcamPanel)

  /** The badge text: `#` followed by the decimal text React renders for the number child `{index + 1}`. */
  function RankLabel(index: nat): (text: string)
    ensures |text| >= 2 && text[0] == '#' && text[1] != '0'
    ensures forall i :: 1 <= i < |text| ==> IsDigit(text[i])
    ensures DecimalValue(text[1..]) == index + 1
  {
    var digits := DecimalString(index + 1);
    DecimalRoundTrip(index + 1);
    assert ("#" + digits)[1..] == digits;
    "#" + digits
  }

  /** Rows at different positions carry different rank labels. */
  lemma RankLabelsDistinct(i: nat, j: nat)
    requires i != j
    ensures RankLabel(i) != RankLabel(j)
  {
  }

  /** `predictions.map((prediction, index) => …)`: one row per prediction, in input order. */
  function PredictionRows(predictions: seq<Prediction>): (rows: seq<Row>)
    ensures |rows| == |predictions|
    ensures forall i :: 0 <= i < |rows| ==>
      rows[i].prediction == predictions[i] && rows[i].rankLabel == RankLabel(i) &&
      (rows[i].badge == Highlighted <==> i == 0)
  {
    seq(|predictions|, i requires 0 <= i < |predictions| =>
      Row(predictions[i], RankLabel(i), if i == 0 then Highlighted else Muted))
  }

  /** Whether the optional `isLoading` prop is truthy (absent counts as false). */
  predicate IsLoading(isLoading: Option<bool>) {
    isLoading == Some(true)
  }

  /** The view chosen for the props `predictions`, `gradcamImage?` and `isLoading?`. */
  function Render(predictions: seq<Prediction>, gradcamImage: Option<string>, isLoading: Option<bool>): (view: View)
    ensures view.Loading? <==> IsLoading(isLoading)
    ensures view.NoResults? <==> !IsLoading(isLoading) && predictions == [] && !Truthy(gradcamImage)
    ensures view.Results? ==> view.rows == PredictionRows(predictions)
    ensures view.Results? ==>
      (view.gradcam.GradcamImage? <==> Truthy(gradcamImage)) &&
      (view.gradcam.GradcamImage? ==> view.gradcam.src == gradcamImage.value)
  {
    if IsLoading(isLoading) then Loading
    else if |predictions| == 0 && !Truthy(gradcamImage) then NoResults
    else Results(PredictionRows(predictions), if Truthy(gradcamImage) then GradcamImage(gradcamImage.value) else Placeholder)
  }

  /** The results view is never blank: it has a row or it has the Grad-CAM image. */
  lemma ResultsNeverBlank(predictions: seq<Prediction>, gradcamImage: Option<string>, isLoading: Option<bool>)
    ensures Render(predictions, gradcamImage, isLoading).Results? ==>
      |Render(predictions, gradcamImage, isLoading).rows| > 0 ||
      Render(predictions, gradcamImage, isLoading).gradcam.GradcamImage?
  {
  }

  /** Loading takes precedence: with the flag set, predictions and image make no difference. */
  lemma LoadingTakesPrecedence(p1: seq<Prediction>, g1: Option<string>, p2: seq<Prediction>, g2: Option<string>)
    ensures Render(p1, g1, Some(true)) == Render(p2, g2, Some(true)) == Loading
  {
  }
}
