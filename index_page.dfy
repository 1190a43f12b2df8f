/**
 The analysis page (`Index`): it holds the selected image, the predictions,
 the Grad-CAM image URL and the "analyzing" flag. "Analyze" starts a
 simulated analysis whose result arrives later from a timer; here the timer
 firing is the separate event `Complete`, so the page runs `Select`,
 `Analyze` and `Complete` in sequence. Toasts are kept as an appended log.
 */
module IndexPage {
  import opened Js
  import opened ResultsDisplay

  /** A toast: title, description, and whether it uses the destructive variant. */
  datatype Notice = Notice(title: string, description: string, destructive: bool)

  const NoImageNotice := Notice("No Image Selected", "Please upload an image to analyze", true)
  const CompleteNotice :=
    Notice("Analysis Complete", "Image classification and GradCAM explanation generated successfully", false)

  const ReadyStatus := "Ready to analyze"
  const WaitingStatus := "Waiting for image"

  /** `mockPredictions`: three predictions, confidence equal to probability, strictly descending. */
  function MockPredictions(): (predictions: seq<Prediction>)
    ensures |predictions| == 3
    ensures forall i :: 0 <= i < |predictions| ==>
      predictions[i].confidence == predictions[i].probability && 0.0 <= predictions[i].confidence <= 1.0
    ensures forall i, j :: 0 <= i < j < |predictions| ==> predictions[i].confidence > predictions[j].confidence
  {
    [ Prediction("Golden Retriever", 0.89, 0.89),
      Prediction("Labrador", 0.76, 0.76),
      Prediction("Beagle", 0.45, 0.45) ]
  }

  /** `URL.createObjectURL(file)`: a `blob:` URL whose identifier the browser chooses. */
  function ObjectUrl(blobId: string): (url: string)
    ensures url != "" && StartsWith(url, "blob:")
  {
    "blob:" + blobId
  }

  /** `disabled={!selectedImage || isAnalyzing}`, negated: whether "Analyze" can be clicked. */
  function AnalyzeEnabled(selectedImage: Option<File>, isAnalyzing: bool): (enabled: bool)
    ensures enabled <==> selectedImage.Some? && !isAnalyzing
  {
    !(selectedImage.None? || isAnalyzing)
  }

  /** The status line under the button. */
  function StatusText(selectedImage: Option<File>): (status: string)
    ensures status == ReadyStatus <==> selectedImage.Some?
    ensures status == WaitingStatus <==> selectedImage.None?
  {
    if selectedImage.Some? then ReadyStatus else WaitingStatus
  }

  /** An enabled button always sits above "Ready to analyze"; "Waiting for image" always means a disabled button. */
  lemma EnabledOnlyWhenReady(selectedImage: Option<File>, isAnalyzing: bool)
    ensures AnalyzeEnabled(selectedImage, isAnalyzing) ==> StatusText(selectedImage) == ReadyStatus
    ensures StatusText(selectedImage) == WaitingStatus ==> !AnalyzeEnabled(selectedImage, isAnalyzing)
  {
  }

  /**
   The invariant of the page's cells (`pending` being the images captured by
   the timers not yet fired): before any image there is nothing scheduled
   and nothing shown; an analysis in progress has a timer pending; the
   predictions and the Grad-CAM URL are set and cleared together, and set
   only to the mock list and a `blob:` URL.
   */
  ghost predicate Consistent(selectedImage: Option<File>, predictions: seq<Prediction>, gradcamImage: string,
                             isAnalyzing: bool, pending: seq<File>)
  {
    && (selectedImage.None? ==> pending == [] && !isAnalyzing && predictions == [])
    && (isAnalyzing ==> pending != [])
    && (predictions == [] <==> gradcamImage == "")
    && (predictions == [] || predictions == MockPredictions())
    && (gradcamImage != "" ==> StartsWith(gradcamImage, "blob:"))
  }

  /**
   What the results panel shows for a consistent page: the loading view while
   analyzing; "No Results Yet" when idle without results; otherwise the three
   mock rows with the Grad-CAM image, never the placeholder.
   */
  lemma {:induction false} ConsistentPageView(selectedImage: Option<File>, predictions: seq<Prediction>,
                                              gradcamImage: string, isAnalyzing: bool, pending: seq<File>)
    requires Consistent(selectedImage, predictions, gradcamImage, isAnalyzing, pending)
    ensures isAnalyzing ==> Render(predictions, Some(gradcamImage), Some(isAnalyzing)) == Loading
    ensures !isAnalyzing && predictions == [] ==>
      Render(predictions, Some(gradcamImage), Some(isAnalyzing)) == NoResults
    ensures !isAnalyzing && predictions != [] ==>
      Render(predictions, Some(gradcamImage), Some(isAnalyzing)) ==
        Results(PredictionRows(MockPredictions()), GradcamImage(gradcamImage))
  {
  }

  /** The page's state cells, the toasts shown so far and the timers scheduled. */
  class Page {
    var selectedImage: Option<File>
    var predictions: seq<Prediction>
    var gradcamImage: string
    var isAnalyzing: bool
    /** Toasts emitted, oldest first. */
    var notices: seq<Notice>
    /** Completion timers scheduled and not yet fired, oldest first, each with the image its closure captured. */
    var pending: seq<File>
    /** The image the current Grad-CAM URL was made from. */
    ghost var gradcamSource: Option<File>

    ghost predicate Valid()
      reads this
    {
      && Consistent(selectedImage, predictions, gradcamImage, isAnalyzing, pending)
      && (gradcamSource.Some? <==> gradcamImage != "")
    }

    /** The initial state of the four cells: no image, no predictions, `""`, not analyzing. */
    constructor ()
      ensures Valid()
      ensures selectedImage == None && predictions == [] && gradcamImage == "" && !isAnalyzing
      ensures notices == [] && pending == []
    {
      selectedImage, predictions, gradcamImage, isAnalyzing := None, [], "", false;
      notices, pending := [], [];
      gradcamSource := None;
    }

    /** `handleImageSelect`: take the image and wipe earlier results; the flag and any timer are untouched. */
    method Select(file: File)
      requires Valid()
      modifies this
      ensures Valid()
      ensures selectedImage == Some(file) && predictions == [] && gradcamImage == "" && gradcamSource == None
      ensures isAnalyzing == old(isAnalyzing) && pending == old(pending) && notices == old(notices)
    {
      selectedImage := Some(file);
      predictions := [];
      gradcamImage := "";
      gradcamSource := None;
    }

    /**
     `handleAnalyze`: without an image, one destructive toast and nothing
     else; with one, raise the flag and schedule a completion that captured
     the current image. No result is written yet.
     */
    method Analyze()
      requires Valid()
      modifies this
      ensures Valid()
      ensures old(selectedImage).None? ==>
        notices == old(notices) + [NoImageNotice] && pending == old(pending) && isAnalyzing == old(isAnalyzing)
      ensures old(selectedImage).Some? ==>
        isAnalyzing && pending == old(pending) + [old(selectedImage).value] && notices == old(notices)
      ensures selectedImage == old(selectedImage) && predictions == old(predictions)
      ensures gradcamImage == old(gradcamImage) && gradcamSource == old(gradcamSource)
    {
      if selectedImage.None? {
        notices := notices + [NoImageNotice];
        return;
      }
      isAnalyzing := true;
      pending := pending + [selectedImage.value];
    }

    /**
     The timer firing: the oldest scheduled completion writes the mock
     predictions and an object URL for the image it captured, lowers the
     flag and emits one "Analysis Complete" toast. It checks nothing: it
     writes even when another image has been selected since.
     */
    method Complete(blobId: string)
      requires Valid()
      requires pending != []
      modifies this
      ensures Valid()
      ensures predictions == MockPredictions() && gradcamImage == ObjectUrl(blobId) && gradcamImage != ""
      ensures gradcamSource == Some(old(pending)[0])
      ensures !isAnalyzing
      ensures notices == old(notices) + [CompleteNotice]
      ensures pending == old(pending)[1..] && selectedImage == old(selectedImage)
    {
      var captured := pending[0];
      pending := pending[1..];
      predictions := MockPredictions();
      gradcamImage := ObjectUrl(blobId);
      gradcamSource := Some(captured);
      isAnalyzing := false;
      notices := notices + [CompleteNotice];
    }
  }
}
