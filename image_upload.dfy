/**
 The upload box (`ImageUpload`): it accepts one image by drop or by the file
 picker, posts it to the Grad-CAM endpoint and shows the returned heatmap or
 an error. The post is asynchronous; here it is split into `Upload` (the
 part that runs before the first `await`) and `Resolve`, the continuation
 that runs once the endpoint's response (or the transport failure) is in.
 */
module ImageUpload {
  import opened Js

  const ImagePrefix := "image/"
  const InvalidFileMessage := "Please upload a valid image file."
  const HeatmapUrlPrefix := "data:image/png;base64,"
  const ServerErrorFallback := "Server error"
  const NoHeatmapMessage := "No heatmap returned from server."
  const NetworkErrorFallback := "Network error"

  /** `file && file.type.startsWith("image/")`: the check both input paths apply. */
  function Accepts(file: Option<File>): (ok: bool)
    ensures ok <==> file.Some? && exists rest :: file.value.mediaType == ImagePrefix + rest
  {
    if file.None? then false
    else
      StartsWithIffConcat(file.value.mediaType, ImagePrefix);
      StartsWith(file.value.mediaType, ImagePrefix)
  }

  /** `e.dataTransfer.files[0]`: the first dropped file, undefined when none was dropped. */
  function DroppedFile(files: seq<File>): (file: Option<File>)
    ensures file.Some? <==> files != []
    ensures file.Some? ==> file.value == files[0]
  {
    if files == [] then None else Some(files[0])
  }

  /** `e.target.files?.[0]`: the first picked file, undefined when the list is null or empty. */
  function PickedFile(files: Option<seq<File>>): (file: Option<File>)
    ensures file.Some? <==> files.Some? && files.value != []
    ensures file.Some? ==> file.value == files.value[0]
  {
    if files.None? then None else DroppedFile(files.value)
  }

  /** Dropping a list of files and picking the same list present the same candidate to the check. */
  lemma DropAndPickAgree(files: seq<File>)
    ensures DroppedFile(files) == PickedFile(Some(files))
    ensures Accepts(DroppedFile(files)) == Accepts(PickedFile(Some(files)))
  {
  }

  /** `data:image/png;base64,${payload}`. */
  function HeatmapUrl(payload: string): (url: string)
    ensures StartsWith(url, HeatmapUrlPrefix)
    ensures url[|HeatmapUrlPrefix|..] == payload
  {
    HeatmapUrlPrefix + payload
  }

  /** The payload a heatmap URL carries, if it is one. */
  function HeatmapPayload(url: string): Option<string> {
    if StartsWith(url, HeatmapUrlPrefix) then Some(url[|HeatmapUrlPrefix|..]) else None
  }

  /** The URL built from a payload gives that payload back, so different payloads give different URLs. */
  lemma HeatmapUrlRoundTrip(payload: string)
    ensures HeatmapPayload(HeatmapUrl(payload)) == Some(payload)
  {
  }

  /**
   What the client can observe of the endpoint call: a non-OK response whose
   JSON body may carry an `error` field, an OK response whose JSON body may
   carry a `heatmap` field, or an exception (the transport failed or the
   body was not JSON) with its message.
   */
  datatype Response = NotOk(error: Option<string>) | Ok(heatmap: Option<string>) | Thrown(message: string)

  /** What a settled upload writes: the heatmap URL, or an error message. */
  datatype Settlement = ShowHeatmap(url: string) | ShowError(message: string)

  /** `err.message || "Network error"` in the `catch` block. */
  function CaughtMessage(message: string): (shown: string)
    ensures shown != ""
    ensures message != "" ==> shown == message
    ensures message == "" ==> shown == NetworkErrorFallback
  {
    if message != "" then message else NetworkErrorFallback
  }

  /** The `try`/`catch` of `uploadImage` applied to a response. */
  function Settle(response: Response): (s: Settlement)
    ensures s.ShowError? ==> s.message != ""
    ensures response.NotOk? ==> s == ShowError(OrElse(response.error, ServerErrorFallback))
    ensures response.Ok? && Truthy(response.heatmap) ==> s == ShowHeatmap(HeatmapUrl(response.heatmap.value))
    ensures response.Ok? && !Truthy(response.heatmap) ==> s == ShowError(NoHeatmapMessage)
    ensures response.Thrown? ==>
      s == ShowError(if response.message != "" then response.message else NetworkErrorFallback)
  {
    match response
    case NotOk(error) => ShowError(CaughtMessage(OrElse(error, ServerErrorFallback)))
    case Ok(heatmap) =>
      if Truthy(heatmap) then ShowHeatmap(HeatmapUrl(heatmap.value)) else ShowError(NoHeatmapMessage)
    case Thrown(message) => ShowError(CaughtMessage(message))
  }

  /** Only an OK response with a non-empty heatmap field shows a heatmap, and a shown heatmap is a heatmap URL. */
  lemma SettleShowsHeatmapIff(response: Response)
    ensures Settle(response).ShowHeatmap? <==> response.Ok? && Truthy(response.heatmap)
    ensures Settle(response).ShowHeatmap? ==> HeatmapPayload(Settle(response).url) == response.heatmap
  {
  }

  /** The component's state cells. */
  class Uploader {
    var selectedFile: Option<File>
    var heatmap: Option<string>
    var loading: bool
    var error: Option<string>
    /** Uploads that have started and whose continuation has not run yet. */
    ghost var inFlight: nat

    ghost predicate Valid()
      reads this
    {
      && (loading ==> inFlight > 0)
      && (inFlight > 0 ==> selectedFile.Some?)
      && (selectedFile.Some? ==> Accepts(selectedFile))
      && (heatmap.Some? ==> HeatmapPayload(heatmap.value).Some?)
      && (error.Some? ==> error.value != "")
    }

    /** The initial state: nothing selected, no heatmap, not loading, no error. */
    constructor ()
      ensures Valid()
      ensures selectedFile == None && heatmap == None && !loading && error == None && inFlight == 0
    {
      selectedFile, heatmap, loading, error := None, None, false, None;
      inFlight := 0;
    }

    /** `handleDrop`. */
    method HandleDrop(files: seq<File>) returns (started: bool)
      requires Valid()
      modifies this
      ensures Valid()
      ensures started <==> Accepts(DroppedFile(files))
      ensures started ==> selectedFile == DroppedFile(files)
      ensures started ==> loading && heatmap == None && error == None && inFlight == old(inFlight) + 1
      ensures !started ==> error == Some(InvalidFileMessage)
      ensures !started ==> selectedFile == old(selectedFile) && heatmap == old(heatmap)
      ensures !started ==> loading == old(loading) && inFlight == old(inFlight)
    {
      started := Select(DroppedFile(files));
    }

    /** `handleFileChange`. */
    method HandleFileChange(files: Option<seq<File>>) returns (started: bool)
      requires Valid()
      modifies this
      ensures Valid()
      ensures started <==> Accepts(PickedFile(files))
      ensures started ==> selectedFile == PickedFile(files)
      ensures started ==> loading && heatmap == None && error == None && inFlight == old(inFlight) + 1
      ensures !started ==> error == Some(InvalidFileMessage)
      ensures !started ==> selectedFile == old(selectedFile) && heatmap == old(heatmap)
      ensures !started ==> loading == old(loading) && inFlight == old(inFlight)
    {
      started := Select(PickedFile(files));
    }

    /**
     What both handlers do with their candidate file: clear the error, then
     either take an image and start its upload, or report the rejection and
     leave the selection and any upload alone.
     */
    method Select(file: Option<File>) returns (started: bool)
      requires Valid()
      modifies this
      ensures Valid()
      ensures started <==> Accepts(file)
      ensures started ==> selectedFile == file
      ensures started ==> loading && heatmap == None && error == None && inFlight == old(inFlight) + 1
      ensures !started ==> error == Some(InvalidFileMessage)
      ensures !started ==> selectedFile == old(selectedFile) && heatmap == old(heatmap)
      ensures !started ==> loading == old(loading) && inFlight == old(inFlight)
    {
      error := None;
      started := Accepts(file);
      if started {
        selectedFile := file;
        Upload(file.value);
      } else {
        error := Some(InvalidFileMessage);
      }
    }

    /** The synchronous start of `uploadImage`: raise `loading`, drop the old heatmap, send the request. */
    method Upload(file: File)
      requires Valid()
      requires selectedFile == Some(file)
      modifies this
      ensures Valid()
      ensures loading && heatmap == None && inFlight == old(inFlight) + 1
      ensures selectedFile == old(selectedFile) && error == old(error)
    {
      loading := true;
      heatmap := None;
      inFlight := inFlight + 1;
    }

    /**
     The continuation of `uploadImage` once a response is in: write the
     heatmap or the error, and in every case lower `loading`. A heatmap
     leaves the error as it was; an error leaves the heatmap as it was.
     */
    method Resolve(response: Response)
      requires Valid()
      requires inFlight > 0
      modifies this
      ensures Valid()
      ensures !loading && inFlight == old(inFlight) - 1 && selectedFile == old(selectedFile)
      ensures Settle(response).ShowHeatmap? ==>
        heatmap == Some(Settle(response).url) && error == old(error)
      ensures Settle(response).ShowError? ==>
        error == Some(Settle(response).message) && heatmap == old(heatmap)
      ensures old(heatmap) == None && old(error) == None ==> (heatmap.Some? <==> error.None?)
    {
      match Settle(response) {
        case ShowHeatmap(url) =>
          heatmap := Some(url);
        case ShowError(message) =>
          error := Some(message);
      }
      loading := false;
      inFlight := inFlight - 1;
    }
  }
}
