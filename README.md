# VisionSat Grad-CAM client — a Dafny model

VisionSat's browser client lets a user pick an image, have it analysed, and
see class predictions next to a Grad-CAM heatmap. This project models the
client's logic in four parts.

- **Analysis page** (`IndexPage`, `index_page.dfy`). The class `Page` holds
  the page's four cells: the selected image, the predictions, the Grad-CAM
  URL and the "analyzing" flag. It also keeps the toasts emitted so far and
  the completion timers not yet fired. `Select`, `Analyze` and `Complete`
  are the image choice, the button click and the timer firing.
  `AnalyzeEnabled` and `StatusText` are the derived button state and
  status line. `Consistent` is the invariant the three methods keep, and
  `ConsistentPageView` says which results view such a state produces.
- **Upload box** (`ImageUpload`, `image_upload.dfy`). `Accepts` is the
  `image/` check. The class `Uploader` holds `selectedFile`, `heatmap`,
  `loading` and `error`. `HandleDrop` and `HandleFileChange` are the two
  input paths. The asynchronous post is `Upload` (what runs before the first
  `await`) followed by `Resolve(response)`, its continuation. `Settle` is the
  `try`/`catch` as a function of the endpoint's `Response`: a non-OK reply
  with an optional `error` field, an OK reply with an optional `heatmap`
  field, or an exception with its message.
- **Results panel** (`ResultsDisplay`, `results_display.dfy`). `Render`
  chooses among the loading view, "No Results Yet" and the results view.
  `PredictionRows` lays out the ranked rows, and `RankLabel` is the `#n`
  badge text.
- **Model picker** (`ModelSelector`, `model_selector.dfy`). It has the
  constant catalogue `ModelOptions`, the first-match lookup `Find`, the
  badge colour `SpeedColor` and the `DetailsPanel` rule.

`js.dfy` (`Js`) holds the JavaScript notions these rely on. These are
values that may be `null`/`undefined`, string truthiness and `||`,
`startsWith`, and the decimal text React renders for a number in JSX.

The asynchronous parts become explicit events. A `setTimeout` callback or
an awaited `fetch` is a separate method, which the caller (the model of
the event loop) invokes once the scheduled work exists. Hence
`Page.Complete` requires a pending timer and `Uploader.Resolve` requires an
upload in flight. Timers of equal delay fire in the order they were set,
so `pending` is a queue.

Behaviour of the code worth knowing:

- The upload box makes the only server call: one `POST` of the image to
  the Grad-CAM endpoint, whose reply carries a heatmap.
- The analysis page does not call the server at all. It fills in a fixed
  mock prediction list after a timer.
- `Page.Complete` writes its results even if another image was selected
  since. Its Grad-CAM URL is made from the image captured when "Analyze"
  was clicked (`gradcamSource`).
- In the upload box, a second upload can start while the first is in
  flight. The first response then lowers `loading` although the second is
  still pending. Each response writes only one cell, the heatmap or the
  error, and the last write to each cell wins. So a heatmap from one
  upload and an error from another can be shown together.
- A rejected file sets the error "Please upload a valid image file.". The
  current selection and any earlier heatmap stay as they were. There is no
  separate failed state and no "clear" operation.
- The two components are not wired together. `ImageUpload` takes no props,
  and the page's `Select` performs no media-type check. They are modelled
  as separate state machines.

## Model

| member | source | states |
|---|---|---|
| `Js.Truthy` | frontend/gradcam-viz-app/src/components/ImageUpload.tsx:61 | a possibly absent string is falsy exactly when it is absent or empty |
| `Js.StartsWith` | frontend/gradcam-viz-app/src/components/ImageUpload.tsx:24 | `startsWith(prefix)`: the prefix is no longer than the string and agrees with it at every position |
| `Js.OrElse` | frontend/gradcam-viz-app/src/components/ImageUpload.tsx:57 | JavaScript `or` of a possibly absent string and a fallback: the string when truthy, the fallback otherwise, so never empty when the fallback is not |
| `Js.StartsWithIffConcat` | frontend/gradcam-viz-app/src/components/ImageUpload.tsx:24 | `startsWith(prefix)` holds exactly for the strings that are the prefix followed by some rest |
| `Js.DecimalString` | frontend/gradcam-viz-app/src/components/ResultsDisplay.tsx:97 | the number child `{index + 1}` is rendered as a non-empty string of digits with no leading zero |
| `Js.DecimalRoundTrip` | frontend/gradcam-viz-app/src/components/ResultsDisplay.tsx:97 | reading the decimal text of n back gives n |
| `Js.DecimalStringInjective` | frontend/gradcam-viz-app/src/components/ResultsDisplay.tsx:97 | different numbers have different decimal texts |
| `ModelSelector.ModelOptions` | frontend/gradcam-viz-app/src/components/ModelSelector.tsx:15-40 | the catalogue has three entries, `resnet50`, `vgg16`, `efficientnet`, with distinct ids, and every speed is fast, medium or slow |
| `ModelSelector.Find` | frontend/gradcam-viz-app/src/components/ModelSelector.tsx:48 | `find` by id: nothing iff no entry has the id; otherwise an entry with that id that no earlier entry shares (the first match) |
| `ModelSelector.FindUnique` | frontend/gradcam-viz-app/src/components/ModelSelector.tsx:15-48 | with distinct ids, looking up any entry's id returns exactly that entry |
| `ModelSelector.SpeedColor` | frontend/gradcam-viz-app/src/components/ModelSelector.tsx:50-57 | total on all strings: fast is green, medium yellow, slow red, and gray exactly for every other string |
| `ModelSelector.CatalogueNeverGray` | frontend/gradcam-viz-app/src/components/ModelSelector.tsx:11-57 | no catalogue entry reaches the gray default |
| `ModelSelector.DetailsPanel` | frontend/gradcam-viz-app/src/components/ModelSelector.tsx:87-106 | the details panel exists iff the selected id is one of the three catalogue ids; it then shows exactly that entry's name, speed, `getSpeedColor(speed)` badge class, description and accuracy, and the badge is never gray |
| `ResultsDisplay.RankLabel` | frontend/gradcam-viz-app/src/components/ResultsDisplay.tsx:97 | the badge text is `#` followed by the digits of index + 1 with no leading zero, i.e. exactly the rendered `#{index + 1}` |
| `ResultsDisplay.RankLabelsDistinct` | frontend/gradcam-viz-app/src/components/ResultsDisplay.tsx:82-97 | rows at different positions have different rank labels |
| `ResultsDisplay.PredictionRows` | frontend/gradcam-viz-app/src/components/ResultsDisplay.tsx:82-111 | one row per prediction, in input order; row i carries prediction i and rank label `#(i+1)`, and only row 0 has the highlighted badge |
| `ResultsDisplay.Render` | frontend/gradcam-viz-app/src/components/ResultsDisplay.tsx:18-153 | loading view iff `isLoading` is true; otherwise "No Results Yet" iff there are no predictions and the image is absent or empty; otherwise the rows of the predictions and the Grad-CAM image iff the image is non-empty, else the placeholder |
| `ResultsDisplay.ResultsNeverBlank` | frontend/gradcam-viz-app/src/components/ResultsDisplay.tsx:56-68 | the results view always has a row or the Grad-CAM image |
| `ResultsDisplay.LoadingTakesPrecedence` | frontend/gradcam-viz-app/src/components/ResultsDisplay.tsx:19-54 | with the loading flag set, the view is the loading view whatever the predictions and image |
| `ImageUpload.Accepts` | frontend/gradcam-viz-app/src/components/ImageUpload.tsx:24 | a candidate is accepted iff a file is present and its media type is `image/` followed by something |
| `ImageUpload.DroppedFile` | frontend/gradcam-viz-app/src/components/ImageUpload.tsx:23 | the dropped candidate is the first file, absent iff nothing was dropped |
| `ImageUpload.PickedFile` | frontend/gradcam-viz-app/src/components/ImageUpload.tsx:34 | the picked candidate is the first file, absent iff the list is null or empty |
| `ImageUpload.DropAndPickAgree` | frontend/gradcam-viz-app/src/components/ImageUpload.tsx:20-41 | the same files give the same candidate and the same verdict by drop and by picker |
| `ImageUpload.HeatmapUrl` | frontend/gradcam-viz-app/src/components/ImageUpload.tsx:62 | the heatmap URL is `data:image/png;base64,` followed by exactly the payload |
| `ImageUpload.HeatmapUrlRoundTrip` | frontend/gradcam-viz-app/src/components/ImageUpload.tsx:62 | stripping the prefix from a built heatmap URL gives the payload back |
| `ImageUpload.CaughtMessage` | frontend/gradcam-viz-app/src/components/ImageUpload.tsx:66-67 | the caught error's message if non-empty, else "Network error"; never empty |
| `ImageUpload.Settle` | frontend/gradcam-viz-app/src/components/ImageUpload.tsx:55-67 | non-OK: the server's `error` field if non-empty, else "Server error"; OK with a non-empty heatmap: its data URL; OK without: "No heatmap returned from server."; exception: its message, else "Network error"; an error shown is never empty |
| `ImageUpload.SettleShowsHeatmapIff` | frontend/gradcam-viz-app/src/components/ImageUpload.tsx:61-65 | a heatmap is shown iff the response is OK with a non-empty heatmap field, and it carries exactly that payload |
| `ImageUpload.Uploader.constructor` | frontend/gradcam-viz-app/src/components/ImageUpload.tsx:14-17 | initially nothing selected, no heatmap, not loading, no error |
| `ImageUpload.Uploader.HandleDrop` | frontend/gradcam-viz-app/src/components/ImageUpload.tsx:20-30 | a drop is `Select` of the first dropped file |
| `ImageUpload.Uploader.HandleFileChange` | frontend/gradcam-viz-app/src/components/ImageUpload.tsx:32-41 | a pick is `Select` of the first picked file |
| `ImageUpload.Uploader.Select` | frontend/gradcam-viz-app/src/components/ImageUpload.tsx:22-29 | the error is cleared first. On acceptance the file is selected and an upload starts, with no error. On rejection the error is "Please upload a valid image file.", and selection, heatmap, loading and uploads are unchanged |
| `ImageUpload.Uploader.Upload` | frontend/gradcam-viz-app/src/components/ImageUpload.tsx:43-45 | starting an upload raises `loading` and clears `heatmap`, leaving selection and error as they were |
| `ImageUpload.Uploader.Resolve` | frontend/gradcam-viz-app/src/components/ImageUpload.tsx:46-70 | `loading` is false afterwards in every case; a heatmap outcome sets `heatmap` and keeps `error`; an error outcome sets `error` and keeps `heatmap`; starting from neither, exactly one of them is set |
| `IndexPage.MockPredictions` | frontend/gradcam-viz-app/src/pages/Index.tsx:12-16 | three predictions, each confidence equal to its probability and within [0, 1], strictly descending by confidence |
| `IndexPage.ObjectUrl` | frontend/gradcam-viz-app/src/pages/Index.tsx:48 | the object URL for the image is a non-empty `blob:` URL |
| `IndexPage.AnalyzeEnabled` | frontend/gradcam-viz-app/src/pages/Index.tsx:112 | the Analyze button is enabled iff an image is selected and no analysis is running |
| `IndexPage.StatusText` | frontend/gradcam-viz-app/src/pages/Index.tsx:132-134 | "Ready to analyze" iff an image is selected, "Waiting for image" iff none is |
| `IndexPage.EnabledOnlyWhenReady` | frontend/gradcam-viz-app/src/pages/Index.tsx:112-134 | an enabled button implies the "Ready to analyze" status; "Waiting for image" implies a disabled button |
| `IndexPage.ConsistentPageView` | frontend/gradcam-viz-app/src/pages/Index.tsx:143-147 | for a page state the handlers can reach: loading view while analyzing; "No Results Yet" when idle without results; otherwise the three mock rows with the Grad-CAM image, never the placeholder |
| `IndexPage.Page.constructor` | frontend/gradcam-viz-app/src/pages/Index.tsx:19-22 | no image, no predictions, empty Grad-CAM URL, not analyzing, no toast, no timer |
| `IndexPage.Page.Select` | frontend/gradcam-viz-app/src/pages/Index.tsx:25-30 | selects the image, resets predictions to empty and the Grad-CAM URL to `""`; the flag, timers and toasts are unchanged |
| `IndexPage.Page.Analyze` | frontend/gradcam-viz-app/src/pages/Index.tsx:32-43 | with no image it appends exactly one destructive "No Image Selected" toast and changes nothing else (the flag included, and no timer is set). With an image it raises the flag and schedules one completion capturing that image. No result is written |
| `IndexPage.Page.Complete` | frontend/gradcam-viz-app/src/pages/Index.tsx:45-55 | the oldest timer fires. Predictions become the mock list and the Grad-CAM URL a non-empty object URL of the captured image. The flag is lowered and exactly one "Analysis Complete" toast is appended. The selection is unchanged |

## Left out

- The decorative 3D background (`RotatingEarth.tsx`) and the static model card (`ModelDisplay.tsx`): markup, WebGL and random textures, with no logic.
- The backend (`backend/model_loader.py` and the Flask service): model loading and inference are foreign-library calls and I/O. The endpoint is seen only through `ImageUpload.Response`.
- `fetch`, `FormData` and `response.json()`: the request itself is not modelled. Its observable result is the `Response` value given to `Resolve`. A body that is not JSON counts as a thrown exception with the parser's message. A `data.error` or `data.heatmap` that is not a string is not modelled.
- `IndexPage.ObjectUrl`: the identifier inside the `blob:` URL is chosen by the browser and is a parameter here.
- `IndexPage.Page.Complete`: the 3000 ms delay is not modelled, only the order in which timers fire.
- Toast rendering: toasts are an appended log of `Notice` values.
- The `API_URL` environment fallback (deployment configuration).
- The `accept="image/*"` attribute of the file input: it is a browser-side filter, and the handler's own check is modelled.
- `handleDragOver` and the click that opens the picker: they only call `preventDefault()` and `click()`.
- Percentages and progress bars (`confidence * 100`, `toFixed(1)`): floating-point display arithmetic. The model also leaves out the button's "Analyzing..."/"Analyze Image" label, CSS classes other than the speed badge's, icons and layout.
- The model picker's `Select` control and `onModelChange` callback: they only hand the chosen id to the parent. The page does not render `ModelSelector`.
