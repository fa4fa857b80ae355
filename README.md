# Mood detection: a Dafny model

The repository is a small emotion-detection web app. A FastAPI server
(main.py) wraps an ONNX classifier (models/emotion_model.py). A browser
controller (static/script.js) captures a webcam frame or takes an uploaded
file, posts it to the server and renders the ranked emotions it gets back.

This project models the logic around the classifier and proves properties
of it:

- **The browser controller.** `MoodDetectionApp` is a Dafny class with the
  controller's own `stream` and `isCapturing` fields plus records for the
  page elements it drives:
  - the camera controls;
  - the spinner and the error banner;
  - the results panel;
  - the upload tab;
  - the modal.

  Every method is proved against a pure transition function on `Ui`, the
  value of all those fields: `View() == F(old(View()), ...)`. Every method
  also keeps the camera-consistency invariant `Valid()`. A ghost set of
  running streams records which camera tracks are live.

  `displayResults` sorts an `array` in place with a verified insertion
  sort. It then renders one bar per entry.
- **Prediction post-processing.** `GenericONNXModel.predict` is modelled
  step by step:
  - a 3-D input gains a batch axis of size 1;
  - the output is squeezed;
  - the "auto softmax" gate;
  - one `{label, confidence, percentage}` record per score, with the
    `Class_<i>` label fallback;
  - the stable descending sort.

  `Predict` is a method with the source's append loop and in-place sort,
  proved equal to the specification function `Predicted`. The numpy edge
  cases are modelled too:
  - a 0-d output cannot be iterated;
  - a higher-rank output with no rows gives an empty list;
  - a higher-rank output with two or more rows but no entries, such as
    shape (2, 0), fails inside `_softmax`, where `np.max` of an empty
    array raises;
  - any other higher-rank output fails at `float(score)`.

  `get_model_info` is modelled with a round trip through its JSON value.
- **Request handlers.** Each handler of main.py is a function from the
  loaded model (or none) and the request to the HTTP response:
  - `raise HTTPException` gives the `{"detail": ...}` body;
  - any other exception gives the framework's plain-text 500.

  Image opening, base64 decoding, preprocessing, inference, softmax and
  the percentage formatting are function parameters. They are not
  modelled.

The two sides share one ranking definition, `Ranking.SortByConfidence`.
Python's `list.sort` and JavaScript's `Array.prototype.sort` are both
stable, so both sorts are the stable sort by descending confidence. The
sort is characterised independently by `Ranking.IsStableRanking`: it is
ordered by non-increasing confidence and keeps every group of equal
confidences in input order.

Modules: `Wrappers` (Option, Result), `Text` (prefix test, decimal
notation, comma split), `Ranking`, `Wire` (JSON values), `EmotionModel`,
`Server`, `Client`.

## Behaviour as written

These behaviours of the code may not be what one expects from the page. The
model follows the code in each case:

- A tab switch hides the results and the snapshot, but leaves the error
  banner as it is (static/script.js:92-110).
- After a stream is granted, the start button stays enabled until the
  video's metadata arrives (static/script.js:125-139). A second start in
  that window gets a second stream, and the first is never stopped.
  `StartCamera` states this through the ghost set of live streams.
- The captured snapshot is shown, then hidden again at once: the analysis
  calls `showLoading`, which calls `hideResults` (static/script.js:175-185,
  397-423).
- A dropped file is previewed, but "Analyze" uploads the file input's
  selection, which a drop does not change (static/script.js:222-230, 260).
- The info panels do not check `response.ok`. Any JSON body whose fields
  can be read opens the modal. A body that is not JSON shows the panel's
  error. So does a body whose fields cannot be read, such as a JSON `null`.
  In that case the modal's title has already been rewritten, whether or not
  the modal is open (static/script.js:329-373, `Client.InfoRule`).
- In `predict`, softmax is gated on the squeezed shape. After squeezing, a
  rank-1 output has either no entries or at least two
  (`EmotionModel.SoftmaxGate`), so a single score is never normalised.

## Model

| member | source | states |
|---|---|---|
| Text.NatToString | models/emotion_model.py:47 | the index in `f"Class_{i}"` is written as a non-empty string of decimal digits with no leading zero |
| Text.NatToStringRoundTrip | models/emotion_model.py:47 | reading that decimal text back gives the index |
| Text.NatToStringInjective | models/emotion_model.py:47 | distinct indices get distinct texts |
| Text.Split | main.py:56 | `split(",")` yields at least one field and no field contains the separator |
| Text.JoinSplit | main.py:56 | joining the fields with the separator restores the string |
| Text.SplitCount | main.py:56 | there is one more field than there are separators |
| Text.SecondField | main.py:56 | `split(",")[1]` exists exactly when the string holds a comma; otherwise the IndexError path |
| Text.SecondFieldAfterHeader | main.py:56 | for `header,payload` with no comma in header or payload, the field taken is exactly the payload |
| Ranking.Slot | models/emotion_model.py:54 | the insertion point of an entry: everything after it has strictly smaller confidence, and the entry before it has at least as large a confidence |
| Ranking.SortIsNonIncreasing | models/emotion_model.py:54 | the sorted list has non-increasing confidence |
| Ranking.SortIsStable | models/emotion_model.py:54 | entries of equal confidence keep their input order |
| Ranking.SortIsPermutation | models/emotion_model.py:54 | the sorted list is a permutation of the input |
| Ranking.RankingDeterminedByTies | models/emotion_model.py:54 | two non-increasing lists with the same equal-confidence groups are the same list |
| Ranking.SortCharacterization | models/emotion_model.py:54 | a list is the sort's result if and only if it is a stable ranking of the input |
| Ranking.HeadIsMaximal | static/script.js:290-292 | the first entry after sorting belongs to the input and has the largest confidence in it |
| Ranking.SortFixesRanked | static/script.js:290 | sorting leaves a list unchanged exactly when it is already non-increasing, so sorting twice is sorting once |
| Ranking.InsertInPlace | static/script.js:290 | moving `a[i]` left past smaller entries leaves `a[..i+1]` equal to its insertion into the sorted prefix, with the rest of the array unchanged |
| Ranking.SortInPlace | static/script.js:290 | the in-place sort leaves the array equal to `SortByConfidence` of its old contents |
| Wire.EmotionJson | models/emotion_model.py:48-52 | one result is a dictionary with exactly the keys label, confidence and percentage |
| Wire.EmotionsJson | main.py:46 | the results are a JSON array with one element per record |
| Wire.EmotionsRoundTrip | main.py:46 | the browser reads back exactly the records the server sent, in order |
| EmotionModel.WithBatchAxis | models/emotion_model.py:34-35 | `expand_dims(axis=0)` prepends an axis of size 1 and keeps the data |
| EmotionModel.DropUnitDims | models/emotion_model.py:39 | `squeeze()` removes every axis of size 1; the number of entries is unchanged and the rank does not grow; a single axis is dropped exactly when its size is 1 |
| EmotionModel.DropUnitDimsAppend | models/emotion_model.py:39 | `squeeze()` works axis by axis: the kept axes of a concatenated shape are the kept axes of each part, in order |
| EmotionModel.Records | models/emotion_model.py:45-53 | exactly one record per score |
| EmotionModel.Predict | models/emotion_model.py:30-55 | the loop of appends followed by the in-place sort returns what `Predicted` prescribes: the missing-session error, the numpy failures for outputs of rank 0, for softmax over an empty output and for outputs of rank above 1, or the sorted records |
| EmotionModel.BatchAxisRule | models/emotion_model.py:34-35 | the session receives a 3-D input with a leading axis of size 1 added and any other rank unchanged, with the same entries in every case |
| EmotionModel.SoftmaxGate | models/emotion_model.py:42-43 | for a rank-1 output, softmax is applied exactly when there are at least two scores |
| EmotionModel.NoSessionNoPrediction | models/emotion_model.py:31-32 | `predict` raises "ONNX session not initialized" if and only if there is no session |
| EmotionModel.OtherRanks | models/emotion_model.py:39-53 | a 0-d output cannot be iterated; a higher-rank output with no rows gives an empty list, one with rows but no entries fails in `_softmax`, and any other fails at `float(score)` |
| EmotionModel.EmptySoftmaxShapes | models/emotion_model.py:42-59 | `_softmax` fails on an empty array exactly for a squeezed output of rank at least 2 with two or more rows and no entries |
| EmotionModel.RankedRecords | models/emotion_model.py:45-54 | for a rank-1 output: success, one record per entry of the output, each score's labelled record present, the result a permutation of the records and their stable ranking |
| EmotionModel.LabelRule | models/emotion_model.py:47 | `labels[i]` when there is a label for index i, otherwise "Class_" followed by i in decimal; fallback labels of distinct indices differ |
| EmotionModel.ShapeJson | models/emotion_model.py:63 | a stored input shape is reported as an array with one element per dimension |
| EmotionModel.LabelsJson | models/emotion_model.py:64 | stored labels are reported as an array with one element per label |
| EmotionModel.GetModelInfo | models/emotion_model.py:61-65 | the info holds exactly the keys input_shape and labels |
| EmotionModel.ModelInfoRoundTrip | models/emotion_model.py:61-65 | the two values read back as the stored input shape and labels, unchanged |
| Server.InputSize | main.py:42 | `input_shape[-2:]` is the last two dimensions, or the whole shape when it is shorter, and is a suffix of it |
| Server.HealthCheck | main.py:65-70 | always 200 with status "healthy"; model_loaded is `true` when a model is loaded and `false` otherwise |
| Server.ModelInfo | main.py:72-81 | without a model, only `{"model_loaded": false}`; otherwise model_loaded true together with input_shape and labels |
| Server.AnswerCarriesPrediction | main.py:45-46 | the response is 200 exactly when prediction succeeded, its results are the prediction unchanged, and any failure is the plain 500 |
| Server.DetectEmotionOutcomes | main.py:31-46 | 500 "Model not loaded" exactly when there is no model, checked before the content type; a 400, always "File must be an image", exactly for a declared type outside image/; with a model, every 500 is the plain internal error; 200 exactly when prediction succeeds, the whole response being `{"success": true, "results": ...}` with its results; no other status |
| Server.DetectEmotionBase64Outcomes | main.py:48-63 | the model check comes first; a 400, always "No image provided", exactly for a missing key; with a model, every 500 is the plain internal error; a string without a comma is a 500; 200 exactly when decoding and prediction succeed, the whole response being `{"success": true, "results": ...}` with the results |
| Server.DataUrlPayloadDecoded | main.py:56-62 | for a data URL `header,payload`, the bytes predicted on are the base64 decoding of the payload |
| Server.ModelInfoReportsModel | main.py:72-81 | /model-info reports the stored shape and labels unchanged, and agrees with /health on model_loaded |
| Client.Capitalized | static/script.js:301 | the first character is upper-cased (ASCII) and the rest are unchanged |
| Client.DisplayedRanking | static/script.js:290-325 | a non-empty list is rendered as one bar per entry; the bars are a stable, non-increasing permutation of the list; the primary name, confidence and icon come from the first bar, whose confidence is maximal |
| Client.ServerOrderKept | static/script.js:290 | a list the server already ranked is rendered in the server's order |
| Client.NothingDisplayed | static/script.js:284-287 | an absent or empty list shows exactly "No emotions detected in the image." and renders no bars |
| Client.ExampleReplies | static/script.js:181-210 | a captured frame answered with happy 0.82 then sad 0.10 shows "Happy" with both bars in that order |
| Client.ExampleUploadRefused | static/script.js:254-281 | an upload refused with the detail "no face detected" shows exactly that text in the banner, with the results hidden |
| Client.AnalysisSettles | static/script.js:181-210 | after any completed analysis the spinner is hidden, and exactly one of the error banner and the results panel is shown |
| Client.CapturedSnapshotHidden | static/script.js:163-185 | a capture stores the frame as the snapshot source, but the snapshot ends up hidden |
| Client.FileRule | static/script.js:239-252 | a non-image type shows "Please select an image file." and leaves the upload tab unchanged; an image becomes the preview and hides the drop area |
| Client.KeyRules | static/script.js:83-89 | Escape always closes the modal; Space captures exactly when capturing; other keys change nothing |
| Client.TabSwitchKeepsBanner | static/script.js:92-110 | a tab switch hides results and snapshot, keeps the banner and spinner, and keeps the stream when switching to the camera tab |
| Client.StartWindow | static/script.js:125-139 | after a grant the stream is held, but capturing has not begun and start stays enabled until the metadata callback |
| Client.CameraTransitionsConsistent | static/script.js:92-161 | stop, tab switch, camera request and metadata callback keep the controls consistent with the capturing flag and the stream |
| Client.CameraUntouched | static/script.js:163-252 | capture, file processing and key presses leave the camera state as it was |
| Client.MoodDetectionApp.constructor | static/script.js:2-15 | no stream, not capturing, the page otherwise as loaded, then the outcome of the start-up model-status check |
| Client.MoodDetectionApp.ShowModal | static/script.js:389-391 | the modal becomes visible; nothing else changes |
| Client.MoodDetectionApp.CloseModal | static/script.js:393-395 | the modal becomes hidden; nothing else changes |
| Client.MoodDetectionApp.ShowLoading | static/script.js:397-401 | spinner shown; error, results and snapshot hidden |
| Client.MoodDetectionApp.HideLoading | static/script.js:403-405 | spinner hidden; nothing else changes |
| Client.MoodDetectionApp.ShowError | static/script.js:407-412 | the banner shows exactly the message; spinner, results and snapshot hidden |
| Client.MoodDetectionApp.HideError | static/script.js:414-416 | banner hidden; nothing else changes |
| Client.MoodDetectionApp.HideResults | static/script.js:418-423 | results and snapshot hidden; nothing else changes |
| Client.MoodDetectionApp.StopCamera | static/script.js:148-161 | whatever the state: no stream, no video source, not capturing, start enabled, capture and stop disabled; the held stream's tracks are stopped |
| Client.MoodDetectionApp.SwitchTab | static/script.js:92-110 | the tab is selected and results and snapshot hidden; leaving the camera tab with a stream stops it, and exactly that stream leaves the set of running streams, even when an earlier one is still running; the camera tab keeps the stream and every running stream |
| Client.MoodDetectionApp.StartCamera | static/script.js:112-146 | spinner shown; on a grant the stream is held and shown, without stopping one held before; on refusal the camera-permission error and no change to the camera |
| Client.MoodDetectionApp.OnVideoMetadata | static/script.js:128-139 | capturing begins, start disabled, capture and stop enabled, spinner and banner hidden |
| Client.MoodDetectionApp.DisplayResults | static/script.js:283-327 | the array is sorted in place into `SortByConfidence` of its contents and the page shows `ResultsDisplayed` of it |
| Client.MoodDetectionApp.FinishAnalysis | static/script.js:184-209 | spinner and banner reset; a thrown error shows its message, a non-ok reply its detail or "Failed to analyze image", an ok reply is displayed; the spinner is hidden at the end |
| Client.MoodDetectionApp.AnalyzeCapturedImage | static/script.js:181-210 | sends the snapshot as a data URL and ends as `AnalysisFinished` |
| Client.MoodDetectionApp.AnalyzeUploadedImage | static/script.js:254-281 | sends the file input's first file (absent if none) and ends as `AnalysisFinished` |
| Client.MoodDetectionApp.CaptureImage | static/script.js:163-179 | nothing happens and nothing is sent unless capturing; otherwise the frame is shown and sent for analysis |
| Client.MoodDetectionApp.ProcessFile | static/script.js:239-252 | the MIME-prefix check of `FileProcessed` |
| Client.MoodDetectionApp.HandleDragOver | static/script.js:212-215 | the drop area is highlighted |
| Client.MoodDetectionApp.HandleDragLeave | static/script.js:217-220 | the highlight is removed |
| Client.MoodDetectionApp.HandleDrop | static/script.js:222-230 | highlight removed, and the first dropped file, if any, processed; the file input is untouched |
| Client.MoodDetectionApp.HandleFileSelect | static/script.js:232-237 | the input's selection is replaced and its first file, if any, processed |
| Client.MoodDetectionApp.OnKeyDown | static/script.js:83-89 | the default action is prevented exactly for Space while capturing, and the frame is sent exactly then |
| Client.MoodDetectionApp.OnModalClick | static/script.js:74-76 | a click closes the modal only on the backdrop |
| Client.MoodDetectionApp.ShowModelInfo | static/script.js:329-350 | a failed fetch or parse shows "Failed to fetch model information."; an unreadable body retitles the modal "Model Information", then shows that error; otherwise the modal opens with that title |
| Client.MoodDetectionApp.ShowHealthCheck | static/script.js:352-373 | a failed fetch or parse shows "Failed to perform health check."; an unreadable body retitles the modal "Health Check", then shows that error; otherwise the modal opens with that title |
| Client.InfoRule | static/script.js:329-373 | the modal opens exactly for a readable body; every parsed body sets the title; any other reply shows the error with the spinner and results hidden and the modal's visibility kept; the camera is never touched |
| Client.MoodDetectionApp.CheckModelStatus | static/script.js:375-387 | the model-missing warning appears exactly when the server answers that no model is loaded; a failed or unreadable check changes nothing |

The central definitions have no row of their own. They are
`Ranking.SortByConfidence`, `EmotionModel.Predicted`, `Server.DetectEmotion`,
`Server.DetectEmotionBase64` and the `Client` transition functions such as
`TabSwitched` and `AnalysisFinished`. Each lemma or method row also covers
the definitions its contract names: those definitions are what it is
stated about.

## Left out

- Browser APIs are outcomes passed in as parameters:
  - getUserMedia (a `MediaOutcome`);
  - the canvas snapshot and `toDataURL` (the `frame` string);
  - FileReader (the file's data URL arrives with the file);
  - `fetch` and `response.json()` (an `AnalysisReply` or `InfoReply`).

  Video playback and the service-worker registration are not modelled.
- Asynchrony: each request is modelled as completed when its method returns. Races between overlapping requests (the last response wins) are not modelled.
- The constructor takes the page as loaded and requires its camera buttons in the idle state of the markup. The markup (static/index.html) is not part of this model.
- The modal bodies, emoji, timestamps and the CSS `confidence * 100` widths are rendering only and are not modelled. The client reads `emotions` and `message`, which the server never sends; this also affects only the rendering.
- A `detail` that is not a string (such as FastAPI's 422 validation list) is not modelled. Neither is a `results` value that is not a list of records, which makes `displayResults` throw.
- Client.Capitalized: models `toUpperCase` for ASCII letters only; other characters are left as they are.
- onnxruntime session creation, the model-file check, `input_name`, `astype(np.float32)` and inference itself are not modelled. Inference is the session's `run` function.
- Softmax and the `"%.2f%%"` percentage text are float numerics. They are the abstract functions of `FloatOps`, and scores are `real`. Of softmax only its shape is kept: one output per input.
- utils/image_processing.py is not part of this model. Preprocessing is an abstract function that may fail.
- The following parts of main.py are not modelled: the FastAPI wiring, CORS, the static mount, the redirect from `/`, and uvicorn. PIL image decoding and `base64.b64decode` are abstract functions that may fail.
- The framework's request validation (a 422 before a handler runs, for a missing file or a body that is not a JSON object) is not modelled.
- A missing content type on the upload part is modelled as the `AttributeError` path (a plain 500).
