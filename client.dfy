/** `MoodDetectionApp` of static/script.js: the browser controller of the
    page. Its state is the camera stream, the capturing flag and the parts of
    the page it writes (button `disabled` flags, `style.display` of the
    panels, texts and image sources, the rendered emotion bars). Browser and
    network outcomes (camera permission, the fetch replies, FileReader's data
    URL, the canvas snapshot) are parameters of the methods, and each
    asynchronous request is modelled as completed when its method returns.

    Each method is specified by a function on Ui, the value of all of the
    controller's fields: `View() == F(old(View()), ...)`. */
module Client {
  import opened Wrappers
  import opened Ranking
  import Text

  type StreamId = nat

  /** What `navigator.mediaDevices.getUserMedia` yields. */
  datatype MediaOutcome = Granted(stream: StreamId) | Refused

  /** What an analysis request ends with: `fetch` or `response.json()` threw
      an error with this message, or a JSON body arrived, with `response.ok`,
      the body's `detail` when it is a string, and its `results` when present. */
  datatype AnalysisReply =
    | Threw(message: string)
    | Replied(ok: bool, detail: Option<string>, results: Option<seq<Emotion>>)

  /** What GET /health or /model-info ends with: `fetch` or `response.json()`
      threw; a JSON body on which reading the fields throws (a `null` body, or
      for /model-info a truthy `emotions` that is not an array); or a JSON body
      whose `model_loaded` is truthy or not. */
  datatype InfoReply = InfoFailed | InfoUnreadable | InfoReplied(modelLoaded: bool)

  /** A file from the picker or a drop: its MIME type, and the data URL that
      FileReader produces for it. */
  datatype PickedFile = PickedFile(mimeType: string, dataUrl: string)

  /** The body of an analysis request: the snapshot as a data URL for
      /detect-emotion-base64, or the file input's first file (if any) for
      /detect-emotion. */
  datatype Request = DataUrlRequest(image: string) | FileRequest(file: Option<PickedFile>)

  const CameraError := "Unable to access camera. Please check permissions."
  const NoEmotionsError := "No emotions detected in the image."
  const NotAnImageError := "Please select an image file."
  const AnalysisFallback := "Failed to analyze image"
  const ModelInfoError := "Failed to fetch model information."
  const HealthCheckError := "Failed to perform health check."
  const ModelMissingWarning := "Emotion detection model is not loaded. Please ensure the ONNX model file is available."

  /** The camera controls on the page: the video element's `srcObject` and
      the `disabled` flags of the start, capture and stop buttons. */
  datatype Controls = Controls(videoSource: Option<StreamId>, startDisabled: bool,
                               captureDisabled: bool, stopDisabled: bool)

  /** The spinner and the error banner. */
  datatype Status = Status(loadingShown: bool, errorShown: bool, errorText: string)

  /** The results panel: its visibility, the captured snapshot, the primary
      emotion's icon class, name and confidence texts, and the bars. */
  datatype Panel = Panel(shown: bool, capturedShown: bool, capturedSource: string,
                         primaryIcon: string, primaryName: string, primaryConfidence: string,
                         bars: seq<Emotion>)

  /** The upload tab: the file input's first file, the preview, and the
      visibility and drag-over highlight of the drop area. */
  datatype Upload = Upload(chosenFile: Option<PickedFile>, previewSource: string,
                           uploadedShown: bool, areaShown: bool, dragOver: bool)

  datatype Modal = Modal(shown: bool, title: string)

  /** Every field the controller reads or writes: its own `stream` and
      `isCapturing`, and the page elements it drives. */
  datatype Ui = Ui(activeTab: string, stream: Option<StreamId>, isCapturing: bool,
                   controls: Controls, status: Status, panel: Panel, upload: Upload, modal: Modal)

  /** The camera controls agree with the capturing flag, the video shows the
      held stream, and capturing implies a stream. */
  predicate CameraConsistent(u: Ui) {
    && u.controls.videoSource == u.stream
    && u.controls.startDisabled == u.isCapturing
    && u.controls.captureDisabled == !u.isCapturing
    && u.controls.stopDisabled == !u.isCapturing
    && (u.isCapturing ==> u.stream.Some?)
  }

  // ---- The transitions, as functions on Ui ----

  function ModalOpened(u: Ui): Ui { u.(modal := u.modal.(shown := true)) }

  function ModalClosed(u: Ui): Ui { u.(modal := u.modal.(shown := false)) }

  function LoadingHidden(u: Ui): Ui { u.(status := u.status.(loadingShown := false)) }

  function ErrorHidden(u: Ui): Ui { u.(status := u.status.(errorShown := false)) }

  /** `hideResults` hides the results panel and the captured snapshot. */
  function ResultsHidden(u: Ui): Ui { u.(panel := u.panel.(shown := false, capturedShown := false)) }

  /** `showLoading` shows the spinner and hides the error and the results. */
  function LoadingShown(u: Ui): Ui {
    ResultsHidden(u.(status := u.status.(loadingShown := true, errorShown := false)))
  }

  /** `showError` sets the text, shows the banner, hides spinner and results. */
  function ErrorShown(u: Ui, message: string): Ui {
    ResultsHidden(u.(status := Status(false, true, message)))
  }

  const IdleControls := Controls(None, false, true, true)

  /** `stopCamera`: whatever the state, no stream, no video source, not
      capturing, start enabled, capture and stop disabled. */
  function CameraStopped(u: Ui): Ui {
    u.(stream := None, isCapturing := false, controls := IdleControls)
  }

  function TabSwitched(u: Ui, tab: string): Ui {
    var v := u.(activeTab := tab);
    ResultsHidden(if tab != "camera" && v.stream.Some? then CameraStopped(v) else v)
  }

  /** `startCamera` up to the point where it waits for the video metadata. */
  function CameraRequested(u: Ui, outcome: MediaOutcome): Ui {
    var v := LoadingShown(u);
    match outcome
    case Granted(s) => v.(stream := Some(s), controls := v.controls.(videoSource := Some(s)))
    case Refused => LoadingHidden(ErrorShown(v, CameraError))
  }

  /** The `onloadedmetadata` callback of `startCamera`. */
  function MetadataLoaded(u: Ui): Ui {
    var c := u.controls.(startDisabled := true, captureDisabled := false, stopDisabled := false);
    ErrorHidden(LoadingHidden(u.(isCapturing := true, controls := c)))
  }

  function UpperCase(c: char): char {
    if 'a' <= c <= 'z' then (c as int - 32) as char else c
  }

  /** `label.charAt(0).toUpperCase() + label.slice(1)`. */
  function Capitalized(s: string): (r: string)
    ensures |r| == |s| && (s != [] ==> r[0] == UpperCase(s[0]) && r[1..] == s[1..])
  {
    if s == [] then [] else [UpperCase(s[0])] + s[1..]
  }

  /** The results panel showing a non-empty ranking. */
  function Rendered(p: Panel, ranked: seq<Emotion>): Panel
    requires ranked != []
  {
    p.(shown := true, primaryIcon := "emotion-icon emotion-" + ranked[0].name,
       primaryName := Capitalized(ranked[0].name), primaryConfidence := ranked[0].percentage,
       bars := ranked)
  }

  /** `displayResults`: an absent or empty list is an error; otherwise the
      ranking is rendered as the primary emotion and one bar per entry. */
  function ResultsDisplayed(u: Ui, results: Option<seq<Emotion>>): Ui {
    if results.None? || results.value == [] then ErrorShown(u, NoEmotionsError)
    else ErrorHidden(u.(panel := Rendered(u.panel, SortByConfidence(results.value))))
  }

  /** `data.detail || 'Failed to analyze image'`. */
  function FailureText(detail: Option<string>): string {
    if detail.Some? && detail.value != "" then detail.value else AnalysisFallback
  }

  /** `analyzeCapturedImage` / `analyzeUploadedImage` once the request has
      completed. */
  function AnalysisFinished(u: Ui, reply: AnalysisReply): Ui {
    var pending := ErrorHidden(LoadingShown(u));
    var shown :=
      match reply
      case Threw(message) => ErrorShown(pending, message)
      case Replied(ok, detail, results) =>
        if !ok then ErrorShown(pending, FailureText(detail)) else ResultsDisplayed(pending, results);
    LoadingHidden(shown)
  }

  /** `captureImage`: nothing unless capturing; otherwise the snapshot is
      shown and analysed. */
  function Captured(u: Ui, frame: string, reply: AnalysisReply): Ui {
    if !u.isCapturing then u
    else AnalysisFinished(u.(panel := u.panel.(capturedSource := frame, capturedShown := true)), reply)
  }

  /** `processFile`, with FileReader's load completed. */
  function FileProcessed(u: Ui, file: PickedFile): Ui {
    if !Text.StartsWith(file.mimeType, "image/") then ErrorShown(u, NotAnImageError)
    else u.(upload := u.upload.(previewSource := file.dataUrl, uploadedShown := true, areaShown := false))
  }

  function DragMarked(u: Ui, over: bool): Ui { u.(upload := u.upload.(dragOver := over)) }

  function Dropped(u: Ui, files: seq<PickedFile>): Ui {
    var v := DragMarked(u, false);
    if |files| > 0 then FileProcessed(v, files[0]) else v
  }

  /** The file input's `change` event: the browser has replaced the input's
      selection; the handler processes its first file if there is one. */
  function FileSelected(u: Ui, file: Option<PickedFile>): Ui {
    var v := u.(upload := u.upload.(chosenFile := file));
    if file.Some? then FileProcessed(v, file.value) else v
  }

  /** The document's keydown handler. */
  function KeyPressed(u: Ui, key: string, frame: string, reply: AnalysisReply): Ui {
    var v := if key == "Escape" then ModalClosed(u) else u;
    if key == " " && v.isCapturing then Captured(v, frame, reply) else v
  }

  /** `showModelInfo` and `showHealthCheck`: the title is written once the
      body is parsed, before the template reads its fields; the modal opens
      only when that reading succeeds. */
  function InfoShown(u: Ui, reply: InfoReply, title: string, failure: string): Ui {
    match reply
    case InfoFailed => ErrorShown(u, failure)
    case InfoUnreadable => ErrorShown(u.(modal := u.modal.(title := title)), failure)
    case InfoReplied(_) => u.(modal := Modal(true, title))
  }

  /** `checkModelStatus`: a warning only when the server answers that the
      model is not loaded; a failed or unreadable check changes nothing. */
  function ModelStatusChecked(u: Ui, reply: InfoReply): Ui {
    if reply.InfoReplied? && !reply.modelLoaded then ErrorShown(u, ModelMissingWarning) else u
  }

  // ---- Properties of the transitions ----

  /** A non-empty result list is rendered as its stable ranking: one bar per
      entry, ordered by non-increasing confidence, a permutation of the list,
      and the primary display shows the first bar, whose confidence is the
      largest in the list. */
  lemma DisplayedRanking(u: Ui, results: seq<Emotion>)
    requires results != []
    ensures var p := ResultsDisplayed(u, Some(results)).panel;
      && p.shown && !ResultsDisplayed(u, Some(results)).status.errorShown
      && |p.bars| == |results|
      && multiset(p.bars) == multiset(results)
      && IsStableRanking(p.bars, results)
      && p.bars[0] in results
      && (forall i :: 0 <= i < |results| ==> p.bars[0].confidence >= results[i].confidence)
      && p.primaryName == Capitalized(p.bars[0].name)
      && p.primaryConfidence == p.bars[0].percentage
      && p.primaryIcon == "emotion-icon emotion-" + p.bars[0].name
  {
    var ranked := SortByConfidence(results);
    SortIsPermutation(results);
    SortCharacterization(results, ranked);
    HeadIsMaximal(results);
  }

  /** A list the server has already ranked is rendered in the server's
      order: the client's own sort moves nothing. */
  lemma ServerOrderKept(u: Ui, results: seq<Emotion>)
    requires results != []
    ensures ResultsDisplayed(u, Some(SortByConfidence(results))).panel.bars == SortByConfidence(results)
  {
    SortFixesRanked(results);
  }

  /** An absent or empty list shows exactly "No emotions detected in the
      image." and renders no bars. */
  lemma NothingDisplayed(u: Ui, results: Option<seq<Emotion>>)
    requires results.None? || results.value == []
    ensures var v := ResultsDisplayed(u, results);
      v.status.errorShown && v.status.errorText == NoEmotionsError && !v.panel.shown && v.panel.bars == u.panel.bars
  {
  }

  /** An upload the server refuses: the reply's detail becomes the banner text. */
  lemma ExampleUploadRefused(u: Ui)
    ensures var v := AnalysisFinished(u, Replied(false, Some("no face detected"), None));
      v.status.errorShown && v.status.errorText == "no face detected" && !v.panel.shown
  {
  }

  /** A captured frame the server ranks as happy 0.82 then sad 0.10 is rendered
      as "Happy" with the two bars in that order. */
  lemma ExampleReplies(u: Ui)
    ensures var happy := Emotion("happy", 0.82, "82%");
      var sad := Emotion("sad", 0.10, "10%");
      var v := AnalysisFinished(u, Replied(true, None, Some([happy, sad])));
      v.panel.primaryName == "Happy" && v.panel.bars == [happy, sad] && v.panel.shown && !v.status.loadingShown
  {
    var happy := Emotion("happy", 0.82, "82%");
    var sad := Emotion("sad", 0.10, "10%");
    assert [happy, sad][..1] == [happy];
    assert [happy][..0] == [];
    assert SortByConfidence([happy]) == [happy];
    assert Slot([happy], sad) == 1;
    assert SortByConfidence([happy, sad]) == [happy, sad];
    assert Capitalized("happy") == "Happy";
  }

  /** The info panels: the modal opens only for a readable body; every parsed
      body retitles it, open or not; any other reply shows the panel's error
      and leaves the modal's visibility as it was. */
  lemma InfoRule(u: Ui, reply: InfoReply, title: string, failure: string)
    ensures var v := InfoShown(u, reply, title, failure);
      && (v.modal.shown <==> reply.InfoReplied? || u.modal.shown)
      && (v.modal.title == if reply.InfoFailed? then u.modal.title else title)
      && (reply.InfoReplied? ==> v.status == u.status && v.panel == u.panel)
      && (!reply.InfoReplied? ==> v.status == Status(false, true, failure) && !v.panel.shown)
      && v.stream == u.stream && v.isCapturing == u.isCapturing && v.controls == u.controls
  {
  }

  /** Every completed analysis hides the spinner, and leaves either the error
      banner or the results panel shown, never both. */
  lemma AnalysisSettles(u: Ui, reply: AnalysisReply)
    ensures var v := AnalysisFinished(u, reply);
      !v.status.loadingShown && (v.status.errorShown <==> !v.panel.shown)
  {
  }

  /** As written, the captured snapshot does not stay visible: the analysis
      that `captureImage` starts calls `showLoading`, whose `hideResults`
      hides it again, and nothing shows it afterwards. */
  lemma CapturedSnapshotHidden(u: Ui, frame: string, reply: AnalysisReply)
    requires u.isCapturing
    ensures var v := Captured(u, frame, reply);
      v.panel.capturedSource == frame && !v.panel.capturedShown
  {
  }

  /** A file whose type does not start with "image/" is refused with "Please
      select an image file." and the upload tab is left as it was; an image
      file's data URL becomes the preview, which replaces the drop area. */
  lemma FileRule(u: Ui, file: PickedFile)
    ensures var v := FileProcessed(u, file);
      if Text.StartsWith(file.mimeType, "image/") then
        && v.upload == u.upload.(previewSource := file.dataUrl, uploadedShown := true, areaShown := false)
        && v.status == u.status
      else
        && v.upload == u.upload
        && v.status.errorShown && v.status.errorText == NotAnImageError
  {
  }

  /** Keys: Escape always closes the modal; Space captures exactly when the
      camera is capturing; any other key changes nothing. */
  lemma KeyRules(u: Ui, key: string, frame: string, reply: AnalysisReply)
    ensures key == "Escape" ==> KeyPressed(u, key, frame, reply) == ModalClosed(u)
    ensures key == " " ==> KeyPressed(u, key, frame, reply) == Captured(u, frame, reply)
    ensures key == " " && !u.isCapturing ==> KeyPressed(u, key, frame, reply) == u
    ensures key != "Escape" && key != " " ==> KeyPressed(u, key, frame, reply) == u
  {
  }

  /** The transitions that touch the camera state keep it consistent. */
  lemma CameraTransitionsConsistent(u: Ui, tab: string, outcome: MediaOutcome)
    requires CameraConsistent(u)
    ensures CameraConsistent(CameraStopped(u))
    ensures CameraConsistent(TabSwitched(u, tab))
    ensures CameraConsistent(CameraRequested(u, outcome))
    ensures u.stream.Some? ==> CameraConsistent(MetadataLoaded(u))
  {
  }

  /** A tab switch hides the results and the snapshot but leaves the error
      banner and the spinner as they were. */
  lemma TabSwitchKeepsBanner(u: Ui, tab: string)
    ensures var v := TabSwitched(u, tab);
      !v.panel.shown && !v.panel.capturedShown && v.status == u.status && v.activeTab == tab
    ensures tab == "camera" ==> TabSwitched(u, tab).stream == u.stream
  {
  }

  /** Between the grant of a stream and its metadata callback, the start
      button is still enabled and capturing has not begun; only the callback
      disables it. */
  lemma StartWindow(u: Ui, s: StreamId)
    requires CameraConsistent(u) && !u.isCapturing
    ensures var v := CameraRequested(u, Granted(s));
      && v.stream == Some(s) && !v.isCapturing && !v.controls.startDisabled
      && MetadataLoaded(v).isCapturing && MetadataLoaded(v).controls.startDisabled
  {
  }

  /** A capture, a file and a key press leave the camera state as it was. */
  lemma CameraUntouched(u: Ui, frame: string, reply: AnalysisReply, file: PickedFile, key: string)
    ensures var v := Captured(u, frame, reply);
      v.stream == u.stream && v.isCapturing == u.isCapturing && v.controls == u.controls
    ensures var v := FileProcessed(u, file);
      v.stream == u.stream && v.isCapturing == u.isCapturing && v.controls == u.controls
    ensures var v := KeyPressed(u, key, frame, reply);
      v.stream == u.stream && v.isCapturing == u.isCapturing && v.controls == u.controls
  {
  }

  // ---- The controller ----

  class MoodDetectionApp {
    var activeTab: string                // which tab button and panel carry 'active'
    var stream: Option<StreamId>
    var isCapturing: bool
    var controls: Controls
    var status: Status
    var panel: Panel
    var upload: Upload
    var modal: Modal

    /** The streams whose tracks are running. */
    ghost var liveStreams: set<StreamId>

    function View(): Ui
      reads this
    {
      Ui(activeTab, stream, isCapturing, controls, status, panel, upload, modal)
    }

    ghost predicate Valid()
      reads this
    {
      CameraConsistent(View())
    }

    /** Only the held stream, if any, is running. */
    ghost predicate OwnsOnlyCurrent()
      reads this
    {
      liveStreams <= if stream.Some? then {stream.value} else {}
    }

    /** The controller over the page as loaded (camera controls in their
        idle state), after the start-up `checkModelStatus` has completed
        with `health`. */
    constructor (page: Ui, health: InfoReply)
      requires page.controls == IdleControls
      ensures Valid() && OwnsOnlyCurrent()
      ensures View() == ModelStatusChecked(page.(stream := None, isCapturing := false), health)
      ensures liveStreams == {}
    {
      activeTab, stream, isCapturing, controls := page.activeTab, None, false, page.controls;
      status, panel, upload, modal := page.status, page.panel, page.upload, page.modal;
      liveStreams := {};
      new;
      CheckModelStatus(health);
    }

    method ShowModal()
      requires Valid()
      modifies this
      ensures Valid() && View() == ModalOpened(old(View())) && liveStreams == old(liveStreams)
    {
      modal := modal.(shown := true);
    }

    method CloseModal()
      requires Valid()
      modifies this
      ensures Valid() && View() == ModalClosed(old(View())) && liveStreams == old(liveStreams)
    {
      modal := modal.(shown := false);
    }

    method HideLoading()
      requires Valid()
      modifies this
      ensures Valid() && View() == LoadingHidden(old(View())) && liveStreams == old(liveStreams)
    {
      status := status.(loadingShown := false);
    }

    method HideError()
      requires Valid()
      modifies this
      ensures Valid() && View() == ErrorHidden(old(View())) && liveStreams == old(liveStreams)
    {
      status := status.(errorShown := false);
    }

    method HideResults()
      requires Valid()
      modifies this
      ensures Valid() && View() == ResultsHidden(old(View())) && liveStreams == old(liveStreams)
    {
      panel := panel.(shown := false, capturedShown := false);
    }

    method ShowLoading()
      requires Valid()
      modifies this
      ensures Valid() && View() == LoadingShown(old(View())) && liveStreams == old(liveStreams)
    {
      status := status.(loadingShown := true);
      HideError();
      HideResults();
    }

    method ShowError(message: string)
      requires Valid()
      modifies this
      ensures Valid() && View() == ErrorShown(old(View()), message) && liveStreams == old(liveStreams)
    {
      status := status.(errorText := message, errorShown := true);
      HideLoading();
      HideResults();
    }

    /** Stops the held stream's tracks, if any, and returns the camera to idle. */
    method StopCamera()
      requires Valid()
      modifies this
      ensures Valid() && View() == CameraStopped(old(View()))
      ensures liveStreams == old(liveStreams) - (if old(stream).Some? then {old(stream).value} else {})
      ensures old(OwnsOnlyCurrent()) ==> liveStreams == {}
    {
      if stream.Some? {
        liveStreams := liveStreams - {stream.value};
        stream := None;
      }
      controls := controls.(videoSource := None);
      isCapturing := false;
      controls := controls.(startDisabled := false, captureDisabled := true, stopDisabled := true);
    }

    method SwitchTab(tabName: string)
      requires Valid()
      modifies this
      ensures Valid() && View() == TabSwitched(old(View()), tabName)
      ensures liveStreams == old(liveStreams) - (if tabName != "camera" && old(stream).Some? then {old(stream).value} else {})
      ensures tabName == "camera" ==> liveStreams == old(liveStreams)
      ensures tabName != "camera" && old(OwnsOnlyCurrent()) ==> liveStreams == {}
    {
      activeTab := tabName;
      if tabName != "camera" && stream.Some? {
        StopCamera();
      }
      HideResults();
    }

    /** `startCamera` until it waits for the video's metadata: on success the
        stream is held and shown, without stopping one held before; on
        refusal an error is shown and the camera state is kept. */
    method StartCamera(outcome: MediaOutcome)
      requires Valid()
      modifies this
      ensures Valid() && View() == CameraRequested(old(View()), outcome)
      ensures outcome.Granted? ==> liveStreams == old(liveStreams) + {outcome.stream}
      ensures outcome.Refused? ==> liveStreams == old(liveStreams)
      ensures old(stream).None? && old(OwnsOnlyCurrent()) ==> OwnsOnlyCurrent()
    {
      ShowLoading();
      match outcome
      case Granted(s) =>
        stream := Some(s);
        liveStreams := liveStreams + {s};
        controls := controls.(videoSource := stream);
      case Refused =>
        ShowError(CameraError);
        HideLoading();
    }

    /** The `onloadedmetadata` callback: it fires only once the video has a
        source. */
    method OnVideoMetadata()
      requires Valid() && controls.videoSource.Some?
      modifies this
      ensures Valid() && View() == MetadataLoaded(old(View())) && liveStreams == old(liveStreams)
    {
      isCapturing := true;
      controls := controls.(startDisabled := true, captureDisabled := false, stopDisabled := false);
      HideLoading();
      HideError();
    }

    /** `displayResults`: sorts the list in place, then renders it. */
    method DisplayResults(results: array?<Emotion>)
      requires Valid()
      modifies this, results
      ensures Valid() && liveStreams == old(liveStreams)
      ensures View() == ResultsDisplayed(old(View()), if results == null then None else Some(old(results[..])))
      ensures results != null ==> results[..] == SortByConfidence(old(results[..]))
    {
      if results == null || results.Length == 0 {
        ShowError(NoEmotionsError);
        return;
      }
      SortInPlace(results);
      var primary := results[0];
      panel := panel.(primaryIcon := "emotion-icon emotion-" + primary.name,
                      primaryName := Capitalized(primary.name),
                      primaryConfidence := primary.percentage);
      var rendered := [];
      for i := 0 to results.Length
        invariant rendered == results[..i]
      {
        rendered := rendered + [results[i]];
      }
      assert rendered == results[..];
      panel := panel.(bars := rendered);
      panel := panel.(shown := true);
      HideError();
    }

    /** The completion of either analysis request. */
    method FinishAnalysis(reply: AnalysisReply)
      requires Valid()
      modifies this
      ensures Valid() && View() == AnalysisFinished(old(View()), reply) && liveStreams == old(liveStreams)
    {
      ShowLoading();
      HideError();
      match reply
      case Threw(message) =>
        ShowError(message);
      case Replied(ok, detail, results) =>
        if !ok {
          ShowError(FailureText(detail));
        } else if results.None? {
          DisplayResults(null);
        } else {
          var list := new Emotion[|results.value|](i requires 0 <= i < |results.value| => results.value[i]);
          assert list[..] == results.value;
          DisplayResults(list);
        }
      HideLoading();
    }

    method AnalyzeCapturedImage(imageDataUrl: string, reply: AnalysisReply) returns (sent: Request)
      requires Valid()
      modifies this
      ensures Valid() && View() == AnalysisFinished(old(View()), reply) && liveStreams == old(liveStreams)
      ensures sent == DataUrlRequest(imageDataUrl)
    {
      sent := DataUrlRequest(imageDataUrl);
      FinishAnalysis(reply);
    }

    /** Uploads what the file input holds, which a drop does not change. */
    method AnalyzeUploadedImage(reply: AnalysisReply) returns (sent: Request)
      requires Valid()
      modifies this
      ensures Valid() && View() == AnalysisFinished(old(View()), reply) && liveStreams == old(liveStreams)
      ensures sent == FileRequest(old(upload.chosenFile))
    {
      sent := FileRequest(upload.chosenFile);
      FinishAnalysis(reply);
    }

    /** `captureImage` with the canvas snapshot `frame`: ignored unless
        capturing. */
    method CaptureImage(frame: string, reply: AnalysisReply) returns (sent: Option<Request>)
      requires Valid()
      modifies this
      ensures Valid() && View() == Captured(old(View()), frame, reply) && liveStreams == old(liveStreams)
      ensures sent == if old(isCapturing) then Some(DataUrlRequest(frame)) else None
    {
      if !isCapturing {
        return None;
      }
      panel := panel.(capturedSource := frame, capturedShown := true);
      var request := AnalyzeCapturedImage(frame, reply);
      sent := Some(request);
    }

    method ProcessFile(file: PickedFile)
      requires Valid()
      modifies this
      ensures Valid() && View() == FileProcessed(old(View()), file) && liveStreams == old(liveStreams)
    {
      if !Text.StartsWith(file.mimeType, "image/") {
        ShowError(NotAnImageError);
        return;
      }
      upload := upload.(previewSource := file.dataUrl, uploadedShown := true, areaShown := false);
    }

    method HandleDragOver()
      requires Valid()
      modifies this
      ensures Valid() && View() == DragMarked(old(View()), true) && liveStreams == old(liveStreams)
    {
      upload := upload.(dragOver := true);
    }

    method HandleDragLeave()
      requires Valid()
      modifies this
      ensures Valid() && View() == DragMarked(old(View()), false) && liveStreams == old(liveStreams)
    {
      upload := upload.(dragOver := false);
    }

    method HandleDrop(files: seq<PickedFile>)
      requires Valid()
      modifies this
      ensures Valid() && View() == Dropped(old(View()), files) && liveStreams == old(liveStreams)
    {
      upload := upload.(dragOver := false);
      if |files| > 0 {
        ProcessFile(files[0]);
      }
    }

    method HandleFileSelect(file: Option<PickedFile>)
      requires Valid()
      modifies this
      ensures Valid() && View() == FileSelected(old(View()), file) && liveStreams == old(liveStreams)
    {
      upload := upload.(chosenFile := file);
      if file.Some? {
        ProcessFile(file.value);
      }
    }

    method OnKeyDown(key: string, frame: string, reply: AnalysisReply) returns (defaultPrevented: bool, sent: Option<Request>)
      requires Valid()
      modifies this
      ensures Valid() && View() == KeyPressed(old(View()), key, frame, reply) && liveStreams == old(liveStreams)
      ensures defaultPrevented <==> key == " " && old(isCapturing)
      ensures sent == if key == " " && old(isCapturing) then Some(DataUrlRequest(frame)) else None
    {
      defaultPrevented, sent := false, None;
      if key == "Escape" {
        CloseModal();
      }
      if key == " " && isCapturing {
        defaultPrevented := true;
        sent := CaptureImage(frame, reply);
      }
    }

    /** A click on the modal closes it only when it lands on the backdrop. */
    method OnModalClick(onBackdrop: bool)
      requires Valid()
      modifies this
      ensures Valid() && liveStreams == old(liveStreams)
      ensures View() == if onBackdrop then ModalClosed(old(View())) else old(View())
    {
      if onBackdrop {
        CloseModal();
      }
    }

    method ShowModelInfo(reply: InfoReply)
      requires Valid()
      modifies this
      ensures Valid() && liveStreams == old(liveStreams)
      ensures View() == InfoShown(old(View()), reply, "Model Information", ModelInfoError)
    {
      if reply.InfoFailed? {
        ShowError(ModelInfoError);
        return;
      }
      modal := modal.(title := "Model Information");
      if reply.InfoUnreadable? {
        ShowError(ModelInfoError);
        return;
      }
      ShowModal();
    }

    method ShowHealthCheck(reply: InfoReply)
      requires Valid()
      modifies this
      ensures Valid() && liveStreams == old(liveStreams)
      ensures View() == InfoShown(old(View()), reply, "Health Check", HealthCheckError)
    {
      if reply.InfoFailed? {
        ShowError(HealthCheckError);
        return;
      }
      modal := modal.(title := "Health Check");
      if reply.InfoUnreadable? {
        ShowError(HealthCheckError);
        return;
      }
      ShowModal();
    }

    method CheckModelStatus(reply: InfoReply)
      requires Valid()
      modifies this
      ensures Valid() && liveStreams == old(liveStreams)
      ensures View() == ModelStatusChecked(old(View()), reply)
    {
      if reply.InfoReplied? && !reply.modelLoaded {
        ShowError(ModelMissingWarning);
      }
    }
  }
}
