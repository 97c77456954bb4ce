/** The browser side of the upload workflow (assets/js/scripts.js): the
    validator the page runs on a chosen or dropped file, and the page
    state that the event handlers change: which panel is visible, the
    feedback HTML, the file input's selection, the spinner and loading
    text, the opacities of the loading-panel paragraphs, and, as
    observations, the alerts shown and the AJAX requests sent.

    Each handler is a method of `Session` whose new state is a pure
    transition function of the old one (`State()`), so that what the
    workflow promises can be proved about the transition functions. */
module UploadSession {
  import opened Common

  /** `MAX_FILE_SIZE`, 10 MiB. */
  const MaxFileSize: int := 10 * 1024 * 1024
  /** `MAX_WIDTH` and `MAX_HEIGHT`, in pixels. */
  const MaxWidth: nat := 8000
  const MaxHeight: nat := 8000

  const SizeError: string := "File size must be under 10MB. " + "Please compress your file or upload a smaller one."
  const TypeError: string := "Invalid file type. " + "Please upload only JPG, PNG, or PDF files."
  /** The template string of the dimension check with both limits filled in. */
  const ResolutionError: string := "Image resolution must be under " + "8000x8000 pixels."
  /** Prefix of every validation alert. */
  const AlertPrefix: string := "\U{26A0}\U{FE0F} Error: "
  /** Prefix of the alert for a failed analysis. */
  const AnalysisErrorPrefix: string := "\U{26A0}\U{FE0F} Analysis Error: "
  /** The text of the loading line under the spinner. */
  const LoadingMessage: string := "Analyzing your portfolio..."

  /** The Word wrapper of the download button. */
  const DownloadHeader: string :=
    "<html xmlns:w=\"urn:schemas-microsoft-com:office:word\">" + "<head><meta charset=\"UTF-8\"></head><body>"
  const DownloadFooter: string := "</body></html>"
  const DownloadName: string := "analysis-result.doc"
  const DownloadMime: string := "application/msword"

  /** The keys of `ALLOWED_TYPES`. Unlike the server, the browser also
      accepts `image/jpg`. */
  predicate ClientAllowed(mimeType: string)
  {
    mimeType == "image/jpeg" || mimeType == "image/jpg" || mimeType == "image/png" || mimeType == "application/pdf"
  }

  /** What the page knows of a `File`: its name, its size in bytes and the
      MIME type the browser gave it. */
  datatype FileInfo = FileInfo(name: string, size: nat, mimeType: string)

  /** The synchronous checks of `validateFile`, in source order. */
  function ClientChecks(file: FileInfo): seq<Check>
  {
    [Check(file.size <= MaxFileSize, SizeError), Check(ClientAllowed(file.mimeType), TypeError)]
  }

  /** The synchronous verdict of `validateFile`: None for a valid file,
      otherwise the error of the first failing check. */
  function Verdict(file: FileInfo): (r: Option<string>)
    ensures r.None? <==> file.size <= MaxFileSize && ClientAllowed(file.mimeType)
    ensures file.size > MaxFileSize ==> r == Some(SizeError)
    ensures file.size <= MaxFileSize && !ClientAllowed(file.mimeType) ==> r == Some(TypeError)
  {
    var checks := ClientChecks(file);
    if file.size > MaxFileSize then
      FirstFailureAt(checks, 0);
      FirstFailure(checks)
    else if !ClientAllowed(file.mimeType) then
      FirstFailureAt(checks, 1);
      FirstFailure(checks)
    else
      FirstFailure(checks)
  }

  /** The condition under which the image `onload` callback keeps the
      result valid. */
  predicate WithinResolution(width: nat, height: nat)
  {
    width <= MaxWidth && height <= MaxHeight
  }

  /** The two AJAX posts of the page. */
  datatype Request =
    | AnalyzeRequest(file: FileInfo, nonce: string)
    | StoreRequest(analysis: string, nonce: string)

  /** The opacity of a paragraph: the stylesheet's, or an inline value
      set by `.css('opacity', v)`. */
  datatype Opacity = StyleSheet | Inline(value: real)
  const Dimmed: Opacity := Inline(0.5)
  const Lit: Opacity := Inline(1.0)

  /** The file the download button saves. */
  datatype Download = Download(fileName: string, mimeType: string, content: string)

  /** The five paragraphs of the loading panel (`#loading-steps p`):
      the two description lines, then the three checklist steps. */
  const ParagraphCount: nat := 5
  /** The index among them of checklist step `i + 1`. */
  function StepParagraph(i: nat): nat
  {
    2 + i
  }
  const AllDimmed: seq<Opacity> := [Dimmed, Dimmed, Dimmed, Dimmed, Dimmed]

  /** The loading panel `#loading-steps`: whether it is shown, the spinner
      and the loading line (whether each has been put into the panel and
      whether it was hidden since), the loading line's text, and the
      opacities of its paragraphs. */
  datatype PanelState = PanelState(
    visible: bool,
    spinnerAttached: bool,
    spinnerHidden: bool,
    loadingText: string,
    loadingTextAttached: bool,
    loadingTextHidden: bool,
    paragraphs: seq<Opacity>)

  /** The page state the handlers read and write.
      - `step1Visible`: `#step1`, which holds the drop area and file input;
      - `analysisVisible`: `#claude-analysis-result`, which holds the
        feedback and the copy, download and new-analysis buttons;
      - `feedback`: the HTML of `.feedback-content`;
      - `selectedFiles`: the file input's selection;
      - `panel`: the loading panel;
      - `alerts` and `sent`: every alert shown and request posted. */
  datatype SessionState = SessionState(
    nonce: string,
    step1Visible: bool,
    analysisVisible: bool,
    feedback: string,
    selectedFiles: seq<FileInfo>,
    panel: PanelState,
    alerts: seq<string>,
    sent: seq<Request>)

  // ---- the transitions of the loading panel ----

  /** Before the first upload: hidden (line 14), no spinner or loading
      line in it yet, paragraphs as the stylesheet sets them. */
  function PanelInitial(): PanelState
  {
    PanelState(false, false, false, "", false, false, [StyleSheet, StyleSheet, StyleSheet, StyleSheet, StyleSheet])
  }

  /** Lines 155-161 of `handleFileUpload`: the spinner is put into the
      panel and shown, the loading line is given its text and put into
      the panel (but not shown again if it was hidden), the panel is shown
      and all its paragraphs are dimmed. */
  function PanelShown(p: PanelState): PanelState
  {
    p.(spinnerAttached := true, spinnerHidden := false, loadingText := LoadingMessage,
       loadingTextAttached := true, visible := true, paragraphs := AllDimmed)
  }

  /** Lines 193-195 of the `success` callback. */
  function PanelHidden(p: PanelState): PanelState
  {
    p.(spinnerHidden := true, loadingTextHidden := true, visible := false)
  }

  /** Lines 84-85 of the new-analysis handler. */
  function PanelReset(p: PanelState): PanelState
  {
    p.(visible := false, paragraphs := AllDimmed)
  }

  /** The timer of checklist step `i + 1` (lines 162-164). */
  function StepLit(p: PanelState, i: nat): PanelState
    requires StepParagraph(i) < |p.paragraphs|
  {
    p.(paragraphs := p.paragraphs[StepParagraph(i) := Lit])
  }

  // ---- the transitions of the page ----

  /** The page when the document is ready: the upload step shown, the
      loading panel and the result hidden (lines 13-14). */
  function Initial(nonce: string): SessionState
  {
    SessionState(nonce, true, false, "", [], PanelInitial(), [], [])
  }

  function Alerted(s: SessionState, message: string): SessionState
  {
    s.(alerts := s.alerts + [message])
  }

  /** The synchronous part of `validateFile`: an invalid file raises one
      alert with its error. */
  function Validated(s: SessionState, file: FileInfo): SessionState
  {
    match Verdict(file)
    case None => s
    case Some(error) => Alerted(s, AlertPrefix + error)
  }

  /** The image `onload` callback: an image above 8000 pixels in either
      dimension raises the resolution alert. */
  function ImageLoaded(s: SessionState, width: nat, height: nat): SessionState
  {
    if WithinResolution(width, height) then s else Alerted(s, AlertPrefix + ResolutionError)
  }

  /** `handleFileUpload` up to the AJAX call. */
  function UploadStarted(s: SessionState, file: FileInfo): SessionState
  {
    s.(feedback := "", panel := PanelShown(s.panel), step1Visible := false,
       sent := s.sent + [AnalyzeRequest(file, s.nonce)])
  }

  /** `processFile`: validate, and upload exactly when valid. */
  function Processed(s: SessionState, file: FileInfo): SessionState
  {
    if Verdict(file).None? then UploadStarted(s, file) else Validated(s, file)
  }

  /** The file input's `change` handler after the user picked `files`. */
  function FilesChosen(s: SessionState, files: seq<FileInfo>): SessionState
  {
    var t := s.(selectedFiles := files);
    if |files| > 0 then Processed(t, files[0]) else t
  }

  /** The drop handler. */
  function Dropped(s: SessionState, files: seq<FileInfo>): SessionState
  {
    if |files| > 0 then Processed(s, files[0]) else s
  }

  /** The AJAX `success` callback. */
  function Replied(s: SessionState, reply: Reply): SessionState
  {
    if reply.success then
      s.(analysisVisible := true, sent := s.sent + [StoreRequest(reply.data, s.nonce)],
         feedback := reply.data, panel := PanelHidden(s.panel), selectedFiles := [])
    else
      Alerted(s, AnalysisErrorPrefix + reply.data)
  }

  /** The AJAX `error` callback as written: its first statement reads
      `response`, which is not in scope there, so it throws a
      ReferenceError and neither the alert nor the clearing of the file
      input happens. */
  function TransportFailedAsWritten(s: SessionState): SessionState
  {
    s
  }

  /** The AJAX `error` callback as evidently intended: alert with the
      transport's error text, then clear the file input. */
  function TransportFailed(s: SessionState, error: string): SessionState
  {
    Alerted(s, AnalysisErrorPrefix + error).(selectedFiles := [])
  }

  /** The "Start New Analysis" handler. */
  function NewAnalysis(s: SessionState): SessionState
  {
    s.(analysisVisible := false, feedback := "", step1Visible := true, panel := PanelReset(s.panel))
  }

  /** The user can pick or drop a file only while `#step1` is shown. */
  predicate CanChooseFile(s: SessionState)
  {
    s.step1Visible
  }

  /** The new-analysis button is inside the result container. */
  predicate CanStartNewAnalysis(s: SessionState)
  {
    s.analysisVisible
  }

  /** The loading line is on screen: in the shown loading panel and not hidden. */
  predicate LoadingTextOnScreen(s: SessionState)
  {
    s.panel.visible && s.panel.loadingTextAttached && !s.panel.loadingTextHidden
  }

  // ---- the page ----

  /** The `result` object of `validateFile`, which the image `onload`
      callback may still change after `validateFile` returned. */
  class ValidationResult {
    var isValid: bool
    var error: string

    constructor ()
      ensures isValid && error == ""
    {
      isValid := true;
      error := "";
    }
  }

  /** The loading panel and the spinner and loading line it holds. */
  class LoadingPanel {
    var visible: bool
    var spinnerAttached: bool
    var spinnerHidden: bool
    var loadingText: string
    var loadingTextAttached: bool
    var loadingTextHidden: bool
    var paragraphs: seq<Opacity>

    function State(): PanelState
      reads this
    {
      PanelState(visible, spinnerAttached, spinnerHidden, loadingText, loadingTextAttached, loadingTextHidden, paragraphs)
    }

    constructor ()
      ensures State() == PanelInitial()
    {
      visible := false;
      spinnerAttached := false;
      spinnerHidden := false;
      loadingText := "";
      loadingTextAttached := false;
      loadingTextHidden := false;
      paragraphs := [StyleSheet, StyleSheet, StyleSheet, StyleSheet, StyleSheet];
    }

    method Show()
      modifies this
      ensures State() == PanelShown(old(State()))
    {
      spinnerAttached := true;
      spinnerHidden := false;
      loadingText := LoadingMessage;
      loadingTextAttached := true;
      visible := true;
      paragraphs := AllDimmed;
    }

    method Hide()
      modifies this
      ensures State() == PanelHidden(old(State()))
    {
      spinnerHidden := true;
      loadingTextHidden := true;
      visible := false;
    }

    method Reset()
      modifies this
      ensures State() == PanelReset(old(State()))
    {
      visible := false;
      paragraphs := AllDimmed;
    }

    method LightStep(i: nat)
      requires StepParagraph(i) < |paragraphs|
      modifies this
      ensures State() == StepLit(old(State()), i)
    {
      paragraphs := paragraphs[StepParagraph(i) := Lit];
    }
  }

  class Session {
    /** `ajax_object.nonce`. */
    const nonce: string
    const panel: LoadingPanel
    var step1Visible: bool
    var analysisVisible: bool
    var feedback: string
    var selectedFiles: seq<FileInfo>
    var alerts: seq<string>
    var sent: seq<Request>

    function State(): SessionState
      reads this, panel
    {
      SessionState(nonce, step1Visible, analysisVisible, feedback, selectedFiles, panel.State(), alerts, sent)
    }

    /** The loading panel has its five paragraphs. */
    predicate Valid()
      reads this, panel
    {
      |panel.paragraphs| == ParagraphCount
    }

    /** The document-ready handler (lines 1-14). */
    constructor (nonce: string)
      ensures State() == Initial(nonce) && Valid() && fresh(panel)
    {
      this.nonce := nonce;
      panel := new LoadingPanel();
      step1Visible := true;
      analysisVisible := false;
      feedback := "";
      selectedFiles := [];
      alerts := [];
      sent := [];
    }

    /** `validateFile`: size first, then type, each failure alerting and
        returning at once; a valid image additionally starts loading the
        image, whose `onload` (`OnImageLoad`) may later invalidate the
        same result object. */
    method ValidateFile(file: FileInfo) returns (result: ValidationResult, awaitsImageLoad: bool)
      modifies this`alerts
      ensures fresh(result)
      ensures result.isValid <==> Verdict(file).None?
      ensures !result.isValid ==> Some(result.error) == Verdict(file)
      ensures result.isValid ==> result.error == ""
      ensures awaitsImageLoad <==> result.isValid && StartsWith(file.mimeType, "image/")
      ensures State() == Validated(old(State()), file)
    {
      result := new ValidationResult();
      awaitsImageLoad := false;
      if file.size > MaxFileSize {
        result.isValid := false;
        result.error := SizeError;
        alerts := alerts + [AlertPrefix + result.error];
        return;
      }
      if !ClientAllowed(file.mimeType) {
        result.isValid := false;
        result.error := TypeError;
        alerts := alerts + [AlertPrefix + result.error];
        return;
      }
      awaitsImageLoad := StartsWith(file.mimeType, "image/");
    }

    /** The image `onload` callback: a width or height above 8000 pixels
        invalidates the result and alerts. Nothing else of the page
        changes, and in particular a request already sent stays sent. */
    method OnImageLoad(result: ValidationResult, width: nat, height: nat)
      modifies this`alerts, result
      ensures WithinResolution(width, height) ==> result.isValid == old(result.isValid) && result.error == old(result.error)
      ensures !WithinResolution(width, height) ==> !result.isValid && result.error == ResolutionError
      ensures State() == ImageLoaded(old(State()), width, height)
    {
      if width > MaxWidth || height > MaxHeight {
        result.isValid := false;
        result.error := ResolutionError;
        alerts := alerts + [AlertPrefix + result.error];
      }
    }

    /** `handleFileUpload`: empty the feedback, show the loading panel with
        its spinner and loading line, dim its paragraphs, hide the upload
        step and post one analysis request. */
    method HandleFileUpload(file: FileInfo)
      modifies this, panel
      ensures State() == UploadStarted(old(State()), file) && Valid()
    {
      feedback := "";
      panel.Show();
      step1Visible := false;
      sent := sent + [AnalyzeRequest(file, nonce)];
    }

    /** `processFile`. */
    method ProcessFile(file: FileInfo) returns (result: ValidationResult, awaitsImageLoad: bool)
      requires Valid()
      modifies this, panel
      ensures Valid() && fresh(result)
      ensures result.isValid <==> Verdict(file).None?
      ensures awaitsImageLoad <==> result.isValid && StartsWith(file.mimeType, "image/")
      ensures State() == Processed(old(State()), file)
    {
      result, awaitsImageLoad := ValidateFile(file);
      if result.isValid {
        HandleFileUpload(file);
      }
    }

    /** The file input's `change` handler; `result` is null when the
        selection is empty. */
    method OnFilesChosen(files: seq<FileInfo>) returns (result: ValidationResult?, awaitsImageLoad: bool)
      requires Valid()
      modifies this, panel
      ensures Valid()
      ensures |files| == 0 ==> result == null && !awaitsImageLoad
      ensures |files| > 0 ==> result != null && fresh(result) && (result.isValid <==> Verdict(files[0]).None?)
      ensures State() == FilesChosen(old(State()), files)
    {
      selectedFiles := files;
      result, awaitsImageLoad := null, false;
      if |files| > 0 {
        result, awaitsImageLoad := ProcessFile(files[0]);
      }
    }

    /** The drop handler. */
    method OnDrop(files: seq<FileInfo>) returns (result: ValidationResult?, awaitsImageLoad: bool)
      requires Valid()
      modifies this, panel
      ensures Valid()
      ensures |files| == 0 ==> result == null && !awaitsImageLoad
      ensures |files| > 0 ==> result != null && fresh(result) && (result.isValid <==> Verdict(files[0]).None?)
      ensures State() == Dropped(old(State()), files)
    {
      result, awaitsImageLoad := null, false;
      if |files| > 0 {
        result, awaitsImageLoad := ProcessFile(files[0]);
      }
    }

    /** The timer of checklist step `i + 1`. */
    method OnStepTimer(i: nat)
      requires Valid() && i < 3
      modifies panel
      ensures Valid() && State() == old(State()).(panel := StepLit(old(State()).panel, i))
    {
      panel.LightStep(i);
    }

    /** The AJAX `success` callback. */
    method OnAnalyzeReply(reply: Reply)
      modifies this, panel
      ensures State() == Replied(old(State()), reply)
      ensures Valid() == old(Valid())
    {
      if reply.success {
        analysisVisible := true;
        sent := sent + [StoreRequest(reply.data, nonce)];
        feedback := reply.data;
        panel.Hide();
        selectedFiles := [];
      } else {
        alerts := alerts + [AnalysisErrorPrefix + reply.data];
      }
    }

    /** The AJAX `error` callback as written: it throws before doing
        anything, and `thrown` names what it throws. */
    method OnTransportErrorAsWritten() returns (thrown: string)
      ensures thrown == "ReferenceError"
      ensures State() == TransportFailedAsWritten(old(State()))
    {
      thrown := "ReferenceError";
    }

    /** The AJAX `error` callback as evidently intended. */
    method OnTransportError(error: string)
      modifies this`alerts, this`selectedFiles
      ensures State() == TransportFailed(old(State()), error)
    {
      alerts := alerts + [AnalysisErrorPrefix + error];
      selectedFiles := [];
    }

    /** The "Start New Analysis" handler. */
    method OnNewAnalysis()
      modifies this, panel
      ensures State() == NewAnalysis(old(State())) && Valid()
    {
      analysisVisible := false;
      feedback := "";
      step1Visible := true;
      panel.Reset();
    }

    /** The download handler: the saved file is the feedback HTML inside
        the Word wrapper, so the feedback can be read back from it. */
    method OnDownload() returns (d: Download)
      ensures d.fileName == DownloadName && d.mimeType == DownloadMime
      ensures |d.content| == |DownloadHeader| + |feedback| + |DownloadFooter|
      ensures StartsWith(d.content, DownloadHeader)
      ensures d.content[|DownloadHeader|..|d.content| - |DownloadFooter|] == feedback
      ensures d.content[|d.content| - |DownloadFooter|..] == DownloadFooter
    {
      var content := DownloadHeader + feedback + DownloadFooter;
      assert content[..|DownloadHeader|] == DownloadHeader;
      assert content[|DownloadHeader|..|content| - |DownloadFooter|] == feedback;
      d := Download(DownloadName, DownloadMime, content);
    }
  }
}
