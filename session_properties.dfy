/** What the browser-side workflow promises, proved about the transition
    functions of `UploadSession` (and so about the `Session` methods,
    whose new states are those functions of their old states), together
    with the scenarios that show how the page behaves as written. */
module SessionProperties {
  import opened Common
  import opened UploadSession

  /** The number of analysis requests among `requests`. */
  function Analyses(requests: seq<Request>): nat
  {
    if requests == [] then 0
    else (if requests[0].AnalyzeRequest? then 1 else 0) + Analyses(requests[1..])
  }

  lemma {:induction false} AnalysesAppend(a: seq<Request>, b: seq<Request>)
    ensures Analyses(a + b) == Analyses(a) + Analyses(b)
  {
    if a == [] {
      assert a + b == b;
    } else {
      assert (a + b)[0] == a[0] && (a + b)[1..] == a[1..] + b;
      AnalysesAppend(a[1..], b);
    }
  }

  // ---- validation ----

  /** `processFile` starts an upload exactly when the synchronous checks
      pass: then one analysis request for that file is posted and no
      alert is shown; otherwise the only effect is the alert of the first
      failing check. */
  lemma {:induction false} UploadExactlyWhenValid(s: SessionState, file: FileInfo)
    ensures Verdict(file).None? ==>
              && Analyses(Processed(s, file).sent) == Analyses(s.sent) + 1
              && Processed(s, file).sent == s.sent + [AnalyzeRequest(file, s.nonce)]
              && Processed(s, file).alerts == s.alerts
    ensures Verdict(file).Some? ==>
              Processed(s, file) == s.(alerts := s.alerts + [AlertPrefix + Verdict(file).value])
  {
    if Verdict(file).None? {
      AnalysesAppend(s.sent, [AnalyzeRequest(file, s.nonce)]);
    }
  }

  /** A file above 10 MiB is refused for its size whatever its type, and
      a file of exactly 10 MiB of an accepted type is uploaded. */
  lemma SizeRuleIsStrictAndFirst(s: SessionState, name: string, size: nat, mimeType: string)
    ensures size > MaxFileSize ==>
              Processed(s, FileInfo(name, size, mimeType)).alerts == s.alerts + [AlertPrefix + SizeError]
    ensures size == 10485760 && ClientAllowed(mimeType) ==>
              Processed(s, FileInfo(name, size, mimeType)).sent == s.sent + [AnalyzeRequest(FileInfo(name, size, mimeType), s.nonce)]
  {
  }

  /** The image `onload` callback only alerts, and only for an image above
      8000 pixels in either dimension: the request already posted, the
      panels and the file input stay as they are. */
  lemma ImageLoadOnlyAlerts(s: SessionState, width: nat, height: nat)
    ensures ImageLoaded(s, width, height).(alerts := s.alerts) == s
    ensures ImageLoaded(s, width, height).alerts == s.alerts <==> width <= 8000 && height <= 8000
    ensures width > 8000 || height > 8000 ==>
              ImageLoaded(s, width, height).alerts == s.alerts + [AlertPrefix + ResolutionError]
  {
    if !WithinResolution(width, height) {
      assert |ImageLoaded(s, width, height).alerts| == |s.alerts| + 1;
    }
  }

  // ---- the upload ----

  /** After `handleFileUpload` starts: the feedback is empty, the loading
      panel is shown with every paragraph (and so each checklist step)
      dimmed, the upload step is hidden and exactly one more analysis
      request has been posted. */
  lemma {:induction false} UploadStartedScreen(s: SessionState, file: FileInfo)
    ensures var t := UploadStarted(s, file);
            && t.feedback == ""
            && t.panel.visible && !t.step1Visible
            && |t.panel.paragraphs| == ParagraphCount
            && (forall i :: 0 <= i < ParagraphCount ==> t.panel.paragraphs[i] == Dimmed)
            && t.panel.spinnerAttached && !t.panel.spinnerHidden
            && Analyses(t.sent) == Analyses(s.sent) + 1
            && t.alerts == s.alerts && t.analysisVisible == s.analysisVisible
  {
    AnalysesAppend(s.sent, [AnalyzeRequest(file, s.nonce)]);
  }

  /** A checklist timer lights its own step and no other paragraph. */
  lemma StepTimerLightsOneStep(p: PanelState, i: nat)
    requires |p.paragraphs| == ParagraphCount && i < 3
    ensures StepLit(p, i).paragraphs[StepParagraph(i)] == Lit
    ensures forall k :: 0 <= k < ParagraphCount && k != StepParagraph(i) ==>
              StepLit(p, i).paragraphs[k] == p.paragraphs[k]
    ensures StepLit(p, i).(paragraphs := p.paragraphs) == p
  {
  }

  /** The three timers may fire in any order: the result is the same. */
  lemma StepTimersCommute(p: PanelState, i: nat, j: nat)
    requires |p.paragraphs| == ParagraphCount && i < 3 && j < 3
    ensures StepLit(StepLit(p, i), j) == StepLit(StepLit(p, j), i)
  {
    if i != j {
      assert StepLit(StepLit(p, i), j).paragraphs == StepLit(StepLit(p, j), i).paragraphs;
    }
  }

  /** Once all three timers of an upload have fired, the checklist is
      fully lit and the two description lines stay dimmed. */
  lemma AllStepsLit(s: SessionState, file: FileInfo)
    ensures var p := StepLit(StepLit(StepLit(UploadStarted(s, file).panel, 0), 1), 2);
            p.paragraphs == [Dimmed, Dimmed, Lit, Lit, Lit]
  {
  }

  // ---- the replies ----

  /** A successful reply shows the result with the feedback set to the
      reply's HTML, posts one store request carrying that same HTML, hides
      the spinner, the loading line and the loading panel, and clears the
      file input; no alert is shown. */
  lemma SuccessReplyScreen(s: SessionState, data: string)
    ensures var t := Replied(s, Reply(true, data));
            && t.analysisVisible && CanStartNewAnalysis(t)
            && t.feedback == data
            && t.sent == s.sent + [StoreRequest(data, s.nonce)]
            && t.sent[|t.sent| - 1].analysis == t.feedback
            && !t.panel.visible && t.panel.spinnerHidden && t.panel.loadingTextHidden
            && t.selectedFiles == []
            && t.alerts == s.alerts && t.step1Visible == s.step1Visible
  {
  }

  /** A failed reply only alerts: nothing else of the page changes. */
  lemma FailedReplyOnlyAlerts(s: SessionState, data: string)
    ensures Replied(s, Reply(false, data)).alerts == s.alerts + [AnalysisErrorPrefix + data]
    ensures Replied(s, Reply(false, data)).(alerts := s.alerts) == s
  {
  }

  /** No reply posts an analysis request: only a new upload does. */
  lemma {:induction false} RepliesPostNoAnalysis(s: SessionState, reply: Reply, error: string)
    ensures Analyses(Replied(s, reply).sent) == Analyses(s.sent)
    ensures Analyses(TransportFailed(s, error).sent) == Analyses(s.sent)
    ensures Analyses(NewAnalysis(s).sent) == Analyses(s.sent)
  {
    if reply.success {
      AnalysesAppend(s.sent, [StoreRequest(reply.data, s.nonce)]);
    }
  }

  /** As written, a failed reply to a first upload leaves the user with
      the loading panel on screen and neither the upload step nor the
      new-analysis button: nothing on the page can start another upload. */
  lemma FailedReplyStrandsUser(nonce: string, file: FileInfo, data: string)
    requires Verdict(file).None?
    ensures var t := Replied(FilesChosen(Initial(nonce), [file]), Reply(false, data));
            && !CanChooseFile(t) && !CanStartNewAnalysis(t)
            && t.panel.visible && LoadingTextOnScreen(t)
            && t.selectedFiles == [file]
            && t.alerts == [AnalysisErrorPrefix + data]
  {
  }

  // ---- a new analysis ----

  /** "Start New Analysis" hides the result, empties the feedback, shows
      the upload step, hides the loading panel and dims its paragraphs;
      alerts, posts and the file input are untouched. Pressing it twice is
      the same as pressing it once. */
  lemma NewAnalysisResets(s: SessionState)
    ensures var t := NewAnalysis(s);
            && !t.analysisVisible && t.feedback == "" && CanChooseFile(t)
            && !t.panel.visible && t.panel.paragraphs == [Dimmed, Dimmed, Dimmed, Dimmed, Dimmed]
            && t.alerts == s.alerts && t.sent == s.sent && t.selectedFiles == s.selectedFiles
    ensures NewAnalysis(NewAnalysis(s)) == NewAnalysis(s)
  {
  }

  /** One complete analysis: choose a valid file, receive a successful
      reply, start a new analysis. The page is back at the upload step
      with an empty feedback, and exactly the analysis request and the
      store request of that reply were posted. */
  lemma FullCycle(nonce: string, file: FileInfo, data: string)
    requires Verdict(file).None?
    ensures var t := NewAnalysis(Replied(FilesChosen(Initial(nonce), [file]), Reply(true, data)));
            && CanChooseFile(t) && !CanStartNewAnalysis(t) && !t.panel.visible
            && t.feedback == "" && t.selectedFiles == [] && t.alerts == []
            && t.sent == [AnalyzeRequest(file, nonce), StoreRequest(data, nonce)]
  {
  }

  /** As written, the loading line is shown during the first upload of a
      page but never again: the success callback hides it and nothing
      shows it, while the spinner is shown on every upload. */
  lemma SecondUploadHasNoLoadingLine(nonce: string, first: FileInfo, data: string, second: FileInfo)
    requires Verdict(first).None? && Verdict(second).None?
    ensures LoadingTextOnScreen(FilesChosen(Initial(nonce), [first]))
    ensures var t := FilesChosen(NewAnalysis(Replied(FilesChosen(Initial(nonce), [first]), Reply(true, data))), [second]);
            && t.panel.visible && !t.panel.spinnerHidden
            && !LoadingTextOnScreen(t)
  {
  }

  // ---- the transport error ----

  /** As written, a transport failure during a first upload shows no
      alert at all, keeps the chosen file in the input and leaves the
      loading panel as the only thing on screen. */
  lemma TransportErrorAsWrittenIsSilent(nonce: string, file: FileInfo)
    requires Verdict(file).None?
    ensures var t := TransportFailedAsWritten(FilesChosen(Initial(nonce), [file]));
            && t.alerts == []
            && t.selectedFiles == [file]
            && !CanChooseFile(t) && !CanStartNewAnalysis(t) && t.panel.visible
  {
  }

  /** As intended, a transport failure is reported with its error text
      and the file input is cleared; nothing else changes. */
  lemma TransportErrorReported(s: SessionState, error: string)
    ensures TransportFailed(s, error).alerts == s.alerts + [AnalysisErrorPrefix + error]
    ensures TransportFailed(s, error).selectedFiles == []
    ensures TransportFailed(s, error).(alerts := s.alerts, selectedFiles := s.selectedFiles) == s
  {
  }

  // ---- scenarios on the page objects ----

  /** The dimension check comes too late: a PNG of `width` x `height`
      pixels, above the limit, passes the synchronous validation and is
      uploaded; when the image has loaded the result object becomes
      invalid and an alert is shown, but the request has already been
      posted. */
  method OversizedImageIsUploaded(width: nat, height: nat) returns (sentBeforeLoad: seq<Request>, validAfterLoad: bool, sentAfterLoad: seq<Request>)
    requires !WithinResolution(width, height)
    ensures sentBeforeLoad == [AnalyzeRequest(FileInfo("portfolio.png", 1000, "image/png"), "nonce")]
    ensures !validAfterLoad
    ensures sentAfterLoad == sentBeforeLoad
  {
    var page := new Session("nonce");
    var file := FileInfo("portfolio.png", 1000, "image/png");
    var result, awaitsImageLoad := page.ProcessFile(file);
    sentBeforeLoad := page.sent;
    page.OnImageLoad(result, width, height);
    validAfterLoad := result.isValid;
    sentAfterLoad := page.sent;
  }

  /** An image of exactly 8000 x 8000 pixels stays valid after loading. */
  method LargestImageStaysValid() returns (validAfterLoad: bool, alerts: seq<string>)
    ensures validAfterLoad && alerts == []
  {
    var page := new Session("nonce");
    var result, awaitsImageLoad := page.ProcessFile(FileInfo("portfolio.jpg", 1000, "image/jpeg"));
    page.OnImageLoad(result, MaxWidth, MaxHeight);
    validAfterLoad := result.isValid;
    alerts := page.alerts;
  }
}
