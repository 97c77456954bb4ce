# Portfolio reviewer: a Dafny model of the upload workflow

The portfolio reviewer is a WordPress plugin. A visitor drops a portfolio image or PDF onto a page. The browser validates it and posts it to the `analyze_document` AJAX action. The server re-checks the upload, sends it base64-encoded to the Anthropic Messages API, and returns the answer's HTML. The page shows that HTML, posts it back to be stored in a single site option, and offers copy, download and "Start New Analysis" buttons. A shortcode displays the last stored analysis.

This project models that workflow in Dafny and proves its properties.

- `common.dfy` (`Common`): shared pieces.
  - The "first failing check wins" rule (`FirstFailure`), which both validators follow.
  - PHP's falsiness of strings.
  - The JSON reply `{success, data}`.
- `base64.dfy` (`Base64`): `base64_encode` as defined in section 4 of RFC 4648, with a strict decoder and the round trip between them.
- `gateway.dfy` (`Gateway`): the server endpoint `claude_analyze_document` as pure functions, which follows the PHP's straight-line code.
  - `Prepare` runs the chain of guards and builds the request.
  - `Respond` maps the API outcome to the reply.
  - `Analyze` is the two together.
  - The module also holds the empty-key guard of `test_claude_api_key`.
  - The HTTP call is an input (`ApiOutcome`).
  - `wp_check_filetype` is a function parameter from file name to type.
  - The nonce check is a boolean.
- `result_store.dfy` (`ResultStore`): the site options `claude_api_key` and `claude_latest_analysis` as the fields of a class `SiteOptions`.
  - `StoreAnalysis` (the `store_analysis` action) overwrites the latest-analysis field.
  - `DisplayFeedback` (the `[claude_feedback_display]` shortcode) reads it.
  - `wp_kses_post` is a function parameter.
  - WordPress's slashing of `$_POST` (`wp_magic_quotes`) is PHP's `addslashes`, written out with its inverse `stripslashes`.
- `upload_session.dfy` (`UploadSession`): the browser script.
  - The page elements the handlers change are the fields of two classes:
    - `Session`: the upload step, the result container, the feedback HTML, the file input's selection, and the alerts shown and requests posted;
    - `LoadingPanel`: the loading panel with its spinner, loading line and five paragraphs.
  - Each event handler is a method. Each is proved to leave the page in the state given by a pure transition function of the old state (`Session.State()`).
  - `validateFile`'s `result` object is a class too, because the image `onload` callback changes it after `validateFile` has returned.
- `session_properties.dfy` (`SessionProperties`): what the workflow promises, proved about the transition functions. It also holds scenarios on the page objects.
- `tiers.dfy` (`Tiers`): how the browser's checks relate to the server's guards, and what the page shows for each reply of the endpoint.

The model keeps these behaviours of the code as written:

- A `success: false` reply only raises an alert. The page is not reset, the file input is not cleared, and the upload step stays hidden (`SessionProperties.FailedReplyStrandsUser`).
- The browser also accepts `image/jpg`, which the server refuses (`Tiers.OnlyClientAcceptsJpg`).
- The store action is guarded by the nonce and by the presence of `analysis`, and it stores the sanitised text. The shortcode sanitises it once more when displaying it.
- The store action does not unslash the field WordPress slashed (see Findings). The model keeps both the handler as written and the corrected one.
- The pixel-dimension check runs after the upload has already been posted (`SessionProperties.OversizedImageIsUploaded`).
- The transport-error callback throws (see Findings). The model keeps both the handler as written and the corrected one.

## Model

| member | source | states |
|---|---|---|
| Common.FirstFailure | claude-portfolio-reviewer.php:207-239 | an early-exit chain yields no message exactly when every check passes, and otherwise the message of a failing check |
| Common.FirstFailureAt | claude-portfolio-reviewer.php:207-239 | a failing check decides the outcome whenever all checks before it pass, so later checks are never consulted |
| Base64.Encode | claude-portfolio-reviewer.php:242 | the encoding of n bytes has 4 * ceil(n / 3) characters |
| Base64.DecodeEncode | claude-portfolio-reviewer.php:242 | decoding the base64 text of the upload gives back exactly the uploaded bytes |
| Gateway.Prepare | claude-portfolio-reviewer.php:207-294 | a rejection carries one of the five guard messages; a request is built only for an upload whose type is on the allow-list, and it holds two blocks ending with the prompt |
| Gateway.MessageContentFor | claude-portfolio-reviewer.php:242-275 | the message content stays undefined exactly for a type neither branch handles; otherwise it is two blocks, the second being the prompt |
| Gateway.PrepareFollowsChecks | claude-portfolio-reviewer.php:207-239 | the handler rejects exactly when one of its five guards (nonce, file present, size, type, API key) fails, with the message of the first failing one in source order |
| Gateway.RejectedBeforeAnyCall | claude-portfolio-reviewer.php:207-239 | when a guard fails, the reply is that guard's message whatever the API would answer, because no request is built |
| Gateway.SecurityCheckComesFirst | claude-portfolio-reviewer.php:208-211 | a bad nonce yields exactly "Security check failed", whatever the upload, type, key and API outcome |
| Gateway.SizeGuardIsStrict | claude-portfolio-reviewer.php:219-222 | with a valid nonce, an upload is rejected for its size exactly when it is larger than 10485760 bytes |
| Gateway.RejectionMessageIdentifiesGuard | claude-portfolio-reviewer.php:207-239 | for each guard, the reply is that guard's error exactly when the guards before it pass and it fails; API error texts never coincide with a guard's message |
| Gateway.OutcomeMessagesDifferFromGuards | claude-portfolio-reviewer.php:296-304 | the error replies built from an API outcome differ from all five guard messages |
| Gateway.SendExactlyWhenAllPass | claude-portfolio-reviewer.php:207-294 | a request is sent iff all guards pass; it carries the configured non-empty key, version 2023-06-01, the model, role "user", 1024 max tokens, a 60 s timeout and the base64 of the upload |
| Gateway.ContentForAllowedType | claude-portfolio-reviewer.php:242-275 | for each allowed type exactly one branch builds two blocks: first the file, a `document` iff PDF, with the checked media type and data decoding to the upload; then the text block holding the prompt |
| Gateway.SameInstructionForDocumentsAndImages | claude-portfolio-reviewer.php:255-273 | the literal of the PDF branch and the literal of the image branch are the same prompt text |
| Gateway.Respond | claude-portfolio-reviewer.php:296-306 | success iff the API answered with content, carrying its text; a transport failure gives "Error connecting to Claude API: " + message; an API error gives "API Error: " + message |
| Gateway.Analyze | claude-portfolio-reviewer.php:207-306 | a successful reply of the endpoint carries exactly the API's answer text; a request that passes every guard gets the reply mapped from the API's answer (so success for a content answer); a rejected one gets its guard's message |
| Gateway.KeyTestRequest | claude-portfolio-reviewer.php:96-119 | no request exactly when the key is falsy; otherwise one carrying the configured non-empty key, version 2023-06-01, the model, the text "Test message", 10 max tokens and no timeout |
| Gateway.TestApiKey | claude-portfolio-reviewer.php:96-132 | an empty key gives the `no_api_key` error before any request; otherwise a failed call gives `api_error` with its message; the key works exactly for a configured key and a content answer |
| Gateway.KeyGuardsAgree | claude-portfolio-reviewer.php:236-239 | the endpoint's "API key not configured" guard fires exactly when the key test sends no request, and both use the same key |
| ResultStore.StripAddSlashes | claude-portfolio-reviewer.php:355 | unslashing undoes WordPress's slashing of a posted field, for every string |
| ResultStore.AddSlashesLengthens | claude-portfolio-reviewer.php:355 | slashing never shortens a string and lengthens every string holding a quote, backslash or NUL, so such a field no longer equals what was posted |
| ResultStore.SiteOptions.StoreAnalysisAsWritten | claude-portfolio-reviewer.php:346-357 | as written: a bad nonce gives "Security check failed" and a missing field gives "No analysis data received", leaving the slot unchanged; otherwise the slot holds the sanitised slashed field; only the slot may change |
| ResultStore.SiteOptions.StoreAnalysis | claude-portfolio-reviewer.php:346-357 | corrected: the same guards, replies and frame, and on success the slot holds the sanitised analysis as the page posted it |
| ResultStore.ApostropheStoredEscaped | claude-portfolio-reviewer.php:355 | as written, a posted "it's" is stored as "it\'s"; corrected, as "it's" |
| ResultStore.SiteOptions.DisplayFeedback | claude-portfolio-reviewer.php:311-325 | the fixed "No analysis available yet" placeholder iff the slot is unset, "" or "0"; otherwise the sanitised stored content |
| ResultStore.StoreThenDisplay | claude-portfolio-reviewer.php:311-357 | corrected: after a valid store of an analysis whose sanitised form is truthy, the display shows that analysis, sanitised twice, and the API key option is untouched |
| ResultStore.StoreThenDisplayAsWritten | claude-portfolio-reviewer.php:311-357 | as written: after a valid store of an analysis whose sanitised slashed form is truthy, the display shows the slashed analysis, sanitised twice, and the API key option is untouched |
| UploadSession.Verdict | assets/js/scripts.js:96-128 | the synchronous validation passes iff size <= 10485760 and the type is one of the four allowed; above the size limit the error is the size message whatever the type, otherwise the type message |
| UploadSession.Session.constructor | assets/js/scripts.js:1-14 | when the document is ready the upload step is shown, the loading panel and the result hidden, the feedback empty, no file selected, no alert or request yet |
| UploadSession.Session.ValidateFile | assets/js/scripts.js:96-145 | the result object is valid iff the verdict passes, and otherwise holds the first failing check's error; one alert per failure; the image load is awaited exactly for a valid `image/` type |
| UploadSession.Session.OnImageLoad | assets/js/scripts.js:130-141 | a width or height above 8000 makes the result invalid with the resolution message; the page moves to `ImageLoaded`, which adds that one alert and otherwise leaves it as it was |
| UploadSession.Session.ProcessFile | assets/js/scripts.js:88-94 | the page moves to `Processed`: the upload starts iff the synchronous verdict passes |
| UploadSession.Session.HandleFileUpload | assets/js/scripts.js:148-180 | the page moves to `UploadStarted`, keeping five paragraphs in the panel |
| UploadSession.LoadingPanel.Show | assets/js/scripts.js:154-161 | spinner and loading line put into the panel, spinner shown, text "Analyzing your portfolio...", panel shown, all five paragraphs at opacity 0.5 |
| UploadSession.LoadingPanel.Hide | assets/js/scripts.js:193-195 | spinner, loading line and panel hidden |
| UploadSession.LoadingPanel.Reset | assets/js/scripts.js:84-85 | panel hidden, all paragraphs at opacity 0.5 |
| UploadSession.LoadingPanel.LightStep | assets/js/scripts.js:162-164 | the timer's checklist paragraph goes to opacity 1 |
| UploadSession.Session.OnFilesChosen | assets/js/scripts.js:43-47 | the input holds the chosen files and the first one, if any, is processed |
| UploadSession.Session.OnDrop | assets/js/scripts.js:29-41 | the first dropped file, if any, is processed |
| UploadSession.Session.OnStepTimer | assets/js/scripts.js:162-164 | one checklist step is lit; nothing else changes |
| UploadSession.Session.OnAnalyzeReply | assets/js/scripts.js:181-201 | the page moves to `Replied` |
| UploadSession.Session.OnTransportErrorAsWritten | assets/js/scripts.js:202-205 | the callback throws a ReferenceError and the page is left unchanged |
| UploadSession.Session.OnTransportError | assets/js/scripts.js:202-205 | corrected: one alert with the transport's error text, the file input cleared, nothing else changed |
| UploadSession.Session.OnNewAnalysis | assets/js/scripts.js:75-86 | the page moves to `NewAnalysis` |
| UploadSession.Session.OnDownload | assets/js/scripts.js:60-72 | the file is `analysis-result.doc` of type application/msword; its content is the Word header, then exactly the feedback HTML (recoverable by slicing), then the footer |
| SessionProperties.UploadExactlyWhenValid | assets/js/scripts.js:88-94 | a valid file posts exactly one more analysis request, for that file, and shows no alert; an invalid one only adds the alert of its first failing check |
| SessionProperties.SizeRuleIsStrictAndFirst | assets/js/scripts.js:114-128 | a file above 10 MiB gets the size alert whatever its type; a file of exactly 10485760 bytes of an allowed type is uploaded |
| SessionProperties.ImageLoadOnlyAlerts | assets/js/scripts.js:130-141 | the image load changes nothing but the alerts, and adds the resolution alert exactly when width or height is above 8000 |
| SessionProperties.UploadStartedScreen | assets/js/scripts.js:148-172 | after the upload starts: empty feedback, loading panel shown with all paragraphs dimmed, spinner shown, upload step hidden, exactly one more analysis request, no alert |
| SessionProperties.StepTimerLightsOneStep | assets/js/scripts.js:162-164 | a timer lights its own checklist step and changes no other paragraph |
| SessionProperties.StepTimersCommute | assets/js/scripts.js:162-164 | the order in which the three timers fire does not matter |
| SessionProperties.AllStepsLit | assets/js/scripts.js:161-164 | after the three timers, the checklist is lit and the two description lines stay dimmed |
| SessionProperties.SuccessReplyScreen | assets/js/scripts.js:182-196 | a success shows the result with the feedback equal to the reply, posts one store request with that same HTML, hides spinner, loading line and panel, clears the file input, and shows no alert |
| SessionProperties.FailedReplyOnlyAlerts | assets/js/scripts.js:197-200 | a `success: false` reply adds one "Analysis Error" alert and changes nothing else |
| SessionProperties.RepliesPostNoAnalysis | assets/js/scripts.js:181-205 | no reply, transport error or new analysis posts an analysis request |
| SessionProperties.FailedReplyStrandsUser | assets/js/scripts.js:197-200 | after a failed reply to a first upload, neither the upload step nor the new-analysis button is visible, the loading panel stays up, and the file stays selected |
| SessionProperties.NewAnalysisResets | assets/js/scripts.js:75-86 | the result is hidden, the feedback empty, the upload step shown, the panel hidden with all paragraphs dimmed; alerts, posts and the file input untouched; pressing twice equals pressing once |
| SessionProperties.FullCycle | assets/js/scripts.js:75-196 | choose, succeed, start anew: the page is back at the upload step with empty feedback, and exactly the analysis request and the store request were posted |
| SessionProperties.SecondUploadHasNoLoadingLine | assets/js/scripts.js:159-194 | the loading line is on screen during a page's first upload but never during a later one, while the spinner is shown each time |
| SessionProperties.TransportErrorAsWrittenIsSilent | assets/js/scripts.js:202-205 | as written, a transport failure shows no alert, keeps the file selected and leaves only the loading panel on screen |
| SessionProperties.TransportErrorReported | assets/js/scripts.js:202-205 | corrected, a transport failure adds exactly one alert with its error text and clears the file input, changing nothing else |
| SessionProperties.OversizedImageIsUploaded | assets/js/scripts.js:130-144 | an image above 8000 pixels in either dimension is posted before its load invalidates the result; the invalidation does not withdraw the request |
| SessionProperties.LargestImageStaysValid | assets/js/scripts.js:105-137 | an image of exactly 8000 x 8000 stays valid with no alert |
| Tiers.ServerTypesAreClientTypes | assets/js/scripts.js:98-103 | every type the server accepts, the browser accepts |
| Tiers.OnlyClientAcceptsJpg | assets/js/scripts.js:98-103 | a type is accepted by the browser but refused by the server iff it is `image/jpg` |
| Tiers.SameSizeBound | assets/js/scripts.js:97 | the browser and the server bound the size by the same 10485760 bytes |
| Tiers.PageShowsEndpointReply | assets/js/scripts.js:181-200 | on an endpoint success the page's feedback and the posted store request are the API's answer text, and an upload passing every guard with a content answer is shown; on a bad nonce the page only alerts "Security check failed" |

## Left out

- The WordPress admin menu, the settings page and its form, and the upload shortcode's markup and CSS. They are configuration and presentation. The markup is only used to know which element holds which.
- Nonce creation and verification, `get_option`/`update_option` persistence, `wp_check_filetype` and `wp_kses_post`. These are WordPress calls. The model has a boolean, class fields, and two function parameters in their place.
- `wp_remote_post`, the JSON encoding of the request and the Anthropic Messages API. These are network I/O. The request is a value and the outcome an input.
- Gateway.TestApiKey: `ContentBody` stands for any decoded body without an `error` entry. The source returns `true` for such a body even when it has no `content`.
- Gateway.Respond: a success body without `content[0].text` is not modelled, because PHP would send `null`. The model assumes a well-formed answer.
- Gateway: upload errors reported in `$_FILES` (a partial upload, say) are not modelled. The model only knows whether `document` is present.
- jQuery details are not modelled: HTML parsing and normalisation by `.html()`, `analysisResult.show()`, and the fade animations. The fades end in the same visibility as the model's.
- The drag-over and drag-leave handlers. They only toggle a CSS class.
- The copy button. It uses the clipboard through `execCommand`.
- Blob and object-URL download mechanics. Only the file name, type and content are modelled.
- Timers are separate events (`OnStepTimer`), not timed. Asynchronous image decoding is a later event that supplies the width and height (`OnImageLoad`). Any interleaving of these events is allowed, but their timing is not modelled.
- UploadSession.ClientAllowed: the JavaScript looks the type up in an object literal, so inherited keys such as `constructor` would also pass. Browsers never report such MIME types, so the model uses the four listed keys.
- The store request's reply is ignored by the page, and so by the model.
- Script and style enqueueing.

## Findings

| source | as written | input that shows it | evidently intended | confidence | as-written member | corrected member |
|---|---|---|---|---|---|---|
| assets/js/scripts.js:202-205 | the AJAX `error` callback reads `response.data`, but no `response` is in scope there, so it throws a ReferenceError before the alert and before the file input is cleared (`SessionProperties.TransportErrorAsWrittenIsSilent`) | any transport failure of the analysis request, e.g. a network error or a timeout after a valid file was chosen | alert "⚠️ Analysis Error: " followed by the transport's error text, then clear the file input (`SessionProperties.TransportErrorReported`) | high; not executed | UploadSession.Session.OnTransportErrorAsWritten | UploadSession.Session.OnTransportError |
| claude-portfolio-reviewer.php:355 | `store_claude_analysis` stores `wp_kses_post($_POST['analysis'])`. WordPress has slashed every `$_POST` value (`wp_magic_quotes`), and the handler never calls `wp_unslash`. So quotes and backslashes in the text outside tags reach the option with a backslash in front (`ResultStore.AddSlashesLengthens`) | an analysis containing "it's": the option holds "it\'s", and the shortcode shows the backslash (`ResultStore.ApostropheStoredEscaped`) | store `wp_kses_post(wp_unslash($_POST['analysis']))`, which keeps the text as posted (`ResultStore.StripAddSlashes`) | medium; depends on WordPress's slashing, which is outside this repository; not executed | ResultStore.SiteOptions.StoreAnalysisAsWritten | ResultStore.SiteOptions.StoreAnalysis |
