/** The analysis endpoint of the plugin (`claude_analyze_document`, the
    `analyze_document` AJAX action) and the settings page's key test
    (`test_claude_api_key`), as pure functions.

    WordPress and the network are inputs: whether the nonce check passed is
    a boolean, `wp_check_filetype` is a function from file name to type,
    the option `claude_api_key` is an optional string, and the reply of
    `wp_remote_post` is an `ApiOutcome`. Because `wp_send_json_error` ends
    the request, each guard that fails ends the handler with its message;
    `Prepare` is that chain of guards and yields either the message or the
    request that would be sent, and `Analyze` adds the mapping of the API's
    answer to the JSON reply. */
module Gateway {
  import opened Common
  import Base64

  /** Upload limit of the endpoint, 10 MiB. */
  const MaxUploadBytes: int := 10 * 1024 * 1024

  const NoDocument: string := "No document uploaded"
  const TooLarge: string := "File size must be under 10MB"
  const InvalidType: string := "Invalid file type. " + "Please upload an image (JPEG/PNG) or PDF."
  const NoApiKey: string := "API key not configured"
  const ConnectErrorPrefix: string := "Error connecting to Claude API: "
  const ApiErrorPrefix: string := "API Error: "

  const ApiModel: string := "claude-3-5-sonnet-20241022"
  const ApiVersion: string := "2023-06-01"


  /** `$_FILES['document']`: the client's file name, the size PHP reports,
      and the bytes of the temporary file. */
  datatype Upload = Upload(name: string, size: int, contents: seq<byte>)

  /** The server's allow-list, keyed by the type `wp_check_filetype` derives
      from the file name (None when it knows no type for the name). */
  predicate ServerAllowed(fileType: Option<string>)
  {
    fileType.Some? && fileType.value in {"image/jpeg", "image/png", "application/pdf"}
  }

  datatype BlockType = Document | Image

  /** The instruction sent after a PDF (line 257). */
  const DocumentPrompt: string :=
    "Please analyze this portfolio image and provide/enumerate detailed, industry-ready recommendations and feedback. " +
    "Consider visual hierarchy, information architecture, storytelling, and design best practices. " +
    "Format your response by encapsulating each sentence with <p> and </p> tags. " +
    "Separate different ideas with <br> tags in between. " +
    "Separate headings with <br>. " +
    "Add line breaks before bullet points if you are going to use it. " +
    "Utilize <strong> and <i> to emphasize keywords. " +
    "No need to introduce your response."
  /** The instruction sent after an image (line 272), written out separately
      in the source. */
  const ImagePrompt: string :=
    "Please analyze this portfolio image and provide/enumerate detailed, industry-ready recommendations and feedback. " +
    "Consider visual hierarchy, information architecture, storytelling, and design best practices. " +
    "Format your response by encapsulating each sentence with <p> and </p> tags. " +
    "Separate different ideas with <br> tags in between. " +
    "Separate headings with <br>. " +
    "Add line breaks before bullet points if you are going to use it. " +
    "Utilize <strong> and <i> to emphasize keywords. " +
    "No need to introduce your response."
  /** The instruction every analysis request ends with. */
  const Prompt: string := DocumentPrompt

  /** A content block of the Messages request: the uploaded file as a
      base64 source (`'type' => 'base64'`), or the instruction text. */
  datatype ContentBlock =
    | MediaBlock(blockType: BlockType, mediaType: string, data: string)
    | TextBlock(text: string)

  /** The `content` of the single user message: a block list, a plain
      string (the key test), or PHP's undefined `$message_content`. */
  datatype MessageContent = Blocks(blocks: seq<ContentBlock>) | PlainText(text: string) | Undefined

  /** What `wp_remote_post` is asked to send to the Messages endpoint:
      the `x-api-key` and `anthropic-version` headers, the model, one
      message with role "user", `max_tokens`, and the timeout if one is given. */
  datatype ApiRequest = ApiRequest(
    apiKey: string, version: string, model: string,
    role: string, content: MessageContent, maxTokens: nat, timeout: Option<nat>)

  /** What comes back: a `WP_Error`, a decoded body with an `error` entry,
      or a body whose `content[0].text` is the answer. */
  datatype ApiOutcome = TransportError(message: string) | ErrorBody(message: string) | ContentBody(text: string)

  /** Where the chain of guards ends: with an error message, or with a
      request to send. */
  datatype Decision = Reject(message: string) | Send(request: ApiRequest)

  /** The message content built for a checked type (lines 242-275): the
      file, base64-encoded, as a `document` block for a PDF or an `image`
      block for a JPEG or PNG, then the prompt. For any other type neither
      branch runs and `$message_content` stays undefined. */
  function MessageContentFor(fileType: string, contents: seq<byte>): (r: MessageContent)
    ensures r.Undefined? <==> !ServerAllowed(Some(fileType))
    ensures r.Blocks? ==> |r.blocks| == 2 && r.blocks[1] == TextBlock(Prompt)
  {
    var data := Base64.Encode(contents);
    if fileType == "application/pdf" then
      Blocks([MediaBlock(Document, fileType, data), TextBlock(DocumentPrompt)])
    else if fileType in ["image/jpeg", "image/png"] then
      Blocks([MediaBlock(Image, fileType, data), TextBlock(ImagePrompt)])
    else
      Undefined
  }

  /** The guards of `claude_analyze_document`, in order, each with the
      message it ends the request with. Guards after a failing one are
      never evaluated; their value for a missing upload is arbitrary. */
  function GatewayChecks(tokenOk: bool, upload: Option<Upload>,
                         typeOf: string -> Option<string>, apiKey: Option<string>): seq<Check>
  {
    [ Check(tokenOk, SecurityFailed),
      Check(upload.Some?, NoDocument),
      Check(upload.None? || upload.value.size <= MaxUploadBytes, TooLarge),
      Check(upload.None? || ServerAllowed(typeOf(upload.value.name)), InvalidType),
      Check(!PhpFalsy(apiKey), NoApiKey) ]
  }

  /** The handler up to the call of `wp_remote_post` (lines 207-294). */
  function Prepare(tokenOk: bool, upload: Option<Upload>,
                   typeOf: string -> Option<string>, apiKey: Option<string>): (d: Decision)
    ensures d.Reject? ==> d.message in {SecurityFailed, NoDocument, TooLarge, InvalidType, NoApiKey}
    ensures d.Send? ==> upload.Some? && ServerAllowed(typeOf(upload.value.name))
    ensures d.Send? ==> d.request.content.Blocks? && |d.request.content.blocks| == 2 &&
                        d.request.content.blocks[1] == TextBlock(Prompt)
  {
    if !tokenOk then Reject(SecurityFailed)
    else if upload.None? then Reject(NoDocument)
    else if upload.value.size > MaxUploadBytes then Reject(TooLarge)
    else if !ServerAllowed(typeOf(upload.value.name)) then Reject(InvalidType)
    else if PhpFalsy(apiKey) then Reject(NoApiKey)
    else
      var fileType := typeOf(upload.value.name).value;
      Send(ApiRequest(apiKey.value, ApiVersion, ApiModel, "user",
                      MessageContentFor(fileType, upload.value.contents), 1024, Some(60)))
  }

  /** The mapping of the API's answer to the JSON reply (lines 296-306). */
  function Respond(outcome: ApiOutcome): (r: Reply)
    ensures r.success <==> outcome.ContentBody?
    ensures outcome.TransportError? ==> r.data == ConnectErrorPrefix + outcome.message
    ensures outcome.ErrorBody? ==> r.data == ApiErrorPrefix + outcome.message
    ensures outcome.ContentBody? ==> r.data == outcome.text
  {
    match outcome
    case TransportError(message) => Reply(false, ConnectErrorPrefix + message)
    case ErrorBody(message) => Reply(false, ApiErrorPrefix + message)
    case ContentBody(text) => Reply(true, text)
  }

  /** The whole `analyze_document` action: the reply the browser receives,
      given what the API would answer if it were called. */
  function Analyze(tokenOk: bool, upload: Option<Upload>, typeOf: string -> Option<string>,
                   apiKey: Option<string>, outcome: ApiOutcome): (r: Reply)
    ensures r.success ==> outcome.ContentBody? && r.data == outcome.text
    ensures (tokenOk && upload.Some? && upload.value.size <= MaxUploadBytes &&
             ServerAllowed(typeOf(upload.value.name)) && !PhpFalsy(apiKey)) ==> r == Respond(outcome)
    ensures Prepare(tokenOk, upload, typeOf, apiKey).Reject? ==>
              r == Reply(false, Prepare(tokenOk, upload, typeOf, apiKey).message)
  {
    match Prepare(tokenOk, upload, typeOf, apiKey)
    case Reject(message) => Reply(false, message)
    case Send(_) => Respond(outcome)
  }

  // ---- properties of the endpoint ----

  /** The chain stops at its first failing guard: the handler rejects
      exactly when some guard fails, with the message of the first one, and
      otherwise sends a request built for the checked type. */
  lemma PrepareFollowsChecks(tokenOk: bool, upload: Option<Upload>,
                             typeOf: string -> Option<string>, apiKey: Option<string>)
    ensures var checks := GatewayChecks(tokenOk, upload, typeOf, apiKey);
            var d := Prepare(tokenOk, upload, typeOf, apiKey);
            (d.Reject? <==> FirstFailure(checks).Some?) &&
            (d.Reject? ==> FirstFailure(checks) == Some(d.message))
  {
    var checks := GatewayChecks(tokenOk, upload, typeOf, apiKey);
    if !tokenOk {
      FirstFailureAt(checks, 0);
    } else if upload.None? {
      FirstFailureAt(checks, 1);
    } else if upload.value.size > MaxUploadBytes {
      FirstFailureAt(checks, 2);
    } else if !ServerAllowed(typeOf(upload.value.name)) {
      FirstFailureAt(checks, 3);
    } else if PhpFalsy(apiKey) {
      FirstFailureAt(checks, 4);
    } else {
      assert forall k :: 0 <= k < |checks| ==> checks[k].passes;
    }
  }

  /** Every type that passes the allow-list is handled by exactly one of
      the two branches: the content is two blocks, the file first (a
      `document` for a PDF, an `image` otherwise) carrying the checked type
      and the base64 text that decodes to the uploaded bytes, then the
      prompt. */
  lemma ContentForAllowedType(fileType: string, contents: seq<byte>)
    requires ServerAllowed(Some(fileType))
    ensures var c := MessageContentFor(fileType, contents);
            c.Blocks? && |c.blocks| == 2 &&
            c.blocks[0].MediaBlock? &&
            (c.blocks[0].blockType == Document <==> fileType == "application/pdf") &&
            c.blocks[0].mediaType == fileType &&
            Base64.Decode(c.blocks[0].data) == Some(contents) &&
            c.blocks[1] == TextBlock(Prompt)
  {
    Base64.DecodeEncode(contents);
  }

  /** The two literals of the PDF branch and the image branch are the
      same text, so both kinds of upload are sent the same prompt. */
  lemma SameInstructionForDocumentsAndImages()
    ensures DocumentPrompt == ImagePrompt == Prompt
  {
  }

  /** A request is sent exactly when every guard passes; it carries the
      configured key, the request parameters of lines 277-294, and the
      content built for the type `wp_check_filetype` derived. */
  lemma SendExactlyWhenAllPass(tokenOk: bool, upload: Option<Upload>,
                               typeOf: string -> Option<string>, apiKey: Option<string>)
    ensures var d := Prepare(tokenOk, upload, typeOf, apiKey);
            d.Send? <==> (tokenOk && upload.Some? && upload.value.size <= MaxUploadBytes &&
                          ServerAllowed(typeOf(upload.value.name)) && !PhpFalsy(apiKey))
    ensures var d := Prepare(tokenOk, upload, typeOf, apiKey);
            d.Send? ==>
              && d.request.apiKey == apiKey.value && apiKey.value != ""
              && d.request.version == ApiVersion && d.request.model == ApiModel
              && d.request.role == "user" && d.request.maxTokens == 1024 && d.request.timeout == Some(60)
              && d.request.content.Blocks?
              && Base64.Decode(d.request.content.blocks[0].data) == Some(upload.value.contents)
  {
    var d := Prepare(tokenOk, upload, typeOf, apiKey);
    if d.Send? {
      ContentForAllowedType(typeOf(upload.value.name).value, upload.value.contents);
    }
  }

  /** When a guard fails, the reply is that guard's message whatever the
      API would have said: no request is built, so nothing is sent. */
  lemma RejectedBeforeAnyCall(tokenOk: bool, upload: Option<Upload>, typeOf: string -> Option<string>,
                              apiKey: Option<string>, o1: ApiOutcome, o2: ApiOutcome)
    requires FirstFailure(GatewayChecks(tokenOk, upload, typeOf, apiKey)).Some?
    ensures Analyze(tokenOk, upload, typeOf, apiKey, o1) == Analyze(tokenOk, upload, typeOf, apiKey, o2)
    ensures Analyze(tokenOk, upload, typeOf, apiKey, o1)
         == Reply(false, FirstFailure(GatewayChecks(tokenOk, upload, typeOf, apiKey)).value)
  {
    PrepareFollowsChecks(tokenOk, upload, typeOf, apiKey);
  }

  /** A bad nonce is answered with "Security check failed" whatever else
      the request holds. */
  lemma SecurityCheckComesFirst(upload: Option<Upload>, typeOf: string -> Option<string>,
                                apiKey: Option<string>, outcome: ApiOutcome)
    ensures Analyze(false, upload, typeOf, apiKey, outcome) == Reply(false, SecurityFailed)
  {
  }

  /** The size guard rejects only sizes strictly above 10485760 bytes: a
      file of exactly 10 MiB passes it. */
  lemma SizeGuardIsStrict(typeOf: string -> Option<string>, apiKey: Option<string>, name: string,
                          contents: seq<byte>, size: int)
    ensures Prepare(true, Some(Upload(name, size, contents)), typeOf, apiKey) == Reject(TooLarge)
        <==> size > 10485760
  {
  }

  /** The messages of the API outcomes cannot be mistaken for a guard's. */
  lemma OutcomeMessagesDifferFromGuards(outcome: ApiOutcome)
    requires !outcome.ContentBody?
    ensures Respond(outcome).data !in {SecurityFailed, NoDocument, TooLarge, InvalidType, NoApiKey}
  {
    var d := Respond(outcome).data;
    assert SecurityFailed[0] == 'S';
    assert NoDocument[0] == 'N';
    assert TooLarge[0] == 'F';
    assert InvalidType[0] == 'I';
    assert NoApiKey[4] == 'k';
    if outcome.TransportError? {
      assert d[0] == 'E';
    } else {
      assert d[0] == 'A' && d[4] == 'E';
    }
  }

  /** Each error message of the chain names its guard: the reply carries
      a given guard's message exactly when the guards before it pass and it
      fails. */
  lemma RejectionMessageIdentifiesGuard(tokenOk: bool, upload: Option<Upload>,
                                        typeOf: string -> Option<string>, apiKey: Option<string>,
                                        outcome: ApiOutcome)
    ensures var r := Analyze(tokenOk, upload, typeOf, apiKey, outcome);
            && (r == Reply(false, SecurityFailed) <==> !tokenOk)
            && (r == Reply(false, NoDocument) <==> tokenOk && upload.None?)
            && (r == Reply(false, TooLarge) <==> tokenOk && upload.Some? && upload.value.size > MaxUploadBytes)
            && (r == Reply(false, InvalidType) <==>
                  tokenOk && upload.Some? && upload.value.size <= MaxUploadBytes &&
                  !ServerAllowed(typeOf(upload.value.name)))
            && (r == Reply(false, NoApiKey) <==>
                  tokenOk && upload.Some? && upload.value.size <= MaxUploadBytes &&
                  ServerAllowed(typeOf(upload.value.name)) && PhpFalsy(apiKey))
  {
    if Prepare(tokenOk, upload, typeOf, apiKey).Send? && !outcome.ContentBody? {
      OutcomeMessagesDifferFromGuards(outcome);
    }
  }

  // ---- test_claude_api_key ----

  /** The result of the settings page's key test: `true`, or a `WP_Error`
      with its code and message. */
  datatype KeyTest = KeyWorks | WpError(code: string, message: string)

  /** The request the key test sends (lines 103-119), if it sends one: a
      falsy key ends the test before any request is made. */
  function KeyTestRequest(apiKey: Option<string>): (r: Option<ApiRequest>)
    ensures r.None? <==> PhpFalsy(apiKey)
    ensures r.Some? ==> r.value.apiKey == apiKey.value && r.value.apiKey != ""
    ensures r.Some? ==> r.value.content == PlainText("Test message") && r.value.maxTokens == 10
    ensures r.Some? ==> r.value.model == ApiModel && r.value.version == ApiVersion && r.value.timeout == None
  {
    if PhpFalsy(apiKey) then None
    else Some(ApiRequest(apiKey.value, ApiVersion, ApiModel, "user", PlainText("Test message"), 10, None))
  }

  /** `test_claude_api_key` (lines 96-132). */
  function TestApiKey(apiKey: Option<string>, outcome: ApiOutcome): (r: KeyTest)
    ensures r == KeyWorks <==> KeyTestRequest(apiKey).Some? && outcome.ContentBody?
    ensures PhpFalsy(apiKey) ==> r == WpError("no_api_key", "API key is not configured.")
    ensures !PhpFalsy(apiKey) && !outcome.ContentBody? ==> r == WpError("api_error", outcome.message)
  {
    match KeyTestRequest(apiKey)
    case None => WpError("no_api_key", "API key is not configured.")
    case Some(_) =>
      match outcome
      case TransportError(message) => WpError("api_error", message)
      case ErrorBody(message) => WpError("api_error", message)
      case ContentBody(_) => KeyWorks
  }

  /** The key test and the analysis endpoint agree on what a configured
      key is: for an upload that passes the earlier guards, the endpoint
      stops with "API key not configured" exactly when the key test would
      send nothing. */
  lemma KeyGuardsAgree(upload: Upload, typeOf: string -> Option<string>, apiKey: Option<string>)
    requires upload.size <= MaxUploadBytes && ServerAllowed(typeOf(upload.name))
    ensures Prepare(true, Some(upload), typeOf, apiKey) == Reject(NoApiKey)
        <==> KeyTestRequest(apiKey).None?
    ensures Prepare(true, Some(upload), typeOf, apiKey).Send? ==>
              KeyTestRequest(apiKey).Some? &&
              Prepare(true, Some(upload), typeOf, apiKey).request.apiKey == KeyTestRequest(apiKey).value.apiKey
  {
  }
}
