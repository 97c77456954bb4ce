/** How the browser's checks and the server's guards relate, and what the
    page shows for each reply of the analysis endpoint. */
module Tiers {
  import opened Common
  import Gateway
  import UploadSession
  import SessionProperties

  /** Every type the server accepts is accepted by the browser too. */
  lemma ServerTypesAreClientTypes(t: string)
    ensures Gateway.ServerAllowed(Some(t)) ==> UploadSession.ClientAllowed(t)
  {
  }

  /** The browser's list is wider by exactly one type: `image/jpg`. */
  lemma OnlyClientAcceptsJpg(t: string)
    ensures UploadSession.ClientAllowed(t) && !Gateway.ServerAllowed(Some(t)) <==> t == "image/jpg"
  {
  }

  /** Both tiers reject exactly the sizes above 10485760 bytes, so a file
      the browser lets through never fails the server's size guard. */
  lemma SameSizeBound(size: nat)
    ensures size <= UploadSession.MaxFileSize <==> size <= Gateway.MaxUploadBytes
    ensures size <= UploadSession.MaxFileSize <==> size <= 10485760
  {
  }

  /** What the page shows for the endpoint's reply: a request that passes
      every guard and gets a content answer is shown; on success the
      feedback is the API's answer text and the same text is posted to be
      stored; on any failure the page only alerts with the reply's
      message, which for a failed guard is that guard's message. */
  lemma PageShowsEndpointReply(s: UploadSession.SessionState, tokenOk: bool, upload: Option<Gateway.Upload>,
                               typeOf: string -> Option<string>, apiKey: Option<string>,
                               outcome: Gateway.ApiOutcome)
    ensures var reply := Gateway.Analyze(tokenOk, upload, typeOf, apiKey, outcome);
            var t := UploadSession.Replied(s, reply);
            reply.success ==>
              && outcome.ContentBody?
              && t.feedback == outcome.text
              && t.sent == s.sent + [UploadSession.StoreRequest(outcome.text, s.nonce)]
    ensures var reply := Gateway.Analyze(tokenOk, upload, typeOf, apiKey, outcome);
            var t := UploadSession.Replied(s, reply);
            !tokenOk ==> t == s.(alerts := s.alerts + [UploadSession.AnalysisErrorPrefix + SecurityFailed])
    ensures var t := UploadSession.Replied(s, Gateway.Analyze(tokenOk, upload, typeOf, apiKey, outcome));
            (tokenOk && upload.Some? && upload.value.size <= Gateway.MaxUploadBytes &&
             Gateway.ServerAllowed(typeOf(upload.value.name)) && !PhpFalsy(apiKey) && outcome.ContentBody?) ==>
              && t.analysisVisible
              && t.feedback == outcome.text
              && t.sent == s.sent + [UploadSession.StoreRequest(outcome.text, s.nonce)]
  {
    var reply := Gateway.Analyze(tokenOk, upload, typeOf, apiKey, outcome);
    if reply.success {
      SessionProperties.SuccessReplyScreen(s, reply.data);
    }
  }
}
