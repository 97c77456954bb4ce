/** The plugin's persistent state on the server: the two WordPress options
    it uses, `claude_api_key` and `claude_latest_analysis`. The latter is
    a single global slot written by the `store_analysis` AJAX action
    (`store_claude_analysis`) and read by the `[claude_feedback_display]`
    shortcode (`claude_feedback_display_shortcode`).

    `wp_kses_post` is a parameter (`sanitize`); the nonce check is a
    boolean; the rest of the shortcode's markup and its stylesheet are not
    modelled, only which of its two outputs it produces and with what
    content. */
module ResultStore {
  import opened Common

  const NoAnalysisData: string := "No analysis data received"

  /** What the shortcode returns while the slot is falsy (line 315). */
  const NoAnalysisYet: string :=
    "<div class=\"claude-feedback\">" + "No analysis available yet. Please upload a document first." + "</div>"

  /** The characters PHP's `addslashes` escapes: single and double quote,
      backslash and NUL. */
  predicate NeedsSlash(c: char)
  {
    c == '\'' || c == '"' || c == '\\' || c == '\0'
  }

  /** What `addslashes` writes for one character. */
  function Escaped(c: char): string
  {
    if c == '\0' then "\\0" else if NeedsSlash(c) then ['\\', c] else [c]
  }

  /** PHP's `addslashes`. WordPress applies it (`wp_magic_quotes`) to every
      `$_POST` value before any handler runs. */
  function AddSlashes(s: string): string
  {
    if s == [] then [] else Escaped(s[0]) + AddSlashes(s[1..])
  }

  /** PHP's `stripslashes`, which `wp_unslash` applies: a backslash is
      dropped and the character after it kept (`\0` gives NUL back); a
      trailing lone backslash is dropped. */
  function StripSlashes(s: string): string
  {
    if s == [] then []
    else if s[0] != '\\' then [s[0]] + StripSlashes(s[1..])
    else if |s| == 1 then []
    else (if s[1] == '0' then ['\0'] else [s[1]]) + StripSlashes(s[2..])
  }

  /** `wp_unslash` undoes the slashing WordPress adds. */
  lemma {:induction false} StripAddSlashes(s: string)
    ensures StripSlashes(AddSlashes(s)) == s
  {
    if s != [] {
      var rest := AddSlashes(s[1..]);
      var e := Escaped(s[0]);
      assert AddSlashes(s) == e + rest;
      if NeedsSlash(s[0]) {
        assert (e + rest)[0] == '\\' && (e + rest)[1] == e[1] && (e + rest)[2..] == rest;
      } else {
        assert (e + rest)[0] == s[0] && (e + rest)[1..] == rest;
      }
      StripAddSlashes(s[1..]);
      assert s == [s[0]] + s[1..];
    }
  }

  /** Slashing never shortens a string, and lengthens every string that
      holds a quote, a backslash or a NUL: such a value is not what the
      page posted. */
  lemma {:induction false} AddSlashesLengthens(s: string)
    ensures |AddSlashes(s)| >= |s|
    ensures (exists i :: 0 <= i < |s| && NeedsSlash(s[i])) ==> |AddSlashes(s)| > |s|
  {
    if s != [] {
      AddSlashesLengthens(s[1..]);
      if exists i :: 0 <= i < |s| && NeedsSlash(s[i]) {
        var i :| 0 <= i < |s| && NeedsSlash(s[i]);
        if i > 0 {
          assert NeedsSlash(s[1..][i - 1]);
        }
      }
    }
  }

  /** The reply of `store_analysis`: `wp_send_json_success()` without
      data, or `wp_send_json_error` with a message. */
  datatype StoreReply = Stored | Refused(message: string)

  /** The output of the display shortcode: the fixed placeholder, or the
      feedback panel around the given (sanitised) HTML. */
  datatype Display = Placeholder(html: string) | FeedbackPanel(content: string)

  class SiteOptions {
    /** `get_option('claude_api_key')`; None when the option is unset. */
    var apiKey: Option<string>
    /** `get_option('claude_latest_analysis')`; None when the option is unset. */
    var latestAnalysis: Option<string>

    /** A site whose settings page saved `apiKey` and where no analysis has
        been stored yet. */
    constructor (apiKey: Option<string>)
      ensures this.apiKey == apiKey && latestAnalysis == None
    {
      this.apiKey := apiKey;
      latestAnalysis := None;
    }

    /** `store_claude_analysis` (lines 346-357) as written. `posted` is
        the `analysis` field as the page sent it; the handler reads it as
        `$_POST['analysis']`, that is after `wp_magic_quotes` slashed it,
        and stores it without `wp_unslash`. With a valid nonce and the
        field present, the slot is overwritten with the sanitised slashed
        text; otherwise the request ends with the first failing guard's
        message and the slot keeps its value. The API key option is never
        touched. */
    method StoreAnalysisAsWritten(tokenOk: bool, posted: Option<string>, sanitize: string -> string)
      returns (r: StoreReply)
      modifies this`latestAnalysis
      ensures r.Stored? <==> FirstFailure([Check(tokenOk, SecurityFailed), Check(posted.Some?, NoAnalysisData)]).None?
      ensures r.Refused? ==> Some(r.message) == FirstFailure([Check(tokenOk, SecurityFailed), Check(posted.Some?, NoAnalysisData)])
      ensures r.Stored? ==> posted.Some? && latestAnalysis == Some(sanitize(AddSlashes(posted.value)))
      ensures r.Refused? ==> latestAnalysis == old(latestAnalysis)
    {
      if !tokenOk {
        return Refused(SecurityFailed);
      }
      if posted.None? {
        return Refused(NoAnalysisData);
      }
      var field := AddSlashes(posted.value);
      latestAnalysis := Some(sanitize(field));
      r := Stored;
    }

    /** `store_claude_analysis` with the field unslashed before it is
        sanitised: the slot then holds the sanitised text the page posted.
        Guards, replies and frame are those of the code as written. */
    method StoreAnalysis(tokenOk: bool, posted: Option<string>, sanitize: string -> string)
      returns (r: StoreReply)
      modifies this`latestAnalysis
      ensures r.Stored? <==> FirstFailure([Check(tokenOk, SecurityFailed), Check(posted.Some?, NoAnalysisData)]).None?
      ensures r.Refused? ==> Some(r.message) == FirstFailure([Check(tokenOk, SecurityFailed), Check(posted.Some?, NoAnalysisData)])
      ensures r.Stored? ==> posted.Some? && latestAnalysis == Some(sanitize(posted.value))
      ensures r.Refused? ==> latestAnalysis == old(latestAnalysis)
    {
      if !tokenOk {
        return Refused(SecurityFailed);
      }
      if posted.None? {
        return Refused(NoAnalysisData);
      }
      var field := AddSlashes(posted.value);
      StripAddSlashes(posted.value);
      latestAnalysis := Some(sanitize(StripSlashes(field)));
      r := Stored;
    }

    /** `claude_feedback_display_shortcode` (lines 311-341): the
        placeholder exactly when the stored value is falsy (unset, "" or
        "0"), and otherwise the stored value passed through the sanitiser
        once more. */
    method DisplayFeedback(sanitize: string -> string) returns (d: Display)
      ensures d.Placeholder? <==> PhpFalsy(latestAnalysis)
      ensures d.Placeholder? ==> d.html == NoAnalysisYet
      ensures d.FeedbackPanel? ==> d.content == sanitize(latestAnalysis.value)
    {
      if PhpFalsy(latestAnalysis) {
        return Placeholder(NoAnalysisYet);
      }
      d := FeedbackPanel(sanitize(latestAnalysis.value));
    }
  }

  /** The last successful store wins: after storing an analysis whose
      sanitised form is truthy, the shortcode shows it, whatever was stored
      before, and the API key is unchanged. */
  method StoreThenDisplay(site: SiteOptions, analysis: string, sanitize: string -> string)
      returns (d: Display)
    modifies site
    requires !PhpFalsy(Some(sanitize(analysis)))
    ensures site.apiKey == old(site.apiKey)
    ensures site.latestAnalysis == Some(sanitize(analysis))
    ensures d == FeedbackPanel(sanitize(sanitize(analysis)))
  {
    var r := site.StoreAnalysis(true, Some(analysis), sanitize);
    d := site.DisplayFeedback(sanitize);
  }

  /** The same sequence against the store handler as written: what the
      shortcode shows is the slashed analysis, sanitised twice. */
  method StoreThenDisplayAsWritten(site: SiteOptions, analysis: string, sanitize: string -> string)
      returns (d: Display)
    modifies site
    requires !PhpFalsy(Some(sanitize(AddSlashes(analysis))))
    ensures site.apiKey == old(site.apiKey)
    ensures site.latestAnalysis == Some(sanitize(AddSlashes(analysis)))
    ensures d == FeedbackPanel(sanitize(sanitize(AddSlashes(analysis))))
  {
    var r := site.StoreAnalysisAsWritten(true, Some(analysis), sanitize);
    d := site.DisplayFeedback(sanitize);
  }

  /** As written, an analysis with an apostrophe is stored with a
      backslash in front of it. `sanitize` is the identity here, which is
      what `wp_kses_post` does to text without tags or entities; the
      corrected handler stores the text as posted. */
  method ApostropheStoredEscaped() returns (asWritten: Option<string>, corrected: Option<string>)
    ensures asWritten == Some("it\\'s")
    ensures corrected == Some("it's")
  {
    var sanitize := (s: string) => s;
    assert AddSlashes("'s") == Escaped('\'') + AddSlashes("s");
    assert AddSlashes("it's") == "it\\'s";
    var site := new SiteOptions(Some("key"));
    var r := site.StoreAnalysisAsWritten(true, Some("it's"), sanitize);
    asWritten := site.latestAnalysis;
    r := site.StoreAnalysis(true, Some("it's"), sanitize);
    corrected := site.latestAnalysis;
  }
}
