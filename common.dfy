/** Values shared by the server side (PHP) and the browser side (JavaScript)
    of the portfolio reviewer: optional values, the "first failing check
    wins" rule that both validators follow, PHP's notion of an empty
    string, and the JSON reply the AJAX endpoints send back. */
module Common {

  datatype Option<+T> = None | Some(value: T)

  /** The message both AJAX actions end with when
      `check_ajax_referer('claude_upload_nonce', 'claude_nonce', false)`
      fails. */
  const SecurityFailed: string := "Security check failed"

  /** A byte of an uploaded file. */
  newtype byte = x: int | 0 <= x < 256

  /** One guard of an early-exit chain: whether it passes, and the message
      the request ends with when it does not. */
  datatype Check = Check(passes: bool, message: string)

  /** The message of the first check that fails, or None when all pass.
      Both the analysis endpoint and the browser validator stop at their
      first failing check, so their outcome is this function of their
      checks listed in source order. */
  function FirstFailure(checks: seq<Check>): (r: Option<string>)
    ensures r.None? <==> forall k :: 0 <= k < |checks| ==> checks[k].passes
    ensures r.Some? ==> exists k :: 0 <= k < |checks| && !checks[k].passes && checks[k].message == r.value
  {
    if |checks| == 0 then None
    else if !checks[0].passes then Some(checks[0].message)
    else
      var rest := FirstFailure(checks[1..]);
      assert forall k :: 1 <= k < |checks| ==> checks[k] == checks[1..][k - 1];
      rest
  }

  /** A failing check decides the outcome exactly when every check before
      it passes: later checks are never consulted. */
  lemma {:induction false} FirstFailureAt(checks: seq<Check>, k: nat)
    requires k < |checks| && !checks[k].passes
    requires forall j :: 0 <= j < k ==> checks[j].passes
    ensures FirstFailure(checks) == Some(checks[k].message)
  {
    if k > 0 {
      assert checks[0].passes;
      FirstFailureAt(checks[1..], k - 1);
    }
  }

  /** PHP's `empty($s)` / `!$s` for an option or POST value holding a
      string: it is falsy when unset (`false`), empty, or the string "0". */
  predicate PhpFalsy(s: Option<string>)
  {
    s.None? || s.value == "" || s.value == "0"
  }

  /** The JSON body `{success: bool, data: string}` written by
      `wp_send_json_success` / `wp_send_json_error` and read by the browser
      as `response.success` and `response.data`. */
  datatype Reply = Reply(success: bool, data: string)

  /** Whether `prefix` begins `s` (JavaScript's `s.startsWith(prefix)`). */
  predicate StartsWith(s: string, prefix: string)
  {
    |prefix| <= |s| && s[..|prefix|] == prefix
  }
}
