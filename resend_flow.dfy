/**
 * The resend round trip: the page posts `{ email, redirectTo }` to the resend
 * endpoint, the endpoint answers, and the page turns the answer into its
 * message. The page never talks to the provider itself.
 */
module ResendFlow {
  import opened Wrappers
  import opened JsValues
  import VerifyPage
  import ResendProxy

  /** The JSON body of the page's POST, as the endpoint receives it. */
  function PostedBody(post: VerifyPage.ResendPost): (b: JsValue)
    ensures b.Obj? && b.fields.Keys == {"email", "redirectTo"}
    ensures At(b, ["email"]) == Str(post.email) && At(b, ["redirectTo"]) == Str(post.redirectTo)
  {
    Obj2("email", Str(post.email), "redirectTo", Str(post.redirectTo))
  }

  /** How the page reads the endpoint's response: `res.ok` for a 2xx status, else `body?.error` if it is a string. */
  function AsSeenByPage(resp: ResendProxy.Response): (o: VerifyPage.ResendOutcome)
    ensures o.HttpOk? <==> 200 <= resp.status < 300
    ensures o.HttpErr? ==> (o.bodyError.Some? <==> Get(resp.body, "error").Str?)
    ensures o.HttpErr? && o.bodyError.Some? ==> Get(resp.body, "error") == Str(o.bodyError.value)
    ensures !o.Threw?
  {
    if 200 <= resp.status < 300 then VerifyPage.HttpOk
    else
      var error := Get(resp.body, "error");
      VerifyPage.HttpErr(if error.Str? then Some(error.s) else None)
  }

  /**
   * A resend from the page with a non-empty email: the endpoint asks the
   * provider for a sign-up link to that email, redirecting to the page's own
   * `/verify`, exactly when the server is configured; the page then shows the
   * success text, the provider's or the exception's message verbatim, or the
   * endpoint's configuration error.
   */
  lemma RoundTrip(p: VerifyPage.Page, origin: string, env: ResendProxy.ServerEnv, outcome: ResendProxy.LinkOutcome)
    requires !p.isResending && p.email != ""
    ensures var started := VerifyPage.AfterResendStart(p, origin);
      var post := started.posts[|started.posts| - 1];
      var h := ResendProxy.Handler("POST", PostedBody(post), env, outcome);
      var r := VerifyPage.AfterResendSettle(started, AsSeenByPage(h.response));
      && (h.call.Some? <==> ResendProxy.ConfigPresent(env))
      && (h.call.Some? ==> h.call.value == ResendProxy.LinkRequest("signup", Str(p.email), Str(origin + "/verify")))
      && (!ResendProxy.ConfigPresent(env) ==> r.message == Some(ResendProxy.MissingConfigText))
      && (ResendProxy.ConfigPresent(env) && outcome.Returned? && outcome.error.None? ==>
            r.message == Some(VerifyPage.ResentText))
      && (ResendProxy.ConfigPresent(env) && outcome.Returned? && outcome.error.Some? && outcome.error.value != "" ==>
            r.message == Some(outcome.error.value))
      && (var raisedError := ResendProxy.ConfigPresent(env) && outcome.Raised? && outcome.thrown.ErrorInstance?;
          raisedError && outcome.thrown.message != "" ==> r.message == Some(outcome.thrown.message))
      && (var raisedOther := ResendProxy.ConfigPresent(env) && outcome.Raised? && outcome.thrown.OtherValue?;
          raisedOther && outcome.thrown.asString != "" ==> r.message == Some(outcome.thrown.asString))
      && (ResendProxy.ConfigPresent(env) && outcome.Returned? && outcome.error == Some("") ==>
            r.message == Some(VerifyPage.ResendFallbackText))
      && (ResendProxy.ConfigPresent(env)
          && (outcome == ResendProxy.Raised(ResendProxy.ErrorInstance(""))
              || outcome == ResendProxy.Raised(ResendProxy.OtherValue(""))) ==>
            r.message == Some(VerifyPage.ResendFallbackText))
      && r.status == p.status && !r.isResending
  {
  }
}
