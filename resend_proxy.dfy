/**
 * The resend endpoint (api/resend-verification.ts): a serverless handler that
 * holds the service-role key and asks the provider to issue a new sign-up
 * confirmation link. It is a chain of guards, each of which writes the one
 * response of the request and returns.
 */
module ResendProxy {
  import opened Wrappers
  import opened JsValues

  /** The server environment: `SUPABASE_URL`, `SUPABASE_SERVICE_ROLE_KEY` and `ORIGIN`, each possibly unset. */
  datatype ServerEnv = ServerEnv(supabaseUrl: Option<string>, serviceRoleKey: Option<string>, origin: Option<string>)

  /** A value thrown while awaiting the provider: an `Error` instance, or anything else together with `String(err)`. */
  datatype Thrown = ErrorInstance(message: string) | OtherValue(asString: string)

  /**
   * How `admin.generateLink` settles: it resolves to `{ data, error }` (an
   * error object, when present, carries its message), or it throws.
   */
  datatype LinkOutcome = Returned(data: JsValue, error: Option<string>) | Raised(thrown: Thrown)

  /** The arguments passed to `admin.generateLink`. */
  datatype LinkRequest = LinkRequest(linkType: string, email: JsValue, redirectTo: JsValue)

  /** The status code and the JSON body written with `res.status(…).json(…)`. */
  datatype Response = Response(status: nat, body: JsValue)

  /** One request's handling: its response, and the provider call it made, if any. */
  datatype Handled = Handled(response: Response, call: Option<LinkRequest>)

  const MethodNotAllowedText: string := "Method not allowed"
  const MissingEmailText: string := "Missing email"
  const MissingConfigText: string := "Missing SUPABASE_URL or SUPABASE_SERVICE_ROLE_KEY"

  /** The body `{ error: message }`. */
  function ErrorBody(message: string): (b: JsValue)
    ensures b.Obj? && b.fields.Keys == {"error"} && b.fields["error"] == Str(message)
  {
    Obj1("error", Str(message))
  }

  /** An environment string is truthy: set and non-empty. */
  predicate Present(v: Option<string>) {
    v.Some? && v.value != ""
  }

  /** Both server secrets are present. */
  predicate ConfigPresent(env: ServerEnv) {
    Present(env.supabaseUrl) && Present(env.serviceRoleKey)
  }

  /** `` `${ORIGIN || ''}/verify` ``: the default redirect target. */
  function DefaultRedirect(origin: Option<string>): (r: string)
    ensures |r| >= 7 && r[|r| - 7..] == "/verify"
    ensures Present(origin) ==> r[..|r| - 7] == origin.value
    ensures !Present(origin) ==> r == "/verify"
  {
    (if Present(origin) then origin.value else "") + "/verify"
  }

  /** `redirectTo || default`: the caller's target when truthy, else the default; never falsy. */
  function RedirectTarget(redirectTo: JsValue, origin: Option<string>): (r: JsValue)
    ensures Truthy(r)
    ensures Truthy(redirectTo) ==> r == redirectTo
    ensures !Truthy(redirectTo) ==> r == Str(DefaultRedirect(origin))
  {
    Or(redirectTo, Str(DefaultRedirect(origin)))
  }

  /** `const { email, redirectTo } = req.body || {}`: one field of the request body. */
  function BodyField(body: JsValue, key: string): (v: JsValue)
    ensures body.Obj? && key in body.fields ==> v == body.fields[key]
    ensures !(body.Obj? && key in body.fields) ==> v == Undefined
  {
    Get(Or(body, EmptyObj), key)
  }

  /** Every response is a 200 acknowledgement `{ ok: true, data }` or an error status with `{ error: <string> }`. */
  predicate WellFormed(resp: Response) {
    if resp.status == 200 then
      resp.body.Obj? && resp.body.fields.Keys == {"ok", "data"} && resp.body.fields["ok"] == Bool(true)
    else
      resp.status in {400, 405, 500} && resp.body.Obj? && resp.body.fields.Keys == {"error"}
      && resp.body.fields["error"].Str?
  }

  /**
   * The three guards, in the handler's order: the HTTP method, then the email, then
   * the configuration. A request that passes all three yields the provider
   * call; one that fails yields the response of the first guard it fails.
   */
  function Admit(httpMethod: string, body: JsValue, env: ServerEnv): (r: Result<LinkRequest, Response>)
    ensures httpMethod != "POST" ==> r == Err(Response(405, ErrorBody(MethodNotAllowedText)))
    ensures httpMethod == "POST" && !Truthy(BodyField(body, "email")) ==>
              r == Err(Response(400, ErrorBody(MissingEmailText)))
    ensures httpMethod == "POST" && Truthy(BodyField(body, "email")) && !ConfigPresent(env) ==>
              r == Err(Response(500, ErrorBody(MissingConfigText)))
    ensures r.Err? ==> WellFormed(r.error)
    ensures r.Ok? <==> httpMethod == "POST" && Truthy(BodyField(body, "email")) && ConfigPresent(env)
    ensures r.Ok? ==>
              r.value == LinkRequest("signup", BodyField(body, "email"),
                                     RedirectTarget(BodyField(body, "redirectTo"), env.origin))
  {
    if httpMethod != "POST" then Err(Response(405, ErrorBody(MethodNotAllowedText)))
    else
      var email := BodyField(body, "email");
      var redirectTo := BodyField(body, "redirectTo");
      if !Truthy(email) then Err(Response(400, ErrorBody(MissingEmailText)))
      else if !Present(env.supabaseUrl) || !Present(env.serviceRoleKey) then
        Err(Response(500, ErrorBody(MissingConfigText)))
      else
        Ok(LinkRequest("signup", email, Or(redirectTo, Str(DefaultRedirect(env.origin)))))
  }

  /** The response written once the provider call has settled. */
  function Complete(outcome: LinkOutcome): (resp: Response)
    ensures WellFormed(resp)
    ensures outcome.Returned? && outcome.error.Some? ==> resp == Response(400, ErrorBody(outcome.error.value))
    ensures outcome.Returned? && outcome.error.None? ==>
              resp.status == 200 && At(resp.body, ["ok"]) == Bool(true) && At(resp.body, ["data"]) == outcome.data
    ensures outcome.Raised? && outcome.thrown.ErrorInstance? ==> resp == Response(500, ErrorBody(outcome.thrown.message))
    ensures outcome.Raised? && outcome.thrown.OtherValue? ==> resp == Response(500, ErrorBody(outcome.thrown.asString))
  {
    match outcome
    case Returned(data, error) =>
      if error.Some? then Response(400, ErrorBody(error.value))
      else Response(200, Obj2("ok", Bool(true), "data", data))
    case Raised(thrown) =>
      var message := match thrown
        case ErrorInstance(m) => m
        case OtherValue(s) => s;
      Response(500, ErrorBody(message))
  }

  /**
   * The handler: exactly one response per request, the provider called at most
   * once and only for an admitted request, and each status code tied to the
   * condition that produces it.
   */
  function Handler(httpMethod: string, body: JsValue, env: ServerEnv, outcome: LinkOutcome): (h: Handled)
    ensures WellFormed(h.response)
    ensures h.call.Some? <==> Admit(httpMethod, body, env).Ok?
    ensures h.call.Some? ==> h.call.value.linkType == "signup" && h.call.value.email == BodyField(body, "email")
    ensures h.call.Some? ==> h.call.value.redirectTo == RedirectTarget(BodyField(body, "redirectTo"), env.origin)
    ensures h.call.Some? ==> h.response == Complete(outcome)
    ensures h.call.None? ==> Admit(httpMethod, body, env) == Err(h.response)
    ensures h.response.status == 405 <==> httpMethod != "POST"
    ensures h.response.status == 200 <==> h.call.Some? && outcome.Returned? && outcome.error.None?
    ensures h.response.status == 400 <==>
              httpMethod == "POST" && (!Truthy(BodyField(body, "email")) || (h.call.Some? && outcome.Returned? && outcome.error.Some?))
    ensures h.response.status == 500 <==>
              httpMethod == "POST" && Truthy(BodyField(body, "email")) && (!ConfigPresent(env) || outcome.Raised?)
  {
    match Admit(httpMethod, body, env)
    case Err(resp) => Handled(resp, None)
    case Ok(request) => Handled(Complete(outcome), Some(request))
  }

  /** A request without an email is told so even when the server is also misconfigured: the email guard comes first. */
  lemma MissingEmailBeforeMissingConfig(body: JsValue, env: ServerEnv, outcome: LinkOutcome)
    requires !Truthy(BodyField(body, "email")) && !ConfigPresent(env)
    ensures Handler("POST", body, env, outcome) == Handled(Response(400, ErrorBody(MissingEmailText)), None)
  {
  }
}
