/**
 * The email-verification page (src/pages/Verify.tsx). On mount it inspects the
 * token parameters of the redirect's URL fragment, asks the provider to
 * establish a session from them and settles into `success` or `failed`; from
 * the failed view the user may ask the resend endpoint for a new link.
 *
 * The provider, `fetch` and the timer are not called: their results are
 * inputs, and the calls the page makes are recorded in logs (`sessionCalls`,
 * `posts`, `navigations`). `statusWrites` records every `setStatus` call.
 */
module VerifyPage {
  import opened Wrappers

  datatype Status = Checking | Success | Failed | Idle

  /** The argument of `supabase.auth.setSession`. */
  datatype SessionRequest = SessionRequest(accessToken: string, refreshToken: string)

  /** How `setSession` settles: no error, an error, or a rejected promise (nothing after the await runs). */
  datatype SessionOutcome = SessionOk | SessionErr | SessionRejected

  /** A `setTimeout(() => navigate(path), delayMs)` that was scheduled. */
  datatype Navigation = Navigation(path: string, delayMs: nat)

  /** A `fetch` POST to the resend endpoint with the JSON body `{ email, redirectTo }`. */
  datatype ResendPost = ResendPost(url: string, email: string, redirectTo: string)

  /**
   * How the resend request settles: an OK response; a non-OK response whose
   * parsed body has an `error` string or not; or a thrown value (from `fetch`
   * or `res.json()`) that has a string `message` or not.
   */
  datatype ResendOutcome = HttpOk | HttpErr(bodyError: Option<string>) | Threw(msg: Option<string>)

  /** The component's state and the effects it has requested so far. */
  datatype Page = Page(
    status: Status,
    message: Option<string>,
    email: string,
    isResending: bool,
    sessionCalls: seq<SessionRequest>,
    navigations: seq<Navigation>,
    posts: seq<ResendPost>,
    statusWrites: seq<Status>)

  const NoTokenText: string := "No verification token found in the URL."
  const VerifyFailedText: string := "Failed to verify your email. The link may be invalid or expired."
  const VerifiedText: string := "Email verified — welcome! Redirecting to the app..."
  const EnterEmailText: string := "Enter your email to resend verification."
  const ResentText: string := "If an account exists, a verification email was (re)sent. Check your inbox."
  const ResendFallbackText: string := "Failed to request resend. Implement server endpoint with service_role key."
  const NetworkErrorText: string := "Network error while requesting resend"
  const ResendEndpoint: string := "/api/resend-verification"
  const HomeNavigation: Navigation := Navigation("/", 2500)

  /** The state on mount. */
  const Initial: Page := Page(Checking, None, "", false, [], [], [], [])

  /** The token types the page accepts. */
  predicate AcceptedType(kind: string) {
    kind == "signup" || kind == "magiclink" || kind == "recovery"
  }

  /** `params.get(key)`: the fragment parameter, or null when absent. */
  function Param(fragment: map<string, string>, key: string): Option<string> {
    if key in fragment then Some(fragment[key]) else None
  }

  /**
   * The session request a fragment gives rise to: one exactly when it carries a
   * non-empty `access_token` and an accepted `type`, with `refresh_token`
   * defaulting to the empty string.
   */
  function SessionRequestOf(fragment: map<string, string>): (r: Option<SessionRequest>)
    ensures r.Some? <==>
              "access_token" in fragment && fragment["access_token"] != ""
              && "type" in fragment && AcceptedType(fragment["type"])
    ensures r.Some? ==> r.value.accessToken == fragment["access_token"]
    ensures r.Some? && "refresh_token" in fragment ==> r.value.refreshToken == fragment["refresh_token"]
    ensures r.Some? && "refresh_token" !in fragment ==> r.value.refreshToken == ""
  {
    match (Param(fragment, "access_token"), Param(fragment, "type"))
    case (Some(token), Some(kind)) =>
      if token != "" && AcceptedType(kind) then
        Some(SessionRequest(token, Param(fragment, "refresh_token").GetOr("")))
      else None
    case _ => None
  }

  /** Assigns `status` through `setStatus`, recording the write. */
  function SetStatus(p: Page, s: Status): Page {
    p.(status := s, statusWrites := p.statusWrites + [s])
  }

  /** The effect of one run of `check`, given the fragment and how `setSession` settles. */
  function AfterCheck(p: Page, fragment: map<string, string>, outcome: SessionOutcome): (r: Page)
    ensures r.email == p.email && r.isResending == p.isResending && r.posts == p.posts
    ensures SessionRequestOf(fragment).None? ==>
              r == SetStatus(p, Failed).(message := Some(NoTokenText))
    ensures SessionRequestOf(fragment).Some? ==>
              r.sessionCalls == p.sessionCalls + [SessionRequestOf(fragment).value]
    ensures SessionRequestOf(fragment).Some? && outcome == SessionErr ==>
              r.status == Failed && r.message == Some(VerifyFailedText)
              && r.navigations == p.navigations && r.statusWrites == p.statusWrites + [Failed]
    ensures SessionRequestOf(fragment).Some? && outcome == SessionOk ==>
              r.status == Success && r.message == Some(VerifiedText)
              && r.navigations == p.navigations + [HomeNavigation] && r.statusWrites == p.statusWrites + [Success]
    ensures SessionRequestOf(fragment).Some? && outcome == SessionRejected ==>
              r.status == p.status && r.message == p.message
              && r.navigations == p.navigations && r.statusWrites == p.statusWrites
  {
    match SessionRequestOf(fragment)
    case None => SetStatus(p, Failed).(message := Some(NoTokenText))
    case Some(request) =>
      var called := p.(sessionCalls := p.sessionCalls + [request]);
      match outcome
      case SessionRejected => called
      case SessionErr => SetStatus(called, Failed).(message := Some(VerifyFailedText))
      case SessionOk =>
        SetStatus(called, Success).(message := Some(VerifiedText), navigations := called.navigations + [HomeNavigation])
  }

  /** The message the page shows once the resend request has settled. */
  function ResendMessage(outcome: ResendOutcome): (m: string)
    ensures outcome.HttpOk? ==> m == ResentText
    ensures outcome.HttpErr? && outcome.bodyError.Some? && outcome.bodyError.value != "" ==> m == outcome.bodyError.value
    ensures outcome.HttpErr? && (outcome.bodyError.None? || outcome.bodyError.value == "") ==> m == ResendFallbackText
    ensures outcome.Threw? ==> m == outcome.msg.GetOr(NetworkErrorText)
    ensures m == "" <==> outcome == Threw(Some(""))
  {
    match outcome
    case HttpOk => ResentText
    case HttpErr(bodyError) =>
      if bodyError.Some? && bodyError.value != "" then bodyError.value else ResendFallbackText
    case Threw(msg) => msg.GetOr(NetworkErrorText)
  }

  /**
   * The synchronous part of `handleResend`, up to the awaited `fetch`: the
   * message is cleared, an empty email is refused, otherwise the request goes out.
   */
  function AfterResendStart(p: Page, origin: string): (r: Page)
    requires !p.isResending
    ensures r.status == p.status && r.email == p.email && r.sessionCalls == p.sessionCalls
    ensures r.navigations == p.navigations && r.statusWrites == p.statusWrites
    ensures p.email == "" ==> r.message == Some(EnterEmailText) && !r.isResending && r.posts == p.posts
    ensures p.email != "" ==>
              r.message == None && r.isResending
              && r.posts == p.posts + [ResendPost(ResendEndpoint, p.email, origin + "/verify")]
  {
    var cleared := p.(message := None);
    if cleared.email == "" then cleared.(message := Some(EnterEmailText))
    else cleared.(isResending := true, posts := cleared.posts + [ResendPost(ResendEndpoint, p.email, origin + "/verify")])
  }

  /** The part of `handleResend` after the awaited request settles, including the `finally`. */
  function AfterResendSettle(p: Page, outcome: ResendOutcome): (r: Page)
    requires p.isResending
    ensures r == p.(message := Some(ResendMessage(outcome)), isResending := false)
  {
    p.(message := Some(ResendMessage(outcome))).(isResending := false)
  }

  /**
   * One whole `handleResend` whose request settles before anything else happens.
   * Its message depends on the outcome alone, so nothing of a previous resend
   * leaks into the next one.
   */
  function AfterResend(p: Page, origin: string, outcome: ResendOutcome): (r: Page)
    requires !p.isResending
    ensures !r.isResending
    ensures r.status == p.status && r.email == p.email && r.sessionCalls == p.sessionCalls
    ensures r.navigations == p.navigations && r.statusWrites == p.statusWrites
    ensures p.email == "" ==> r.message == Some(EnterEmailText) && r.posts == p.posts
    ensures p.email != "" ==>
              r.message == Some(ResendMessage(outcome))
              && r.posts == p.posts + [ResendPost(ResendEndpoint, p.email, origin + "/verify")]
  {
    var started := AfterResendStart(p, origin);
    if started.isResending then AfterResendSettle(started, outcome) else started
  }

  /**
   * The component itself: the four state hooks as fields, the effect logs, and
   * the page's origin (`window.location.origin`).
   */
  class Verify {
    const origin: string
    var status: Status
    var message: Option<string>
    var email: string
    var isResending: bool
    var sessionCalls: seq<SessionRequest>
    var navigations: seq<Navigation>
    var posts: seq<ResendPost>
    var statusWrites: seq<Status>

    /** The fields as one value. */
    function Snapshot(): Page
      reads this
    {
      Page(status, message, email, isResending, sessionCalls, navigations, posts, statusWrites)
    }

    /** Mounting: the initial values of the four state hooks. */
    constructor (origin: string)
      ensures this.origin == origin && Snapshot() == Initial
    {
      this.origin := origin;
      status := Checking;
      message := None;
      email := "";
      isResending := false;
      sessionCalls, navigations, posts, statusWrites := [], [], [], [];
    }

    /** The mount effect `check`. */
    method Check(fragment: map<string, string>, outcome: SessionOutcome)
      modifies this
      ensures Snapshot() == AfterCheck(old(Snapshot()), fragment, outcome)
    {
      var accessToken := Param(fragment, "access_token");
      var kind := Param(fragment, "type");
      if accessToken.Some? && accessToken.value != "" && kind.Some? && AcceptedType(kind.value) {
        var refreshToken := if "refresh_token" in fragment then fragment["refresh_token"] else "";
        sessionCalls := sessionCalls + [SessionRequest(accessToken.value, refreshToken)];
        if outcome == SessionRejected {
          return;
        }
        if outcome == SessionErr {
          status := Failed;
          statusWrites := statusWrites + [Failed];
          message := Some(VerifyFailedText);
        } else {
          status := Success;
          statusWrites := statusWrites + [Success];
          message := Some(VerifiedText);
          navigations := navigations + [HomeNavigation];
        }
      } else {
        status := Failed;
        statusWrites := statusWrites + [Failed];
        message := Some(NoTokenText);
      }
    }

    /** The email input's `onChange`. */
    method SetEmail(value: string)
      modifies this
      ensures Snapshot() == old(Snapshot()).(email := value)
    {
      email := value;
    }

    /**
     * The click on "Resend Verification", up to the awaited request. The button
     * is disabled while a resend is in flight, so no click starts a second one.
     */
    method StartResend()
      requires !isResending
      modifies this
      ensures Snapshot() == AfterResendStart(old(Snapshot()), origin)
    {
      message := None;
      if email == "" {
        message := Some(EnterEmailText);
        return;
      }
      isResending := true;
      posts := posts + [ResendPost(ResendEndpoint, email, origin + "/verify")];
    }

    /** The in-flight resend settles. */
    method SettleResend(outcome: ResendOutcome)
      requires isResending
      modifies this
      ensures Snapshot() == AfterResendSettle(old(Snapshot()), outcome)
    {
      message := Some(ResendMessage(outcome));
      isResending := false;
    }

    /** A whole `handleResend` whose request settles before any other event. */
    method HandleResend(outcome: ResendOutcome)
      requires !isResending
      modifies this
      ensures Snapshot() == AfterResend(old(Snapshot()), origin, outcome)
    {
      StartResend();
      if isResending {
        SettleResend(outcome);
      }
    }
  }

  /** What the user and the network can do after mount. */
  datatype Event = EditEmail(value: string) | ClickResend | ResendSettled(outcome: ResendOutcome)

  /** The email input and the resend button are rendered only in the failed (or idle) view. */
  predicate ResendFormShown(p: Page) {
    p.status == Failed || p.status == Idle
  }

  /**
   * One event: edits and clicks reach the page only while the form is shown,
   * a click only while the button is enabled, and a settlement only while a
   * request is in flight.
   */
  function Step(p: Page, origin: string, e: Event): (r: Page)
    ensures r.status == p.status && r.sessionCalls == p.sessionCalls
    ensures r.navigations == p.navigations && r.statusWrites == p.statusWrites
    ensures !ResendFormShown(p) && !p.isResending ==> r == p
    ensures e == ClickResend && p.isResending ==> r == p
    ensures e == ClickResend && ResendFormShown(p) && !p.isResending ==> r == AfterResendStart(p, origin)
    ensures e.EditEmail? && ResendFormShown(p) ==> r == p.(email := e.value)
    ensures e.ResendSettled? && !p.isResending ==> r == p
    ensures e.ResendSettled? && p.isResending ==> r == AfterResendSettle(p, e.outcome)
  {
    match e
    case EditEmail(value) => if ResendFormShown(p) then p.(email := value) else p
    case ClickResend => if ResendFormShown(p) && !p.isResending then AfterResendStart(p, origin) else p
    case ResendSettled(outcome) => if p.isResending then AfterResendSettle(p, outcome) else p
  }

  /** The page after a sequence of events: no event changes the status or the provider effects. */
  function Run(p: Page, origin: string, events: seq<Event>): (r: Page)
    ensures r.status == p.status && r.sessionCalls == p.sessionCalls
    ensures r.navigations == p.navigations && r.statusWrites == p.statusWrites
    decreases |events|
  {
    if events == [] then p else Run(Step(p, origin, events[0]), origin, events[1..])
  }

  /** The number of clicks on the resend button in a sequence of events. */
  function Clicks(events: seq<Event>): nat
    decreases |events|
  {
    if events == [] then 0 else (if events[0] == ClickResend then 1 else 0) + Clicks(events[1..])
  }

  /** While a request is in flight its message has been cleared and the resend form is the view on screen. */
  predicate InFlightClean(p: Page) {
    p.isResending ==> p.message == None && ResendFormShown(p) && |p.posts| > 0
  }

  /**
   * After mount, user events and resend settlements only add posts, at most
   * one per click, change nothing outside the failed view, and keep an
   * in-flight request's view clean.
   */
  lemma {:induction false} RunPreserves(p: Page, origin: string, events: seq<Event>)
    ensures p.posts <= Run(p, origin, events).posts
    ensures |Run(p, origin, events).posts| <= |p.posts| + Clicks(events)
    ensures !ResendFormShown(p) && !p.isResending ==> Run(p, origin, events) == p
    ensures InFlightClean(p) ==> InFlightClean(Run(p, origin, events))
    decreases |events|
  {
    if events != [] {
      var q := Step(p, origin, events[0]);
      RunPreserves(q, origin, events[1..]);
    }
  }

  /**
   * A whole lifetime of the page: mount, `check`, then any events. The status
   * is written at most once and never to `idle`; the provider is called
   * exactly for a valid fragment, with its tokens; exactly one navigation, to
   * the root after 2.5 s, is scheduled, and only on success; a resend is only
   * possible from the failed view.
   */
  lemma Lifetime(fragment: map<string, string>, outcome: SessionOutcome, origin: string, events: seq<Event>)
    ensures var r := Run(AfterCheck(Initial, fragment, outcome), origin, events);
      var valid := SessionRequestOf(fragment).Some?;
      && r.status != Idle
      && (r.status == Checking <==> valid && outcome == SessionRejected)
      && (r.status == Success <==> valid && outcome == SessionOk)
      && r.statusWrites == (if r.status == Checking then [] else [r.status])
      && r.sessionCalls == (if valid then [SessionRequestOf(fragment).value] else [])
      && r.navigations == (if r.status == Success then [HomeNavigation] else [])
      && (r.status != Failed ==> r.posts == [] && !r.isResending)
      && InFlightClean(r)
  {
    var checked := AfterCheck(Initial, fragment, outcome);
    RunPreserves(checked, origin, events);
  }
}
