# Email verification flow — Dafny model

This project models the three pieces of logic in a small web application that
delegates accounts to Supabase:

- **the verification page** (`src/pages/Verify.tsx`): on mount it reads the
  token parameters of the redirect's URL fragment, asks the provider to
  establish a session from them only when an `access_token` is present and the
  `type` is `signup`, `magiclink` or `recovery`, and settles into `success`
  (with a navigation to `/` scheduled after 2.5 s) or `failed`. From the
  failed view the user can request a new verification email through the resend
  endpoint. The page is the class `VerifyPage.Verify`, whose fields are the
  component's four state hooks (`status`, `message`, `email`, `isResending`)
  plus logs of the effects it requested (session calls, scheduled navigations,
  resend POSTs, `setStatus` writes). Every method's new state is given by a pure
  function of the old one (`AfterCheck`, `AfterResendStart`,
  `AfterResendSettle`, `AfterResend`), and the lemmas `RunPreserves` and
  `Lifetime` prove what holds over a whole lifetime of the page: mount, the
  check, then any sequence of edits, clicks and settlements.
- **the resend endpoint** (`api/resend-verification.ts`): a chain of guards
  (method, email, server configuration) followed by one call to the provider's
  `admin.generateLink`. `ResendProxy.Handler` returns the one response of a
  request together with the provider call it made, if any.
- **the client configuration** (`src/lib/supabase.ts`): URL normalisation,
  the choice between the real client, a load-time crash in production and a
  stub in development, and the stub's fixed results.

`ResendFlow.RoundTrip` connects the page's POST to the endpoint's answer.

Everything the code does not compute itself is an input: the parsed URL
fragment (`map<string, string>`), how `setSession`, `fetch`/`res.json()` and
`generateLink` settle, the build and server environments, and the page origin.
Calls the code makes to the outside are recorded, not performed.

Four points where the code's behaviour differs from what one might expect of
such a flow; the model follows the code:

- A POST without an email to a misconfigured server gets 400 "Missing email",
  not 500: the email guard comes before the configuration guard
  (`ResendProxy.MissingEmailBeforeMissingConfig`).
- The success message is "Email verified — welcome! Redirecting to the app...".
- The 2.5 s navigation timer is never cancelled, so cancellation on unmount is
  not a property of the model.
- At most one resend is in flight only because the button is disabled while
  `isResending`; `handleResend` has no guard of its own. The model states this
  as the precondition `!isResending` of `StartResend`, and `Step` ignores
  clicks on the disabled button.

## Model

| member | source | states |
|---|---|---|
| `ClientConfig.NormaliseUrl` | src/lib/supabase.ts:5-6 | the URL is empty iff the raw value is; a non-empty URL starts with `http`; a raw value starting with `http` is kept; any other non-empty value gets exactly the `https://` prefix |
| `ClientConfig.NormaliseIdempotent` | src/lib/supabase.ts:6 | normalising a normalised URL changes nothing |
| `ClientConfig.Load` | src/lib/supabase.ts:5-19 | a real client (with the normalised URL and the key) iff both raw values are non-empty; loading throws "Missing VITE_SUPABASE_URL or VITE_SUPABASE_ANON_KEY" iff in production with a value missing; in development with a value missing it warns and uses the stub |
| `ClientConfig.StubAuth` | src/lib/supabase.ts:22-28 | exactly `signInWithPassword` and `signUp` report an error, "Supabase not configured"; `signUp` has a null user; `signOut` has `error: null`; `getSession` has a null session; `onAuthStateChange` hands back an `unsubscribe` function |
| `ClientConfig.StubTable` | src/lib/supabase.ts:29-35 | every `select`/`insert`/`upsert`/`update`/`delete` resolves to `data: null` and the error "Supabase not configured", whatever the table |
| `ClientConfig.StubChannel` | src/lib/supabase.ts:36 | every channel operation returns an empty object |
| `ClientConfig.StubRemoveChannel` | src/lib/supabase.ts:37 | `removeChannel` returns `undefined` |
| `ResendProxy.DefaultRedirect` | api/resend-verification.ts:28 | the default target is the `ORIGIN` (or nothing when it is unset or empty) followed by `/verify` |
| `ResendProxy.RedirectTarget` | api/resend-verification.ts:28 | the redirect passed to the provider is the caller's `redirectTo` when truthy, else the default; it is never falsy |
| `ResendProxy.BodyField` | api/resend-verification.ts:10 | `email` and `redirectTo` are the body object's own fields, and `undefined` when the body is missing, not an object, or lacks them |
| `ResendProxy.Admit` | api/resend-verification.ts:8-29 | non-POST gives 405 "Method not allowed" whatever the body or environment; a POST with a falsy email gives 400 "Missing email"; then a missing `SUPABASE_URL` or `SUPABASE_SERVICE_ROLE_KEY` gives 500 with the fixed message; a request passing all three yields the call `generateLink` with `type: 'signup'`, the email and the redirect target |
| `ResendProxy.Complete` | api/resend-verification.ts:31-37 | a provider error gives 400 with its message verbatim; success gives 200 `{ ok: true, data }`; a thrown `Error` gives 500 with its message, any other thrown value 500 with `String(err)` |
| `ResendProxy.Handler` | api/resend-verification.ts:7-39 | exactly one well-formed response per request (200 `{ok, data}` or 400/405/500 `{error: string}`); the provider is called iff all guards pass; each status code holds iff the condition that produces it holds; the call carries `signup`, the email and the redirect target; an admitted request's response is the provider outcome's, a rejected one's is its guard's |
| `ResendProxy.MissingEmailBeforeMissingConfig` | api/resend-verification.ts:10-18 | a POST without an email to a misconfigured server gets 400, not 500, and no provider call |
| `VerifyPage.SessionRequestOf` | src/pages/Verify.tsx:17-24 | a session request exists iff `access_token` is present and non-empty and `type` is `signup`, `magiclink` or `recovery`; it carries the access token and the `refresh_token`, or `''` when that is absent |
| `VerifyPage.AfterCheck` | src/pages/Verify.tsx:14-37 | without a valid fragment: `failed`, "No verification token found in the URL.", no provider call; a provider error: `failed`, "Failed to verify your email…", no navigation; success: `success`, "Email verified — welcome!…", one navigation to `/` at 2500 ms; a rejected call leaves status and message as they were; email, resend state and posts never change |
| `VerifyPage.ResendMessage` | src/pages/Verify.tsx:56-69 | OK response: the "If an account exists…" text; non-OK: `body.error` when present and non-empty, else the fallback text; thrown: its string `message`, else "Network error while requesting resend"; the message is empty only for a thrown empty message |
| `VerifyPage.AfterResendStart` | src/pages/Verify.tsx:41-54 | an empty email gives "Enter your email to resend verification.", no POST and `isResending` unchanged; otherwise the message is cleared, `isResending` is set and one POST with the email and `origin + '/verify'` goes out; status and provider effects never change |
| `VerifyPage.AfterResendSettle` | src/pages/Verify.tsx:55-72 | the settled request's message replaces the message and `isResending` is false, nothing else changes |
| `VerifyPage.AfterResend` | src/pages/Verify.tsx:41-73 | a whole resend ends with `isResending` false; with an email, the message depends on the outcome only (none of an earlier resend's message survives) and exactly one POST is added; status is untouched |
| `VerifyPage.Verify.constructor` | src/pages/Verify.tsx:8-11 | the page mounts with status `checking`, no message, an empty email, no resend in flight and no effects |
| `VerifyPage.Verify.Check` | src/pages/Verify.tsx:14-37 | the fields after `check` are those `AfterCheck` gives |
| `VerifyPage.Verify.SetEmail` | src/pages/Verify.tsx:111 | only the email changes |
| `VerifyPage.Verify.StartResend` | src/pages/Verify.tsx:41-54 | the fields after the click are those `AfterResendStart` gives; callable only while the button is enabled |
| `VerifyPage.Verify.SettleResend` | src/pages/Verify.tsx:55-72 | the fields after settlement are those `AfterResendSettle` gives |
| `VerifyPage.Verify.HandleResend` | src/pages/Verify.tsx:41-73 | the fields after an uninterrupted resend are those `AfterResend` gives |
| `VerifyPage.Step` | src/pages/Verify.tsx:83-124 | an edit or a click reaches the page only in the failed (or idle) view, a click only while the button is enabled, a settlement only while a request is in flight; no event changes the status, calls the provider, schedules a navigation or writes the status |
| `VerifyPage.Run` | src/pages/Verify.tsx:83-124 | over any sequence of events the status, the provider calls, the navigations and the status writes stay as they were |
| `VerifyPage.RunPreserves` | src/pages/Verify.tsx:83-128 | after mount, events only add posts, at most one per click; outside the failed view nothing changes; an in-flight request always has a cleared message and the form on screen |
| `VerifyPage.Lifetime` | src/pages/Verify.tsx:8-37 | over a whole lifetime the status is never `idle`, is `checking` only if a valid fragment's provider call rejected, is `success` iff a valid fragment's call succeeded; it is written at most once; the provider is called exactly once for a valid fragment and never otherwise; exactly one navigation to `/` at 2500 ms is scheduled iff the status is `success`; resends happen only from `failed` |
| `ResendFlow.PostedBody` | src/pages/Verify.tsx:53 | the POST body has exactly the fields `email` and `redirectTo`, holding the page's email and redirect |
| `ResendFlow.AsSeenByPage` | src/pages/Verify.tsx:56-59 | the page treats a 2xx status as OK; otherwise it reads `body.error` when that is a string; a response is never read as a thrown value |
| `ResendFlow.RoundTrip` | src/pages/Verify.tsx:48-72 | a resend with an email reaches the provider as a sign-up link for that email redirecting to the page's `/verify` iff the server is configured; the page then shows the success text, the provider's or the exception's non-empty message verbatim, or the endpoint's configuration error; an empty provider or exception message falls back to the fixed text |

## Left out

- `public/sw.js` (the service worker's caching) and `vite.config.ts` (build configuration): no behaviour of the flow.
- Parsing of `window.location.hash` with `URLSearchParams`: the fragment is given already decoded, as a map from parameter name to its (first) value.
- The provider (`createClient`, `auth.setSession`, `auth.admin.generateLink`), `fetch` and `res.json()`: their results are inputs; what the real client does is not modelled.
- `createClient` in the endpoint runs outside its `try`; the model assumes it does not throw.
- ClientConfig.Load: assumes `createClient(url, key)` returns a client; if the library throws there, loading the module fails in development too, which the model does not capture.
- The stub has no `auth.setSession`, so in an unconfigured development build `check` throws; the model only has the general `SessionRejected` outcome, after which the status stays `checking`. In that case `sessionCalls` still records the attempted call although no provider is reached, so `VerifyPage.Lifetime`'s "the provider is called exactly once" means "`setSession` is invoked once".
- Timers: the navigation is recorded when scheduled; its firing and the navigation itself are not modelled.
- React's effect scheduling: `check` runs once per mount; a re-run of the effect (development double invocation, a changed `navigate`) is not modelled.
- The JSX rendering, except which view shows the resend form and that the button is disabled while `isResending` (`VerifyPage.Step`).
- `console.warn`: modelled as the warning text carried by `ClientConfig.Load`'s result.
- JavaScript numbers: `NaN` is not a value of the model, so its falsiness is not covered; JSON serialisation of the response body (such as dropping an undefined `data`) is not modelled.
- `VerifyPage.ResendMessage`: whether a thrown value "has a string message" is decided by the caller of the model (the outcome `Threw(Some(m))`), not by inspecting the value. A non-OK body's `error` is taken to be a string or absent: the page would show any truthy `error` (a number, an object), and `ResendFlow.AsSeenByPage` reads a non-string `error` as absent, giving the fallback text. The endpoint only sends string errors, so `ResendFlow.RoundTrip` is unaffected.
