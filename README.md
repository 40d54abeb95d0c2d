# Route gate and auth-configuration decisions of a Next.js + better-auth app

This project models, in Dafny, the first-party logic of a web application whose
authentication is otherwise delegated to the better-auth framework and to
Stripe:

- **The request gate** (`middleware.ts`). Each request's pathname is classified
  by exact membership in two fixed lists: public pages (`/`, `/about`,
  `/contact`) and sign-in style pages (`/sign-in`, `/forget-password`,
  `/reset-password`, `/two-factor`). Everything else is protected. Public pages
  always continue. A signed-in user on a sign-in style page is redirected to
  the `callbackUrl` query value, or to `/` when it is absent or empty. A
  signed-out user on a protected page is redirected to `/sign-in` with
  `callbackUrl` set to the page. Everything else continues. "Signed in" means
  the session-cookie helper returned a non-empty string (`!!cookie`).
- **The query parameters** the gate reads and writes, as the URL standard's
  `URLSearchParams` defines `get` (first value) and `set` (replace the first,
  drop the rest, or append).
- **The auth configuration's own decisions** (`lib/auth.ts`): the
  cross-subdomain cookie domain chosen from the Vercel environment variables,
  the invitation link with its fallback base URL, the custom-session transform
  that adds `dd: "test"` to the user, and the before-hook that rejects
  e-mail/password sign-in for an address with no account (`BAD_REQUEST`,
  "No account found with this email address").

Modules: `JsValues` (undefined/null, `||` on strings, template interpolation,
JSON values), `SearchParams`, `RouteGate`, `AuthConfig`. Everything is pure:
the source has no loops and no state kept between requests, so the model is
datatypes, functions and lemmas. Environment variables are an explicit `Env`
record. The user table is a `map` from e-mail address to user.

JavaScript details kept in the model: an unset variable interpolated into a
template literal renders as `undefined`. So in development an unset
`BETTER_AUTH_URL` gives the link `undefined/accept-invitation/<id>`. On a
preview deployment an unset `VERCEL_URL` gives the domain `.undefined`.
`x || fallback` treats both an absent value and `""` as falsy.

## Model

| member | source | states |
|---|---|---|
| JsValues.OrElse | middleware.ts:21 | `v \|\| fallback` on a string-or-absent value: the value itself when it is a non-empty string, the fallback otherwise |
| JsValues.Interpolate | lib/auth.ts:35 | `${v}` in a template literal: the string itself, or the word "undefined" when unset |
| SearchParams.Get | middleware.ts:21 | `searchParams.get`: null exactly when no pair has the name; otherwise the value of a pair with that name before which no pair has the name (the first one) |
| SearchParams.SetParam | middleware.ts:28 | `searchParams.set`: afterwards exactly one pair carries the name and it holds the new value; every pair with another name is kept as often as before; the length drops by the old count of the name and grows by one |
| SearchParams.RemoveName | middleware.ts:28 | the "drop the later pairs" half of `set`: no pair with the name is left, every pair with another name is kept as often as before, and exactly the named pairs are gone |
| SearchParams.GetRemoveOther | middleware.ts:28 | dropping the pairs of one name leaves `get` of every other name unchanged |
| SearchParams.GetSetSame | middleware.ts:28 | after `set(name, v)`, `get(name)` returns `v`, for every starting query |
| SearchParams.GetSetOther | middleware.ts:28 | `set` of one name leaves `get` of every other name unchanged |
| RouteGate.Includes | middleware.ts:10-11 | `includes` on the route lists is true exactly when the pathname equals one of the entries |
| RouteGate.IsLoggedIn | middleware.ts:12 | `!!cookies`: absent and empty cookie values mean signed out, any non-empty value means signed in |
| RouteGate.Classify | middleware.ts:4-5 | a pathname is public iff it is in the public list, auth-only iff in the auth list, protected iff in neither |
| RouteGate.SignInRedirect | middleware.ts:27-29 | the sign-in redirect goes to `/sign-in` with a single query parameter, whose `callbackUrl` value is the original pathname |
| RouteGate.CallbackOrHome | middleware.ts:21 | the callback target is the `callbackUrl` value when it is non-empty and `/` when it is absent or empty; never empty |
| RouteGate.Middleware | middleware.ts:7-33 | the decision per route class and session state: public continues either way; signed in on an auth route redirects to the callback or `/`; signed out on an auth route continues; signed in on a protected route continues; signed out on a protected route redirects to sign-in carrying the pathname |
| RouteGate.RouteListsDisjoint | middleware.ts:4-5 | no path is both public and auth-only |
| RouteGate.NoPrefixMatching | middleware.ts:10-11 | for every listed page and every suffix, the path `page + "/" + suffix` is protected, and a signed-out user there is redirected to sign in carrying that path |
| RouteGate.SignedOutReachesFixpoint | middleware.ts:26-29 | a signed-out user who follows the gate's redirect with the same cookie state is let through: the redirect target `/sign-in` is an auth route |
| RouteGate.CallbackReturnsToOrigin | middleware.ts:20-29 | a signed-out user sent to sign in from a protected page whose path starts with a single `/`, who returns to that sign-in URL signed in, is redirected to that path, which resolves on the same origin |
| RouteGate.DecisionDependsOnlyOnInputs | middleware.ts:8-12 | two requests with the same pathname, the same signed-in state and the same `callbackUrl` value get the same decision, whatever the cookie value or other query parameters |
| AuthConfig.CookieDomain | lib/auth.ts:30-37 | no domain unless `VERCEL` is exactly "1"; with it, `.stackprovider.com` for production, `.` + `VERCEL_URL` for preview, none otherwise; a domain, when chosen, starts with a dot |
| AuthConfig.InviteLink | lib/auth.ts:102-107 | in development the configured base URL is used as it is; elsewhere an unset or empty base URL falls back to `https://demo.better-auth.com`; the link always ends with `/accept-invitation/` and the id |
| AuthConfig.InviteLinkSameWhenConfigured | lib/auth.ts:103-107 | with a non-empty base URL, every `NODE_ENV` gives the same link, based on that URL |
| AuthConfig.InviteLinkInjective | lib/auth.ts:102-107 | in one environment, different invitation ids give different links |
| AuthConfig.CustomSession | lib/auth.ts:136-144 | the custom session keeps every top-level property but `user`; the user gains or overwrites `dd: "test"` and keeps every other field; a well-formed session (no `user` key among the other properties) stays well-formed |
| AuthConfig.CustomSessionIdempotent | lib/auth.ts:136-144 | applying the transform twice equals applying it once |
| AuthConfig.CustomSessionFixpoint | lib/auth.ts:136-144 | a session whose user already has `dd: "test"` is returned unchanged |
| AuthConfig.BeforeHook | lib/auth.ts:217-231 | on every path other than `/sign-in/email` the hook proceeds; on that path it proceeds iff the address has an account, and otherwise throws `BAD_REQUEST` with "No account found with this email address" |
| AuthConfig.BeforeHookFindsUser | lib/auth.ts:222-230 | in a store keyed by address, the guard on `/sign-in/email` proceeds exactly when some stored user has the submitted address |
| AuthConfig.BeforeHookOnlyLooksUp | lib/auth.ts:222-226 | the outcome depends on the store only through whether the address is a key, so the lookup is read-only |

## Left out

- The better-auth configuration object, its plugins and social providers (lib/auth.ts:39-216 apart from the pieces above): their behaviour lives in the framework.
- E-mail sending, logging and the e-mail templates (lib/auth.ts:51-78, 92-123): I/O. Only the invitation link put into the template is modelled.
- The Prisma adapter and `findUnique`: the lookup is a `map` from address to user. The store is an input of a function, so the guard cannot change it. A failing lookup (a database or network error) propagates out of the hook as an error; the model does not capture that failure.
- AuthConfig.BeforeHook: the body's e-mail is a plain string. A missing body or e-mail (`ctx.body?.email` undefined) is not modelled, because what `findUnique` then does is the database client's behaviour.
- Stripe client construction, webhook secret and plan price ids (lib/auth.ts:145-189): billing configuration data.
- Rate limiting, device-authorization timings, cookie attributes and the `crossSubDomainCookies.enabled` flag (lib/auth.ts:45-49, 190-215): settings the framework enforces.
- `getSessionCookie` internals: the cookie is its returned value, absent or a string. middleware.ts:9 calls the helper without the cookie prefix and name that lib/auth.ts:200 and :206-207 configure (`stackprovider-auth`, `stackprovider-auth-token`). Whether the helper then finds the session cookie at all depends on the library's defaults, which are not part of this model.
- RouteGate.Middleware: resolving `callbackUrl` against the request URL (`new URL(callbackUrl, request.url)`, middleware.ts:22) throws a TypeError when the URL parser rejects the value (for example `http://`). The model always returns the redirect and does not capture that failure.
- RouteGate.CallbackReturnsToOrigin: only promised for paths starting with a single `/`. A protected path such as `//evil.com` is also sent to sign in and handed back after sign-in as the same string, but `new URL` reads it as scheme-relative and resolves it to another host. More generally the gate passes any non-empty `callbackUrl` through without checking its origin. Whether such a path or value reaches the gate depends on the framework.
- URL resolution and serialisation: `new URL(callbackUrl, request.url)` is kept as the unresolved string `Url(raw)`. The sign-in URL is kept as a path and a list of decoded query pairs, so percent-encoding (`%2F`) is not modelled.
- The `config.matcher` pattern (middleware.ts:35-37): routing configuration applied before the gate runs.
- `async`/`await` and concurrency between requests: none of the modelled decisions depends on them.
- JSON numbers in the session are integers; floating point is not modelled.
