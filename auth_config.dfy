/**
 The first-party decisions inside the authentication configuration of
 lib/auth.ts: the cross-subdomain cookie domain chosen from the deployment
 environment, the invitation link put into invitation e-mails, the custom
 session shape, and the guard that runs before e-mail/password sign-in and
 turns away addresses that have no account.
 */
module AuthConfig {
  import opened JsValues

  /** The environment variables the configuration reads; `None` is unset. */
  datatype Env = Env(
    vercel: Option<string>,
    vercelEnv: Option<string>,
    vercelUrl: Option<string>,
    nodeEnv: Option<string>,
    betterAuthUrl: Option<string>)

  const ProductionCookieDomain: string := ".stackprovider.com"
  const FallbackBaseUrl: string := "https://demo.better-auth.com"
  const InvitationPath: string := "/accept-invitation/"

  // ----- Cookie domain -----

  /** The domain for cross-subdomain cookies: only on Vercel, and there only
      for production and preview deployments. */
  function CookieDomain(env: Env): (r: Option<string>)
    ensures env.vercel != Some("1") ==> r == None
    ensures env.vercel == Some("1") && env.vercelEnv == Some("production") ==>
              r == Some(ProductionCookieDomain)
    ensures env.vercel == Some("1") && env.vercelEnv == Some("preview") ==>
              r == Some("." + Interpolate(env.vercelUrl))
    ensures r.Some? <==>
              env.vercel == Some("1") &&
              (env.vercelEnv == Some("production") || env.vercelEnv == Some("preview"))
    ensures r.Some? ==> |r.value| >= 1 && r.value[0] == '.'
  {
    if env.vercel == Some("1") then
      if env.vercelEnv == Some("production") then Some(ProductionCookieDomain)
      else if env.vercelEnv == Some("preview") then Some("." + Interpolate(env.vercelUrl))
      else None
    else None
  }

  // ----- Invitation link -----

  /** The link an invitation e-mail carries for invitation `id`. In
      development the configured base URL is used as it is (an unset one
      renders as "undefined"); elsewhere an unset or empty base URL falls
      back to the demo host. */
  function InviteLink(env: Env, id: string): (link: string)
    ensures env.nodeEnv == Some("development") ==>
              link == Interpolate(env.betterAuthUrl) + InvitationPath + id
    ensures env.nodeEnv != Some("development") && Truthy(env.betterAuthUrl) ==>
              link == env.betterAuthUrl.value + InvitationPath + id
    ensures env.nodeEnv != Some("development") && !Truthy(env.betterAuthUrl) ==>
              link == FallbackBaseUrl + InvitationPath + id
    ensures |link| >= |InvitationPath| + |id| && link[|link| - |InvitationPath| - |id|..] == InvitationPath + id
  {
    if env.nodeEnv == Some("development") then
      Interpolate(env.betterAuthUrl) + InvitationPath + id
    else
      OrElse(env.betterAuthUrl, FallbackBaseUrl) + InvitationPath + id
  }

  /** With a non-empty base URL configured, development and every other
      environment produce the same link: the fallback never applies. */
  lemma InviteLinkSameWhenConfigured(env: Env, nodeEnv: Option<string>, id: string)
    requires Truthy(env.betterAuthUrl)
    ensures InviteLink(env, id) == InviteLink(env.(nodeEnv := nodeEnv), id)
    ensures InviteLink(env, id) == env.betterAuthUrl.value + InvitationPath + id
  {
  }

  /** Two invitations with different ids get different links in the same
      environment. */
  lemma InviteLinkInjective(env: Env, id1: string, id2: string)
    requires InviteLink(env, id1) == InviteLink(env, id2)
    ensures id1 == id2
  {
    var base := if env.nodeEnv == Some("development") then Interpolate(env.betterAuthUrl)
                else OrElse(env.betterAuthUrl, FallbackBaseUrl);
    var prefix := base + InvitationPath;
    assert InviteLink(env, id1) == prefix + id1;
    assert InviteLink(env, id2) == prefix + id2;
    assert id1 == (prefix + id1)[|prefix|..];
    assert id2 == (prefix + id2)[|prefix|..];
  }

  // ----- Custom session -----

  /** A session as the framework hands it to the custom-session callback: the
      user object and every other top-level property. */
  datatype Session = Session(user: map<string, Json>, other: map<string, Json>)

  /** A JavaScript object has one `user` property, held apart in `user`, so
      `other` never carries that key. */
  predicate WellFormedSession(session: Session) {
    "user" !in session.other
  }

  const ExtraUserField: string := "dd"
  const ExtraUserValue: Json := JString("test")

  /** `{ ...session, user: { ...session.user, dd: "test" } }`. */
  function CustomSession(session: Session): (r: Session)
    ensures WellFormedSession(session) ==> WellFormedSession(r)
    ensures r.other == session.other
    ensures r.user.Keys == session.user.Keys + {ExtraUserField}
    ensures r.user[ExtraUserField] == ExtraUserValue
    ensures forall k | k in session.user && k != ExtraUserField :: r.user[k] == session.user[k]
  {
    session.(user := session.user[ExtraUserField := ExtraUserValue])
  }

  /** Applying the transform twice is the same as applying it once. */
  lemma CustomSessionIdempotent(session: Session)
    ensures CustomSession(CustomSession(session)) == CustomSession(session)
  {
  }

  /** A session whose user already has `dd: "test"` is left exactly as it is. */
  lemma CustomSessionFixpoint(session: Session)
    requires ExtraUserField in session.user && session.user[ExtraUserField] == ExtraUserValue
    ensures CustomSession(session) == session
  {
  }

  // ----- Pre-sign-in guard -----

  /** A stored user; the store is keyed by e-mail address, which is unique. */
  datatype User = User(id: string, name: string, email: string)

  type UserStore = map<string, User>

  /** Each key of the store is the e-mail address of the user stored under it. */
  predicate KeyedByEmail(users: UserStore) {
    forall e | e in users :: users[e].email == e
  }

  datatype ErrorStatus = BadRequest

  /** The framework's API error: a status and a user-facing message. */
  datatype ApiError = ApiError(status: ErrorStatus, message: string)

  /** The outcome of a before-hook: let the request go on, or throw. */
  datatype HookOutcome = Proceed | Throw(error: ApiError)

  const EmailSignInPath: string := "/sign-in/email"
  const NoAccountMessage: string := "No account found with this email address"

  /** The before-hook: on the e-mail sign-in endpoint, an address with no
      account is rejected before any password is checked; every other
      endpoint, and every known address, goes on. */
  function BeforeHook(path: string, email: string, users: UserStore): (r: HookOutcome)
    ensures path != EmailSignInPath ==> r == Proceed
    ensures path == EmailSignInPath ==> (r == Proceed <==> email in users)
    ensures r.Throw? ==> r.error == ApiError(BadRequest, NoAccountMessage)
  {
    if path != EmailSignInPath then Proceed
    else
      var user := if email in users then Some(users[email]) else None;
      if user.None? then Throw(ApiError(BadRequest, NoAccountMessage))
      else Proceed
  }

  /** The guard only asks whether the address has an account: two stores that
      agree on that give the same outcome, whatever else they hold. */
  lemma BeforeHookOnlyLooksUp(path: string, email: string, a: UserStore, b: UserStore)
    requires (email in a) == (email in b)
    ensures BeforeHook(path, email, a) == BeforeHook(path, email, b)
  {
  }

  /** In a store keyed by address, the guard on the sign-in endpoint lets the
      request through exactly when some stored user has that address, which
      is what the unique-email lookup asks. */
  lemma BeforeHookFindsUser(email: string, users: UserStore)
    requires KeyedByEmail(users)
    ensures BeforeHook(EmailSignInPath, email, users) == Proceed <==>
              exists u | u in users.Values :: u.email == email
  {
    if email in users {
      assert users[email] in users.Values;
    }
  }
}
