/** Reading the Telegram identity out of the page environment. Nothing here changes state. */
module Telegram {
  import opened Common

  /** The user object of the host's launch payload (`initDataUnsafe.user`). */
  datatype HostUser = HostUser(
    id: nat,
    firstName: string,
    lastName: Option<string>,
    username: Option<string>,
    languageCode: Option<string>)

  /** `window.Telegram.WebApp` as far as this code reads it: `initUser` is `initDataUnsafe?.user`. */
  datatype WebApp = WebApp(initUser: Option<HostUser>)

  /** The page environment: whether `window` exists (it does not during server rendering) and what
      `window.Telegram?.WebApp` holds. */
  datatype Environment = Environment(hasWindow: bool, webApp: Option<WebApp>)

  /** The identity the application works with. */
  datatype TelegramUser = TelegramUser(
    id: nat,
    firstName: string,
    lastName: string,
    username: string,
    languageCode: Option<string>)

  /** The fixed identity used in development when the host provides none. */
  const DevelopmentUser := TelegramUser(12345, "Test", "User", "testuser", Some("en"))

  /** `isTelegramWebApp`: a window exists and it carries the Telegram WebApp object. */
  predicate IsTelegramWebApp(env: Environment): (b: bool)
    ensures b ==> env.webApp.Some?
    ensures !env.hasWindow ==> !b
  {
    env.hasWindow && env.webApp.Some?
  }

  /** The host-provided user, when the WebApp object exists and its payload carries one. */
  function HostUserOf(env: Environment): (u: Option<HostUser>)
    ensures u.Some? ==> IsTelegramWebApp(env)
    ensures IsTelegramWebApp(env) ==> u == env.webApp.value.initUser
  {
    if IsTelegramWebApp(env) then env.webApp.value.initUser else None
  }

  /** `t` is `u` with its optional fields given their defaults: missing or empty names become the empty
      string, and a missing or empty language code becomes null. */
  predicate Normalises(u: HostUser, t: TelegramUser) {
    && t.id == u.id
    && t.firstName == u.firstName
    && t.lastName == OrElse(u.lastName, "")
    && t.username == OrElse(u.username, "")
    && t.languageCode == OrNull(u.languageCode)
  }

  /** `initializeTelegramWebApp`: hand back the WebApp object after signalling `ready()`; null when there is
      no WebApp object or `ready()` throws. */
  function InitializeTelegramWebApp(env: Environment, readyThrows: bool): (r: Option<WebApp>)
    ensures r.Some? <==> IsTelegramWebApp(env) && !readyThrows
    ensures r.Some? ==> r == env.webApp
  {
    if IsTelegramWebApp(env) && !readyThrows then env.webApp else None
  }

  /** `getTelegramUser`: the host user, normalised; failing that the development identity in development;
      otherwise null. */
  function GetTelegramUser(env: Environment, isDevelopment: bool): (r: Option<TelegramUser>)
    ensures r.Some? <==> HostUserOf(env).Some? || isDevelopment
    ensures HostUserOf(env).Some? ==> Normalises(HostUserOf(env).value, r.value)
    ensures HostUserOf(env).None? && isDevelopment ==> r == Some(DevelopmentUser)
  {
    match HostUserOf(env)
    case Some(u) =>
      Some(TelegramUser(u.id, u.firstName, OrElse(u.lastName, ""), OrElse(u.username, ""), OrNull(u.languageCode)))
    case None =>
      if isDevelopment then Some(DevelopmentUser) else None
  }

  /** A host-provided user takes precedence over the development identity. */
  lemma HostUserTakesPrecedence(env: Environment)
    requires HostUserOf(env).Some?
    ensures GetTelegramUser(env, true) == GetTelegramUser(env, false)
  {
  }

  /** Normalisation is a function: a host user has exactly one normalised form. */
  lemma NormalisedFormIsUnique(u: HostUser, t1: TelegramUser, t2: TelegramUser)
    requires Normalises(u, t1) && Normalises(u, t2)
    ensures t1 == t2
  {
  }

  /** Outside development, an identity is produced only inside the Telegram WebApp. */
  lemma IdentityNeedsWebAppOutsideDevelopment(env: Environment)
    requires GetTelegramUser(env, false).Some?
    ensures IsTelegramWebApp(env)
  {
  }
}
