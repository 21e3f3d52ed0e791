/**
 * The admin gate of the request middleware, after the session and profile lookups: a pure
 * decision over the request path, the signed-in user (if any) and the `profiles` table.
 */
module Middleware {
  import opened Wrappers
  import opened DatabaseTypes
  import opened Paths

  /** Either the request goes through, or the browser is sent to `location`. */
  datatype Decision = PassThrough | Redirect(location: string)

  const LoginLocation: string := "/login"
  const UnauthorizedLocation: string := "/login?error=unauthorized"

  /** Paths that are let through without any session: anything starting with `/login` or `/auth`. */
  predicate IsAuthPath(path: string) {
    StartsWith(path, "/login") || StartsWith(path, "/auth")
  }

  /** The middleware reads the user's profile only on a gated path with a signed-in user. */
  predicate NeedsRoleLookup(path: string, user: Option<Id>) {
    !IsAuthPath(path) && user.Some?
  }

  /**
   * `select('role').eq('id', uid).single()`: the role of the profile whose id is `uid`, or
   * no profile at all when no row has that id.
   */
  function ProfileOf(profiles: map<Id, Profile>, uid: Id): Option<Profile> {
    if uid in profiles then Some(profiles[uid]) else None
  }

  /** The profile exists and its role is exactly `admin`. */
  predicate IsAdminProfile(profile: Option<Profile>) {
    profile.Some? && profile.value.role == Some(Admin)
  }

  /** The decision `updateSession` takes for one request. */
  function Gate(path: string, user: Option<Id>, profiles: map<Id, Profile>): (d: Decision)
    ensures d == PassThrough <==>
      IsAuthPath(path) || (user.Some? && IsAdminProfile(ProfileOf(profiles, user.value)))
    ensures d == Redirect(LoginLocation) <==> !IsAuthPath(path) && user.None?
    ensures d == Redirect(UnauthorizedLocation) <==>
      NeedsRoleLookup(path, user) && !IsAdminProfile(ProfileOf(profiles, user.value))
    ensures d.Redirect? ==> d.location in {LoginLocation, UnauthorizedLocation}
  {
    if IsAuthPath(path) then
      PassThrough
    else if user.None? then
      Redirect(LoginLocation)
    else
      var profile := ProfileOf(profiles, user.value);
      if !IsAdminProfile(profile) then Redirect(UnauthorizedLocation) else PassThrough
  }

  /** The decision depends on the profiles table only when the role lookup actually happens. */
  lemma RoleLookupOnlyWhenNeeded(path: string, user: Option<Id>, p1: map<Id, Profile>, p2: map<Id, Profile>)
    requires !NeedsRoleLookup(path, user)
    ensures Gate(path, user, p1) == Gate(path, user, p2)
  {
  }

  /** A gated path never passes for anyone but a signed-in user whose profile role is `admin`. */
  lemma OnlyAdminPassesGatedPath(path: string, user: Option<Id>, profiles: map<Id, Profile>)
    requires !IsAuthPath(path) && Gate(path, user, profiles) == PassThrough
    ensures user.Some? && user.value in profiles && profiles[user.value].role == Some(Admin)
  {
  }

  /** The test is a plain prefix test, so `/authors` and `/login-help` also pass ungated. */
  lemma PrefixTestIsPlain(profiles: map<Id, Profile>)
    ensures IsAuthPath("/authors") && Gate("/authors", None, profiles) == PassThrough
    ensures IsAuthPath("/login-help")
    ensures !IsAuthPath("/") && Gate("/", None, profiles) == Redirect(LoginLocation)
  {
  }
}
