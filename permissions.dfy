/**
 * The role predicates the endpoints are guarded by, with the caller's
 * identity passed in as a value instead of being probed by attribute access.
 */
module Permissions {
  import opened Models

  datatype HttpMethod = Get | Head | Options | Post | Put | Patch | Delete

  /** The read-only methods: GET, HEAD and OPTIONS. */
  predicate IsSafe(m: HttpMethod) {
    m == Get || m == Head || m == Options
  }

  /** The caller's profile (Usuario); its role may be unset. */
  datatype Profile = Profile(id: ProfileId, rol: Option<RoleName>)

  /** The caller: an anonymous request, or a user who may or may not have a profile. */
  datatype Principal = Anonymous | Authenticated(perfil: Option<Profile>)

  predicate IsAuthenticated(p: Principal) {
    p.Authenticated?
  }

  /**
   * IsAdmin: the caller's profile has the admin role. A missing profile, a
   * profile without a role and an anonymous caller all fail the check.
   */
  function IsAdmin(p: Principal): (r: bool)
    ensures r ==> IsAuthenticated(p)
    ensures r <==> exists prof :: p == Authenticated(Some(prof)) && prof.rol == Some(Admin)
  {
    match p
    case Anonymous => false
    case Authenticated(perfil) => perfil.Some? && perfil.value.rol == Some(Admin)
  }

  /** IsAdminOrReadOnly: every safe request passes, any other only for an admin. */
  function IsAdminOrReadOnly(m: HttpMethod, p: Principal): (r: bool)
    ensures IsSafe(m) ==> r
    ensures !IsSafe(m) ==> (r <==> IsAdmin(p))
  {
    IsSafe(m) || IsAdmin(p)
  }

  /** The permission classes an endpoint declares. */
  datatype Policy =
    | AllowAny
    | AuthenticatedOnly
    | AuthenticatedAdmin
    | AuthenticatedAdminOrReadOnly

  /** Why a request is refused before the endpoint runs. */
  datatype Denial = NotAuthenticated | PermissionDenied

  /**
   * The permission check run before an endpoint's body: None lets the request
   * through; an anonymous caller is refused as not authenticated, an
   * authenticated one without the right as denied.
   */
  function Check(policy: Policy, m: HttpMethod, p: Principal): (r: Option<Denial>)
    ensures policy == AllowAny ==> r.None?
    ensures policy == AuthenticatedOnly ==> (r.None? <==> IsAuthenticated(p))
    ensures policy == AuthenticatedAdmin ==> (r.None? <==> IsAdmin(p))
    ensures policy == AuthenticatedAdminOrReadOnly ==>
      (r.None? <==> IsAuthenticated(p) && IsAdminOrReadOnly(m, p))
    ensures r == Some(NotAuthenticated) <==> policy != AllowAny && !IsAuthenticated(p)
  {
    if policy == AllowAny then None
    else if !IsAuthenticated(p) then Some(NotAuthenticated)
    else
      var allowed := match policy
        case AuthenticatedOnly => true
        case AuthenticatedAdmin => IsAdmin(p)
        case AuthenticatedAdminOrReadOnly => IsAdminOrReadOnly(m, p)
        case AllowAny => true;
      if allowed then None else Some(PermissionDenied)
  }

  /**
   * The profile an action is recorded under: the caller's profile when it has
   * one. Every caller the admin check lets through has one.
   */
  function ActingProfile(p: Principal): (r: Option<ProfileId>)
    ensures r.Some? <==> p.Authenticated? && p.perfil.Some?
    ensures r.Some? ==> r.value == p.perfil.value.id
    ensures IsAdmin(p) ==> r.Some?
    ensures Check(AuthenticatedAdmin, Post, p).None? ==> r.Some?
  {
    if p.Authenticated? && p.perfil.Some? then Some(p.perfil.value.id) else None
  }

  /** Under IsAdminOrReadOnly a write request needs exactly the admin role. */
  lemma WritesUnderReadOnlyPolicyNeedAdmin(m: HttpMethod, p: Principal)
    requires !IsSafe(m)
    ensures Check(AuthenticatedAdminOrReadOnly, m, p) == Check(AuthenticatedAdmin, m, p)
  {
  }
}
