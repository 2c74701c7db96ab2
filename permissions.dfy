/**
 * The REST API's permission classes (main/api/permissions.py). The request user is
 * `None` where the request carries none; Django's anonymous user is a present, unauthenticated
 * user without an id.
 */
module Permissions {
  import opened Wrappers
  import opened Models

  /** DRF's `SAFE_METHODS`. */
  const SafeMethods: set<string> := {"GET", "HEAD", "OPTIONS"}

  /** `request.user and request.user.is_authenticated`. */
  predicate Authenticated(user: Option<User>) {
    user.Some? && user.value.isAuthenticated
  }

  /** `IsAdmin.has_permission`: a present user who is staff. */
  predicate IsAdmin(user: Option<User>) {
    user.Some? && user.value.isStaff
  }

  /** `IsCVChecker.has_permission`: an authenticated user and a safe method. */
  predicate IsCVChecker(user: Option<User>, httpMethod: string) {
    Authenticated(user) && httpMethod in SafeMethods
  }

  /** `IsCVOwnerOrReadOnly.has_permission`: both branches ask for an authenticated user. */
  predicate HasPermission(user: Option<User>, httpMethod: string) {
    if httpMethod in SafeMethods then Authenticated(user) else Authenticated(user)
  }

  /** What the object check is handed: a CV or any other object. */
  datatype Object = CvObject(cv: Cv) | OtherObject

  /**
   * `IsCVOwnerOrReadOnly.has_object_permission`: a safe method needs an authenticated user;
   * any other method needs a CV whose owner id equals the user's `id` (`None` for a user
   * without one).
   */
  predicate HasObjectPermission(user: Option<User>, httpMethod: string, obj: Object) {
    if httpMethod in SafeMethods then Authenticated(user)
    else obj.CvObject? && user.Some? && obj.cv.ownerId == user.value.id
  }

  /** The checker role only ever reads: an unsafe method is refused whoever asks. */
  lemma CheckerIsReadOnly(user: Option<User>, httpMethod: string)
    ensures httpMethod !in SafeMethods ==> !IsCVChecker(user, httpMethod)
  {
  }

  /**
   * Staff status alone decides `IsAdmin`, whether or not the user is authenticated; an
   * absent user is never an admin.
   */
  lemma AdminNeedsStaff(user: Option<User>)
    ensures user.Some? ==> (IsAdmin(user) <==> user.value.isStaff)
    ensures user.None? ==> !IsAdmin(user)
  {
  }

  /** `has_permission` ignores the method: it is exactly authentication. */
  lemma HasPermissionIgnoresMethod(user: Option<User>, m1: string, m2: string)
    ensures HasPermission(user, m1) == HasPermission(user, m2) == Authenticated(user)
  {
  }

  /**
   * Both checks together, as DRF applies them to a detail request: the user is
   * authenticated, and an unsafe method is allowed only on a CV the user owns.
   */
  lemma OwnerOrReadOnlyGuarded(user: Option<User>, httpMethod: string, obj: Object)
    ensures HasPermission(user, httpMethod) && HasObjectPermission(user, httpMethod, obj) <==>
              Authenticated(user) &&
              (httpMethod in SafeMethods || (obj.CvObject? && obj.cv.ownerId == user.value.id))
  {
  }

  /** Another user's CV is read-only: reading is allowed, changing it is not. */
  lemma OthersCvIsReadOnly(user: User, cv: Cv, httpMethod: string)
    requires user.isAuthenticated && cv.ownerId != user.id
    ensures HasObjectPermission(Some(user), httpMethod, CvObject(cv)) <==> httpMethod in SafeMethods
  {
  }

  /**
   * The object check on its own lets a user without an id modify a CV without an owner,
   * since `None == None`; `has_permission`, which runs first, refuses an unauthenticated
   * user.
   */
  lemma OwnerlessCvObjectCheck(user: User, cv: Cv, httpMethod: string)
    requires user.id.None? && !user.isAuthenticated && cv.ownerId.None?
    requires httpMethod !in SafeMethods
    ensures HasObjectPermission(Some(user), httpMethod, CvObject(cv))
    ensures !HasPermission(Some(user), httpMethod)
  {
  }
}
