/** The persisted records (`main/models.py`) and the request user, as values. */
module Models {
  import opened Wrappers

  /**
   * A Django user as the request sees it. An anonymous user has no id and is neither
   * authenticated, staff nor superuser.
   */
  datatype User = User(id: Option<int>, isAuthenticated: bool, isStaff: bool, isSuperuser: bool)

  /**
   * A CV row. The four free-text columns are optional because the code guards every read of
   * them with `or ''`; `ownerId` is `None` once the owner has been deleted (`SET_NULL`).
   */
  datatype Cv = Cv(
    id: nat,
    firstname: string,
    lastname: string,
    bio: Option<string>,
    skills: Option<string>,
    projects: Option<string>,
    contacts: Option<string>,
    ownerId: Option<int>,
    createdAt: int,
    updatedAt: int)

  /** A `RequestLog` audit row; `timestamp` is an integer instant. */
  datatype RequestLog = RequestLog(
    timestamp: int,
    httpMethod: string,
    path: string,
    queryString: string,
    remoteIp: Option<string>,
    userId: Option<int>)
}
