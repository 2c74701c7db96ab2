/**
 * `RequestLoggingMiddleware` (main/middleware/request_logging.py): it calls the rest of the
 * stack, turns an exception outside `/api/` into the 500 page, and records one `RequestLog`
 * row per answered request without ever letting the recording break the request.
 */
module RequestLogging {
  import opened Wrappers
  import opened Text
  import opened Models

  /** What the middleware reads from a request; `meta` is `request.META`. */
  datatype Request = Request(httpMethod: string, path: string, meta: map<string, string>, user: Option<User>)

  /** An HTTP response, passed through as it is. */
  datatype Response = Response(status: int, content: string)

  /** `render(request, 'main/errors/500.html', status=500)`; the template is not modelled. */
  const ServerErrorPage := Response(500, "main/errors/500.html")

  /** What `self.get_response(request)` does. */
  datatype Downstream = Responded(response: Response) | DownstreamRaised(message: string)

  /** What `__call__` does: return a response or let the exception propagate. */
  datatype CallResult = Returned(response: Response) | Reraised(message: string)

  /** `d.get(key, default)` on `request.META`. */
  function MetaGet(meta: map<string, string>, key: string, default: string): string {
    if key in meta then meta[key] else default
  }

  /**
   * The client address recorded: the first hop of `X-Forwarded-For`, stripped, else
   * `REMOTE_ADDR`, and nothing in place of an empty address.
   */
  function RemoteIp(meta: map<string, string>): (r: Option<string>)
    ensures r.Some? ==> r.value != ""
    ensures var hop := Strip(BeforeFirst(MetaGet(meta, "HTTP_X_FORWARDED_FOR", ""), ','));
            hop != "" ==> r == Some(hop) && ',' !in r.value
    ensures var hop := Strip(BeforeFirst(MetaGet(meta, "HTTP_X_FORWARDED_FOR", ""), ','));
            hop == "" ==> r == (if MetaGet(meta, "REMOTE_ADDR", "") == "" then None else Some(meta["REMOTE_ADDR"]))
  {
    var forwarded := BeforeFirst(MetaGet(meta, "HTTP_X_FORWARDED_FOR", ""), ',');
    var hop := Strip(forwarded);
    StripIsInfixNoComma(forwarded);
    if hop != "" then Some(hop)
    else if "REMOTE_ADDR" in meta && meta["REMOTE_ADDR"] != "" then Some(meta["REMOTE_ADDR"])
    else None
  }

  /** Stripping keeps a comma-free text comma-free. */
  lemma StripIsInfixNoComma(s: string)
    requires ',' !in s
    ensures ',' !in Strip(s)
  {
    var i := StripIsInfix(s);
    assert forall k :: 0 <= k < |Strip(s)| ==> Strip(s)[k] == s[i + k];
  }

  /** With a proxy chain `client, proxy, ...` the client's address is recorded. */
  lemma FirstForwardedHop(meta: map<string, string>, client: string, rest: string)
    requires ',' !in client && Strip(client) != ""
    requires "HTTP_X_FORWARDED_FOR" in meta && meta["HTTP_X_FORWARDED_FOR"] == client + "," + rest
    ensures RemoteIp(meta) == Some(Strip(client))
  {
    BeforeFirstOfJoin(client, ',', rest);
  }

  /** Splitting `a + c + b` at its first `c` gives back `a` when `a` holds no `c`. */
  lemma {:induction false} BeforeFirstOfJoin(a: string, c: char, b: string)
    requires c !in a
    ensures BeforeFirst(a + [c] + b, c) == a
  {
    var s := a + [c] + b;
    if a != [] {
      assert s[0] == a[0] && s[1..] == a[1..] + [c] + b;
      BeforeFirstOfJoin(a[1..], c, b);
    }
  }

  /** The user recorded: the request's user when authenticated, else nobody. */
  function LoggedUser(user: Option<User>): (r: Option<int>)
    ensures r.Some? ==> user.Some? && user.value.isAuthenticated && r == user.value.id
    ensures user.Some? && user.value.isAuthenticated ==> r == user.value.id
  {
    if user.Some? && user.value.isAuthenticated then user.value.id else None
  }

  /** The row `RequestLog.objects.create(...)` writes at instant `now`. */
  function LogRow(request: Request, now: int): (row: RequestLog)
    ensures row.timestamp == now && row.httpMethod == request.httpMethod && row.path == request.path
    ensures row.queryString == MetaGet(request.meta, "QUERY_STRING", "")
    ensures row.remoteIp == RemoteIp(request.meta) && row.userId == LoggedUser(request.user)
  {
    RequestLog(now, request.httpMethod, request.path, MetaGet(request.meta, "QUERY_STRING", ""),
               RemoteIp(request.meta), LoggedUser(request.user))
  }

  /**
   * `__call__` on the table's rows: an `/api/` exception propagates and another one gives
   * the 500 page, both without a row; an answered request is returned unchanged, with its
   * row appended unless writing it fails (`storeFails`).
   */
  function CallOutcome(rows: seq<RequestLog>, request: Request, downstream: Downstream,
                       storeFails: bool, now: int): (r: (CallResult, seq<RequestLog>))
    ensures downstream.DownstreamRaised? && StartsWith(request.path, "/api/") ==>
              r == (Reraised(downstream.message), rows)
    ensures downstream.DownstreamRaised? && !StartsWith(request.path, "/api/") ==>
              r == (Returned(ServerErrorPage), rows)
    ensures downstream.Responded? ==> r.0 == Returned(downstream.response)
    ensures downstream.Responded? && !storeFails ==> r.1 == rows + [LogRow(request, now)]
    ensures storeFails ==> r.1 == rows
    ensures |rows| <= |r.1| <= |rows| + 1 && r.1[..|rows|] == rows
  {
    match downstream
    case DownstreamRaised(msg) =>
      if StartsWith(request.path, "/api/") then (Reraised(msg), rows) else (Returned(ServerErrorPage), rows)
    case Responded(response) =>
      if storeFails then (Returned(response), rows) else (Returned(response), rows + [LogRow(request, now)])
  }

  /** The `RequestLog` table, as the rows it holds. */
  class RequestLogTable {
    var rows: seq<RequestLog>

    constructor ()
      ensures rows == []
    {
      rows := [];
    }

    /** `RequestLog.objects.create(...)`, which raises when `fails`. */
    method Create(row: RequestLog, fails: bool) returns (ok: bool)
      modifies this
      ensures ok == !fails
      ensures rows == if fails then old(rows) else old(rows) + [row]
    {
      if fails {
        return false;
      }
      rows := rows + [row];
      return true;
    }
  }

  /** The second `try` of `__call__`: build the row and write it, swallowing a failure. */
  method LogRequest(table: RequestLogTable, request: Request, storeFails: bool, now: int)
    modifies table
    ensures table.rows == if storeFails then old(table.rows) else old(table.rows) + [LogRow(request, now)]
  {
    var row := LogRow(request, now);
    var _ := table.Create(row, storeFails);
  }

  /** `RequestLoggingMiddleware.__call__`. */
  method Call(table: RequestLogTable, request: Request, downstream: Downstream, storeFails: bool, now: int)
    returns (r: CallResult)
    modifies table
    ensures (r, table.rows) == CallOutcome(old(table.rows), request, downstream, storeFails, now)
  {
    match downstream
    case DownstreamRaised(msg) =>
      r := if StartsWith(request.path, "/api/") then Reraised(msg) else Returned(ServerErrorPage);
    case Responded(response) =>
      LogRequest(table, request, storeFails, now);
      r := Returned(response);
  }

  /** A request that is answered is logged at most once, and one that raises not at all. */
  lemma OnlyAnsweredRequestsLogged(rows: seq<RequestLog>, request: Request, downstream: Downstream,
                                   storeFails: bool, now: int)
    ensures var r := CallOutcome(rows, request, downstream, storeFails, now);
            |r.1| == |rows| + 1 <==> downstream.Responded? && !storeFails
  {
  }
}
