/**
 * The `POST /api/log` endpoint: it checks the request body step by step,
 * answers 400 for a bad request before touching the file system, and
 * otherwise appends the body, stamped with the time, as one JSON line to
 * the log file, answering 500 when the file system fails.
 */
module LogRoute {
  import opened Wrappers
  import opened Text
  import opened JsonValues
  import opened Contacts

  /** The request body as `req.json()` delivers it: a value, or a parse failure with its message when it is an `Error`. */
  datatype Request = Body(body: Json) | ParseFailed(reason: Option<string>)

  /** The outcome of one file-system call: done, or failed with the error's message when it is an `Error`. */
  datatype IoResult = Done | Failed(reason: Option<string>)

  datatype Response = Response(status: int, body: Json)

  function ErrorBody(error: string, message: string): Json {
    JObj([Member("ok", JBool(false)), Member("error", JStr(error)), Member("message", JStr(message))])
  }

  const OkBody := JObj([Member("ok", JBool(true))])

  const InvalidFormat := "Invalid request format"
  const WriteFailed := "Failed to write log entry"

  /** `!body || typeof body !== "object"` fails: the body is an object or an array. */
  predicate ObjectLike(body: Json) {
    Truthy(body) && (body.JObj? || body.JArr?)
  }

  /** The action named by the body, when it is one of the three the log knows. */
  function RequestAction(body: Json): Option<LogAction> {
    match Field(body, "action")
    case Some(JStr(s)) => ParseAction(s)
    case _ => None
  }

  /** `!body.action || !["create", "update", "submit"].includes(body.action)` is the test for an unknown action. */
  predicate UnknownAction(action: Option<Json>) {
    action.None? || !Truthy(action.value)
    || !(action.value == JStr("create") || action.value == JStr("update") || action.value == JStr("submit"))
  }

  /** The endpoint's test on the `action` property fails exactly when it names none of the three actions. */
  lemma UnknownActionSpec(body: Json)
    ensures UnknownAction(Field(body, "action")) <==> RequestAction(body).None?
  {
    match Field(body, "action")
    case Some(JStr(s)) =>
      assert Truthy(JStr(s)) <==> s != "";
    case _ =>
  }

  /** A request the endpoint writes to the log. */
  predicate ValidRequest(req: Request) {
    req.Body? && ObjectLike(req.body) && RequestAction(req.body).Some?
  }

  /**
   * `{ timestamp: now, ...body }`: the time comes first, and a `timestamp`
   * the body carries replaces it in that first place; the body's other
   * properties follow in their order.
   */
  function Entry(ms: seq<Member>, now: string): (e: Json)
    ensures e.JObj? && Lookup(e.members, "timestamp").Some?
    ensures forall k :: k != "timestamp" ==> Lookup(e.members, k) == Lookup(ms, k)
  {
    JObj([Member("timestamp", Lookup(ms, "timestamp").GetOr(JStr(now)))] + RemoveKey(ms, "timestamp"))
  }

  /** The entry holds every property of the body, and the time only when the body has none. */
  lemma EntryFields(ms: seq<Member>, now: string)
    ensures var e := Entry(ms, now).members;
      && e[0].key == "timestamp"
      && Lookup(e, "timestamp") == (if Lookup(ms, "timestamp").Some? then Lookup(ms, "timestamp") else Some(JStr(now)))
      && forall k :: k != "timestamp" ==> Lookup(e, k) == Lookup(ms, k)
  {
  }

  /** The line the log receives for a valid request, without its newline. */
  function EntryLine(req: Request, now: string): (line: string)
    requires ValidRequest(req)
    ensures '\n' !in line
  {
    Stringify(Entry(req.body.members, now))
  }

  /** The reply to a request, given the time and how the two file-system calls went. */
  function Respond(req: Request, now: string, mkdir: IoResult, write: IoResult): (r: Response)
    ensures r.status == 200 || r.status == 400 || r.status == 500
    ensures r.status == 200 <==> ValidRequest(req) && mkdir.Done? && write.Done?
    ensures r.status == 200 ==> r.body == OkBody
    ensures r.status != 200 ==> Field(r.body, "ok") == Some(JBool(false))
    ensures ValidRequest(req) && mkdir.Failed? ==>
      r == Response(500, ErrorBody(WriteFailed, "Failed to create logs directory: " + mkdir.reason.GetOr("Unknown error")))
    ensures ValidRequest(req) && mkdir.Done? && write.Failed? ==>
      r == Response(500, ErrorBody(WriteFailed, "Failed to write log file: " + write.reason.GetOr("Unknown error")))
  {
    match req
    case ParseFailed(reason) =>
      Response(400, ErrorBody("Invalid JSON in request body", reason.GetOr("Failed to parse request")))
    case Body(body) =>
      if !ObjectLike(body) then
        Response(400, ErrorBody(InvalidFormat, "Request body must be an object"))
      else if RequestAction(body).None? then
        Response(400, ErrorBody(InvalidFormat, "Action must be 'create', 'update', or 'submit'"))
      else if mkdir.Failed? then
        Response(500, ErrorBody(WriteFailed, "Failed to create logs directory: " + mkdir.reason.GetOr("Unknown error")))
      else if write.Failed? then
        Response(500, ErrorBody(WriteFailed, "Failed to write log file: " + write.reason.GetOr("Unknown error")))
      else Response(200, OkBody)
  }

  /**
   * Every request ends in exactly one of 200, 400 and 500: 400 exactly for
   * the bad requests, 500 exactly for good ones the file system failed,
   * 200 otherwise.
   */
  lemma OneOutcome(req: Request, now: string, mkdir: IoResult, write: IoResult)
    ensures var r := Respond(req, now, mkdir, write);
      && (r.status == 400 <==> !ValidRequest(req))
      && (r.status == 500 <==> ValidRequest(req) && (mkdir.Failed? || write.Failed?))
      && (r.status == 200 <==> ValidRequest(req) && mkdir.Done? && write.Done?)
  {
  }

  /**
   * The bad requests, and their errors: a body that is not JSON, a body
   * that is not an object, an object without a known action (arrays among them).
   */
  lemma BadRequests(req: Request, now: string, mkdir: IoResult, write: IoResult)
    ensures req.ParseFailed? ==> Respond(req, now, mkdir, write).body.members[1] == Member("error", JStr("Invalid JSON in request body"))
    ensures req.Body? && !ValidRequest(req) ==> Respond(req, now, mkdir, write).body.members[1] == Member("error", JStr(InvalidFormat))
    ensures req.Body? && req.body.JArr? ==>
      Respond(req, now, mkdir, write) == Response(400, ErrorBody(InvalidFormat, "Action must be 'create', 'update', or 'submit'"))
  {
  }

  /** The text of a log holding `lines`: each line followed by a newline. */
  function JoinLines(lines: seq<string>): string {
    if lines == [] then "" else lines[0] + "\n" + JoinLines(lines[1..])
  }

  /** Reading a log back: the text up to each newline is a line; text after the last newline is a last line. */
  function SplitLines(text: string): seq<string>
    decreases |text|
  {
    if text == [] then []
    else
      var i := FindChar(text, '\n');
      if i == |text| then [text] else [text[..i]] + SplitLines(text[i + 1..])
  }

  /** Splitting stops at the first newline: a line without one, then a newline, comes off whole. */
  lemma SplitFirstLine(l: string, rest: string)
    requires '\n' !in l
    ensures SplitLines(l + "\n" + rest) == [l] + SplitLines(rest)
  {
    var t := l + "\n" + rest;
    assert t[|l|] == '\n';
    assert forall j | 0 <= j < |l| :: t[j] == l[j];
    assert FindChar(t, '\n') == |l|;
    assert t[..|l|] == l;
    assert t[|l| + 1..] == rest;
  }

  /** Lines without newlines survive joining and splitting. */
  lemma {:induction false} SplitJoin(lines: seq<string>)
    requires forall i | 0 <= i < |lines| :: '\n' !in lines[i]
    ensures SplitLines(JoinLines(lines)) == lines
  {
    if lines != [] {
      SplitFirstLine(lines[0], JoinLines(lines[1..]));
      SplitJoin(lines[1..]);
    }
  }

  /** Appending one line to the text appends it to the list of lines. */
  lemma {:induction false} JoinAppend(lines: seq<string>, line: string)
    ensures JoinLines(lines + [line]) == JoinLines(lines) + line + "\n"
  {
    if lines == [] {
      assert lines + [line] == [line];
    } else {
      assert (lines + [line])[1..] == lines[1..] + [line];
      JoinAppend(lines[1..], line);
    }
  }

  /** The log file `logs/events.log`. */
  class LogFile {
    var text: string
    ghost var lines: seq<string>

    /** The text is a sequence of newline-terminated lines, none holding a newline of its own. */
    ghost predicate Valid()
      reads this
    {
      && text == JoinLines(lines)
      && forall i | 0 <= i < |lines| :: '\n' !in lines[i]
    }

    constructor ()
      ensures Valid() && lines == []
    {
      text := "";
      lines := [];
    }

    /**
     * Handles one request. Only a valid request whose two file-system calls
     * succeed changes the log, and then by exactly one line at its end.
     */
    method Post(req: Request, now: string, mkdir: IoResult, write: IoResult) returns (resp: Response)
      requires Valid()
      modifies this
      ensures Valid()
      ensures resp == Respond(req, now, mkdir, write)
      ensures resp.status == 200 ==>
        && ValidRequest(req)
        && lines == old(lines) + [EntryLine(req, now)]
        && text == old(text) + EntryLine(req, now) + "\n"
      ensures resp.status != 200 ==> text == old(text) && lines == old(lines)
    {
      if req.ParseFailed? {
        var message := if req.reason.Some? then req.reason.value else "Failed to parse request";
        return Response(400, ErrorBody("Invalid JSON in request body", message));
      }
      var body := req.body;
      if !Truthy(body) || !(body.JObj? || body.JArr?) {
        return Response(400, ErrorBody(InvalidFormat, "Request body must be an object"));
      }
      UnknownActionSpec(body);
      if UnknownAction(Field(body, "action")) {
        return Response(400, ErrorBody(InvalidFormat, "Action must be 'create', 'update', or 'submit'"));
      }
      if mkdir.Failed? {
        var reason := if mkdir.reason.Some? then mkdir.reason.value else "Unknown error";
        return Response(500, ErrorBody(WriteFailed, "Failed to create logs directory: " + reason));
      }
      var entry := Entry(body.members, now);
      var serializedEntry := Stringify(entry);
      if write.Failed? {
        var writeErrorMessage := if write.reason.Some? then write.reason.value else "Unknown error";
        return Response(500, ErrorBody(WriteFailed, "Failed to write log file: " + writeErrorMessage));
      }
      JoinAppend(lines, serializedEntry);
      text := text + serializedEntry + "\n";
      lines := lines + [serializedEntry];
      resp := Response(200, OkBody);
    }
  }

  /** After a successful request, reading the log back gives the earlier lines and then the new entry. */
  lemma AppendReadsBack(before: seq<string>, line: string)
    requires forall i | 0 <= i < |before| :: '\n' !in before[i]
    requires '\n' !in line
    ensures SplitLines(JoinLines(before) + line + "\n") == before + [line]
  {
    JoinAppend(before, line);
    SplitJoin(before + [line]);
  }
}
