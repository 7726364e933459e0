/**
 * How the pieces meet: the dialog's rules against the contact schema, the
 * log schema against the endpoint's own checks, the bodies the picker and
 * the page post against the endpoint, and the endpoint's replies against
 * what the page then shows.
 */
module Integration {
  import opened Wrappers
  import opened Text
  import opened JsonValues
  import opened Contacts
  import opened ContactModal
  import opened ContactField
  import opened SelectionPage
  import opened LogRoute
  import opened Validation

  /** An empty string is blank. */
  lemma EmptyIsBlank()
    ensures Blank("")
  {
    BlankIffAllSpace("");
  }

  /**
   * The dialog is stricter than the schema: a contact the dialog accepts,
   * with an id and an e-mail the schema library accepts, passes the schema unchanged.
   */
  lemma ModalAcceptedPassesSchema(c: Contact, isEmail: string -> bool)
    requires ErrorsFor(c) == map[]
    requires c.id != "" && isEmail(c.email)
    ensures ValidateContact(ContactToJson(c), isEmail) == Ok(c)
  {
    ValidateAcceptsIff(c);
    EmptyIsBlank();
    ContactSchemaOnContacts(c, isEmail);
  }

  /**
   * The converse fails in two ways: the schema does not trim, so a name of
   * white space passes it, and it has no type-dependent fields, so a company
   * without a company name passes it; the dialog rejects both.
   */
  lemma SchemaLooserThanModal(c: Contact, isEmail: string -> bool)
    requires SchemaAccepts(c, isEmail)
    ensures ValidateContact(ContactToJson(c), isEmail) == Ok(c)
    ensures Blank(c.name) ==> Name in ErrorsFor(c)
    ensures c.ctype == Company && c.companyName.None? ==> CompanyName in ErrorsFor(c)
  {
    ContactSchemaOnContacts(c, isEmail);
    ErrorsForSpec(c, Name);
    ErrorsForSpec(c, CompanyName);
    EmptyIsBlank();
  }

  /** Every request the log schema accepts also passes the endpoint's own checks. */
  lemma SchemaRequestPassesRoute(v: Json)
    requires ValidateLogRequest(v).Ok?
    ensures ValidRequest(Body(v))
    ensures RequestAction(v) == Some(ValidateLogRequest(v).value.action)
  {
  }

  /** The endpoint does not check `field`: a numeric one passes there, while the schema rejects it. */
  lemma RouteIgnoresField()
    ensures var v := JObj([Member("action", JStr("create")), Member("field", JNum(5))]);
      ValidRequest(Body(v)) && ValidateLogRequest(v) == Err(["field"])
  {
    var ms := [Member("action", JStr("create")), Member("field", JNum(5))];
    LookupAt(ms, 0, "action");
    LookupAt(ms, 1, "field");
    assert ActionAt(ms) == Some(Create);
    assert OptionalStringAt(ms, "field").None?;
    assert [] + ["field"] == ["field"];
  }

  /**
   * The body a picker posts after a save passes the schema, with the slot's
   * name and the contact's JSON form, and the endpoint logs it when the file
   * system works.
   */
  lemma PickerLogAccepted(a: LogAction, k: SlotKey, c: Contact, now: string)
    ensures ValidateLogRequest(LogBody(a, k, c)) == Ok(LogRequest(a, Some(SlotName(k)), Some(ContactToJson(c))))
    ensures Respond(Body(LogBody(a, k, c)), now, Done, Done) == Response(200, OkBody)
  {
    LogBodyReadBack(a, k, c);
    var ms := LogBody(a, k, c).members;
    assert ms[2].key == "payload";
    LookupAt(ms, 2, "payload");
    assert ParseAction(ActionName(a)) == Some(a);
    assert ActionAt(ms) == Some(a);
    assert OptionalStringAt(ms, "field") == Some(Some(SlotName(k)));
    assert RequestAction(LogBody(a, k, c)) == Some(a);
  }

  /** The endpoint's success body is what the page counts as a successful submission. */
  lemma OkBodyAccepted()
    ensures SubmitSnackbar(Responded(true, 200, Some(OkBody))) == Snackbar(true, SubmittedMessage, Success)
  {
    LookupAt(OkBody.members, 0, "ok");
  }

  /** The submission body names the `submit` action, carries the state, and has no `field`. */
  lemma SubmitBodyAction(s: AppState)
    ensures var ms := SubmitBody(s).members;
      && ActionAt(ms) == Some(Submit)
      && Field(SubmitBody(s), "action") == Some(JStr("submit"))
      && OptionalStringAt(ms, "field") == Some(None)
      && Lookup(ms, "payload") == Some(StateToJson(s))
  {
    var ms := SubmitBody(s).members;
    LookupAt(ms, 0, "action");
    LookupAt(ms, 1, "payload");
    LookupNone(ms, "field");
  }

  /** The page's submission passes the schema and the endpoint, and with a working file system the page reports success. */
  lemma SubmitSucceeds(s: AppState, now: string)
    ensures ValidateLogRequest(SubmitBody(s)) == Ok(LogRequest(Submit, None, Some(StateToJson(s))))
    ensures Respond(Body(SubmitBody(s)), now, Done, Done) == Response(200, OkBody)
    ensures SubmitSnackbar(Responded(true, 200, Some(OkBody))) == Snackbar(true, SubmittedMessage, Success)
  {
    SubmitBodyAction(s);
    OkBodyAccepted();
  }

  /** The page's text for a failed reply carrying the endpoint's error body. */
  lemma ErrorBodyShown(status: int, error: string, message: string)
    requires error != ""
    ensures SubmitSnackbar(Responded(false, status, Some(ErrorBody(error, message))))
      == Snackbar(true, FailurePrefix + (if message != "" then message else error), Failure)
  {
    var ms := ErrorBody(error, message).members;
    assert ms[1].key == "error" && ms[2].key == "message";
    LookupAt(ms, 1, "error");
    LookupAt(ms, 2, "message");
  }

  /**
   * When the endpoint fails, the page shows the reply's message after its
   * prefix, or the reply's error when that message is empty.
   */
  lemma RouteFailureShown(req: Request, now: string, mkdir: IoResult, write: IoResult)
    ensures var r := Respond(req, now, mkdir, write);
      r.status != 200 ==>
        var message, error := r.body.members[2].value.s, r.body.members[1].value.s;
        SubmitSnackbar(Responded(false, r.status, Some(r.body)))
          == Snackbar(true, FailurePrefix + (if message != "" then message else error), Failure)
  {
    match req
    case ParseFailed(reason) =>
      ErrorBodyShown(400, "Invalid JSON in request body", reason.GetOr("Failed to parse request"));
    case Body(body) =>
      if !ObjectLike(body) {
        ErrorBodyShown(400, InvalidFormat, "Request body must be an object");
      } else if RequestAction(body).None? {
        ErrorBodyShown(400, InvalidFormat, "Action must be 'create', 'update', or 'submit'");
      } else if mkdir.Failed? {
        ErrorBodyShown(500, WriteFailed, "Failed to create logs directory: " + mkdir.reason.GetOr("Unknown error"));
      } else if write.Failed? {
        ErrorBodyShown(500, WriteFailed, "Failed to write log file: " + write.reason.GetOr("Unknown error"));
      }
  }
}
