/**
 * The page that holds the three contact slots: it keeps them in local
 * storage, reports saves and the final submission in a snackbar, and turns
 * every way the submission can fail into one error message.
 */
module SelectionPage {
  import opened Wrappers
  import opened Text
  import opened JsonValues
  import opened Contacts
  import opened PageStorage

  datatype Severity = Success | Failure

  /** The notification bar: whether it shows, what it says, and how. */
  datatype Snackbar = Snackbar(open: bool, message: string, severity: Severity)

  const ClosedSnackbar := Snackbar(false, "", Success)

  const SubmittedMessage := "All selections submitted and logged successfully"
  const FailurePrefix := "Failed to submit: "

  /**
   * How the submission request ended: the request itself threw (an `Error`
   * with its message, or some other value), or a response came back with
   * its `ok` flag, its status and its body when that parses as JSON.
   */
  datatype SubmitResponse =
    | Rejected(message: Option<string>)
    | Responded(ok: bool, status: int, body: Option<Json>)

  /** The body of the submission request. */
  function SubmitBody(s: AppState): (body: Json)
    ensures Field(body, "action") == Some(JStr("submit"))
  {
    JObj([Member("action", JStr("submit")), Member("payload", StateToJson(s))])
  }

  /** `data.message || data.error || fallback`, as the message of the `Error` it is thrown in. */
  function Preferred(data: Json, fallback: string): (r: string)
    ensures Field(data, "message").Some? && Truthy(Field(data, "message").value) ==>
      r == ToJsString(Field(data, "message").value)
    ensures
      ((Field(data, "message").None? || !Truthy(Field(data, "message").value))
       && Field(data, "error").Some? && Truthy(Field(data, "error").value)) ==>
      r == ToJsString(Field(data, "error").value)
    ensures
      ((Field(data, "message").None? || !Truthy(Field(data, "message").value))
       && (Field(data, "error").None? || !Truthy(Field(data, "error").value))) ==>
      r == fallback
  {
    var m, e := Field(data, "message"), Field(data, "error");
    if m.Some? && Truthy(m.value) then ToJsString(m.value)
    else if e.Some? && Truthy(e.value) then ToJsString(e.value)
    else fallback
  }

  /** The detail given for a response whose status is not ok. */
  function NotOkDetail(status: int, body: Option<Json>): string {
    var byStatus := "Server responded with status " + IntToString(status);
    if body.Some? then Preferred(body.value, byStatus) else byStatus
  }

  /** A successful submission: an ok response whose body is truthy and has a truthy `ok`. */
  predicate Accepted(resp: SubmitResponse) {
    && resp.Responded? && resp.ok && resp.body.Some?
    && Truthy(resp.body.value)
    && Field(resp.body.value, "ok").Some? && Truthy(Field(resp.body.value, "ok").value)
  }

  /** What the snackbar shows once the submission has ended. */
  function SubmitSnackbar(resp: SubmitResponse): (sb: Snackbar)
    ensures sb.open
    ensures sb.severity == Success <==> Accepted(resp)
    ensures Accepted(resp) ==> sb.message == SubmittedMessage
    ensures !Accepted(resp) && resp != Rejected(None) ==>
      |sb.message| >= |FailurePrefix| && sb.message[..|FailurePrefix|] == FailurePrefix
    ensures resp.Responded? && !resp.ok ==> sb.message == FailurePrefix + NotOkDetail(resp.status, resp.body)
    ensures resp.Responded? && resp.ok && resp.body.None? ==> sb.message == FailurePrefix + "Failed to parse server response"
    ensures resp.Responded? && resp.ok && resp.body.Some? && !Accepted(resp) ==>
      sb.message == FailurePrefix + Preferred(resp.body.value, "Server returned an error")
    ensures resp.Rejected? && resp.message.Some? ==> sb.message == FailurePrefix + resp.message.value
    ensures resp == Rejected(None) ==> sb.message == "Failed to submit selections. Please try again."
  {
    match resp
    case Rejected(message) =>
      if message.Some? then Snackbar(true, FailurePrefix + message.value, Failure)
      else Snackbar(true, "Failed to submit selections. Please try again.", Failure)
    case Responded(ok, status, body) =>
      if !ok then Snackbar(true, FailurePrefix + NotOkDetail(status, body), Failure)
      else if body.None? then Snackbar(true, FailurePrefix + "Failed to parse server response", Failure)
      else if Accepted(resp) then Snackbar(true, SubmittedMessage, Success)
      else Snackbar(true, FailurePrefix + Preferred(body.value, "Server returned an error"), Failure)
  }

  /**
   * The detail of a failed response prefers the body's `message`, then its
   * `error`, then a text naming the status; a body that is not JSON falls
   * back to the status text.
   */
  lemma NotOkPreference(status: int, body: Option<Json>)
    ensures var sb := SubmitSnackbar(Responded(false, status, body));
      && sb.severity == Failure
      && (body.None? ==> sb.message == FailurePrefix + "Server responded with status " + IntToString(status))
      && (body.Some? && Field(body.value, "message").Some? && Truthy(Field(body.value, "message").value) ==>
            sb.message == FailurePrefix + ToJsString(Field(body.value, "message").value))
      && (body.Some? && (Field(body.value, "message").None? || !Truthy(Field(body.value, "message").value))
          && Field(body.value, "error").Some? && Truthy(Field(body.value, "error").value) ==>
            sb.message == FailurePrefix + ToJsString(Field(body.value, "error").value))
      && (body.Some? && (Field(body.value, "message").None? || !Truthy(Field(body.value, "message").value))
          && (Field(body.value, "error").None? || !Truthy(Field(body.value, "error").value)) ==>
            sb.message == FailurePrefix + "Server responded with status " + IntToString(status))
  {
  }

  /** The text of the snackbar after a save reported by a picker. */
  function SavedMessage(action: LogAction): (m: string)
    requires action != Submit
    ensures action == Create <==> m == "Contact created successfully"
    ensures action == Update <==> m == "Contact updated successfully"
  {
    var actionLabel := if action == Create then "created" else "updated";
    var m := "Contact " + actionLabel + " successfully";
    assert m[8] == (if action == Create then 'c' else 'u');
    m
  }

  /** The page's own state. */
  class Page {
    const inBrowser: bool
    var state: AppState
    var snackbar: Snackbar
    var storage: map<string, Stored>

    /** A reload would start from the current selections. */
    predicate Synced()
      reads this
    {
      inBrowser ==> LoadInitialState(true, storage) == state
    }

    /** Mounting: the state is read from the store, the bar is closed, and the state is written back. */
    constructor (inBrowser: bool, storage: map<string, Stored>)
      ensures this.inBrowser == inBrowser
      ensures state == LoadInitialState(inBrowser, storage)
      ensures snackbar == ClosedSnackbar
      ensures this.storage == Persisted(inBrowser, storage, state)
      ensures Synced()
    {
      this.inBrowser := inBrowser;
      var s := LoadInitialState(inBrowser, storage);
      state := s;
      snackbar := ClosedSnackbar;
      this.storage := Persisted(inBrowser, storage, s);
      LoadRoundTrip(storage, s);
    }

    /** The effect run after each change of the state: write it under the storage key. */
    method PersistState()
      modifies this`storage
      ensures storage == Persisted(inBrowser, old(storage), state)
      ensures Synced()
    {
      if !inBrowser {
        return;
      }
      LoadRoundTrip(storage, state);
      storage := storage[StorageKey := Parsed(StateToJson(state))];
    }

    /** A picker changed slot `k` to `v`: only that slot changes, and the new state is stored. */
    method HandleFieldChange(k: SlotKey, v: Option<Contact>)
      modifies this`state, this`storage
      ensures state == SetSlot(old(state), k, v)
      ensures storage == Persisted(inBrowser, old(storage), state)
      ensures Synced()
    {
      state := SetSlot(state, k, v);
      PersistState();
    }

    /** A picker reported a save: the bar opens with a success message naming the action. */
    method HandleLogChange(action: LogAction)
      requires action != Submit
      modifies this`snackbar
      ensures snackbar == Snackbar(true, SavedMessage(action), Success)
    {
      var actionLabel := if action == Create then "created" else "updated";
      snackbar := Snackbar(true, "Contact " + actionLabel + " successfully", Success);
    }

    /**
     * Submits the current selections: the body posted is returned, the
     * response decides what the bar shows, and the selections stay as they are.
     */
    method HandleFinalSubmit(resp: SubmitResponse) returns (body: Json)
      modifies this`snackbar
      ensures body == SubmitBody(state)
      ensures snackbar == SubmitSnackbar(resp)
    {
      body := JObj([Member("action", JStr("submit")), Member("payload", StateToJson(state))]);
      var message: string;
      var severity := Failure;
      match resp {
        case Rejected(m) =>
          message := if m.Some? then FailurePrefix + m.value else "Failed to submit selections. Please try again.";
        case Responded(ok, status, data) =>
          if !ok {
            var errorDetails := "Server responded with status " + IntToString(status);
            if data.Some? {
              var m, e := Field(data.value, "message"), Field(data.value, "error");
              if m.Some? && Truthy(m.value) {
                errorDetails := ToJsString(m.value);
              } else if e.Some? && Truthy(e.value) {
                errorDetails := ToJsString(e.value);
              }
            }
            message := FailurePrefix + errorDetails;
          } else if data.None? {
            message := FailurePrefix + "Failed to parse server response";
          } else if Truthy(data.value) && Field(data.value, "ok").Some? && Truthy(Field(data.value, "ok").value) {
            message := SubmittedMessage;
            severity := Success;
          } else {
            message := FailurePrefix + Preferred(data.value, "Server returned an error");
          }
      }
      snackbar := Snackbar(true, message, severity);
    }

    /** Closing the bar hides it and keeps its message and severity. */
    method HandleCloseSnackbar()
      modifies this`snackbar
      ensures snackbar == old(snackbar).(open := false)
    {
      snackbar := snackbar.(open := false);
    }
  }
}
