/**
 * One contact slot on the page: a search box whose results come from a user
 * directory, the summary card of the chosen contact, and the create/edit
 * dialog whose saves are reported to the page and to the log endpoint.
 */
module ContactField {
  import opened Wrappers
  import opened Text
  import opened JsonValues
  import opened Contacts
  import opened ContactModal

  /** A user record as the directory returns it; the nested parts and their fields may be absent. */
  datatype CompanyInfo = CompanyInfo(name: Option<string>)
  datatype AddressInfo = AddressInfo(address: Option<string>, city: Option<string>, country: Option<string>)
  datatype DummyUser = DummyUser(
    id: int,
    firstName: string,
    lastName: string,
    email: string,
    company: Option<CompanyInfo>,
    address: Option<AddressInfo>)

  const IdPrefix := "dummy-"

  /** `a?.b ?? ""` for the company name. */
  function CompanyOf(u: DummyUser): string {
    if u.company.Some? then u.company.value.name.GetOr("") else ""
  }

  /** `u.address?.address ?? ""` and likewise for the city and the country. */
  function StreetOf(u: DummyUser): string {
    if u.address.Some? then u.address.value.address.GetOr("") else ""
  }

  function CityOf(u: DummyUser): string {
    if u.address.Some? then u.address.value.city.GetOr("") else ""
  }

  function CountryOf(u: DummyUser): string {
    if u.address.Some? then u.address.value.country.GetOr("") else ""
  }

  /** The contact a directory user becomes in the result list. */
  function ToContact(u: DummyUser): (c: Contact)
    ensures c.ctype == Individual && c.email == u.email
    ensures |c.id| > |IdPrefix| && c.id[..|IdPrefix|] == IdPrefix
  {
    Contact(
      IdPrefix + IntToString(u.id),
      Individual,
      Trim(u.firstName + " " + u.lastName),
      Some(u.firstName),
      Some(u.lastName),
      Some(CompanyOf(u)),
      u.email,
      StreetOf(u),
      CityOf(u),
      CountryOf(u))
  }

  /** The result list: one contact per user, in the users' order. */
  function MapUsers(users: seq<DummyUser>): (r: seq<Contact>)
    ensures |r| == |users|
    ensures forall i | 0 <= i < |users| :: r[i] == ToContact(users[i])
  {
    if users == [] then [] else [ToContact(users[0])] + MapUsers(users[1..])
  }

  /**
   * A mapped user is an individual whose optional parts are all present; each
   * company or address part is copied when the user has it and reads as empty
   * text when it, or the record holding it, is missing.
   */
  lemma ToContactShape(u: DummyUser)
    ensures var c := ToContact(u);
      && c.ctype == Individual
      && c.firstName == Some(u.firstName) && c.lastName == Some(u.lastName)
      && c.email == u.email
      && (u.company.None? || u.company.value.name.None? ==> c.companyName == Some(""))
      && (u.company.Some? && u.company.value.name.Some? ==> c.companyName == u.company.value.name)
      && (u.address.None? || u.address.value.address.None? ==> c.addressLine1 == "")
      && (u.address.None? || u.address.value.city.None? ==> c.city == "")
      && (u.address.None? || u.address.value.country.None? ==> c.country == "")
      && (u.address.Some? && u.address.value.address.Some? ==> c.addressLine1 == u.address.value.address.value)
      && (u.address.Some? && u.address.value.city.Some? ==> c.city == u.address.value.city.value)
      && (u.address.Some? && u.address.value.country.Some? ==> c.country == u.address.value.country.value)
  {
  }

  /** The user's id can be read back from the contact id: the prefix, then the id in decimal. */
  lemma IdRoundTrip(u: DummyUser)
    requires u.id >= 0
    ensures var id := ToContact(u).id;
      && |id| > |IdPrefix| && id[..|IdPrefix|] == IdPrefix
      && (forall i | |IdPrefix| <= i < |id| :: IsDigit(id[i]))
      && DecimalValue(id[|IdPrefix|..]) == u.id
  {
    var id := ToContact(u).id;
    assert id[|IdPrefix|..] == NatToString(u.id);
    NatToStringRoundTrip(u.id);
  }

  /** Different natural numbers render differently. */
  lemma NatToStringInjective(a: nat, b: nat)
    requires NatToString(a) == NatToString(b)
    ensures a == b
  {
    NatToStringRoundTrip(a);
    NatToStringRoundTrip(b);
  }

  /** Different ids render differently. */
  lemma IntToStringInjective(a: int, b: int)
    requires IntToString(a) == IntToString(b)
    ensures a == b
  {
    if a < 0 && b < 0 {
      assert IntToString(a)[1..] == NatToString(-a);
      assert IntToString(b)[1..] == NatToString(-b);
      NatToStringInjective(-a, -b);
    } else if a >= 0 && b >= 0 {
      NatToStringInjective(a, b);
    }
  }

  /** Users with distinct ids become contacts with distinct ids. */
  lemma DistinctIds(u: DummyUser, v: DummyUser)
    requires u.id != v.id
    ensures ToContact(u).id != ToContact(v).id
  {
    if ToContact(u).id == ToContact(v).id {
      var x, y := IntToString(u.id), IntToString(v.id);
      assert ToContact(u).id[|IdPrefix|..] == x;
      assert ToContact(v).id[|IdPrefix|..] == y;
      IntToStringInjective(u.id, v.id);
    }
  }

  /**
   * The name given to a search result is the one the dialog would derive for
   * it: saving a picked contact unchanged keeps its name.
   */
  lemma ResultIsSavedForm(u: DummyUser)
    ensures SavedForm(ToContact(u)) == ToContact(u)
  {
  }

  /** How the directory search settled: users found, a response that was not ok, or a thrown error (with its message when it is an `Error`). */
  datatype SearchOutcome =
    | Users(users: seq<DummyUser>)
    | NotOk(status: int)
    | Thrown(message: Option<string>)

  /** The error the search shows for a failed outcome, unless the request was aborted. */
  function SearchError(outcome: SearchOutcome): (r: Option<string>)
    ensures r.None? <==> outcome.Users?
    ensures outcome.NotOk? ==> r == Some("Search failed with status " + IntToString(outcome.status))
    ensures outcome.Thrown? && outcome.message.Some? ==> r == Some(outcome.message.value)
    ensures outcome.Thrown? && outcome.message.None? ==> r == Some("Unknown error")
  {
    match outcome
    case Users(_) => None
    case NotOk(status) => Some("Search failed with status " + IntToString(status))
    case Thrown(message) => Some(message.GetOr("Unknown error"))
  }

  /** The contact the dialog starts from: the current value when editing, none when creating. */
  function ModalInitialContact(mode: Mode, value: Option<Contact>): (r: Option<Contact>)
    ensures mode == CreateMode ==> r.None?
    ensures mode == EditMode ==> r == value
  {
    if mode == EditMode then value else None
  }

  /** Opening the dialog for a new contact always starts from a blank draft; editing starts from the value, if any. */
  lemma OpeningDraft(mode: Mode, value: Option<Contact>, freshId: string)
    ensures mode == CreateMode || value.None? ==>
      ModalInitialContact(mode, value).GetOr(BlankDraft(freshId)) == BlankDraft(freshId)
    ensures mode == EditMode && value.Some? ==>
      ModalInitialContact(mode, value).GetOr(BlankDraft(freshId)) == value.value
  {
  }

  /** A save counts as a creation when the dialog was opened to create, or when the slot was empty. */
  function SaveAction(mode: Mode, value: Option<Contact>): (a: LogAction)
    ensures a == Create <==> mode == CreateMode || value.None?
    ensures a != Submit
  {
    if mode == CreateMode || value.None? then Create else Update
  }

  /** The body posted to the log endpoint after a save. */
  function LogBody(action: LogAction, key: SlotKey, contact: Contact): (body: Json)
    ensures Field(body, "action") == Some(JStr(ActionName(action)))
  {
    JObj([Member("action", JStr(ActionName(action))),
          Member("field", JStr(SlotName(key))),
          Member("payload", ContactToJson(contact))])
  }

  /** The log body carries the action, the slot's name and the contact, each recoverable from it. */
  lemma LogBodyReadBack(action: LogAction, key: SlotKey, contact: Contact)
    ensures var body := LogBody(action, key, contact);
      && Field(body, "action") == Some(JStr(ActionName(action)))
      && Field(body, "field") == Some(JStr(SlotName(key)))
      && Field(body, "payload").Some?
      && DecodeContact(Field(body, "payload").value) == Some(contact)
  {
    var ms := LogBody(action, key, contact).members;
    assert ms[0].key == "action" && ms[1].key == "field" && ms[2].key == "payload";
    LookupAt(ms, 0, "action");
    LookupAt(ms, 1, "field");
    LookupAt(ms, 2, "payload");
    ContactRoundTrip(contact);
  }

  /** The picker's own state. */
  class Picker {
    const fieldKey: SlotKey
    var query: string
    var results: seq<Contact>
    var loading: bool
    var error: Option<string>
    var modalOpen: bool
    var modalMode: Mode

    constructor (fieldKey: SlotKey)
      ensures this.fieldKey == fieldKey
      ensures query == "" && results == [] && !loading && error.None?
      ensures !modalOpen && modalMode == EditMode
    {
      this.fieldKey := fieldKey;
      query := "";
      results := [];
      loading := false;
      error := None;
      modalOpen := false;
      modalMode := EditMode;
    }

    /**
     * Typing into the search box. A blank query clears the results and starts
     * no search; any other query starts one (after the debounce) and keeps the
     * old results until it settles.
     */
    method SetQuery(q: string) returns (searching: bool)
      modifies this`query, this`results
      ensures query == q
      ensures searching <==> !Blank(q)
      ensures !searching ==> results == []
      ensures searching ==> results == old(results)
    {
      query := q;
      if Trim(query) == [] {
        results := [];
        return false;
      }
      searching := true;
    }

    /** The debounced search begins: loading, and any earlier error cleared. */
    method BeginSearch()
      modifies this`loading, this`error
      ensures loading && error.None?
    {
      loading := true;
      error := None;
    }

    /**
     * The search settles. Found users replace the results; a failure sets
     * its error unless the request was aborted (a newer query superseded it);
     * loading ends in every case.
     */
    method SettleSearch(outcome: SearchOutcome, aborted: bool)
      modifies this`results, this`loading, this`error
      ensures !loading
      ensures outcome.Users? ==> results == MapUsers(outcome.users) && error == old(error)
      ensures !outcome.Users? ==> results == old(results)
      ensures !outcome.Users? && aborted ==> error == old(error)
      ensures !outcome.Users? && !aborted ==> error == SearchError(outcome)
    {
      match outcome {
        case Users(users) =>
          results := MapUsers(users);
        case NotOk(status) =>
          if !aborted {
            error := Some("Search failed with status " + IntToString(status));
          }
        case Thrown(message) =>
          if !aborted {
            error := Some(message.GetOr("Unknown error"));
          }
      }
      loading := false;
    }

    /** Picking a result hands it to the page as the slot's new value. */
    method HandleSelect(contact: Contact) returns (change: Option<Contact>)
      ensures change == Some(contact)
    {
      change := Some(contact);
    }

    /** Opens the dialog on the current value. */
    method HandleEdit()
      modifies this`modalMode, this`modalOpen
      ensures modalMode == EditMode && modalOpen
    {
      modalMode := EditMode;
      modalOpen := true;
    }

    /** Opens the dialog on a blank draft. */
    method HandleCreateNew()
      modifies this`modalMode, this`modalOpen
      ensures modalMode == CreateMode && modalOpen
    {
      modalMode := CreateMode;
      modalOpen := true;
    }

    /**
     * The dialog saved `contact` while the slot held `value`: the contact
     * becomes the slot's value, the dialog closes, the page is told whether
     * it was a creation or an update, and the log body is posted. A failing
     * post is ignored, so nothing here depends on it.
     */
    method HandleModalSave(contact: Contact, value: Option<Contact>)
      returns (change: Option<Contact>, action: LogAction, body: Json)
      modifies this`modalOpen
      ensures change == Some(contact)
      ensures !modalOpen
      ensures action == SaveAction(modalMode, value)
      ensures body == LogBody(action, fieldKey, contact)
    {
      change := Some(contact);
      modalOpen := false;
      action := if modalMode == CreateMode || value.None? then Create else Update;
      body := JObj([Member("action", JStr(ActionName(action))),
                    Member("field", JStr(SlotName(fieldKey))),
                    Member("payload", ContactToJson(contact))]);
    }
  }
}
