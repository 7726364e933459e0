/**
 * The declarative schemas for contacts and for log requests, read as
 * functions from a JSON value to either the parsed value or the list of
 * properties that failed, in schema order. The e-mail format check of the
 * schema library is a parameter.
 */
module Validation {
  import opened Wrappers
  import opened JsonValues
  import opened Contacts

  /** The schema's properties, in the order it declares them. */
  const ContactKeys: seq<string> :=
    ["id", "type", "name", "firstName", "lastName", "companyName", "email", "addressLine1", "city", "country"]

  /** A required string of length at least one. */
  predicate NonEmptyStringAt(ms: seq<Member>, k: string) {
    StringAt(ms, k).Some? && StringAt(ms, k).value != ""
  }

  /** Whether property `k` of the object `ms` breaks its rule. */
  predicate KeyFails(ms: seq<Member>, k: string, isEmail: string -> bool) {
    if k == "type" then StringAt(ms, k).None? || ParseType(StringAt(ms, k).value).None?
    else if k == "email" then !NonEmptyStringAt(ms, k) || !isEmail(StringAt(ms, k).value)
    else if k == "firstName" || k == "lastName" || k == "companyName" then OptionalStringAt(ms, k).None?
    else !NonEmptyStringAt(ms, k)
  }

  /** The keys among `ks` whose rule `ms` breaks, in the order of `ks`. */
  function Failing(ms: seq<Member>, ks: seq<string>, isEmail: string -> bool): seq<string> {
    if ks == [] then []
    else (if KeyFails(ms, ks[0], isEmail) then [ks[0]] else []) + Failing(ms, ks[1..], isEmail)
  }

  /** A key is reported exactly when it is among the keys checked and breaks its rule. */
  lemma {:induction false} FailingSpec(ms: seq<Member>, ks: seq<string>, isEmail: string -> bool, k: string)
    ensures k in Failing(ms, ks, isEmail) <==> k in ks && KeyFails(ms, k, isEmail)
  {
    if ks != [] {
      FailingSpec(ms, ks[1..], isEmail, k);
      assert ks == [ks[0]] + ks[1..];
    }
  }

  /** `ContactSchema.parse`: the contact, or the failing properties (the empty path for a non-object). */
  function ValidateContact(v: Json, isEmail: string -> bool): (r: Result<Contact, seq<string>>)
    ensures r.Ok? ==> v.JObj? && DecodeContact(v) == Some(r.value)
  {
    if !v.JObj? then Err([""])
    else
      var issues := Failing(v.members, ContactKeys, isEmail);
      var c := DecodeContact(v);
      if issues == [] && c.Some? then Ok(c.value) else Err(issues)
  }

  /** What the schema asks of a contact's own fields: nothing depends on its type, and nothing is trimmed. */
  predicate SchemaAccepts(c: Contact, isEmail: string -> bool) {
    && c.id != "" && c.name != ""
    && c.email != "" && isEmail(c.email)
    && c.addressLine1 != "" && c.city != "" && c.country != ""
  }

  /** An object whose ten properties all keep their rules is shaped like a contact. */
  lemma PassingDecodes(ms: seq<Member>, isEmail: string -> bool)
    requires !KeyFails(ms, "id", isEmail) && !KeyFails(ms, "type", isEmail) && !KeyFails(ms, "name", isEmail)
    requires !KeyFails(ms, "firstName", isEmail) && !KeyFails(ms, "lastName", isEmail)
    requires !KeyFails(ms, "companyName", isEmail) && !KeyFails(ms, "email", isEmail)
    requires !KeyFails(ms, "addressLine1", isEmail) && !KeyFails(ms, "city", isEmail)
    requires !KeyFails(ms, "country", isEmail)
    ensures DecodeContact(JObj(ms)).Some?
  {
  }

  /** No key reported means every key checked keeps its rule. */
  lemma {:induction false} NoneFailing(ms: seq<Member>, ks: seq<string>, isEmail: string -> bool)
    requires Failing(ms, ks, isEmail) == []
    ensures forall i | 0 <= i < |ks| :: !KeyFails(ms, ks[i], isEmail)
  {
    if ks != [] {
      NoneFailing(ms, ks[1..], isEmail);
      assert forall i | 1 <= i < |ks| :: ks[i] == ks[1..][i - 1];
    }
  }

  /** With every property well-typed, no key failing means decoding succeeds. */
  lemma NoIssueDecodes(ms: seq<Member>, isEmail: string -> bool)
    requires Failing(ms, ContactKeys, isEmail) == []
    ensures DecodeContact(JObj(ms)).Some?
  {
    NoneFailing(ms, ContactKeys, isEmail);
    assert !KeyFails(ms, ContactKeys[0], isEmail) && !KeyFails(ms, ContactKeys[1], isEmail);
    assert !KeyFails(ms, ContactKeys[2], isEmail) && !KeyFails(ms, ContactKeys[3], isEmail);
    assert !KeyFails(ms, ContactKeys[4], isEmail) && !KeyFails(ms, ContactKeys[5], isEmail);
    assert !KeyFails(ms, ContactKeys[6], isEmail) && !KeyFails(ms, ContactKeys[7], isEmail);
    assert !KeyFails(ms, ContactKeys[8], isEmail) && !KeyFails(ms, ContactKeys[9], isEmail);
    PassingDecodes(ms, isEmail);
  }

  /**
   * The schema rejects exactly the values with a failing property, and then
   * names at least one; the empty path stands for a value that is not an object.
   */
  lemma ValidateContactSpec(v: Json, isEmail: string -> bool)
    ensures ValidateContact(v, isEmail).Ok? <==>
      v.JObj? && forall k | k in ContactKeys :: !KeyFails(v.members, k, isEmail)
    ensures ValidateContact(v, isEmail).Err? ==> ValidateContact(v, isEmail).error != []
    ensures ValidateContact(v, isEmail).Ok? ==> DecodeContact(v) == Some(ValidateContact(v, isEmail).value)
  {
    if v.JObj? {
      var ms := v.members;
      forall k ensures k in Failing(ms, ContactKeys, isEmail) <==> k in ContactKeys && KeyFails(ms, k, isEmail) {
        FailingSpec(ms, ContactKeys, isEmail, k);
      }
      if Failing(ms, ContactKeys, isEmail) == [] {
        NoIssueDecodes(ms, isEmail);
      } else {
        var k := Failing(ms, ContactKeys, isEmail)[0];
        assert k in Failing(ms, ContactKeys, isEmail);
      }
    }
  }

  /** How the required properties of a contact's JSON form fare against their rules. */
  lemma RequiredKeysOnContact(c: Contact, isEmail: string -> bool)
    ensures var ms := ContactToJson(c).members;
      && (KeyFails(ms, "id", isEmail) <==> c.id == "")
      && !KeyFails(ms, "type", isEmail)
      && (KeyFails(ms, "name", isEmail) <==> c.name == "")
      && (KeyFails(ms, "email", isEmail) <==> c.email == "" || !isEmail(c.email))
      && (KeyFails(ms, "addressLine1", isEmail) <==> c.addressLine1 == "")
      && (KeyFails(ms, "city", isEmail) <==> c.city == "")
      && (KeyFails(ms, "country", isEmail) <==> c.country == "")
  {
    RequiredLookups(c);
    assert ParseType(TypeName(c.ctype)).Some?;
  }

  /** The optional properties of a contact's JSON form never fail: each is absent or a string. */
  lemma OptionalKeysOnContact(c: Contact, isEmail: string -> bool)
    ensures var ms := ContactToJson(c).members;
      && !KeyFails(ms, "firstName", isEmail) && !KeyFails(ms, "lastName", isEmail)
      && !KeyFails(ms, "companyName", isEmail)
  {
    OptionalPropertyLookups(c, "firstName");
    OptionalPropertyLookups(c, "lastName");
    OptionalPropertyLookups(c, "companyName");
    OptionalLookups(c, "firstName");
    OptionalLookups(c, "lastName");
    OptionalLookups(c, "companyName");
  }

  /** A contact meeting the schema's demands has no failing property. */
  lemma AcceptedKeysPass(c: Contact, isEmail: string -> bool)
    requires SchemaAccepts(c, isEmail)
    ensures forall k | k in ContactKeys :: !KeyFails(ContactToJson(c).members, k, isEmail)
  {
    RequiredKeysOnContact(c, isEmail);
    OptionalKeysOnContact(c, isEmail);
    forall k | k in ContactKeys ensures !KeyFails(ContactToJson(c).members, k, isEmail) {
      var i :| 0 <= i < |ContactKeys| && ContactKeys[i] == k;
    }
  }

  /** A contact without a failing property meets the schema's demands. */
  lemma PassingKeysAccepted(c: Contact, isEmail: string -> bool)
    requires forall k | k in ContactKeys :: !KeyFails(ContactToJson(c).members, k, isEmail)
    ensures SchemaAccepts(c, isEmail)
  {
    RequiredKeysOnContact(c, isEmail);
    assert ContactKeys[0] in ContactKeys && ContactKeys[2] in ContactKeys && ContactKeys[6] in ContactKeys;
    assert ContactKeys[7] in ContactKeys && ContactKeys[8] in ContactKeys && ContactKeys[9] in ContactKeys;
  }

  /**
   * On the JSON form of a contact the schema checks only the id, the name,
   * the e-mail and the address parts, each for non-emptiness without
   * trimming; the name parts and the company name are optional whatever the type.
   */
  lemma ContactSchemaOnContacts(c: Contact, isEmail: string -> bool)
    ensures ValidateContact(ContactToJson(c), isEmail).Ok? <==> SchemaAccepts(c, isEmail)
    ensures ValidateContact(ContactToJson(c), isEmail).Ok? ==> ValidateContact(ContactToJson(c), isEmail).value == c
    ensures c.id == "" ==> "id" in ValidateContact(ContactToJson(c), isEmail).error
  {
    var v := ContactToJson(c);
    ContactRoundTrip(c);
    ValidateContactSpec(v, isEmail);
    if SchemaAccepts(c, isEmail) {
      AcceptedKeysPass(c, isEmail);
    }
    if ValidateContact(v, isEmail).Ok? {
      PassingKeysAccepted(c, isEmail);
    }
    if c.id == "" {
      RequiredKeysOnContact(c, isEmail);
      FailingSpec(v.members, ContactKeys, isEmail, "id");
      assert ContactKeys[0] == "id";
    }
  }

  /** A type that is not one of the two names is always rejected, under `type`. */
  lemma UnknownTypeRejected(ms: seq<Member>, isEmail: string -> bool)
    requires StringAt(ms, "type").Some? && ParseType(StringAt(ms, "type").value).None?
    ensures ValidateContact(JObj(ms), isEmail).Err?
    ensures "type" in ValidateContact(JObj(ms), isEmail).error
  {
    FailingSpec(ms, ContactKeys, isEmail, "type");
  }

  /** A log request as the schema returns it. */
  datatype LogRequest = LogRequest(action: LogAction, field: Option<string>, payload: Option<Json>)

  /** The action property, when it names one of the three actions. */
  function ActionAt(ms: seq<Member>): Option<LogAction> {
    match StringAt(ms, "action")
    case None => None
    case Some(s) => ParseAction(s)
  }

  /** `LogRequestSchema.parse`: the request, or the failing properties. */
  function ValidateLogRequest(v: Json): (r: Result<LogRequest, seq<string>>)
    ensures r.Ok? <==> v.JObj? && ActionAt(v.members).Some? && OptionalStringAt(v.members, "field").Some?
    ensures r.Ok? ==> r.value.payload == Lookup(v.members, "payload")
    ensures r.Err? ==> r.error != []
  {
    if !v.JObj? then Err([""])
    else
      var ms := v.members;
      var action, field := ActionAt(ms), OptionalStringAt(ms, "field");
      var issues := (if action.None? then ["action"] else []) + (if field.None? then ["field"] else []);
      if issues == [] then Ok(LogRequest(action.value, field.value, Lookup(ms, "payload")))
      else Err(issues)
  }
}
