/**
 * The data model shared by every component: a contact, the three-slot
 * application state, and how both are written to and read back from JSON.
 */
module Contacts {
  import opened Wrappers
  import opened JsonValues

  datatype ContactType = Company | Individual

  /** A contact record; the three name parts are optional properties. */
  datatype Contact = Contact(
    id: string,
    ctype: ContactType,
    name: string,
    firstName: Option<string>,
    lastName: Option<string>,
    companyName: Option<string>,
    email: string,
    addressLine1: string,
    city: string,
    country: string)

  /** The text fields of a contact that the edit form binds to an input. */
  datatype TextField = Name | Email | AddressLine1 | City | Country | CompanyName | FirstName | LastName

  /** The property name of a text field. */
  function Key(f: TextField): string {
    match f
    case Name => "name"
    case Email => "email"
    case AddressLine1 => "addressLine1"
    case City => "city"
    case Country => "country"
    case CompanyName => "companyName"
    case FirstName => "firstName"
    case LastName => "lastName"
  }

  /** Reading field `f`; the required fields are always present. */
  function Get(c: Contact, f: TextField): Option<string> {
    match f
    case Name => Some(c.name)
    case Email => Some(c.email)
    case AddressLine1 => Some(c.addressLine1)
    case City => Some(c.city)
    case Country => Some(c.country)
    case CompanyName => c.companyName
    case FirstName => c.firstName
    case LastName => c.lastName
  }

  /** `{ ...c, [f]: v }`: field `f` becomes `v`, and nothing else changes. */
  function WithField(c: Contact, f: TextField, v: string): (r: Contact)
    ensures Get(r, f) == Some(v)
    ensures forall g :: g != f ==> Get(r, g) == Get(c, g)
    ensures r.id == c.id && r.ctype == c.ctype
  {
    match f
    case Name => c.(name := v)
    case Email => c.(email := v)
    case AddressLine1 => c.(addressLine1 := v)
    case City => c.(city := v)
    case Country => c.(country := v)
    case CompanyName => c.(companyName := Some(v))
    case FirstName => c.(firstName := Some(v))
    case LastName => c.(lastName := Some(v))
  }

  function TypeName(t: ContactType): string {
    match t
    case Company => "company"
    case Individual => "individual"
  }

  /** The inverse of TypeName; None for any other string. */
  function ParseType(s: string): (r: Option<ContactType>)
    ensures r.Some? <==> s == "company" || s == "individual"
    ensures r.Some? ==> TypeName(r.value) == s
  {
    if s == "company" then Some(Company)
    else if s == "individual" then Some(Individual)
    else None
  }

  /** An optional property: written when present, omitted when undefined (as `JSON.stringify` does). */
  function OptionalMember(k: string, v: Option<string>): seq<Member> {
    if v.Some? then [Member(k, JStr(v.value))] else []
  }

  function ContactToJson(c: Contact): Json {
    JObj(
      [Member("id", JStr(c.id)), Member("type", JStr(TypeName(c.ctype))), Member("name", JStr(c.name))]
      + OptionalMember("firstName", c.firstName)
      + OptionalMember("lastName", c.lastName)
      + OptionalMember("companyName", c.companyName)
      + [Member("email", JStr(c.email)), Member("addressLine1", JStr(c.addressLine1)),
         Member("city", JStr(c.city)), Member("country", JStr(c.country))])
  }

  /** A property that must hold a string. */
  function StringAt(ms: seq<Member>, k: string): Option<string> {
    match Lookup(ms, k)
    case Some(JStr(s)) => Some(s)
    case _ => None
  }

  /** An optional string property: Ok(None) when absent, an error when it holds a non-string. */
  function OptionalStringAt(ms: seq<Member>, k: string): Option<Option<string>> {
    match Lookup(ms, k)
    case None => Some(None)
    case Some(JStr(s)) => Some(Some(s))
    case _ => None
  }

  /** Reads a contact back from JSON; None for anything that is not shaped like one. */
  function DecodeContact(v: Json): Option<Contact> {
    if !v.JObj? then None
    else
      var ms := v.members;
      var id, t, name := StringAt(ms, "id"), StringAt(ms, "type"), StringAt(ms, "name");
      var first, last, company := OptionalStringAt(ms, "firstName"), OptionalStringAt(ms, "lastName"), OptionalStringAt(ms, "companyName");
      var email, line1, city, country := StringAt(ms, "email"), StringAt(ms, "addressLine1"), StringAt(ms, "city"), StringAt(ms, "country");
      if id.Some? && t.Some? && ParseType(t.value).Some? && name.Some?
        && first.Some? && last.Some? && company.Some?
        && email.Some? && line1.Some? && city.Some? && country.Some?
      then
        Some(Contact(id.value, ParseType(t.value).value, name.value, first.value, last.value, company.value,
                     email.value, line1.value, city.value, country.value))
      else None
  }

  /** The properties of the JSON form, split where the optional ones sit. */
  function Head(c: Contact): seq<Member> {
    [Member("id", JStr(c.id)), Member("type", JStr(TypeName(c.ctype))), Member("name", JStr(c.name))]
  }

  function Optionals(c: Contact): seq<Member> {
    OptionalMember("firstName", c.firstName) + OptionalMember("lastName", c.lastName)
    + OptionalMember("companyName", c.companyName)
  }

  function Tail(c: Contact): seq<Member> {
    [Member("email", JStr(c.email)), Member("addressLine1", JStr(c.addressLine1)),
     Member("city", JStr(c.city)), Member("country", JStr(c.country))]
  }

  lemma ContactToJsonSplit(c: Contact)
    ensures ContactToJson(c).members == Head(c) + (Optionals(c) + Tail(c))
  {
  }

  /** Looking up in a concatenation: the first part wins when it has the key. */
  lemma {:induction false} LookupAppend(a: seq<Member>, b: seq<Member>, k: string)
    ensures Lookup(a + b, k) == if Lookup(a, k).Some? then Lookup(a, k) else Lookup(b, k)
  {
    if a != [] {
      assert (a + b)[0] == a[0];
      assert (a + b)[1..] == a[1..] + b;
      if a[0].key != k {
        LookupAppend(a[1..], b, k);
      }
    } else {
      assert a + b == b;
    }
  }

  /** The first property named `k` is the one Lookup finds. */
  lemma {:induction false} LookupAt(ms: seq<Member>, i: nat, k: string)
    requires i < |ms| && ms[i].key == k
    requires forall j | 0 <= j < i :: ms[j].key != k
    ensures Lookup(ms, k) == Some(ms[i].value)
  {
    if i > 0 {
      LookupAt(ms[1..], i - 1, k);
    }
  }

  /** The fixed properties of the JSON form, without the optional name parts. */
  function Fixed(c: Contact): seq<Member> {
    [Member("id", JStr(c.id)), Member("type", JStr(TypeName(c.ctype))), Member("name", JStr(c.name)),
     Member("email", JStr(c.email)), Member("addressLine1", JStr(c.addressLine1)),
     Member("city", JStr(c.city)), Member("country", JStr(c.country))]
  }

  /** Outside the optional name parts, the JSON form reads like its fixed properties alone. */
  lemma LookupFixed(c: Contact, k: string)
    requires k != "firstName" && k != "lastName" && k != "companyName"
    ensures Lookup(ContactToJson(c).members, k) == Lookup(Fixed(c), k)
  {
    ContactToJsonSplit(c);
    OptionalLookups(c, k);
    LookupAppend(Head(c), Optionals(c) + Tail(c), k);
    LookupAppend(Optionals(c), Tail(c), k);
    LookupAppend(Head(c), Tail(c), k);
    assert Head(c) + Tail(c) == Fixed(c);
  }

  /** The keys of the fixed properties are distinct, so each is found at its own place. */
  lemma FixedLookup(c: Contact, i: nat)
    requires i < 7
    ensures Lookup(Fixed(c), Fixed(c)[i].key) == Some(Fixed(c)[i].value)
  {
    var f := Fixed(c);
    assert f[0].key == "id" && f[1].key == "type" && f[2].key == "name" && f[3].key == "email";
    assert f[4].key == "addressLine1" && f[5].key == "city" && f[6].key == "country";
    LookupAt(f, i, f[i].key);
  }

  /** The required properties of the JSON form are found under their names. */
  lemma RequiredLookups(c: Contact)
    ensures var ms := ContactToJson(c).members;
      && Lookup(ms, "id") == Some(JStr(c.id))
      && Lookup(ms, "type") == Some(JStr(TypeName(c.ctype)))
      && Lookup(ms, "name") == Some(JStr(c.name))
      && Lookup(ms, "email") == Some(JStr(c.email))
      && Lookup(ms, "addressLine1") == Some(JStr(c.addressLine1))
      && Lookup(ms, "city") == Some(JStr(c.city))
      && Lookup(ms, "country") == Some(JStr(c.country))
  {
    var f := Fixed(c);
    forall i | 0 <= i < 7
      ensures Lookup(ContactToJson(c).members, f[i].key) == Some(f[i].value)
    {
      LookupFixed(c, f[i].key);
      FixedLookup(c, i);
    }
    assert f[0].key == "id" && f[1].key == "type" && f[2].key == "name" && f[3].key == "email";
    assert f[4].key == "addressLine1" && f[5].key == "city" && f[6].key == "country";
  }

  lemma OptionalLookups(c: Contact, k: string)
    ensures Lookup(Optionals(c), k) ==
      if k == "firstName" && c.firstName.Some? then Some(JStr(c.firstName.value))
      else if k == "lastName" && c.lastName.Some? then Some(JStr(c.lastName.value))
      else if k == "companyName" && c.companyName.Some? then Some(JStr(c.companyName.value))
      else None
  {
    var f, l, n := OptionalMember("firstName", c.firstName), OptionalMember("lastName", c.lastName),
      OptionalMember("companyName", c.companyName);
    LookupAppend(f + l, n, k);
    LookupAppend(f, l, k);
  }

  /** The optional properties of the JSON form are found exactly when present. */
  lemma OptionalPropertyLookups(c: Contact, k: string)
    requires k == "firstName" || k == "lastName" || k == "companyName"
    ensures Lookup(ContactToJson(c).members, k) == Lookup(Optionals(c), k)
  {
    ContactToJsonSplit(c);
    LookupNone(Head(c), k);
    LookupNone(Tail(c), k);
    LookupAppend(Head(c), Optionals(c) + Tail(c), k);
    LookupAppend(Optionals(c), Tail(c), k);
  }

  function OptionalJson(v: Option<string>): Option<Json> {
    if v.Some? then Some(JStr(v.value)) else None
  }

  /** Decoding only looks properties up, so an object with the right properties decodes to `c`. */
  lemma DecodeFromLookups(ms: seq<Member>, c: Contact)
    requires Lookup(ms, "id") == Some(JStr(c.id))
    requires Lookup(ms, "type") == Some(JStr(TypeName(c.ctype)))
    requires Lookup(ms, "name") == Some(JStr(c.name))
    requires Lookup(ms, "firstName") == OptionalJson(c.firstName)
    requires Lookup(ms, "lastName") == OptionalJson(c.lastName)
    requires Lookup(ms, "companyName") == OptionalJson(c.companyName)
    requires Lookup(ms, "email") == Some(JStr(c.email))
    requires Lookup(ms, "addressLine1") == Some(JStr(c.addressLine1))
    requires Lookup(ms, "city") == Some(JStr(c.city))
    requires Lookup(ms, "country") == Some(JStr(c.country))
    ensures DecodeContact(JObj(ms)) == Some(c)
  {
    assert ParseType(TypeName(c.ctype)) == Some(c.ctype);
  }

  /** Decoding undoes encoding: a stored contact is read back unchanged. */
  lemma ContactRoundTrip(c: Contact)
    ensures DecodeContact(ContactToJson(c)) == Some(c)
  {
    var ms := ContactToJson(c).members;
    RequiredLookups(c);
    OptionalPropertyLookups(c, "firstName");
    OptionalLookups(c, "firstName");
    OptionalPropertyLookups(c, "lastName");
    OptionalLookups(c, "lastName");
    OptionalPropertyLookups(c, "companyName");
    OptionalLookups(c, "companyName");
    DecodeFromLookups(ms, c);
  }

  /** The three slots of the page. */
  datatype AppState = AppState(client: Option<Contact>, primaryContact: Option<Contact>, secondaryContact: Option<Contact>)

  datatype SlotKey = Client | PrimaryContact | SecondaryContact

  const EmptyState := AppState(None, None, None)

  function SlotName(k: SlotKey): string {
    match k
    case Client => "client"
    case PrimaryContact => "primaryContact"
    case SecondaryContact => "secondaryContact"
  }

  function Slot(s: AppState, k: SlotKey): Option<Contact> {
    match k
    case Client => s.client
    case PrimaryContact => s.primaryContact
    case SecondaryContact => s.secondaryContact
  }

  /** `{ ...prev, [k]: v }`: slot `k` becomes `v` and the other two slots are left alone. */
  function SetSlot(s: AppState, k: SlotKey, v: Option<Contact>): (r: AppState)
    ensures Slot(r, k) == v
    ensures forall other :: other != k ==> Slot(r, other) == Slot(s, other)
  {
    match k
    case Client => s.(client := v)
    case PrimaryContact => s.(primaryContact := v)
    case SecondaryContact => s.(secondaryContact := v)
  }

  function SlotToJson(v: Option<Contact>): Json {
    if v.Some? then ContactToJson(v.value) else JNull
  }

  /** `JSON.stringify(state)` before the text step: an empty slot is written as null. */
  function StateToJson(s: AppState): Json {
    JObj([Member("client", SlotToJson(s.client)),
          Member("primaryContact", SlotToJson(s.primaryContact)),
          Member("secondaryContact", SlotToJson(s.secondaryContact))])
  }

  /** The actions the log endpoint accepts. */
  datatype LogAction = Create | Update | Submit

  function ActionName(a: LogAction): string {
    match a
    case Create => "create"
    case Update => "update"
    case Submit => "submit"
  }

  /** Reads an action name; exactly the three names are recognised, each as its own action. */
  function ParseAction(s: string): (r: Option<LogAction>)
    ensures r.Some? <==> s == "create" || s == "update" || s == "submit"
    ensures r.Some? ==> ActionName(r.value) == s
    ensures forall a :: s == ActionName(a) ==> r == Some(a)
  {
    if s == "create" then Some(Create)
    else if s == "update" then Some(Update)
    else if s == "submit" then Some(Submit)
    else None
  }
}
