/**
 * The create/edit dialog for one contact: the draft it edits, the per-field
 * validation run on save, and how the saved contact's name is derived.
 */
module ContactModal {
  import opened Wrappers
  import opened Text
  import opened Email
  import opened Contacts

  datatype Mode = CreateMode | EditMode

  /** The draft offered when there is no contact to edit: an individual with every text field empty. */
  function BlankDraft(freshId: string): (d: Contact)
    ensures d.id == freshId && d.ctype == Individual
    ensures forall f :: Get(d, f) == Some("")
  {
    Contact(freshId, Individual, "", Some(""), Some(""), Some(""), "", "", "", "")
  }

  /** The message `validate` records against field `f` of `c`, if any. */
  function FieldError(c: Contact, f: TextField): Option<string> {
    match f
    case Name => if Blank(c.name) then Some("Name is required") else None
    case Email =>
      if Blank(c.email) then Some("Email is required")
      else if !MatchesPattern(c.email) then Some("Email is not valid")
      else None
    case AddressLine1 => if Blank(c.addressLine1) then Some("Address line 1 is required") else None
    case City => if Blank(c.city) then Some("City is required") else None
    case Country => if Blank(c.country) then Some("Country is required") else None
    case CompanyName =>
      if c.ctype == Company && Blank(c.companyName.GetOr("")) then Some("Company name is required for companies")
      else None
    case FirstName =>
      if c.ctype == Individual && Blank(c.firstName.GetOr("")) then Some("First name is required for individuals")
      else None
    case LastName =>
      if c.ctype == Individual && Blank(c.lastName.GetOr("")) then Some("Last name is required for individuals")
      else None
  }

  /** The order in which `validate` checks the fields of a contact of type `t`. */
  function CheckOrder(t: ContactType): seq<TextField> {
    [Name, Email, AddressLine1, City, Country]
    + (if t == Company then [CompanyName] else [FirstName, LastName])
  }

  /** The errors `m` after field `f` of `c` has been checked. */
  function AddError(c: Contact, f: TextField, m: map<TextField, string>): map<TextField, string> {
    if FieldError(c, f).Some? then m[f := FieldError(c, f).value] else m
  }

  /** The errors recorded after checking the fields `fs` in turn. */
  function ErrorsAmong(c: Contact, fs: seq<TextField>): (m: map<TextField, string>)
    ensures forall f :: f in m ==> f in fs
  {
    if fs == [] then map[] else AddError(c, fs[|fs| - 1], ErrorsAmong(c, fs[..|fs| - 1]))
  }

  /** The error map `validate` builds for `c`. */
  function ErrorsFor(c: Contact): (errs: map<TextField, string>)
    ensures forall f :: f in errs ==> f in CheckOrder(c.ctype)
  {
    ErrorsAmong(c, CheckOrder(c.ctype))
  }

  /** Checking one more field applies its check to the errors so far. */
  lemma ErrorsAmongSnoc(c: Contact, fs: seq<TextField>, f: TextField)
    ensures ErrorsAmong(c, fs + [f]) == AddError(c, f, ErrorsAmong(c, fs))
  {
    assert (fs + [f])[..|fs|] == fs;
  }

  /** The checks of `validate`, one after the other. */
  lemma ErrorsForUnrolled(c: Contact)
    ensures var common :=
      AddError(c, Country, AddError(c, City, AddError(c, AddressLine1, AddError(c, Email, AddError(c, Name, map[])))));
      ErrorsFor(c) ==
        if c.ctype == Company then AddError(c, CompanyName, common)
        else AddError(c, LastName, AddError(c, FirstName, common))
  {
    var p0: seq<TextField> := [];
    var p1 := p0 + [Name];
    var p2 := p1 + [Email];
    var p3 := p2 + [AddressLine1];
    var p4 := p3 + [City];
    var p5 := p4 + [Country];
    ErrorsAmongSnoc(c, p0, Name);
    ErrorsAmongSnoc(c, p1, Email);
    ErrorsAmongSnoc(c, p2, AddressLine1);
    ErrorsAmongSnoc(c, p3, City);
    ErrorsAmongSnoc(c, p4, Country);
    if c.ctype == Company {
      ErrorsAmongSnoc(c, p5, CompanyName);
      assert CheckOrder(c.ctype) == p5 + [CompanyName];
    } else {
      ErrorsAmongSnoc(c, p5, FirstName);
      ErrorsAmongSnoc(c, p5 + [FirstName], LastName);
      assert CheckOrder(c.ctype) == p5 + [FirstName] + [LastName];
    }
  }

  /** After checking `fs`, exactly the failing fields among them carry their own message. */
  lemma {:induction false} ErrorsAmongSpec(c: Contact, fs: seq<TextField>, f: TextField)
    ensures f in ErrorsAmong(c, fs) <==> f in fs && FieldError(c, f).Some?
    ensures f in ErrorsAmong(c, fs) ==> ErrorsAmong(c, fs)[f] == FieldError(c, f).value
  {
    if fs != [] {
      ErrorsAmongSpec(c, fs[..|fs| - 1], f);
      assert fs == fs[..|fs| - 1] + [fs[|fs| - 1]];
    }
  }

  /** Each field carries an error exactly when it fails its check, and then the check's message. */
  lemma ErrorsForSpec(c: Contact, f: TextField)
    ensures f in ErrorsFor(c) <==> FieldError(c, f).Some?
    ensures f in ErrorsFor(c) ==> ErrorsFor(c)[f] == FieldError(c, f).value
  {
    ErrorsAmongSpec(c, CheckOrder(c.ctype), f);
  }

  /** What the form demands of a contact, stated independently of the error map. */
  predicate Acceptable(c: Contact) {
    && !Blank(c.name)
    && !Blank(c.email) && WellFormedAddress(c.email)
    && !Blank(c.addressLine1) && !Blank(c.city) && !Blank(c.country)
    && (c.ctype == Company ==> !Blank(c.companyName.GetOr("")))
    && (c.ctype == Individual ==> !Blank(c.firstName.GetOr("")) && !Blank(c.lastName.GetOr("")))
  }

  /** An acceptable contact gets no error. */
  lemma AcceptableHasNoErrors(c: Contact)
    requires Acceptable(c)
    ensures ErrorsFor(c) == map[]
  {
    PatternIffWellFormed(c.email);
    forall f ensures f !in ErrorsFor(c) {
      ErrorsForSpec(c, f);
    }
    assert ErrorsFor(c).Keys == {};
  }

  /** A contact that is not acceptable gets an error for the first check it fails. */
  lemma UnacceptableHasError(c: Contact)
    requires !Acceptable(c)
    ensures ErrorsFor(c) != map[]
  {
    PatternIffWellFormed(c.email);
    var f :=
      if Blank(c.name) then Name
      else if Blank(c.email) || !WellFormedAddress(c.email) then Email
      else if Blank(c.addressLine1) then AddressLine1
      else if Blank(c.city) then City
      else if Blank(c.country) then Country
      else if c.ctype == Company then CompanyName
      else if Blank(c.firstName.GetOr("")) then FirstName
      else LastName;
    ErrorsForSpec(c, f);
    assert f in ErrorsFor(c);
  }

  /** Validation passes, that is no error is recorded, exactly for the acceptable contacts. */
  lemma ValidateAcceptsIff(c: Contact)
    ensures ErrorsFor(c) == map[] <==> Acceptable(c)
  {
    if Acceptable(c) {
      AcceptableHasNoErrors(c);
    } else {
      UnacceptableHasError(c);
    }
  }

  /**
   * A blank e-mail gets exactly "Email is required"; a non-blank one gets
   * "Email is not valid" exactly when it is not a well-formed address.
   */
  lemma EmailMessages(c: Contact)
    ensures Blank(c.email) ==> Email in ErrorsFor(c) && ErrorsFor(c)[Email] == "Email is required"
    ensures !Blank(c.email) ==>
      && (Email in ErrorsFor(c) <==> !WellFormedAddress(c.email))
      && (Email in ErrorsFor(c) ==> ErrorsFor(c)[Email] == "Email is not valid")
  {
    PatternIffWellFormed(c.email);
    ErrorsForSpec(c, Email);
  }

  /** For a company only the company name is required beyond the common fields; no name-part error is set. */
  lemma CompanyErrors(c: Contact)
    requires c.ctype == Company
    ensures FirstName !in ErrorsFor(c) && LastName !in ErrorsFor(c)
    ensures CompanyName in ErrorsFor(c) <==> Blank(c.companyName.GetOr(""))
  {
    ErrorsForSpec(c, FirstName);
    ErrorsForSpec(c, LastName);
    ErrorsForSpec(c, CompanyName);
  }

  /** For an individual the first and last name are each required; no company-name error is set. */
  lemma IndividualErrors(c: Contact)
    requires c.ctype == Individual
    ensures CompanyName !in ErrorsFor(c)
    ensures FirstName in ErrorsFor(c) <==> Blank(c.firstName.GetOr(""))
    ensures LastName in ErrorsFor(c) <==> Blank(c.lastName.GetOr(""))
  {
    ErrorsForSpec(c, FirstName);
    ErrorsForSpec(c, LastName);
    ErrorsForSpec(c, CompanyName);
  }

  /** A full name joined with a space and trimmed is blank exactly when both of its parts are. */
  lemma FullNameBlank(f: string, l: string)
    ensures Blank(Trim(f + " " + l)) <==> Blank(f) && Blank(l)
  {
    BlankTrim(f + " " + l);
    BlankConcat(f, " " + l);
    BlankConcat(" ", l);
    assert f + " " + l == f + (" " + l);
    assert Blank(" ") by {
      BlankIffAllSpace(" ");
    }
  }

  /** The name given to the saved contact. */
  function DerivedName(d: Contact): (n: string)
    ensures d.ctype == Individual ==> (Blank(n) <==> Blank(d.firstName.GetOr("")) && Blank(d.lastName.GetOr("")))
    ensures d.ctype == Company && d.companyName.None? ==> n == d.name
  {
    if d.ctype == Individual then
      FullNameBlank(d.firstName.GetOr(""), d.lastName.GetOr(""));
      Trim(d.firstName.GetOr("") + " " + d.lastName.GetOr(""))
    else d.companyName.GetOr(d.name)
  }

  /** The contact `handleSave` validates and hands on: the draft with only its name replaced. */
  function SavedForm(d: Contact): (u: Contact)
    ensures u.(name := d.name) == d
    ensures u.name == DerivedName(d)
  {
    d.(name := DerivedName(d))
  }

  /**
   * For an individual the derived name is blank exactly when both name parts
   * are: a name error on save never comes alone but with both part errors.
   */
  lemma SavedIndividualNameError(d: Contact)
    requires d.ctype == Individual
    ensures Name in ErrorsFor(SavedForm(d)) <==>
      FirstName in ErrorsFor(SavedForm(d)) && LastName in ErrorsFor(SavedForm(d))
  {
    ErrorsForSpec(SavedForm(d), Name);
    ErrorsForSpec(SavedForm(d), FirstName);
    ErrorsForSpec(SavedForm(d), LastName);
  }

  /**
   * For a company that has a company name, the saved name is that name, so a
   * name error and a company-name error always come together; without a
   * company name the previous name is kept.
   */
  lemma SavedCompanyName(d: Contact)
    requires d.ctype == Company
    ensures d.companyName.Some? ==>
      (Name in ErrorsFor(SavedForm(d)) <==> CompanyName in ErrorsFor(SavedForm(d)))
    ensures d.companyName.Some? ==> SavedForm(d).name == d.companyName.value
    ensures d.companyName.None? ==> SavedForm(d).name == d.name
  {
    ErrorsForSpec(SavedForm(d), Name);
    ErrorsForSpec(SavedForm(d), CompanyName);
  }

  /** Saving a fresh draft without any edit always fails, with every common and name-part field flagged. */
  lemma BlankDraftRejected(freshId: string)
    ensures ErrorsFor(SavedForm(BlankDraft(freshId))).Keys ==
      {Name, Email, AddressLine1, City, Country, FirstName, LastName}
  {
    var u := SavedForm(BlankDraft(freshId));
    BlankIffAllSpace("");
    BlankIffAllSpace(" ");
    assert u.name == Trim(" ");
    BlankTrim(" ");
    forall f ensures f in ErrorsFor(u) <==> f != CompanyName {
      ErrorsForSpec(u, f);
    }
  }

  /** The checks `validate` applies to every contact, in its order. */
  method CommonErrors(c: Contact) returns (nextErrors: map<TextField, string>)
    ensures nextErrors
      == AddError(c, Country, AddError(c, City, AddError(c, AddressLine1, AddError(c, Email, AddError(c, Name, map[])))))
  {
    nextErrors := map[];
    ghost var before := nextErrors;
    if Blank(c.name) {
      nextErrors := nextErrors[Name := "Name is required"];
    }
    assert nextErrors == AddError(c, Name, before);
    before := nextErrors;
    if Blank(c.email) {
      nextErrors := nextErrors[Email := "Email is required"];
    } else if !MatchesPattern(c.email) {
      nextErrors := nextErrors[Email := "Email is not valid"];
    }
    assert nextErrors == AddError(c, Email, before);
    before := nextErrors;
    if Blank(c.addressLine1) {
      nextErrors := nextErrors[AddressLine1 := "Address line 1 is required"];
    }
    assert nextErrors == AddError(c, AddressLine1, before);
    before := nextErrors;
    if Blank(c.city) {
      nextErrors := nextErrors[City := "City is required"];
    }
    assert nextErrors == AddError(c, City, before);
    if Blank(c.country) {
      nextErrors := nextErrors[Country := "Country is required"];
    }
  }

  /** The checks `validate` applies according to the contact's type, added to `errors`. */
  method TypeErrors(c: Contact, errors: map<TextField, string>) returns (nextErrors: map<TextField, string>)
    ensures c.ctype == Company ==> nextErrors == AddError(c, CompanyName, errors)
    ensures c.ctype == Individual ==> nextErrors == AddError(c, LastName, AddError(c, FirstName, errors))
  {
    nextErrors := errors;
    if c.ctype == Company {
      if Blank(c.companyName.GetOr("")) {
        nextErrors := nextErrors[CompanyName := "Company name is required for companies"];
      }
    } else if c.ctype == Individual {
      if Blank(c.firstName.GetOr("")) {
        nextErrors := nextErrors[FirstName := "First name is required for individuals"];
      }
      ghost var before := nextErrors;
      assert nextErrors == AddError(c, FirstName, errors);
      if Blank(c.lastName.GetOr("")) {
        nextErrors := nextErrors[LastName := "Last name is required for individuals"];
      }
      assert nextErrors == AddError(c, LastName, before);
    }
  }

  /** The dialog's own state: the draft being edited and the errors on display. */
  class Modal {
    var draft: Option<Contact>
    var errors: map<TextField, string>

    /** Mounted with the contact it was given, and no errors. */
    constructor (initialContact: Option<Contact>)
      ensures draft == initialContact && errors == map[]
    {
      draft := initialContact;
      errors := map[];
    }

    /** On opening: a copy of the given contact, or a blank individual draft with a fresh id; errors cleared. */
    method Open(initialContact: Option<Contact>, freshId: string)
      modifies this
      ensures draft == Some(initialContact.GetOr(BlankDraft(freshId)))
      ensures errors == map[]
    {
      draft := Some(initialContact.GetOr(BlankDraft(freshId)));
      errors := map[];
    }

    /** Typing into field `f` replaces that field of the draft and nothing else. */
    method HandleChange(f: TextField, v: string)
      modifies this`draft
      ensures old(draft).None? ==> draft.None?
      ensures old(draft).Some? ==> draft == Some(WithField(old(draft).value, f, v))
    {
      if draft.Some? {
        draft := Some(WithField(draft.value, f, v));
      }
    }

    /** Choosing a type sets it; a click that deselects (no value) leaves the draft alone. */
    method HandleTypeChange(v: Option<ContactType>)
      modifies this`draft
      ensures v.None? || old(draft).None? ==> draft == old(draft)
      ensures v.Some? && old(draft).Some? ==> draft == Some(old(draft).value.(ctype := v.value))
    {
      if v.None? {
        return;
      }
      if draft.Some? {
        draft := Some(draft.value.(ctype := v.value));
      }
    }

    /** Checks `c` field by field, shows the errors found, and passes when none was recorded. */
    method Validate(c: Contact) returns (ok: bool)
      modifies this`errors
      ensures errors == ErrorsFor(c)
      ensures ok <==> errors == map[]
    {
      var nextErrors := CommonErrors(c);
      nextErrors := TypeErrors(c, nextErrors);
      ErrorsForUnrolled(c);
      errors := nextErrors;
      ok := |nextErrors.Keys| == 0;
    }

    /**
     * Derives the name, validates the result, and hands it on (the `onSave`
     * callback) only when validation passes. Without a draft nothing happens.
     */
    method HandleSave() returns (saved: Option<Contact>)
      modifies this`errors
      ensures old(draft).None? ==> saved.None? && errors == old(errors)
      ensures old(draft).Some? ==>
        && errors == ErrorsFor(SavedForm(draft.value))
        && saved == (if errors == map[] then Some(SavedForm(draft.value)) else None)
    {
      if draft.None? {
        return None;
      }
      var updated := SavedForm(draft.value);
      var ok := Validate(updated);
      if !ok {
        return None;
      }
      saved := Some(updated);
    }
  }
}
