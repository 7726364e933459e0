/**
 * The read-only card that shows a chosen contact: which required fields it
 * still lacks, its one-line address, and the letter on its avatar.
 */
module ContactSummaryCard {
  import opened Wrappers
  import opened Text
  import opened Contacts
  import opened ContactModal

  /** The fields every contact must fill, in the order the card reports them. */
  const RequiredFields: seq<TextField> := [Name, Email, AddressLine1, City, Country]

  /** The fields a contact of type `t` must fill besides the common ones, in report order. */
  function TypeFields(t: ContactType): seq<TextField> {
    if t == Company then [CompanyName] else [FirstName, LastName]
  }

  /** The text of field `f`, an absent optional field reading as empty. */
  function Value(c: Contact, f: TextField): string {
    Get(c, f).GetOr("")
  }

  /** The fields among `fs` that are blank in `c`, in the order of `fs`. */
  function MissingAmong(c: Contact, fs: seq<TextField>): (m: seq<TextField>)
    ensures forall f :: f in m ==> f in fs && Blank(Value(c, f))
  {
    if fs == [] then []
    else
      var f := fs[|fs| - 1];
      MissingAmong(c, fs[..|fs| - 1]) + (if Blank(Value(c, f)) then [f] else [])
  }

  /** The report the card shows for `c`. */
  function Missing(c: Contact): (m: seq<TextField>)
    ensures forall f :: f in m ==> f in RequiredFields + TypeFields(c.ctype) && Blank(Value(c, f))
  {
    MissingAmong(c, RequiredFields + TypeFields(c.ctype))
  }

  /** Position of a field in the card's report order. */
  function Rank(f: TextField): nat {
    match f
    case Name => 0
    case Email => 1
    case AddressLine1 => 2
    case City => 3
    case Country => 4
    case CompanyName => 5
    case FirstName => 6
    case LastName => 7
  }

  /** The fields of `fs` appear in report order, none twice. */
  predicate InReportOrder(fs: seq<TextField>) {
    forall i, j :: 0 <= i < j < |fs| ==> Rank(fs[i]) < Rank(fs[j])
  }

  /** A field is reported exactly when it is among `fs` and blank. */
  lemma {:induction false} MissingAmongSpec(c: Contact, fs: seq<TextField>, f: TextField)
    ensures f in MissingAmong(c, fs) <==> f in fs && Blank(Value(c, f))
  {
    if fs != [] {
      MissingAmongSpec(c, fs[..|fs| - 1], f);
      assert fs == fs[..|fs| - 1] + [fs[|fs| - 1]];
    }
  }

  /** A field ranked after every field of an ordered list can follow it. */
  lemma AppendOrdered(prev: seq<TextField>, f: TextField)
    requires InReportOrder(prev)
    requires forall g | g in prev :: Rank(g) < Rank(f)
    ensures InReportOrder(prev + [f])
  {
    var m := prev + [f];
    forall i, j | 0 <= i < j < |m| ensures Rank(m[i]) < Rank(m[j]) {
      assert m[i] == prev[i];
      if j == |prev| {
        assert prev[i] in prev;
      } else {
        assert m[j] == prev[j];
      }
    }
  }

  /** Filtering a list given in report order keeps report order, with no field twice. */
  lemma {:induction false} MissingAmongOrdered(c: Contact, fs: seq<TextField>)
    requires InReportOrder(fs)
    ensures InReportOrder(MissingAmong(c, fs))
  {
    if fs != [] {
      var init, f := fs[..|fs| - 1], fs[|fs| - 1];
      MissingAmongOrdered(c, init);
      var prev := MissingAmong(c, init);
      if Blank(Value(c, f)) {
        forall g | g in prev ensures Rank(g) < Rank(f) {
          MissingAmongSpec(c, init, g);
          var i :| 0 <= i < |init| && init[i] == g;
          assert fs[i] == g;
        }
        AppendOrdered(prev, f);
      } else {
        assert MissingAmong(c, fs) == prev;
      }
    }
  }

  /**
   * The report lists, in the card's order and without repetition, the blank
   * common fields followed by the blank fields the contact's type requires.
   */
  lemma MissingSpec(c: Contact, f: TextField)
    ensures f in Missing(c) <==>
      Blank(Value(c, f)) &&
      (|| f in RequiredFields
       || (c.ctype == Company && f == CompanyName)
       || (c.ctype == Individual && (f == FirstName || f == LastName)))
    ensures InReportOrder(Missing(c))
  {
    MissingAmongSpec(c, RequiredFields + TypeFields(c.ctype), f);
    MissingAmongOrdered(c, RequiredFields + TypeFields(c.ctype));
  }

  /**
   * The report agrees with the dialog's errors on every field except the
   * e-mail, which the card only checks for blankness: a field is reported
   * exactly when the dialog flags it, the e-mail only when it is blank.
   */
  lemma MissingMatchesErrors(c: Contact, f: TextField)
    ensures f in Missing(c) <==> f in ErrorsFor(c) && (f != Email || Blank(c.email))
  {
    MissingSpec(c, f);
    ErrorsForSpec(c, f);
  }

  /** A contact the dialog accepts has nothing missing. */
  lemma AcceptedHasNoMissing(c: Contact)
    requires ErrorsFor(c) == map[]
    ensures Missing(c) == []
  {
    if Missing(c) != [] {
      MissingMatchesErrors(c, Missing(c)[0]);
    }
  }

  /** A non-blank e-mail is never reported, whatever its format. */
  lemma EmailFormatNotChecked(c: Contact)
    requires !Blank(c.email)
    ensures Email !in Missing(c)
  {
    MissingSpec(c, Email);
  }

  /**
   * The converse of AcceptedHasNoMissing fails: a company with every field
   * filled but an e-mail without `@` reports nothing, yet the dialog rejects it.
   */
  lemma NothingMissingYetRejected(c: Contact)
    requires c.ctype == Company
    requires !Blank(c.name) && !Blank(c.email) && !Blank(c.addressLine1) && !Blank(c.city) && !Blank(c.country)
    requires !Blank(c.companyName.GetOr(""))
    requires '@' !in c.email
    ensures Missing(c) == []
    ensures Email in ErrorsFor(c) && ErrorsFor(c)[Email] == "Email is not valid"
  {
    if Missing(c) != [] {
      MissingSpec(c, Missing(c)[0]);
    }
    EmailMessages(c);
  }

  /** Builds the report as the card does: the common fields in turn, then the type's own. */
  method MissingFields(c: Contact) returns (missing: seq<TextField>)
    ensures missing == Missing(c)
  {
    missing := [];
    for i := 0 to |RequiredFields|
      invariant missing == MissingAmong(c, RequiredFields[..i])
    {
      var field := RequiredFields[i];
      var value := Trim(Value(c, field));
      if value == [] {
        missing := missing + [field];
      }
      assert RequiredFields[..i + 1][..i] == RequiredFields[..i];
    }
    var all := RequiredFields + TypeFields(c.ctype);
    assert RequiredFields[..|RequiredFields|] == RequiredFields;
    if c.ctype == Company {
      if Blank(c.companyName.GetOr("")) {
        missing := missing + [CompanyName];
      }
      assert all[..|all| - 1] == RequiredFields;
    } else {
      if Blank(c.firstName.GetOr("")) {
        missing := missing + [FirstName];
      }
      assert all[..|all| - 2] == RequiredFields;
      assert all[..|all| - 1] == RequiredFields + [FirstName];
      assert missing == MissingAmong(c, RequiredFields + [FirstName]);
      if Blank(c.lastName.GetOr("")) {
        missing := missing + [LastName];
      }
    }
  }

  /** The address line: the three parts joined, or a placeholder when any part is empty. */
  function AddressLine(c: Contact): (line: string)
    ensures c.addressLine1 == "" || c.city == "" || c.country == "" ==> line == "Address incomplete"
    ensures c.addressLine1 != "" && c.city != "" && c.country != "" ==>
      line == c.addressLine1 + ", " + c.city + ", " + c.country
  {
    if c.addressLine1 != "" && c.city != "" && c.country != "" then
      c.addressLine1 + ", " + c.city + ", " + c.country
    else "Address incomplete"
  }

  /**
   * The placeholder is shown exactly when one of the three parts is empty;
   * otherwise the line starts with the address line and ends with the country.
   */
  lemma AddressLineSpec(c: Contact)
    ensures AddressLine(c) == "Address incomplete" <==>
      c.addressLine1 == "" || c.city == "" || c.country == ""
    ensures AddressLine(c) != "Address incomplete" ==>
      && AddressLine(c)[..|c.addressLine1|] == c.addressLine1
      && AddressLine(c)[|AddressLine(c)| - |c.country|..] == c.country
  {
    var r := AddressLine(c);
    if c.addressLine1 != "" && c.city != "" && c.country != "" {
      assert r[|c.addressLine1|] == ',';
      assert ',' !in "Address incomplete";
      assert r == c.addressLine1 + (", " + c.city + ", " + c.country);
      assert r == (c.addressLine1 + ", " + c.city + ", ") + c.country;
    }
  }

  /**
   * The address check does not trim: non-empty parts made only of white space
   * still produce the joined line, although the report lists them as missing.
   */
  lemma WhitespaceAddressShown(c: Contact)
    requires c.addressLine1 != "" && c.city != "" && c.country != ""
    requires Blank(c.addressLine1) && Blank(c.city) && Blank(c.country)
    ensures AddressLine(c) == c.addressLine1 + ", " + c.city + ", " + c.country
    ensures AddressLine1 in Missing(c) && City in Missing(c) && Country in Missing(c)
  {
    AddressLineSpec(c);
    MissingSpec(c, AddressLine1);
    MissingSpec(c, City);
    MissingSpec(c, Country);
  }

  /** Upper case for a single character: ASCII letters only. */
  function UpperChar(ch: char): (r: char)
    ensures 'a' <= ch <= 'z' ==> 'A' <= r <= 'Z' && r as int == ch as int - 32
    ensures !('a' <= ch <= 'z') ==> r == ch
  {
    if 'a' <= ch <= 'z' then (ch as int - 32) as char else ch
  }

  /** The letter on the avatar: the name's first character in upper case, or "?" when there is no name. */
  function AvatarInitial(name: string): (r: string)
    ensures |r| == 1
    ensures name == "" ==> r == "?"
    ensures name != "" ==> r[0] == UpperChar(name[0])
  {
    var shown := if name == "" then "?" else name;
    [UpperChar(shown[0])]
  }
}
