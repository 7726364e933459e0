/**
 * The page's selections as kept in the browser's local storage: written as
 * JSON under one fixed key after every change, and read back once when the
 * page starts.
 */
module PageStorage {
  import opened Wrappers
  import opened JsonValues
  import opened Contacts

  const StorageKey := "contact-selection-state-v1"

  /** What the store holds under a key, as `JSON.parse` sees it: empty text, text that does not parse, or a value. */
  datatype Stored = EmptyText | Unparsable | Parsed(value: Json)

  /** `parsed[k] ?? null` for one slot of a parsed value that is not null. */
  function SlotFrom(parsed: Json, k: SlotKey): Option<Contact> {
    match Field(parsed, SlotName(k))
    case None => None
    case Some(v) => if v.JNull? then None else DecodeContact(v)
  }

  /**
   * The state the page starts from. Outside a browser, without a stored
   * value, with empty or unparsable text, or with a stored `null` (whose
   * properties cannot be read) every slot is empty; otherwise each slot is
   * read on its own.
   */
  function LoadInitialState(inBrowser: bool, storage: map<string, Stored>): (s: AppState)
    ensures !inBrowser ==> s == EmptyState
    ensures forall k :: Slot(s, k).Some? ==>
      && inBrowser && StorageKey in storage && storage[StorageKey].Parsed?
      && Field(storage[StorageKey].value, SlotName(k)).Some?
      && DecodeContact(Field(storage[StorageKey].value, SlotName(k)).value) == Slot(s, k)
  {
    if !inBrowser || StorageKey !in storage then EmptyState
    else
      match storage[StorageKey]
      case EmptyText => EmptyState
      case Unparsable => EmptyState
      case Parsed(v) =>
        if v.JNull? then EmptyState
        else AppState(SlotFrom(v, Client), SlotFrom(v, PrimaryContact), SlotFrom(v, SecondaryContact))
  }

  /** The store after the page has written `s` (nothing is written outside a browser). */
  function Persisted(inBrowser: bool, storage: map<string, Stored>, s: AppState): (r: map<string, Stored>)
    ensures forall k :: k != StorageKey ==> (k in r <==> k in storage) && (k in storage ==> r[k] == storage[k])
    ensures inBrowser ==> StorageKey in r && r[StorageKey] == Parsed(StateToJson(s))
    ensures !inBrowser ==> r == storage
  {
    if inBrowser then storage[StorageKey := Parsed(StateToJson(s))] else storage
  }

  /** Every failure to read a stored state gives the all-empty state. */
  lemma LoadFallsBack(inBrowser: bool, storage: map<string, Stored>)
    requires
      || !inBrowser
      || StorageKey !in storage
      || storage[StorageKey] == EmptyText
      || storage[StorageKey] == Unparsable
      || (storage[StorageKey].Parsed? && !storage[StorageKey].value.JObj?)
    ensures LoadInitialState(inBrowser, storage) == EmptyState
  {
  }

  /**
   * Each slot is read independently of the others: absent or null gives an
   * empty slot, and the JSON form of a contact gives that contact.
   */
  lemma LoadSlot(storage: map<string, Stored>, ms: seq<Member>, k: SlotKey)
    requires StorageKey in storage && storage[StorageKey] == Parsed(JObj(ms))
    ensures var v := Lookup(ms, SlotName(k));
      && (v.None? || v == Some(JNull) ==> Slot(LoadInitialState(true, storage), k).None?)
      && (forall c :: v == Some(ContactToJson(c)) ==> Slot(LoadInitialState(true, storage), k) == Some(c))
  {
    forall c | Lookup(ms, SlotName(k)) == Some(ContactToJson(c))
      ensures Slot(LoadInitialState(true, storage), k) == Some(c)
    {
      ContactRoundTrip(c);
    }
  }

  /** The JSON form of one slot reads back as that slot. */
  lemma SlotRoundTrip(v: Option<Contact>)
    ensures SlotToJson(v).JNull? ==> v.None?
    ensures !SlotToJson(v).JNull? ==> DecodeContact(SlotToJson(v)) == v
  {
    if v.Some? {
      ContactRoundTrip(v.value);
    }
  }

  /** Each slot of the written state reads back as that slot. */
  lemma StateSlotReadBack(s: AppState, k: SlotKey)
    ensures SlotFrom(StateToJson(s), k) == Slot(s, k)
  {
    var ms := StateToJson(s).members;
    assert ms[0].key == "client" && ms[1].key == "primaryContact" && ms[2].key == "secondaryContact";
    match k {
      case Client => LookupAt(ms, 0, "client");
      case PrimaryContact => LookupAt(ms, 1, "primaryContact");
      case SecondaryContact => LookupAt(ms, 2, "secondaryContact");
    }
    SlotRoundTrip(Slot(s, k));
  }

  /** Reloading after the page has written a state gives back exactly that state. */
  lemma LoadRoundTrip(storage: map<string, Stored>, s: AppState)
    ensures LoadInitialState(true, Persisted(true, storage, s)) == s
  {
    StateSlotReadBack(s, Client);
    StateSlotReadBack(s, PrimaryContact);
    StateSlotReadBack(s, SecondaryContact);
  }
}
