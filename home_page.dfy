/**
 * The application's start page: the same three slots and the same storage
 * as the selection page, but without notifications; its submission ignores
 * the response and any failure.
 */
module HomePage {
  import opened Wrappers
  import opened JsonValues
  import opened Contacts
  import opened PageStorage
  import SelectionPage

  class Home {
    const inBrowser: bool
    var state: AppState
    var storage: map<string, Stored>

    /** A reload would start from the current selections. */
    predicate Synced()
      reads this
    {
      inBrowser ==> LoadInitialState(true, storage) == state
    }

    /** Mounting: the state is read from the store and written back. */
    constructor (inBrowser: bool, storage: map<string, Stored>)
      ensures this.inBrowser == inBrowser
      ensures state == LoadInitialState(inBrowser, storage)
      ensures this.storage == Persisted(inBrowser, storage, state)
      ensures Synced()
    {
      this.inBrowser := inBrowser;
      var s := LoadInitialState(inBrowser, storage);
      state := s;
      this.storage := Persisted(inBrowser, storage, s);
      LoadRoundTrip(storage, s);
    }

    /** The effect run after each change of the state: write it under the storage key. */
    method PersistState()
      modifies this`storage
      ensures storage == Persisted(inBrowser, old(storage), state)
      ensures Synced()
    {
      if !inBrowser {
        return;
      }
      LoadRoundTrip(storage, state);
      storage := storage[StorageKey := Parsed(StateToJson(state))];
    }

    /** A picker changed slot `k` to `v`: only that slot changes, and the new state is stored. */
    method HandleFieldChange(k: SlotKey, v: Option<Contact>)
      modifies this`state, this`storage
      ensures state == SetSlot(old(state), k, v)
      ensures storage == Persisted(inBrowser, old(storage), state)
      ensures Synced()
    {
      state := SetSlot(state, k, v);
      PersistState();
    }

    /**
     * Posts the current selections in the same body as the selection page;
     * whatever the outcome, nothing on the page changes.
     */
    method HandleFinalSubmit() returns (body: Json)
      ensures body == SelectionPage.SubmitBody(state)
    {
      body := JObj([Member("action", JStr("submit")), Member("payload", StateToJson(state))]);
    }
  }
}
