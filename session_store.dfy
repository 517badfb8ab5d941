/** The backend's per-session chat histories: the module-level dictionary `store` and
    get_session_history, which looks a session up and creates its history on first use. */
module SessionStore {

  /** A LangChain ChatMessageHistory: its contents are not part of this model, only its
      identity as a freshly allocated object. */
  class ChatMessageHistory {
    constructor () {
    }
  }

  /** The dictionary after get_session_history(sessionId) when the call would allocate
      `created` for an unknown id: the key is present afterwards, an existing entry is
      kept, and no other key is added, removed or changed. */
  function StoreAfter<H>(store: map<string, H>, sessionId: string, created: H): (r: map<string, H>)
    ensures r.Keys == store.Keys + {sessionId}
    ensures sessionId in store ==> r == store
    ensures sessionId !in store ==> r[sessionId] == created
    ensures forall k :: k in store ==> r[k] == store[k]
  {
    if sessionId in store then store else store[sessionId := created]
  }

  /** A second lookup of the same id finds what the first left and changes nothing, whatever
      it would have allocated. */
  lemma StoreAfterIdempotent<H>(store: map<string, H>, sessionId: string, first: H, second: H)
    ensures StoreAfter(StoreAfter(store, sessionId, first), sessionId, second)
            == StoreAfter(store, sessionId, first)
    ensures StoreAfter(StoreAfter(store, sessionId, first), sessionId, second)[sessionId]
            == StoreAfter(store, sessionId, first)[sessionId]
  {
  }

  /** Lookups of different ids do not disturb each other's entries, and the same entries
      result whichever order they are made in. */
  lemma StoreAfterCommutes<H>(store: map<string, H>, a: string, b: string, ha: H, hb: H)
    requires a != b
    ensures StoreAfter(StoreAfter(store, a, ha), b, hb) == StoreAfter(StoreAfter(store, b, hb), a, ha)
  {
  }

  class HistoryStore {
    /** `store = {}` at module level. */
    var store: map<string, ChatMessageHistory>

    constructor ()
      ensures store == map[]
    {
      store := map[];
    }

    /** get_session_history: afterwards the id is a key of `store` and the result is its
        entry; a known id returns its existing history and leaves `store` as it was; an
        unknown id gets exactly one new entry, a fresh history. */
    method GetSessionHistory(sessionId: string) returns (h: ChatMessageHistory)
      modifies this
      ensures sessionId in store && h == store[sessionId]
      ensures sessionId in old(store) ==> h == old(store)[sessionId] && store == old(store)
      ensures sessionId !in old(store) ==> fresh(h)
      ensures store == StoreAfter(old(store), sessionId, h)
    {
      if sessionId !in store {
        var created := new ChatMessageHistory();
        store := store[sessionId := created];
      }
      h := store[sessionId];
    }

    /** Two consecutive calls with the same id return the same history object, and the
        second call does not modify `store`. */
    method GetSessionHistoryTwice(sessionId: string) returns (h1: ChatMessageHistory, h2: ChatMessageHistory)
      modifies this
      ensures h1 == h2
      ensures store == StoreAfter(old(store), sessionId, h1)
    {
      h1 := GetSessionHistory(sessionId);
      ghost var between := store;
      h2 := GetSessionHistory(sessionId);
      assert store == between;
    }
  }
}
