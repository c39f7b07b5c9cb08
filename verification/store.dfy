/** The session store: one transcript per session id, read and rewritten
    whole on every turn (getHistoryFromRedis and saveHistoryToRedis,
    be-go/main.go). The backend is a map; whether it can be reached on a
    given read or write is a flag supplied by the caller. */
module SessionStore {
  import opened Results
  import opened Transcript

  type Store = map<string, seq<Message>>

  datatype StoreError = StoreUnavailable

  /** Whether this request's read and write reach the backend. A read that
      fails covers a backend error, a missing client and an undecodable
      stored value alike. */
  datatype Health = Health(readable: bool, writable: bool)

  /** The stored transcript; an absent key is a new session and loads as the
      empty transcript, not as an error. */
  function Load(s: Store, id: string, readable: bool): (r: Result<seq<Message>, StoreError>)
    ensures r.Err? <==> !readable
    ensures r.Ok? && id in s ==> r.value == s[id]
    ensures r.Ok? && id !in s ==> r.value == []
  {
    if !readable then Err(StoreUnavailable)
    else if id in s then Ok(s[id])
    else Ok([])
  }

  /** Overwrites the whole transcript under id, or fails leaving nothing
      written. */
  function Save(s: Store, id: string, h: seq<Message>, writable: bool): (r: Result<Store, StoreError>)
    ensures r.Err? <==> !writable
    ensures r.Ok? ==> id in r.value && r.value[id] == h
    ensures r.Ok? ==> r.value.Keys == s.Keys + {id}
    ensures r.Ok? ==> forall k :: k in s && k != id ==> r.value[k] == s[k]
  {
    if writable then Ok(s[id := h]) else Err(StoreUnavailable)
  }

  /** Round trip: what is saved under an id loads back unchanged, and every
      other session loads as before. */
  lemma SaveThenLoad(s: Store, id: string, h: seq<Message>, other: string)
    requires other != id
    ensures Load(Save(s, id, h, true).value, id, true) == Ok(h)
    ensures Load(Save(s, id, h, true).value, other, true) == Load(s, other, true)
  {
  }
}
