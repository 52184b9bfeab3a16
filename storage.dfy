/** Browser-local storage as the two pages use it: three kinds of key, each
    holding one typed value. */
module Storage {
  import opened Types

  /** The prefix of the per-client chat history keys. */
  const HistoryPrefix: string := "chatHistory:"

  /** The storage key under which the history of client `id` is kept. */
  function HistoryKey(id: string): (k: string)
    ensures |k| == |HistoryPrefix| + |id|
    ensures k[..|HistoryPrefix|] == HistoryPrefix && k[|HistoryPrefix|..] == id
  {
    HistoryPrefix + id
  }

  /** Every client has its own history key, and no history key is one of
      the two fixed keys; this is why the store below may keep the three
      kinds of key in three separate fields. */
  lemma HistoryKeysDistinct(a: string, b: string)
    ensures HistoryKey(a) == HistoryKey(b) ==> a == b
    ensures HistoryKey(a) != "clients" && HistoryKey(a) != "currentClient"
  {
    assert HistoryKey(a)[|HistoryPrefix|..] == a;
    assert HistoryKey(b)[|HistoryPrefix|..] == b;
    assert HistoryKey(a)[1] == 'h';
  }

  /** The keys `clients`, `currentClient` and `chatHistory:<id>`. An absent
      key is `None` (for the histories: an id not in the map). */
  class LocalStorage {
    var clients: Option<seq<Client>>
    var currentClient: Option<Client>
    var chatHistory: map<string, seq<Message>>

    /** `JSON.parse(localStorage.getItem("clients") || "[]")`: the stored
        list, or the empty list when the key is absent. */
    function StoredClients(): (cs: seq<Client>)
      reads this
      ensures clients.Some? ==> cs == clients.value
      ensures clients.None? ==> cs == []
    {
      clients.GetOr([])
    }
  }
}
