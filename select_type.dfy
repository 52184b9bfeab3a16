/** The type choice page of src/app/select-type/page.tsx. */
module SelectType {
  import opened Types
  import opened Navigation
  import opened Storage
  import Home

  /** `clients.findIndex(c => c.id === id)`: the first index holding that
      id, or -1 when there is none. */
  function FindIndex(cs: seq<Client>, id: string): (idx: int)
    ensures -1 <= idx < |cs|
    ensures idx == -1 <==> forall j :: 0 <= j < |cs| ==> cs[j].id != id
    ensures 0 <= idx ==> cs[idx].id == id && forall j :: 0 <= j < idx ==> cs[j].id != id
  {
    if cs == [] then -1
    else if cs[0].id == id then 0
    else
      var k := FindIndex(cs[1..], id);
      if k == -1 then -1 else k + 1
  }

  /** An independent statement of the patch: walk the list and put `u` in
      place of the first client with the same id. */
  function ReplaceFirstById(cs: seq<Client>, u: Client): seq<Client> {
    if cs == [] then []
    else if cs[0].id == u.id then [u] + cs[1..]
    else [cs[0]] + ReplaceFirstById(cs[1..], u)
  }

  /** Assigning at the found index is that walk; with no match the walk
      changes nothing. */
  lemma {:induction false} PatchIsReplaceFirst(cs: seq<Client>, u: Client)
    ensures FindIndex(cs, u.id) == -1 ==> ReplaceFirstById(cs, u) == cs
    ensures FindIndex(cs, u.id) != -1 ==> cs[FindIndex(cs, u.id) := u] == ReplaceFirstById(cs, u)
  {
    if cs != [] && cs[0].id != u.id {
      PatchIsReplaceFirst(cs[1..], u);
      var k := FindIndex(cs[1..], u.id);
      if k == -1 {
        assert cs == [cs[0]] + cs[1..];
      } else {
        assert cs[k + 1 := u] == [cs[0]] + cs[1..][k := u];
      }
    } else if cs != [] {
      assert cs[0 := u] == [u] + cs[1..];
    }
  }

  /** `{ ...client, type, updatedAt }`: the chosen type and a fresh
      `updatedAt`; every other field, the audit type included, is kept. */
  function WithType(c: Client, t: ClientType, now: Time): (u: Client)
    ensures u.clientType == t && u.updatedAt == now
    ensures u.(clientType := c.clientType, updatedAt := c.updatedAt) == c
  {
    c.(clientType := t, updatedAt := now)
  }

  /** Choosing "new_idea" keeps a previously chosen audit type; the list
      page still routes the client to the new-idea chat. */
  lemma NewIdeaKeepsAuditType(c: Client, now: Time)
    ensures WithType(c, NewIdea, now).auditType == c.auditType
    ensures WithType(c, NewIdea, now).clientType == NewIdea
  {
  }

  /** This page sends every client to the chat of the chosen type, while the
      list page sends an improvement client without an audit type back here:
      the two agree exactly when the type is "new_idea" or an audit type is
      already set. */
  lemma ChosenRouteAgreesWithList(c: Client, t: ClientType, now: Time)
    ensures Home.SelectRoute(WithType(c, t, now)) == ToChat(t) <==> t == NewIdea || c.auditType.Some?
  {
  }

  /** The page's `client` state, loaded once from `currentClient`, and the
      storage it writes. */
  class SelectTypePage {
    var client: Option<Client>
    const storage: LocalStorage

    /** Mounting: the state is the stored current client, if any. */
    constructor Mount(storage: LocalStorage)
      ensures this.storage == storage && client == storage.currentClient
    {
      this.storage := storage;
      client := storage.currentClient;
    }

    /** `handleSelectType`: with no client nothing happens. Otherwise the
        current client becomes the page's client with the new type and
        time, the stored list gets it in place of the first entry with its
        id (and is not written when there is none), and the chat for the
        chosen type comes next. The page's own state is not updated. */
    method SelectType(t: ClientType, now: Time) returns (route: Option<Route>)
      modifies storage`currentClient, storage`clients
      ensures client.None? ==> route == None && unchanged(storage)
      ensures client.Some? ==>
        var u := WithType(client.value, t, now);
        var before := old(storage.StoredClients());
        var idx := FindIndex(before, client.value.id);
        && storage.currentClient == Some(u)
        && (idx == -1 ==> storage.clients == old(storage.clients))
        && (idx != -1 ==> storage.clients == Some(before[idx := u]))
        && storage.StoredClients() == ReplaceFirstById(before, u)
        && route == Some(ToChat(t))
    {
      if client.None? {
        return None;
      }
      var c := client.value;
      var updated := WithType(c, t, now);
      storage.currentClient := Some(updated);
      var list := storage.StoredClients();
      var idx := FindIndex(list, c.id);
      PatchIsReplaceFirst(list, updated);
      if idx != -1 {
        list := list[idx := updated];
        storage.clients := Some(list);
      }
      route := Some(ToChat(t));
    }
  }
}
