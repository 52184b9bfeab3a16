/** The client list page of src/app/page.tsx: searching, selecting and
    creating clients. */
module Home {
  import opened Types
  import opened Text
  import opened Navigation
  import opened Storage

  // ---------------------------------------------------------------------
  // Search
  // ---------------------------------------------------------------------

  /** The search predicate: the lower-cased query occurs in the lower-cased
      name or in the lower-cased company, a missing company counting as "". */
  function Matches(c: Client, query: string): (b: bool)
    ensures b <==> Occurs(Lower(c.name), Lower(query)) || Occurs(Lower(c.company.GetOr("")), Lower(query))
  {
    ContainsIff(Lower(c.name), Lower(query));
    ContainsIff(Lower(c.company.GetOr("")), Lower(query));
    Contains(Lower(c.name), Lower(query)) || Contains(Lower(c.company.GetOr("")), Lower(query))
  }

  /** `clients.filter(...)`: the clients the search box lets through. */
  function FilterClients(cs: seq<Client>, query: string): (r: seq<Client>)
    ensures |r| <= |cs|
    ensures forall c :: c in r ==> c in cs && Matches(c, query)
  {
    if cs == [] then []
    else if Matches(cs[0], query) then [cs[0]] + FilterClients(cs[1..], query)
    else FilterClients(cs[1..], query)
  }

  /** `sub` is `s` with some elements dropped and the rest in their order. */
  predicate IsSubsequence<T(==)>(sub: seq<T>, s: seq<T>)
    decreases |s|
  {
    if sub == [] then true
    else if s == [] then false
    else if sub[0] == s[0] then IsSubsequence(sub[1..], s[1..])
    else IsSubsequence(sub, s[1..])
  }

  /** A client is listed exactly when it is stored and matches the query. */
  lemma {:induction false} FilterMembership(cs: seq<Client>, query: string, c: Client)
    ensures c in FilterClients(cs, query) <==> c in cs && Matches(c, query)
  {
    if cs != [] {
      FilterMembership(cs[1..], query, c);
      assert cs == [cs[0]] + cs[1..];
    }
  }

  /** The search keeps the stored order: its result is a subsequence of the
      stored list. */
  lemma {:induction false} FilterIsSubsequence(cs: seq<Client>, query: string)
    ensures IsSubsequence(FilterClients(cs, query), cs)
  {
    if cs != [] {
      FilterIsSubsequence(cs[1..], query);
      var rest := FilterClients(cs[1..], query);
      if Matches(cs[0], query) {
        assert ([cs[0]] + rest)[1..] == rest;
      } else if rest != [] {
        // every listed client matches, so the dropped head is not rest[0]
        assert rest[0] in rest;
      }
    }
  }

  /** Searching a concatenation searches each part in turn. */
  lemma {:induction false} FilterAppend(a: seq<Client>, b: seq<Client>, query: string)
    ensures FilterClients(a + b, query) == FilterClients(a, query) + FilterClients(b, query)
  {
    if a == [] {
      assert a + b == b;
    } else {
      assert (a + b)[0] == a[0];
      assert (a + b)[1..] == a[1..] + b;
      FilterAppend(a[1..], b, query);
    }
  }

  /** An empty search box lists every client, in stored order. */
  lemma {:induction false} FilterEmptyQuery(cs: seq<Client>)
    ensures FilterClients(cs, "") == cs
  {
    if cs != [] {
      ContainsEmpty(Lower(cs[0].name));
      FilterEmptyQuery(cs[1..]);
    }
  }

  /** The search ignores the case of the query. */
  lemma {:induction false} FilterCaseInsensitive(cs: seq<Client>, query: string)
    ensures FilterClients(cs, Lower(query)) == FilterClients(cs, query)
  {
    LowerIdempotent(query);
    if cs != [] {
      FilterCaseInsensitive(cs[1..], query);
    }
  }

  // ---------------------------------------------------------------------
  // Selection routing
  // ---------------------------------------------------------------------

  /** Where selecting `c` leads: a new-idea client straight to its chat, an
      improvement client to its chat once an audit type is chosen, and
      otherwise back to the type choice. */
  function SelectRoute(c: Client): (r: Route)
    ensures r.ToChat? <==> c.clientType == NewIdea || c.auditType.Some?
    ensures r.ToChat? ==> r.kind == c.clientType
    ensures c.clientType == NewIdea ==> r == ToChat(NewIdea)
  {
    if c.clientType == NewIdea then ToChat(NewIdea)
    else if c.auditType.Some? then ToChat(c.clientType)
    else ToSelectType
  }

  /** A stale audit type on a new-idea client does not change where it leads. */
  lemma SelectRouteIgnoresAuditOfNewIdea(c: Client, a: Option<AuditType>)
    requires c.clientType == NewIdea
    ensures SelectRoute(c.(auditType := a)) == SelectRoute(c)
  {
  }

  // ---------------------------------------------------------------------
  // Creation
  // ---------------------------------------------------------------------

  /** The record built by the create form. `stamp` is the `Date.now()` that
      becomes the id; `created` and `updated` are the two `new Date()`
      readings. The company is always present, "" when left blank. */
  function NewClient(stamp: Time, name: string, company: string, created: Time, updated: Time): (c: Client)
    ensures IsDigits(c.id) && ParseNat(c.id) == stamp
    ensures c.name == name && c.company == Some(company)
    ensures c.clientType == NewIdea && c.auditType == None
    ensures c.createdAt == created && c.updatedAt == updated
    ensures SelectRoute(c) == ToChat(NewIdea)
  {
    ParseNatToString(stamp);
    Client(NatToString(stamp), name, Some(company), NewIdea, None, created, updated)
  }

  /** The id is only as unique as the clock: if every stored id is the
      decimal form of an earlier timestamp, the new id is not stored yet. */
  lemma NewIdFresh(cs: seq<Client>, stamp: Time)
    requires forall c :: c in cs ==> exists t: Time :: t < stamp && c.id == NatToString(t)
    ensures forall c :: c in cs ==> c.id != NatToString(stamp)
  {
    forall c | c in cs
      ensures c.id != NatToString(stamp)
    {
      var t: Time :| t < stamp && c.id == NatToString(t);
      NatToStringInjective(t, stamp);
    }
  }

  /** A newly created client is listed first by an empty search, and is
      listed by any search its name or company matches. */
  lemma CreatedClientListed(cs: seq<Client>, c: Client, query: string)
    ensures FilterClients([c] + cs, "") == [c] + cs
    ensures Matches(c, query) ==> FilterClients([c] + cs, query)[0] == c
  {
    FilterEmptyQuery([c] + cs);
    assert ([c] + cs)[1..] == cs;
  }

  /** "Acme", created without a company, is found by "" and by "CM", and
      not by "zzz". */
  lemma AcmeSearch(stamp: Time, created: Time, updated: Time)
    ensures Matches(NewClient(stamp, "Acme", "", created, updated), "")
    ensures Matches(NewClient(stamp, "Acme", "", created, updated), "CM")
    ensures !Matches(NewClient(stamp, "Acme", "", created, updated), "zzz")
  {
  }

  // ---------------------------------------------------------------------
  // The page
  // ---------------------------------------------------------------------

  /** The page's `clients` state and the storage it reads and writes. */
  class HomePage {
    var clients: seq<Client>
    const storage: LocalStorage

    /** The state mirrors what is stored. */
    predicate InSync()
      reads this, storage
    {
      clients == storage.StoredClients()
    }

    /** Mounting: the state starts as [] and is replaced by the stored list
        when there is one. */
    constructor Mount(storage: LocalStorage)
      ensures this.storage == storage
      ensures clients == storage.StoredClients()
      ensures InSync()
    {
      this.storage := storage;
      clients := storage.StoredClients();
    }

    /** `saveClients`: sets the state and the `clients` key to `newClients`. */
    method SaveClients(newClients: seq<Client>)
      modifies this`clients, storage`clients
      ensures clients == newClients
      ensures storage.clients == Some(newClients)
      ensures InSync()
    {
      clients := newClients;
      storage.clients := Some(newClients);
    }

    /** `filteredClients` for the given search box contents. */
    function Filtered(query: string): (r: seq<Client>)
      reads this
      ensures IsSubsequence(r, clients)
      ensures forall c :: c in r <==> c in clients && Matches(c, query)
    {
      FilterIsSubsequence(clients, query);
      forall c ensures c in FilterClients(clients, query) <==> c in clients && Matches(c, query) {
        FilterMembership(clients, query, c);
      }
      FilterClients(clients, query)
    }

    /** `handleSelectClient`: makes `client` the current one, gives it an
        empty history unless it has one, and picks the next screen. */
    method SelectClient(client: Client) returns (route: Route)
      modifies storage`currentClient, storage`chatHistory
      ensures storage.currentClient == Some(client)
      ensures client.id in old(storage.chatHistory) ==> storage.chatHistory == old(storage.chatHistory)
      ensures client.id !in old(storage.chatHistory) ==> storage.chatHistory == old(storage.chatHistory)[client.id := []]
      ensures route == SelectRoute(client)
    {
      storage.currentClient := Some(client);
      if client.id !in storage.chatHistory {
        storage.chatHistory := storage.chatHistory[client.id := []];
      }
      route := SelectRoute(client);
    }

    /** `handleCreateClient`: with an empty name nothing happens; otherwise
        the new client is put first in the list, made current, given an
        empty history, and the type choice comes next. Only the empty
        string is refused: a name of spaces is accepted. */
    method CreateClient(name: string, company: string, stamp: Time, created: Time, updated: Time)
      returns (route: Option<Route>)
      modifies this`clients, storage`clients, storage`currentClient, storage`chatHistory
      ensures name == "" ==> route == None && unchanged(this) && unchanged(storage)
      ensures name != "" ==>
        var c := NewClient(stamp, name, company, created, updated);
        && clients == [c] + old(clients)
        && storage.clients == Some(clients)
        && storage.currentClient == Some(c)
        && storage.chatHistory == old(storage.chatHistory)[c.id := []]
        && route == Some(ToSelectType)
      ensures name != "" ==> InSync()
    {
      if name == "" {
        return None;
      }
      var c := NewClient(stamp, name, company, created, updated);
      SaveClients([c] + clients);
      storage.currentClient := Some(c);
      storage.chatHistory := storage.chatHistory[c.id := []];
      route := Some(ToSelectType);
    }
  }
}
