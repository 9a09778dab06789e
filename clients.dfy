/**
 * The client register (hooks/use-clients.ts): client records with their
 * spending history, and the statistics the clients screen shows.
 */
module Clients {
  import opened Common
  import opened Text
  import opened Sorting
  import opened Salon

  /** `Omit<Client, 'id' | 'createdAt' | 'totalSpent' | 'visitCount'>`: what `addClient` receives. */
  datatype ClientDraft = ClientDraft(
    name: string, phone: string, email: Option<string>, birthDate: Option<int>,
    notes: Option<string>, lastVisit: Option<int>)

  /** `Partial<Client>`: each field kept or overwritten (an optional one possibly with `undefined`). */
  datatype ClientPatch = ClientPatch(
    id: Field<string>, name: Field<string>, phone: Field<string>, email: Field<Option<string>>,
    birthDate: Field<Option<int>>, notes: Field<Option<string>>, createdAt: Field<int>,
    lastVisit: Field<Option<int>>, totalSpent: Field<int>, visitCount: Field<int>)

  /** The patch `updateClientVisit` passes for client `c`: stamped now, `amount` more spent, one more visit. */
  function VisitPatch(c: Client, amount: int, now: int): ClientPatch {
    ClientPatch(Keep, Keep, Keep, Keep, Keep, Keep, Keep,
                Set(Some(now)), Set(c.totalSpent + amount), Set(c.visitCount + 1))
  }

  /** `{ ...c, ...updates }`. */
  function Merge(c: Client, p: ClientPatch): Client {
    Client(p.id.Or(c.id), p.name.Or(c.name), p.phone.Or(c.phone), p.email.Or(c.email),
           p.birthDate.Or(c.birthDate), p.notes.Or(c.notes), p.createdAt.Or(c.createdAt),
           p.lastVisit.Or(c.lastVisit), p.totalSpent.Or(c.totalSpent), p.visitCount.Or(c.visitCount))
  }

  /**
   * The record `addClient` builds: the draft with the id and creation time taken
   * from the clock, and no spending or visits yet.
   */
  function NewClient(d: ClientDraft, now: nat): (c: Client)
    ensures c.id == NatToString(now) && c.createdAt == now
    ensures c.totalSpent == 0 && c.visitCount == 0
    ensures c.name == d.name && c.phone == d.phone && c.email == d.email
    ensures c.birthDate == d.birthDate && c.notes == d.notes && c.lastVisit == d.lastVisit
  {
    Client(NatToString(now), d.name, d.phone, d.email, d.birthDate, d.notes, now, d.lastVisit, 0, 0)
  }

  predicate UniqueIds(clients: seq<Client>) {
    forall i, j :: 0 <= i < j < |clients| ==> clients[i].id != clients[j].id
  }

  function UpdateOne(c: Client, id: string, p: ClientPatch): Client {
    if c.id == id then Merge(c, p) else c
  }

  /** `clients.map(c => c.id === id ? { ...c, ...updates } : c)`. */
  function Updated(clients: seq<Client>, id: string, p: ClientPatch): (r: seq<Client>)
    ensures |r| == |clients|
    ensures forall i :: 0 <= i < |clients| ==> r[i] == UpdateOne(clients[i], id, p)
  {
    if clients == [] then [] else [UpdateOne(clients[0], id, p)] + Updated(clients[1..], id, p)
  }

  /** With unique ids, an update of an id present at `k` rewrites exactly that position. */
  lemma UpdatedUniqueAt(clients: seq<Client>, id: string, p: ClientPatch, k: nat, c: Client)
    requires UniqueIds(clients) && k < |clients| && clients[k].id == id && Merge(clients[k], p) == c
    ensures Updated(clients, id, p) == clients[k := c]
  {
  }

  /** `clients.filter(c => c.id !== id)`. */
  function Deleted(clients: seq<Client>, id: string): (r: seq<Client>)
    ensures |r| <= |clients|
    ensures forall x :: x in r <==> x in clients && x.id != id
  {
    if clients == [] then []
    else if clients[0].id == id then Deleted(clients[1..], id)
    else [clients[0]] + Deleted(clients[1..], id)
  }

  /** Deleting an id held by no client changes nothing. */
  lemma {:induction false} DeleteUnknown(clients: seq<Client>, id: string)
    requires forall i :: 0 <= i < |clients| ==> clients[i].id != id
    ensures Deleted(clients, id) == clients
  {
    if clients != [] {
      DeleteUnknown(clients[1..], id);
      assert clients == [clients[0]] + clients[1..];
    }
  }

  /** `getClient(id)`: `clients.find(c => c.id === id)`. */
  function Find(clients: seq<Client>, id: string): (r: Option<Client>)
    ensures r.Some? ==> r.value.id == id && r.value in clients
    ensures r.None? <==> forall i :: 0 <= i < |clients| ==> clients[i].id != id
  {
    if clients == [] then None
    else if clients[0].id == id then Some(clients[0])
    else Find(clients[1..], id)
  }

  /** `getClient` returns the client at the first position holding the id. */
  lemma {:induction false} FindFirst(clients: seq<Client>, id: string, k: nat)
    requires k < |clients| && clients[k].id == id
    requires forall j :: 0 <= j < k ==> clients[j].id != id
    ensures Find(clients, id) == Some(clients[k])
  {
    if k > 0 {
      assert clients[0].id != id;
      assert forall j :: 0 <= j < k - 1 ==> clients[1..][j].id != id by {
        forall j | 0 <= j < k - 1 ensures clients[1..][j].id != id {
          assert clients[1..][j] == clients[j + 1];
        }
      }
      FindFirst(clients[1..], id, k - 1);
    }
  }

  /** With unique ids, `getClient` returns the client at the id's only position. */
  lemma FindUniqueAt(clients: seq<Client>, id: string, k: nat)
    requires UniqueIds(clients) && k < |clients| && clients[k].id == id
    ensures Find(clients, id) == Some(clients[k])
  {
    FindFirst(clients, id, k);
  }

  /** The search predicate: name or e-mail includes the query ignoring case, or the phone includes it exactly. */
  predicate Matches(c: Client, query: string) {
    var q := Lower(query);
    || Contains(Lower(c.name), q)
    || Contains(c.phone, query)
    || (c.email.Some? && c.email.value != "" && Contains(Lower(c.email.value), q))
  }

  /** `searchClients(query)`. */
  function Search(clients: seq<Client>, query: string): (r: seq<Client>)
    ensures |r| <= |clients|
    ensures forall x :: x in r <==> x in clients && Matches(x, query)
  {
    if clients == [] then []
    else if Matches(clients[0], query) then [clients[0]] + Search(clients[1..], query)
    else Search(clients[1..], query)
  }

  /** The search distributes over concatenation, so it keeps order and repeats as `filter` does. */
  lemma {:induction false} SearchAppend(a: seq<Client>, b: seq<Client>, query: string)
    ensures Search(a + b, query) == Search(a, query) + Search(b, query)
  {
    if a == [] {
      assert a + b == b;
    } else {
      assert (a + b)[1..] == a[1..] + b;
      SearchAppend(a[1..], b, query);
    }
  }

  /** Every client's phone number finds that client. */
  lemma SearchByPhoneFinds(clients: seq<Client>, c: Client)
    requires c in clients
    ensures c in Search(clients, c.phone)
  {
    assert OccursAt(c.phone, c.phone, 0);
  }

  /** The list after `updateClientVisit(id, amount)`: an unknown id changes nothing. */
  function AfterVisit(clients: seq<Client>, id: string, amount: int, now: int): seq<Client> {
    match Find(clients, id)
    case None => clients
    case Some(c) => Updated(clients, id, VisitPatch(c, amount, now))
  }

  /** The sum of `totalSpent` over the clients. */
  function TotalRevenue(clients: seq<Client>): int {
    if clients == [] then 0 else clients[0].totalSpent + TotalRevenue(clients[1..])
  }

  lemma {:induction false} TotalRevenueAppend(a: seq<Client>, b: seq<Client>)
    ensures TotalRevenue(a + b) == TotalRevenue(a) + TotalRevenue(b)
  {
    if a == [] {
      assert a + b == b;
    } else {
      assert (a + b)[1..] == a[1..] + b;
      TotalRevenueAppend(a[1..], b);
    }
  }

  lemma TotalRevenueReplaceAt(clients: seq<Client>, k: nat, c: Client)
    requires k < |clients|
    ensures TotalRevenue(clients[k := c]) == TotalRevenue(clients) - clients[k].totalSpent + c.totalSpent
  {
    var before, after := clients[..k], clients[k + 1..];
    assert clients == before + ([clients[k]] + after);
    assert clients[k := c] == before + ([c] + after);
    TotalRevenueAppend(before, [clients[k]] + after);
    TotalRevenueAppend(before, [c] + after);
    assert ([clients[k]] + after)[1..] == after;
    assert ([c] + after)[1..] == after;
  }

  /** A new client adds one to the count and nothing to the revenue. */
  lemma AddClientStats(clients: seq<Client>, d: ClientDraft, now: nat)
    ensures TotalRevenue(clients + [NewClient(d, now)]) == TotalRevenue(clients)
  {
    TotalRevenueAppend(clients, [NewClient(d, now)]);
    assert [NewClient(d, now)][1..] == [];
  }

  /**
   * On a register with unique ids, a visit changes only the visiting client:
   * one more visit, `amount` more spent, last visit stamped `now`.
   */
  lemma VisitAt(clients: seq<Client>, id: string, amount: int, now: int, k: nat)
    requires UniqueIds(clients) && k < |clients| && clients[k].id == id
    ensures AfterVisit(clients, id, amount, now)
            == clients[k := clients[k].(totalSpent := clients[k].totalSpent + amount,
                                        visitCount := clients[k].visitCount + 1,
                                        lastVisit := Some(now))]
  {
    FindUniqueAt(clients, id, k);
    var p := VisitPatch(clients[k], amount, now);
    var c := clients[k].(totalSpent := clients[k].totalSpent + amount,
                         visitCount := clients[k].visitCount + 1, lastVisit := Some(now));
    assert Merge(clients[k], p) == c;
    UpdatedUniqueAt(clients, id, p, k, c);
  }

  /** A visit of `amount` raises the total revenue by exactly `amount`. */
  lemma VisitRevenue(clients: seq<Client>, id: string, amount: int, now: int, k: nat)
    requires UniqueIds(clients) && k < |clients| && clients[k].id == id
    ensures TotalRevenue(AfterVisit(clients, id, amount, now)) == TotalRevenue(clients) + amount
  {
    VisitAt(clients, id, amount, now, k);
    TotalRevenueReplaceAt(clients, k, clients[k].(totalSpent := clients[k].totalSpent + amount,
                                                  visitCount := clients[k].visitCount + 1,
                                                  lastVisit := Some(now)));
  }

  /** A visit by an unknown id changes nothing. */
  lemma VisitUnknown(clients: seq<Client>, id: string, amount: int, now: int)
    requires forall i :: 0 <= i < |clients| ==> clients[i].id != id
    ensures AfterVisit(clients, id, amount, now) == clients
  {
  }

  function Spent(c: Client): int { c.totalSpent }

  /**
   * `getTopClients(limit)`: the clients in non-increasing order of spending (ties
   * in register order), cut to `limit`.
   */
  function TopClients(clients: seq<Client>, limit: int): seq<Client> {
    Prefix(SortDesc(clients, Spent), limit)
  }

  /** The top list has `min(limit, |clients|)` entries, all drawn from the register. */
  lemma TopClientsSize(clients: seq<Client>, limit: nat)
    ensures |TopClients(clients, limit)| == (if limit < |clients| then limit else |clients|)
    ensures multiset(TopClients(clients, limit)) <= multiset(clients)
  {
    var sorted := SortDesc(clients, Spent);
    PrefixOfSorted(clients, Spent, |TopClients(clients, limit)|);
  }

  /** The top list is in non-increasing order of spending. */
  lemma TopClientsOrdered(clients: seq<Client>, limit: int)
    ensures SortedDesc(TopClients(clients, limit), Spent)
  {
    PrefixOfSorted(clients, Spent, |TopClients(clients, limit)|);
  }

  /** No client left out of the top list spent more than any client on it. */
  lemma TopClientsKeepLargest(clients: seq<Client>, limit: int)
    ensures var top := TopClients(clients, limit);
            forall x, y :: x in top && y in multiset(clients) - multiset(top) ==> x.totalSpent >= y.totalSpent
  {
    PrefixKeepsLargest(clients, Spent, |TopClients(clients, limit)|);
  }

  /** The number of clients created at or after `monthStart`. */
  function CreatedSince(clients: seq<Client>, monthStart: int): (n: nat)
    ensures n <= |clients|
  {
    if clients == [] then 0
    else (if clients[0].createdAt >= monthStart then 1 else 0) + CreatedSince(clients[1..], monthStart)
  }

  /** The figures `useClientStats` returns. */
  datatype ClientStats = ClientStats(
    totalClients: nat, totalRevenue: int, avgSpentPerClient: real, newClientsThisMonth: nat)

  /**
   * `useClientStats`; `monthStart` is the first day of the current month at the
   * current time of day, as the source's `setDate(1)` leaves it.
   */
  function Stats(clients: seq<Client>, monthStart: int): (s: ClientStats)
    ensures s.totalClients == |clients| && s.totalRevenue == TotalRevenue(clients)
    ensures s.totalClients > 0 ==> s.avgSpentPerClient * s.totalClients as real == s.totalRevenue as real
    ensures s.totalClients == 0 ==> s.avgSpentPerClient == 0.0
    ensures s.newClientsThisMonth <= s.totalClients
  {
    var n := |clients|;
    var total := TotalRevenue(clients);
    ClientStats(n, total, if n > 0 then total as real / n as real else 0.0, CreatedSince(clients, monthStart))
  }

  /** The client register; `saveClients` persists and replaces the list. */
  class ClientStore {
    var clients: seq<Client>

    constructor ()
      ensures clients == []
    {
      clients := [];
    }

    /** `loadClients`: a stored list replaces the register. */
    method LoadClients(stored: Option<seq<Client>>)
      modifies this
      ensures clients == if stored.Some? then stored.value else old(clients)
    {
      if stored.Some? { clients := stored.value; }
    }

    /** `addClient`: appends exactly the new record and returns it. */
    method AddClient(d: ClientDraft, now: nat) returns (c: Client)
      modifies this
      ensures c == NewClient(d, now)
      ensures clients == old(clients) + [c]
    {
      c := NewClient(d, now);
      clients := clients + [c];
    }

    method UpdateClient(id: string, p: ClientPatch)
      modifies this
      ensures clients == Updated(old(clients), id, p)
    {
      clients := Updated(clients, id, p);
    }

    method DeleteClient(id: string)
      modifies this
      ensures clients == Deleted(old(clients), id)
    {
      clients := Deleted(clients, id);
    }

    /** `updateClientVisit(id, amount)`. */
    method UpdateClientVisit(id: string, amount: int, now: int)
      modifies this
      ensures clients == AfterVisit(old(clients), id, amount, now)
    {
      var c := Find(clients, id);
      if c.Some? {
        clients := Updated(clients, id, VisitPatch(c.value, amount, now));
      }
    }
  }
}
