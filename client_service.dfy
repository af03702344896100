/** src/services/clientService.ts: the client store kept under the `clients` key. */
module ClientService {
  import opened Wrappers
  import opened Model
  import opened Strings
  import opened Seqs
  import opened Store

  /** The argument of `createClient`. */
  datatype ClientData = ClientData(name: string, company: Option<string>, email: string, address: string)

  /** The client `createClient` builds at clock reading `now`: its id is the
      clock reading in decimal. */
  function CreatedClient(data: ClientData, now: nat): (c: Client)
    ensures AllDigits(c.id) && DigitsValue(c.id) == now
    ensures c.name == data.name && c.company == data.company && c.email == data.email
    ensures c.address == data.address && c.createdAt == now
  {
    Client(NatToString(now), data.name, data.company, data.email, data.address, now)
  }

  /** `createClient(data)`: the new client goes in front of the stored ones. */
  method CreateClient(st: LocalStore, data: ClientData, now: nat) returns (c: Client)
    modifies st`clients
    ensures c == CreatedClient(data, now)
    ensures st.clients == [c] + old(st.clients)
  {
    c := CreatedClient(data, now);
    st.clients := [c] + st.clients;
  }

  /** `getUserClients()`: the stored clients, in order (the `createdAt`
      rehydration is the identity on times). */
  function GetUserClients(clients: seq<Client>): (r: seq<Client>)
    ensures |r| == |clients| && forall i :: 0 <= i < |r| ==> r[i] == clients[i]
  {
    seq(|clients|, i requires 0 <= i < |clients| => clients[i].(createdAt := clients[i].createdAt))
  }

  /** The fields `updateClient` may overwrite; a missing field is kept. */
  datatype ClientPatch = ClientPatch(
    name: Option<string>,
    company: Option<string>,
    email: Option<string>,
    address: Option<string>)

  /** `{ ...client, ...patch }`: the provided fields replace the client's,
      the id and the creation time stay. */
  function Merge(c: Client, patch: ClientPatch): (r: Client)
    ensures r.id == c.id && r.createdAt == c.createdAt
    ensures r.name == patch.name.GetOr(c.name) && r.email == patch.email.GetOr(c.email)
    ensures r.address == patch.address.GetOr(c.address)
    ensures r.company == if patch.company.Some? then patch.company else c.company
  {
    Client(c.id, patch.name.GetOr(c.name),
           if patch.company.Some? then patch.company else c.company,
           patch.email.GetOr(c.email), patch.address.GetOr(c.address), c.createdAt)
  }

  /** Merging an empty patch changes nothing, and merging the same patch
      twice is merging it once. */
  lemma MergeLaws(c: Client, patch: ClientPatch)
    ensures Merge(c, ClientPatch(None, None, None, None)) == c
    ensures Merge(Merge(c, patch), patch) == Merge(c, patch)
  {
  }

  const ClientNotFound: string := "Client not found"

  /** `updateClient(id, patch)`: an unknown id is refused and nothing is
      written; otherwise the first client with that id is merged in place
      and returned. */
  method UpdateClient(st: LocalStore, id: string, patch: ClientPatch) returns (r: Result<Client>)
    modifies st`clients
    ensures r.Err? <==> forall i :: 0 <= i < |old(st.clients)| ==> old(st.clients)[i].id != id
    ensures r.Err? ==> r.message == ClientNotFound && st.clients == old(st.clients)
    ensures r.Ok? ==>
              var k := FindIndex(old(st.clients), ClientIdIs(id));
              0 <= k < |old(st.clients)| && r.value == Merge(old(st.clients)[k], patch) &&
              st.clients == old(st.clients)[k := r.value]
  {
    var k := FindIndex(st.clients, ClientIdIs(id));
    if k == -1 {
      return Err(ClientNotFound);
    }
    var c := Merge(st.clients[k], patch);
    st.clients := st.clients[k := c];
    r := Ok(c);
  }

  /** The update keeps the length, and every client but the first match. */
  lemma UpdateKeepsOthers(clients: seq<Client>, id: string, patch: ClientPatch)
    requires FindIndex(clients, ClientIdIs(id)) >= 0
    ensures var k := FindIndex(clients, ClientIdIs(id));
            var r := clients[k := Merge(clients[k], patch)];
            |r| == |clients| && r[k].id == id &&
            forall i :: 0 <= i < |clients| && i != k ==> r[i] == clients[i]
  {
    var k := FindIndex(clients, ClientIdIs(id));
    assert ClientIdIs(id)(clients[k]);
  }

  /** `deleteClient(id)`. */
  method DeleteClient(st: LocalStore, id: string)
    modifies st`clients
    ensures st.clients == Filter(old(st.clients), ClientIdIsNot(id))
  {
    st.clients := Filter(st.clients, ClientIdIsNot(id));
  }

  /** Deleting keeps every other client, in order, drops every client with
      the id, and a second delete changes nothing. */
  lemma DeleteClientFacts(clients: seq<Client>, id: string)
    ensures IsSubsequence(Filter(clients, ClientIdIsNot(id)), clients)
    ensures forall i :: 0 <= i < |clients| ==>
              (clients[i] in Filter(clients, ClientIdIsNot(id)) <==> clients[i].id != id)
    ensures Filter(Filter(clients, ClientIdIsNot(id)), ClientIdIsNot(id)) == Filter(clients, ClientIdIsNot(id))
  {
    FilterIsSubsequence(clients, ClientIdIsNot(id));
    FilterIdempotent(clients, ClientIdIsNot(id));
  }
}
