/** src/components/ClientList.tsx: the client directory page, with its
    search box and its add/edit modal, kept in the `solson_clients` key. */
module ClientList {
  import opened Wrappers
  import opened Model
  import opened Strings
  import opened Seqs
  import opened Store
  import opened Storage

  // ---------------------------------------------------------------- search

  /** Name, company or email contains the term, ignoring case; a client
      without a company is matched on the other two. */
  predicate ClientMatches(c: Client, term: string) {
    ContainsIgnoringCase(c.name, term) ||
    (c.company.Some? && ContainsIgnoringCase(c.company.value, term)) ||
    ContainsIgnoringCase(c.email, term)
  }

  function MatchesSearch(term: string): Client -> bool {
    (c: Client) => ClientMatches(c, term)
  }

  /** The filter effect: an empty term keeps every client; otherwise the
      matching clients, in order. */
  function SearchClients(clients: seq<Client>, term: string): (r: seq<Client>)
    ensures term == "" ==> r == clients
    ensures IsSubsequence(r, clients)
    ensures forall c :: c in r <==> c in clients && (term == "" || ClientMatches(c, term))
  {
    if term == "" then
      SubsequenceReflexive(clients);
      clients
    else
      FilterFacts(clients, MatchesSearch(term));
      Filter(clients, MatchesSearch(term))
  }

  /** The search does not depend on the case of the term. */
  lemma SearchIgnoresTermCase(clients: seq<Client>, term: string)
    ensures SearchClients(clients, ToLower(term)) == SearchClients(clients, term)
  {
    ToLowerIdempotent(term);
    if term != "" {
      assert forall c :: MatchesSearch(ToLower(term))(c) == MatchesSearch(term)(c);
      FilterSamePredicate(clients, MatchesSearch(ToLower(term)), MatchesSearch(term));
    }
  }

  // ------------------------------------------------------------------ form

  /** The modal's `Partial<Client>`: a client loaded for editing brings its
      id and creation time; the blank form has neither, and an empty company. */
  datatype FormData = FormData(
    id: Option<string>,
    name: string,
    company: Option<string>,
    email: string,
    address: string,
    createdAt: Option<Time>)

  const EmptyForm: FormData := FormData(None, "", Some(""), "", "", None)

  /** The form loaded with a client. */
  function FormOf(c: Client): (f: FormData)
    ensures f.id == Some(c.id) && f.createdAt == Some(c.createdAt)
    ensures f.name == c.name && f.company == c.company && f.email == c.email && f.address == c.address
  {
    FormData(Some(c.id), c.name, c.company, c.email, c.address, Some(c.createdAt))
  }

  /** The four inputs of the modal. */
  datatype FormField = NameField | CompanyField | EmailField | AddressField

  /** One input's `onChange`: that field takes the typed value. */
  function WithInput(f: FormData, field: FormField, value: string): (r: FormData)
    ensures r.id == f.id && r.createdAt == f.createdAt
    ensures r.name == (if field == NameField then value else f.name)
    ensures r.company == (if field == CompanyField then Some(value) else f.company)
    ensures r.email == (if field == EmailField then value else f.email)
    ensures r.address == (if field == AddressField then value else f.address)
  {
    match field
    case NameField => f.(name := value)
    case CompanyField => f.(company := Some(value))
    case EmailField => f.(email := value)
    case AddressField => f.(address := value)
  }

  /** `{ ...client, ...formData }`: every field the form holds replaces the
      client's; a form without an id, company or creation time keeps the
      client's. */
  function MergeForm(c: Client, f: FormData): (r: Client)
    ensures r.id == f.id.GetOr(c.id) && r.createdAt == f.createdAt.GetOr(c.createdAt)
    ensures r.name == f.name && r.email == f.email && r.address == f.address
    ensures r.company == if f.company.Some? then f.company else c.company
  {
    Client(f.id.GetOr(c.id), f.name, if f.company.Some? then f.company else c.company,
           f.email, f.address, f.createdAt.GetOr(c.createdAt))
  }

  /** Merging the form a client was loaded into, unchanged, gives back that
      client. */
  lemma MergeUnchangedForm(c: Client)
    ensures MergeForm(c, FormOf(c)) == c
  {
  }

  /** The edit branch of `handleSubmit`: every client with the edited id is
      merged with the form, every other client is kept. */
  function EditedClients(clients: seq<Client>, editedId: string, f: FormData): (r: seq<Client>)
    ensures |r| == |clients|
    ensures forall i :: 0 <= i < |r| && clients[i].id != editedId ==> r[i] == clients[i]
    ensures forall i :: 0 <= i < |r| && clients[i].id == editedId ==> r[i] == MergeForm(clients[i], f)
  {
    seq(|clients|, i requires 0 <= i < |clients| =>
      if clients[i].id == editedId then MergeForm(clients[i], f) else clients[i])
  }

  /** Submitting the untouched form of a client whose id no other client
      shares leaves the list as it was. */
  lemma EditUnchangedFormKeepsList(clients: seq<Client>, k: nat)
    requires k < |clients|
    requires forall i :: 0 <= i < |clients| && i != k ==> clients[i].id != clients[k].id
    ensures EditedClients(clients, clients[k].id, FormOf(clients[k])) == clients
  {
    var r := EditedClients(clients, clients[k].id, FormOf(clients[k]));
    MergeUnchangedForm(clients[k]);
    assert forall i :: 0 <= i < |r| ==> r[i] == clients[i];
  }

  /** The client the create branch builds at clock reading `now` with the
      random draw `random`. */
  function NewClient(f: FormData, now: nat, random: real): (c: Client)
    requires 0.0 <= random < 1.0
    ensures ParseClientId(c.id) == Some((now, RandomBelow(random, 1000)))
    ensures c.name == f.name && c.company == f.company && c.email == f.email
    ensures c.address == f.address && c.createdAt == now
  {
    ClientIdFormat(now, random);
    Client(GenerateClientId(now, random), f.name, f.company, f.email, f.address, now)
  }

  // ------------------------------------------------------------------ page

  /** The page's state. */
  class Page {
    var clients: seq<Client>
    var filteredClients: seq<Client>
    var searchTerm: string
    var showModal: bool
    var editingClient: Option<Client>
    var formData: FormData

    constructor ()
      ensures clients == [] && filteredClients == [] && searchTerm == ""
      ensures !showModal && editingClient == None && formData == EmptyForm
    {
      clients := [];
      filteredClients := [];
      searchTerm := "";
      showModal := false;
      editingClient := None;
      formData := EmptyForm;
    }

    /** The load effect: the stored clients, all of them shown. */
    method Mount(st: LocalStore)
      modifies this`clients, this`filteredClients
      ensures clients == LoadClients(st.savedClients) && filteredClients == clients
    {
      clients := LoadClients(st.savedClients);
      filteredClients := clients;
    }

    /** The search box's `onChange`. */
    method SetSearchTerm(term: string)
      modifies this`searchTerm
      ensures searchTerm == term
    {
      searchTerm := term;
    }

    /** The filter effect, run after `clients` or `searchTerm` change. */
    method Refresh()
      modifies this`filteredClients
      ensures filteredClients == SearchClients(clients, searchTerm)
    {
      filteredClients := SearchClients(clients, searchTerm);
    }

    /** `openModal(client?)`: editing loads the client into the form; adding
        starts from the blank form. */
    method OpenModal(client: Option<Client>)
      modifies this`editingClient, this`formData, this`showModal
      ensures editingClient == client && showModal
      ensures formData == if client.Some? then FormOf(client.value) else EmptyForm
    {
      if client.Some? {
        editingClient := client;
        formData := FormOf(client.value);
      } else {
        editingClient := None;
        formData := EmptyForm;
      }
      showModal := true;
    }

    /** `closeModal()`. */
    method CloseModal()
      modifies this`showModal, this`editingClient, this`formData
      ensures !showModal && editingClient == None && formData == EmptyForm
    {
      showModal := false;
      editingClient := None;
      formData := EmptyForm;
    }

    /** One input of the modal. */
    method HandleInput(field: FormField, value: string)
      modifies this`formData
      ensures formData == WithInput(old(formData), field, value)
    {
      formData := WithInput(formData, field, value);
    }

    /** `handleSubmit` at clock reading `now` with the random draw
        `random`: an edit merges the form into the clients with the edited
        id, an add puts the new client first; either way the list is saved
        and the modal closes. */
    method HandleSubmit(st: LocalStore, now: nat, random: real)
      requires 0.0 <= random < 1.0
      modifies this`clients, this`showModal, this`editingClient, this`formData, st`savedClients
      ensures old(editingClient).Some? ==>
                clients == EditedClients(old(clients), old(editingClient).value.id, old(formData))
      ensures old(editingClient).None? ==>
                clients == [NewClient(old(formData), now, random)] + old(clients)
      ensures st.savedClients == Some(clients)
      ensures !showModal && editingClient == None && formData == EmptyForm
    {
      if editingClient.Some? {
        clients := EditedClients(clients, editingClient.value.id, formData);
      } else {
        clients := [NewClient(formData, now, random)] + clients;
      }
      SaveClients(st, clients);
      CloseModal();
    }

    /** `deleteClient(id)`, where `confirmed` is the answer to the
        confirmation prompt: only a confirmed delete changes and saves the
        list. */
    method DeleteClient(st: LocalStore, id: string, confirmed: bool)
      modifies this`clients, st`savedClients
      ensures confirmed ==> clients == Filter(old(clients), ClientIdIsNot(id)) && st.savedClients == Some(clients)
      ensures !confirmed ==> clients == old(clients) && st.savedClients == old(st.savedClients)
    {
      if confirmed {
        clients := Filter(clients, ClientIdIsNot(id));
        SaveClients(st, clients);
      }
    }
  }

  /** A confirmed delete keeps exactly the clients with another id, in
      order, and leaves none with that id. */
  lemma DeleteFacts(clients: seq<Client>, id: string)
    ensures IsSubsequence(Filter(clients, ClientIdIsNot(id)), clients)
    ensures forall c :: c in Filter(clients, ClientIdIsNot(id)) <==> c in clients && c.id != id
  {
    FilterFacts(clients, ClientIdIsNot(id));
  }

  /** Adding builds a list one longer whose tail is the old list; its
      head's id is fresh when every stored id was made by a different
      clock reading or draw. */
  lemma AddFacts(clients: seq<Client>, f: FormData, now: nat, random: real)
    requires 0.0 <= random < 1.0
    requires forall i :: 0 <= i < |clients| ==> ParseClientId(clients[i].id) != Some((now, RandomBelow(random, 1000)))
    ensures var r := [NewClient(f, now, random)] + clients;
            |r| == |clients| + 1 && r[1..] == clients &&
            forall i :: 1 <= i < |r| ==> r[i].id != r[0].id
  {
    var r := [NewClient(f, now, random)] + clients;
    assert r[1..] == clients;
  }
}
