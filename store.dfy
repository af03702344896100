/** The browser's `localStorage`, one field per key the app reads or writes.
    JSON encoding is abstracted away: each key holds the value that was
    serialised into it. */
module Store {
  import opened Wrappers
  import opened Model

  class LocalStore {
    /** Key `invoices`, used by invoiceService; absent reads as `[]`. */
    var invoices: seq<Invoice>
    /** Key `clients`, used by clientService and invoiceService; absent reads as `[]`. */
    var clients: seq<Client>
    /** Key `solson_invoices`, used through src/utils/storage.ts; `None` when absent. */
    var savedInvoices: Option<seq<Invoice>>
    /** Key `solson_clients`, used through src/utils/storage.ts; `None` when absent. */
    var savedClients: Option<seq<Client>>
    /** Key `users`: the registered accounts by e-mail; absent reads as `{}`. */
    var users: map<string, UserRecord>
    /** Key `userSession`. */
    var session: Option<Session>
    /** Key `userProfile`. */
    var profile: Option<Profile>
    /** Key `companySettings`, written by the settings panel (raw JSON text). */
    var companySettings: Option<string>
    /** Key `sidebarCollapsed`, written by the layout (raw text). */
    var sidebarCollapsed: Option<string>

    /** A browser profile in which nothing has been stored yet. */
    constructor Empty()
      ensures invoices == [] && clients == []
      ensures savedInvoices == None && savedClients == None
      ensures users == map[] && session == None && profile == None
      ensures companySettings == None && sidebarCollapsed == None
    {
      invoices := [];
      clients := [];
      savedInvoices := None;
      savedClients := None;
      users := map[];
      session := None;
      profile := None;
      companySettings := None;
      sidebarCollapsed := None;
    }
  }
}
