# Solson invoicing: a Dafny model of the browser-side core

The application is a small invoicing front end. It keeps clients and invoices in the browser's
`localStorage`, computes invoice totals, formats and checks payment forms, simulates a payment,
and shows lists and dashboards of the stored invoices. Accounts are kept locally as well, with a
reverse-then-Base64 password obfuscation.

This project models that core in Dafny and proves its properties. It has three parts.

- **Values.** The records of `src/types/index.ts` are datatypes in `Model`: `Client`, `InvoiceItem`,
  `Invoice`, `Status`, and the account records. Money, quantities and rates are `real`. Times are
  integer milliseconds since the epoch.
- **The browser store.** `Store.LocalStore` is a class with one field per `localStorage` key the
  core uses. The service keys `invoices` and `clients` (`src/services/*.ts`) and the
  `solson_invoices` and `solson_clients` keys of `src/utils/storage.ts` are separate fields,
  because the two families never read each other's data. An absent key is `None` where the code
  tells "absent" from "empty".
- **The services and components.** Each service operation is a method on the store. Each component
  with its own React state is a class whose fields are that state: `InvoiceForm.Form`,
  `PaymentModal.Modal`, `InvoiceList.ListPage`, `PublicInvoice.Page`, `InvoiceView.View`,
  `Dashboard.Page`, `ClientList.Page` and `Auth.AuthHook`. Every handler is a method whose
  `ensures` gives the new state in terms of pure functions of the old state. The properties are
  proved about those functions.

Parameters stand in for the environment:
- the clock reading `now`;
- the calendar day or month of a clock reading, `day` and `cal`;
- each `Math.random()` draw, as a real in [0, 1);
- the simulated payment outcome, `success`;
- `window.location.origin`;
- the printed form of a number, `totalText`;
- the answer to a confirmation prompt, `confirmed`.

`generateInvoiceId` exists twice in the source, in `src/utils/storage.ts:39-44` and
`src/services/invoiceService.ts:6-11`, with the same body. Both are modelled by
`Storage.GenerateInvoiceId`.

The status badge of `src/components/Dashboard.tsx:140-156` has the same code as the one in
`src/components/InvoiceList.tsx:103-119`. Both are modelled by `InvoiceList.StatusBadge` and its
lemma `InvoiceList.BadgePriority`.

Some behaviours of the code are easy to miss:
- A fixed discount is not capped at the subtotal (`InvoiceForm.FixedDiscountNotCapped`).
- A failed payment keeps the invoice's `paidAt` (`PublicInvoice.Settled`).
- The enhanced dashboard's `overdue` tab compares the stored status with the string "overdue",
  which no stored status equals, so the tab is always empty (`EnhancedDashboard.OverdueTabIsEmpty`).
- Two items added in the same millisecond get the same id, and removing either one then empties
  the item list, although the remove button is guarded by `items.length > 1`
  (`InvoiceForm.RemoveSharedIdEmpties`).

## Model

| member | source | states |
|---|---|---|
| `Auth.Reverse` | src/hooks/useAuth.ts:29 | the split/reverse/join keeps the length and puts character `i` at position `n-1-i` |
| `Auth.ReverseReverse` | src/hooks/useAuth.ts:28-34 | reversing twice gives back the text |
| `Auth.ReverseBinary` | src/hooks/useAuth.ts:28-30 | reversing does not change whether every character is below U+0100 |
| `Auth.Encrypt` | src/hooks/useAuth.ts:28-30 | `encrypt` succeeds exactly on binary strings; `btoa` throws on any other |
| `Auth.Decrypt` | src/hooks/useAuth.ts:32-34 | a successful `decrypt` yields a binary string |
| `Auth.DecryptEncrypt` | src/hooks/useAuth.ts:28-34 | `decrypt(encrypt(s)) == s` for every string `encrypt` accepts |
| `Auth.EncryptInjective` | src/hooks/useAuth.ts:28-30 | two passwords with the same obfuscation are the same password |
| `Auth.ProfileOf` | src/hooks/useAuth.ts:52-57 | the profile holds the e-mail and full name, role `admin` and company `Magnates Empire` |
| `Auth.SessionOf` | src/hooks/useAuth.ts:42-46 | the session holds the e-mail, the name, and the stored id, or the e-mail when there is no id |
| `Auth.SignInOutcome` | src/hooks/useAuth.ts:36-71 | sign-in succeeds iff the e-mail is known and the stored password equals `encrypt(password)`; an unknown e-mail gives "Invalid email or password"; an unencodable password gives the generic sign-in error |
| `Auth.UserId` | src/hooks/useAuth.ts:83 | the new account id is `user_` followed by the decimal clock reading |
| `Auth.NewUser` | src/hooks/useAuth.ts:84-89 | the stored record holds `encrypt(password)`, the name, the id and the creation time |
| `Auth.SignUpThenSignIn` | src/hooks/useAuth.ts:73-117 | after signing up, the same e-mail and password sign in with the new id |
| `Auth.SignUpRefusesOtherPasswords` | src/hooks/useAuth.ts:84-89 | after signing up, every other password is refused |
| `Auth.AuthHook.constructor` | src/hooks/useAuth.ts:4-5 | no user, loading |
| `Auth.AuthHook.RestoreSession` | src/hooks/useAuth.ts:7-25 | the stored session, if any, becomes the user; loading ends |
| `Auth.AuthHook.SignIn` | src/hooks/useAuth.ts:36-71 | the result is `SignInOutcome`; on success the session and profile are written and the user is set; on failure nothing is written |
| `Auth.AuthHook.SignUp` | src/hooks/useAuth.ts:73-117 | a known e-mail is refused with "User already exists" and nothing is written; otherwise exactly one account is added, the session and profile are written, and `clients` and `invoices` are reset to empty |
| `Auth.AuthHook.SignOut` | src/hooks/useAuth.ts:119-133 | the session, profile, company settings and sidebar keys are removed and nobody is signed in |
| `Base64.SextetChar` | src/hooks/useAuth.ts:29 | each 6-bit value maps to a character of the RFC 4648 section 4 alphabet, never `=` |
| `Base64.CharSextet` | src/hooks/useAuth.ts:33 | the alphabet lookup that decoding uses inverts the table |
| `Base64.SextetCharInverse` | src/hooks/useAuth.ts:29-33 | table then lookup is the identity on 6-bit values |
| `Base64.GroupInverse` | src/hooks/useAuth.ts:29-33 | each byte of a three-byte group is recovered from the sextets that carry its bits |
| `Base64.SextetsLength` | src/hooks/useAuth.ts:29 | full groups give four sextets; a final single byte gives two; a final pair gives three |
| `Base64.BytesOfSextets` | src/hooks/useAuth.ts:29-33 | decoding the unpadded sextets of any byte string gives the bytes back |
| `Base64.BytesOfGroup` | src/hooks/useAuth.ts:33 | decoding a full group of four sextets yields its three bytes followed by the rest |
| `Base64.LastByte` | src/hooks/useAuth.ts:29-33 | one trailing byte round-trips through two sextets |
| `Base64.LastPair` | src/hooks/useAuth.ts:29-33 | two trailing bytes round-trip through three sextets |
| `Base64.Chars` | src/hooks/useAuth.ts:29 | every emitted character is in the alphabet and is not padding |
| `Base64.Values` | src/hooks/useAuth.ts:33 | the lookup keeps the length |
| `Base64.ValuesOfChars` | src/hooks/useAuth.ts:29-33 | looking up the emitted characters gives the sextets back |
| `Base64.Encode` | src/hooks/useAuth.ts:29 | the padded encoding has a length that is a multiple of four |
| `Base64.RemoveAsciiWhitespace` | src/hooks/useAuth.ts:33 | the forgiving decoder's whitespace strip never lengthens its input and leaves whitespace-free text alone |
| `Base64.StripPadding` | src/hooks/useAuth.ts:33 | stripping the padding never lengthens the text |
| `Base64.StripPaddingOf` | src/hooks/useAuth.ts:33 | zero, one or two `=` after a body without `=` are exactly what is stripped |
| `Base64.EncodePadding` | src/hooks/useAuth.ts:29-33 | encoded text has no whitespace and loses exactly its padding when stripped |
| `Base64.DecodeEncode` | src/hooks/useAuth.ts:29-33 | decoding undoes encoding for every byte string |
| `Base64.ToBytes` | src/hooks/useAuth.ts:29 | a binary string maps to bytes one for one |
| `Base64.FromBytes` | src/hooks/useAuth.ts:33 | bytes map back to a binary string one for one |
| `Base64.Btoa` | src/hooks/useAuth.ts:29 | `btoa` succeeds exactly on binary strings |
| `Base64.Atob` | src/hooks/useAuth.ts:33 | a successful `atob` yields a binary string |
| `Base64.AtobBtoa` | src/hooks/useAuth.ts:29-33 | `atob(btoa(s)) == s` for every string `btoa` accepts |
| `Strings.Trim` | src/components/InvoiceForm.tsx:131 | `trim()` removes leading and trailing white space only: the result occurs in the text, and it starts and ends with a non-space character |
| `Strings.BlankIffTrimEmpty` | src/components/PaymentModal.tsx:79 | the blank test used for `!s.trim()` holds exactly when the trimmed text is empty |
| `Model.StatusNameInjective` | src/types/index.ts:30 | distinct statuses are stored as distinct strings |
| `Store.LocalStore.Empty` | src/utils/storage.ts:3-4 | a store with every key absent or empty |
| `Storage.ZeroPad` | src/utils/storage.ts:42 | `padStart(w, '0')` of a number below `10^w` is `w` digits with that value |
| `Storage.DateDigits` | src/utils/storage.ts:41 | `YYYYMMDD`: eight digits reading back the year, month and day |
| `Storage.RandomBelow` | src/utils/storage.ts:42 | `Math.floor(random * k)` lies in `0..k-1` |
| `Storage.RandomScales` | src/utils/storage.ts:42 | `random * k` lies in `[0, k)` |
| `Storage.RandomBelowIsFloor` | src/utils/storage.ts:42 | the drawn number is the integer part of `random * k` |
| `Storage.GenerateInvoiceId` | src/utils/storage.ts:39-44 | `INV-`, the eight date digits, `-`, and four digits reading a number in 0..9998 |
| `Storage.ClientIdFormat` | src/utils/storage.ts:46-48 | the clock reading and the 0..999 draw can be read back from a generated client id |
| `Storage.WithToken` | src/utils/storage.ts:33 | the token becomes the stored token, or the id when that is empty; nothing else changes |
| `Storage.LoadInvoices` | src/utils/storage.ts:25-37 | an absent key loads as no invoices; otherwise each stored invoice is kept in order, with the token fallback |
| `Storage.SaveThenLoad` | src/utils/storage.ts:21-37 | saving then loading keeps the invoices in order and only fills missing tokens; invoices that all have tokens come back unchanged |
| `Storage.LoadIdempotent` | src/utils/storage.ts:25-37 | loading what was loaded changes nothing, even for an empty id |
| `Storage.TokenStable` | src/utils/storage.ts:33 | filling in the token a second time keeps the token filled in the first time |
| `Storage.LoadClients` | src/utils/storage.ts:10-19 | an absent key loads as no clients; otherwise the stored clients |
| `Storage.SaveInvoices` | src/utils/storage.ts:21-23 | the `solson_invoices` key holds exactly the list |
| `Storage.SaveClients` | src/utils/storage.ts:6-8 | the `solson_clients` key holds exactly the list |
| `Storage.PaymentLink` | src/utils/storage.ts:50-52 | the token can be read back from the link |
| `Storage.PaymentLinkInjective` | src/utils/storage.ts:50-52 | two tokens give the same link iff they are equal |
| `ClientService.CreatedClient` | src/services/clientService.ts:7-14 | the id is the decimal clock reading; the other fields are copied from the argument |
| `ClientService.CreateClient` | src/services/clientService.ts:5-18 | the new client is put in front of the stored clients, which are unchanged |
| `ClientService.GetUserClients` | src/services/clientService.ts:20-26 | the stored clients, in order |
| `ClientService.Merge` | src/services/clientService.ts:32-36 | the fields given replace the client's; the id and the creation time stay |
| `ClientService.MergeLaws` | src/services/clientService.ts:32-36 | an empty patch changes nothing; merging a patch twice is merging it once |
| `ClientService.UpdateClient` | src/services/clientService.ts:28-39 | an unknown id throws "Client not found" and writes nothing; otherwise only the first client with the id is merged, in place |
| `ClientService.UpdateKeepsOthers` | src/services/clientService.ts:30-36 | the update keeps the length and every other index |
| `ClientService.DeleteClient` | src/services/clientService.ts:41-45 | the store keeps the clients with another id |
| `ClientService.DeleteClientFacts` | src/services/clientService.ts:43 | deletion keeps every other client in order, drops every client with the id, and a second delete is a no-op |
| `InvoiceService.AmountsAgree` | src/services/invoiceService.ts:29-35 | the service's discount/tax/total formula equals the form's |
| `InvoiceService.CreatedInvoice` | src/services/invoiceService.ts:42-63 | the new invoice has the percentage-or-fixed discount, tax on the discounted amount, status `unpaid` and no `paidAt` |
| `InvoiceService.CreateInvoice` | src/services/invoiceService.ts:24-73 | an unknown client throws "Client not found" and writes nothing; otherwise the store is the new invoice followed by the old list |
| `InvoiceService.WithClient` | src/services/invoiceService.ts:84-92 | the client is looked up again by `clientId`; nothing else changes |
| `InvoiceService.GetInvoiceById` | src/services/invoiceService.ts:76-97 | undefined iff no invoice has the id; otherwise the first such invoice, with its client |
| `InvoiceService.GetInvoiceByToken` | src/services/invoiceService.ts:100-123 | the first invoice whose id or stored token equals the token, else undefined; the returned token is the invoice id |
| `InvoiceService.TokenLookupByOwnId` | src/services/invoiceService.ts:106 | an invoice's own id finds it when no earlier invoice claims that id |
| `InvoiceService.UnknownClient` | src/services/invoiceService.ts:135-141 | the placeholder client's fixed fields |
| `InvoiceService.GetUserInvoices` | src/services/invoiceService.ts:126-151 | every stored invoice in order, with its client or the placeholder |
| `InvoiceService.WithStatus` | src/services/invoiceService.ts:161-168 | the status and update time are written; `paid` sets `paidAt`, `unpaid` clears it, `failed` and `cancelled` keep it |
| `InvoiceService.StatusWritesAndInvariant` | src/services/invoiceService.ts:164-168 | `paid` and `unpaid` establish "`paidAt` is set iff paid"; `failed` and `cancelled` keep it only for invoices that were not paid |
| `InvoiceService.WithStatusIdempotent` | src/services/invoiceService.ts:161-168 | writing a status twice at the same time is writing it once |
| `InvoiceService.UpdateInvoiceStatus` | src/services/invoiceService.ts:154-175 | a missing id throws "Invoice not found" and writes nothing; otherwise only the first matching index changes |
| `InvoiceService.UpdateTouchesOnlyFirstMatch` | src/services/invoiceService.ts:157-161 | every index other than the first match is unchanged |
| `InvoiceService.DeleteInvoice` | src/services/invoiceService.ts:178-187 | the store keeps the invoices with another id |
| `InvoiceService.DeleteInvoiceFacts` | src/services/invoiceService.ts:181 | deletion keeps the others in order, drops every invoice with the id, and a second delete is a no-op |
| `InvoiceForm.SumConcat` | src/components/InvoiceForm.tsx:64-66 | the sum of line totals is additive over concatenation |
| `InvoiceForm.Subtotal` | src/components/InvoiceForm.tsx:64-66 | the left fold of the line totals; equal to the sum by `SubtotalIsSum` |
| `InvoiceForm.SubtotalIsSum` | src/components/InvoiceForm.tsx:64-66 | the `reduce` fold is the sum of the line totals, and 0 for no items |
| `InvoiceForm.SumPermutation` | src/components/InvoiceForm.tsx:64-66 | the subtotal does not depend on the order of the items |
| `InvoiceForm.RemoveAt` | src/components/InvoiceForm.tsx:64-66 | removing one item removes its total from the sum |
| `InvoiceForm.SumSplits` | src/components/InvoiceForm.tsx:121 | splitting the items by a test and its negation splits the sum |
| `InvoiceForm.Discount` | src/components/InvoiceForm.tsx:68-73 | a percentage of the subtotal or the fixed amount, uncapped; bounded by `PercentageDiscountBounds`, uncapped by `FixedDiscountNotCapped` |
| `InvoiceForm.Tax` | src/components/InvoiceForm.tsx:75-77 | the tax rate applied to the discounted amount; combined by `TotalFormula` |
| `InvoiceForm.FormTotals` | src/components/InvoiceForm.tsx:64-85 | subtotal = sum of line totals; discount by percentage or fixed; tax on the discounted amount; total = discounted amount + tax |
| `InvoiceForm.TotalFormula` | src/components/InvoiceForm.tsx:79-85 | `total = (subtotal - discount) * (1 + taxRate/100)` |
| `InvoiceForm.PercentageDiscountBounds` | src/components/InvoiceForm.tsx:68-73 | with 0 ≤ value ≤ 100 and subtotal ≥ 0, a percentage discount lies in [0, subtotal] and the total is non-negative |
| `InvoiceForm.FixedDiscountNotCapped` | src/components/InvoiceForm.tsx:68-73 | a fixed discount above the subtotal is taken as entered and makes the total negative |
| `InvoiceForm.EmptyItem` | src/components/InvoiceForm.tsx:34-43 | the added item has quantity 1, unit price 0, total 0 and an empty description |
| `InvoiceForm.RemoveItemFrom` | src/components/InvoiceForm.tsx:45-49 | a list of at most one item is unchanged; otherwise exactly the items with another id remain, in order |
| `InvoiceForm.FilterDistinctIds` | src/components/InvoiceForm.tsx:47 | with distinct ids the filter removes at most one item, and none when the id is absent |
| `InvoiceForm.RemoveKeepsOne` | src/components/InvoiceForm.tsx:45-49 | with distinct ids, removal never leaves an empty list |
| `InvoiceForm.RemoveSharedIdEmpties` | src/components/InvoiceForm.tsx:36-49 | two items added in the same millisecond share an id, and removing it empties the list |
| `InvoiceForm.RemoveKeepsLineTotals` | src/components/InvoiceForm.tsx:45-49 | removal keeps every total equal to its quantity times its price |
| `InvoiceForm.ApplyEdit` | src/components/InvoiceForm.tsx:53-58 | the field is replaced; the total is recomputed only for `quantity` or `unitPrice` |
| `InvoiceForm.UpdateItems` | src/components/InvoiceForm.tsx:51-62 | only the items with the id change; length and order are kept |
| `InvoiceForm.UpdateKeepsLineTotals` | src/components/InvoiceForm.tsx:51-62 | edits keep line totals consistent; a description edit leaves every total unchanged |
| `InvoiceForm.AddKeepsLineTotals` | src/components/InvoiceForm.tsx:34-43 | appending the empty item keeps line totals consistent |
| `InvoiceForm.NewClientOf` | src/components/InvoiceForm.tsx:94-101 | the new client carries the form fields, the generated id and the clock reading |
| `InvoiceForm.NotesOf` | src/components/InvoiceForm.tsx:131 | blank notes become undefined; otherwise the trimmed, non-empty text |
| `InvoiceForm.SubmittedInvoiceFields` | src/components/InvoiceForm.tsx:111-134 | status `unpaid`, only items with a non-blank description, amounts from every item, due thirty days after `now` |
| `InvoiceForm.SubmittedSubtotal` | src/components/InvoiceForm.tsx:111-121 | the stored subtotal is the sum of the stored items iff the dropped blank items total 0 |
| `InvoiceForm.Form.constructor` | src/components/InvoiceForm.tsx:9-27 | the initial form: one blank item with id "1", tax 8.5, a 0 percentage discount, `stripe` |
| `InvoiceForm.Form.Mount` | src/components/InvoiceForm.tsx:29-32 | the clients come from `loadClients()` |
| `InvoiceForm.Form.AddItem` | src/components/InvoiceForm.tsx:34-43 | exactly one empty item is appended, with the clock reading as its id |
| `InvoiceForm.Form.RemoveItem` | src/components/InvoiceForm.tsx:45-49 | the items become `RemoveItemFrom` of the old items |
| `InvoiceForm.Form.UpdateItem` | src/components/InvoiceForm.tsx:51-62 | the items become `UpdateItems` of the old items |
| `InvoiceForm.Form.Totals` | src/components/InvoiceForm.tsx:150-154 | the subtotal shown is the sum of the line totals, the discount a percentage of it or the fixed amount, and the total the discounted amount times `1 + taxRate/100` |
| `InvoiceForm.Form.ChooseClient` | src/components/InvoiceForm.tsx:90-109 | a new client is appended and saved; an existing one is looked up by the selected id |
| `InvoiceForm.Form.SaveSubmitted` | src/components/InvoiceForm.tsx:111-138 | the saved invoices become the submitted invoice followed by the previous ones |
| `InvoiceForm.Form.HandleSubmit` | src/components/InvoiceForm.tsx:87-141 | a missing selected client stops the handler before any invoice is written; otherwise the invoice goes in front of the saved invoices |
| `PaymentModal.Chunks` | src/components/PaymentModal.tsx:37-40 | no pieces exactly for the empty match |
| `PaymentModal.CardDigits` | src/components/PaymentModal.tsx:34-36 | the first match of `\d{4,16}`: empty below four digits, otherwise the first sixteen digits at most |
| `PaymentModal.CardNumberText` | src/components/PaymentModal.tsx:33-46 | what `formatCardNumber` returns; its shape is `CardNumberShape`, its idempotence `CardNumberIdempotent` |
| `PaymentModal.FormatCardNumber` | src/components/PaymentModal.tsx:33-46 | the loop computes exactly `CardNumberText` of the input |
| `PaymentModal.CollectChunks` | src/components/PaymentModal.tsx:37-40 | the `for` loop pushes exactly the four-character pieces of the match |
| `PaymentModal.ChunksStep` | src/components/PaymentModal.tsx:38-39 | one loop step takes `substring(i, i + 4)` and continues at `i + 4` |
| `PaymentModal.ChunkSizes` | src/components/PaymentModal.tsx:37-40 | every piece but the last has four digits; the last has one to four |
| `PaymentModal.DigitsHaveNoSpaces` | src/components/PaymentModal.tsx:34 | removing spaces from digits changes nothing |
| `PaymentModal.JoinedChunksRemoveSpaces` | src/components/PaymentModal.tsx:37-42 | joining the pieces with spaces and removing the spaces gives the digits back |
| `PaymentModal.CardNumberShape` | src/components/PaymentModal.tsx:33-46 | fewer than four digits come back as the digits; otherwise the result without spaces is the first sixteen digits at most |
| `PaymentModal.CardNumberIdempotent` | src/components/PaymentModal.tsx:33-46 | formatting a formatted card number changes nothing |
| `PaymentModal.IsExpiryShape` | src/components/PaymentModal.tsx:89 | the `MM/YY` pattern; `ExpiryText` has it iff four digits were typed |
| `PaymentModal.ExpiryText` | src/components/PaymentModal.tsx:48-54 | at most five characters; below two digits the digits; otherwise two digits, `/`, then up to two digits; it has the `MM/YY` shape iff at least four digits were typed |
| `PaymentModal.CvvText` | src/components/PaymentModal.tsx:63-64 | the first four digits at most |
| `PaymentModal.Set` | src/components/PaymentModal.tsx:67 | the field takes the value and every other field is kept |
| `PaymentModal.EmailLike` | src/components/PaymentModal.tsx:99 | the `\S+@\S+\.\S+` test; `BlankNotEmailLike` shows a blank string fails it |
| `PaymentModal.BlankNotEmailLike` | src/components/PaymentModal.tsx:97-101 | blank text never passes the e-mail pattern |
| `PaymentModal.EmailError` | src/components/PaymentModal.tsx:97-101 | no error iff the text matches `\S+@\S+\.\S+`; blank text gets the required message |
| `PaymentModal.InAllFields` | src/components/PaymentModal.tsx:12-22 | the nine form keys are all listed |
| `PaymentModal.ValidateForm` | src/components/PaymentModal.tsx:75-132 | a field has an error iff its check fails for the invoice's method; the message is that check's |
| `PaymentModal.FieldError` | src/components/PaymentModal.tsx:75-128 | the message for one field under one method, none for an unknown method; `ValidateForm` collects it over all fields |
| `PaymentModal.StripeError` | src/components/PaymentModal.tsx:78-104 | the card checks field by field; characterised by `CardValidation` |
| `PaymentModal.PaypalError` | src/components/PaymentModal.tsx:105-110 | the PayPal e-mail check; characterised by `PaypalValidation` |
| `PaymentModal.BankError` | src/components/PaymentModal.tsx:111-127 | the bank-transfer checks field by field; characterised by `BankValidation` |
| `PaymentModal.CardValidation` | src/components/PaymentModal.tsx:78-104 | card payment: each of the six fields is reported exactly when its check fails; the other three never are |
| `PaymentModal.PaypalValidation` | src/components/PaymentModal.tsx:105-110 | PayPal: only the PayPal e-mail is checked |
| `PaymentModal.BankValidation` | src/components/PaymentModal.tsx:111-127 | bank transfer: the holder, account, 9-character routing number and e-mail are checked, and nothing else |
| `PaymentModal.OtherMethodsUnchecked` | src/components/PaymentModal.tsx:75-132 | any other method gives no errors |
| `PaymentModal.BankTransferFormCannotSubmit` | src/components/PaymentModal.tsx:308-340 | the bank-transfer form has only the e-mail input, so validation always reports the holder, the account and the routing number |
| `PaymentModal.Modal.constructor` | src/components/PaymentModal.tsx:12-24 | empty form, no errors |
| `PaymentModal.Modal.HandleInputChange` | src/components/PaymentModal.tsx:56-73 | the formatted value is stored in the field; a non-empty error on that field is blanked; other errors are kept |
| `PaymentModal.Modal.HandleSubmit` | src/components/PaymentModal.tsx:134-139 | the errors become `ValidateForm`; the data is submitted iff there are none |
| `PaymentModal.FormattedInput` | src/components/PaymentModal.tsx:56-65 | card number, expiry and CVV are formatted; the other fields are stored as typed |
| `InvoiceList.UserInvoicesHaveClients` | src/components/InvoiceList.tsx:21 | every loaded invoice has a client, so the search's field reads succeed |
| `InvoiceList.Searched` | src/components/InvoiceList.tsx:41-52 | an empty term keeps the list; otherwise exactly the invoices with a matching field remain |
| `InvoiceList.StatusFiltered` | src/components/InvoiceList.tsx:55-65 | `all` keeps the list; otherwise exactly the invoices passing the status test remain |
| `InvoiceList.Matches` | src/components/InvoiceList.tsx:43-51 | the search test over id, client name, company, e-mail, method, notes and total text; `SelectedFacts` proves the search keeps exactly the matches |
| `InvoiceList.Selected` | src/components/InvoiceList.tsx:37-65 | search, then status filter; characterised by `SelectedFacts` |
| `InvoiceList.SelectedFacts` | src/components/InvoiceList.tsx:37-65 | search then status filter is a subsequence holding exactly the invoices passing both |
| `InvoiceList.StatusFilterExact` | src/components/InvoiceList.tsx:55-65 | `overdue` means unpaid with a past due date; any other filter means that stored status |
| `InvoiceList.Before` | src/components/InvoiceList.tsx:68-85 | the comparator for each sort key, none for an unknown key; a strict order by `BeforeIrreflexive` and `BeforeTransitive` |
| `InvoiceList.BeforeIrreflexive` | src/components/InvoiceList.tsx:68-85 | no invoice sorts strictly before itself |
| `InvoiceList.BeforeTransitive` | src/components/InvoiceList.tsx:68-85 | the sort order is transitive for every key |
| `InvoiceList.Insert` | src/components/InvoiceList.tsx:68-85 | insertion adds exactly the one element |
| `InvoiceList.InsertSorted` | src/components/InvoiceList.tsx:68-85 | insertion keeps a list sorted |
| `InvoiceList.InsertUnknownKey` | src/components/InvoiceList.tsx:82-83 | an unknown key (comparator 0) appends |
| `InvoiceList.SortInvoices` | src/components/InvoiceList.tsx:68-85 | the result is sorted for the key and is a permutation of the input; an unknown key keeps the order |
| `InvoiceList.SearchParamsOf` | src/components/InvoiceList.tsx:90-93 | `search` is present iff the term is non-empty; `filter` iff it is not `all`; no other key |
| `InvoiceList.TermOf` | src/components/InvoiceList.tsx:12 | the initial search term from the URL, empty when absent; `ParamsRoundTrip` reads back what the page writes |
| `InvoiceList.FilterOf` | src/components/InvoiceList.tsx:13 | the initial filter from the URL, `all` when absent or empty; `ParamsRoundTrip` reads back what the page writes |
| `InvoiceList.ParamsRoundTrip` | src/components/InvoiceList.tsx:12-13 | reading the written params back restores the term and the filter |
| `InvoiceList.StatusBadge` | src/components/InvoiceList.tsx:103-119 | the list's status badge; its precedence is `BadgePriority` |
| `InvoiceList.BadgePriority` | src/components/InvoiceList.tsx:103-119 | Paid > Failed > Overdue > Unpaid; overdue means a due date before now |
| `InvoiceList.PaymentMethodLabel` | src/components/InvoiceList.tsx:121-130 | the label of a listed method, otherwise the method itself |
| `InvoiceList.MethodLabelFallback` | src/components/InvoiceList.tsx:121-130 | every listed method has a non-empty label of its own |
| `InvoiceList.ListPage.constructor` | src/components/InvoiceList.tsx:9-15 | the term and filter come from the URL, with defaults `''` and `all`; sorted by `date-desc`; loading |
| `InvoiceList.ListPage.Load` | src/components/InvoiceList.tsx:17-35 | the invoices are `getUserInvoices()`; loading ends |
| `InvoiceList.ListPage.Refresh` | src/components/InvoiceList.tsx:37-94 | the shown list is a sorted permutation of the selected invoices, and the URL params are rewritten |
| `InvoiceList.NoFilterKeepsAll` | src/components/InvoiceList.tsx:37-65 | no term and `all` keep every invoice |
| `PublicInvoice.Settled` | src/components/PublicInvoice.tsx:66-84 | success sets `paid` and `paidAt`; failure sets `failed` and keeps `paidAt`; nothing else changes |
| `PublicInvoice.SettleMatching` | src/components/PublicInvoice.tsx:68-81 | same length and ids; invoices with the id are settled; all others are kept |
| `PublicInvoice.SettleKeepsPaidAtInvariant` | src/components/PublicInvoice.tsx:66-84 | when no invoice with the id already holding a `paidAt` receives a failure, "`paidAt` is set iff paid" is preserved, and success establishes it for the settled invoice |
| `PublicInvoice.SettleIdempotent` | src/components/PublicInvoice.tsx:66-84 | reporting the same outcome twice writes what reporting it once wrote |
| `PublicInvoice.IsOverdue` | src/components/PublicInvoice.tsx:110-113 | overdue iff there is a due date and now is after it |
| `PublicInvoice.DaysUntilDue` | src/components/PublicInvoice.tsx:115-122 | null without a due date; otherwise the time left, rounded up to whole days |
| `PublicInvoice.CeilDiv` | src/components/PublicInvoice.tsx:120 | `Math.ceil(a / b)` bracketed by multiples of `b` |
| `PublicInvoice.LabelOf` | src/components/PublicInvoice.tsx:378-381 | the status banner's label; its precedence is `LabelPriority` |
| `PublicInvoice.LabelPriority` | src/components/PublicInvoice.tsx:378-381 | PAID > PAYMENT FAILED > OVERDUE > DUE SOON > PENDING PAYMENT, where due soon means due at most seven days from now |
| `PublicInvoice.PublicMethodLabel` | src/components/PublicInvoice.tsx:41-48 | the three labels, otherwise the method itself |
| `PublicInvoice.PublicLabelAgreesWithList` | src/components/PublicInvoice.tsx:41-48 | the labels agree with the invoice list's except for `stripe` ("Credit/Debit Card" against "Stripe") and for `zelle` and `wire`, which only the list translates; each of the three methods this page knows shows a non-empty label other than its raw string |
| `PublicInvoice.Page.constructor` | src/components/PublicInvoice.tsx:10-15 | no invoice, nothing shown, not processing |
| `PublicInvoice.Page.Mount` | src/components/PublicInvoice.tsx:17-32 | the first stored invoice with exactly the route id, if any |
| `PublicInvoice.Page.HandlePaymentClick` | src/components/PublicInvoice.tsx:50-53 | the modal opens only for a loaded invoice that is not paid |
| `PublicInvoice.Page.HandlePaymentSubmit` | src/components/PublicInvoice.tsx:55-60 | with an invoice: processing starts and the modal closes; without: nothing changes |
| `PublicInvoice.Page.CompletePayment` | src/components/PublicInvoice.tsx:62-88 | the stored invoices with the id and the page's copy are settled by the outcome; the result is shown; processing ends |
| `PublicInvoice.Page.CloseNotification` | src/components/PublicInvoice.tsx:89-102 | the notification and the result are cleared |
| `PublicInvoice.ShowPayButton` | src/components/PublicInvoice.tsx:469 | the pay button shows for unpaid and failed invoices; `PayButtonOpensModal` ties it to the click guard |
| `PublicInvoice.ClickOpensModal` | src/components/PublicInvoice.tsx:50-53 | the guard of `handlePaymentClick`: a loaded invoice that is not paid; `Page.HandlePaymentClick` opens the modal exactly when it holds |
| `PublicInvoice.PayButtonOpensModal` | src/components/PublicInvoice.tsx:469-472 | a click on a shown pay button passes `handlePaymentClick`'s guard and opens the modal; a paid invoice shows no button and fails the guard; a cancelled one shows no button though it would pass the guard |
| `InvoiceView.BadgeLabel` | src/components/InvoiceView.tsx:68-81 | Paid, Unpaid, Failed; there is no entry for `cancelled` |
| `InvoiceView.BadgeLabelCapitalises` | src/components/InvoiceView.tsx:69-73 | each label is the stored status with its first letter upper-cased |
| `InvoiceView.MethodLabel` | src/components/InvoiceView.tsx:252 | same length; the first letter upper-cased and the first `-` of the rest turned into a space |
| `InvoiceView.View.constructor` | src/components/InvoiceView.tsx:9-10 | no invoice, not copied |
| `InvoiceView.View.Mount` | src/components/InvoiceView.tsx:12-27 | the first stored invoice with the route id, if any |
| `InvoiceView.View.MarkAsPaid` | src/components/InvoiceView.tsx:29-38 | the stored invoices with the id and the view's copy become paid at `now`; without an invoice nothing changes |
| `InvoiceView.View.Link` | src/components/InvoiceView.tsx:101 | the link carries the invoice id as its token |
| `InvoiceView.MarkAsPaidFacts` | src/components/InvoiceView.tsx:31-35 | every invoice with the id becomes paid at `now`; every other one is kept |
| `InvoiceView.ShowMarkAsPaid` | src/components/InvoiceView.tsx:130 | the Mark-as-Paid button shows for unpaid invoices only; related to the public pay button by `MarkAsPaidButtons` |
| `InvoiceView.MarkAsPaidButtons` | src/components/InvoiceView.tsx:130-136 | the Mark-as-Paid button is shown only where the public page offers to pay; once marked, neither is shown; a failed invoice has only the public pay button |
| `InvoiceView.LinkOpensSameInvoice` | src/components/InvoiceView.tsx:40-42 | the link's token finds the same invoice on the public page |
| `Dashboard.PrevMonth` | src/components/Dashboard.tsx:67-70 | January's previous month is December of the year before |
| `Dashboard.PrevNextInverse` | src/components/Dashboard.tsx:67-70 | previous and next month are inverse; the previous month is one month earlier |
| `Dashboard.Revenue` | src/components/Dashboard.tsx:61 | the summed totals; additive by `RevenueConcat`, bounded by `RevenueOfFilter` |
| `Dashboard.RevenueConcat` | src/components/Dashboard.tsx:61 | revenue is additive over concatenation |
| `Dashboard.RevenueOfFilter` | src/components/Dashboard.tsx:61-84 | with non-negative totals, a filtered revenue lies between 0 and the whole revenue |
| `Dashboard.RevenueOfDisjointFilters` | src/components/Dashboard.tsx:61-84 | with non-negative totals, two tests that never keep the same invoice keep no more revenue between them than the whole list |
| `Dashboard.StatsOf` | src/components/Dashboard.tsx:51-62 | the four stats: number of invoices, unpaid count, paid count, revenue of the paid invoices |
| `Dashboard.StatsBounds` | src/components/Dashboard.tsx:51-62 | paid + pending ≤ total; overdue ≤ pending; revenue between 0 and all totals |
| `Dashboard.PaidDate` | src/components/Dashboard.tsx:74 | the payment time, or the creation time without one |
| `Dashboard.MonthRevenue` | src/components/Dashboard.tsx:70-84 | the revenue of the paid invoices whose payment date falls in the given month and year |
| `Dashboard.Growth` | src/components/Dashboard.tsx:86-111 | relative change in percent, 100 from nothing to something, else 0; its sign is `GrowthSign` |
| `Dashboard.GrowthSign` | src/components/Dashboard.tsx:86-111 | growth is positive iff this month is larger, 0 iff equal, and never below -100 |
| `Dashboard.SuccessRate` | src/components/Dashboard.tsx:114-118 | paid invoices as a percentage of all, 0 without invoices; bounded by `SuccessRateBounds` |
| `Dashboard.SuccessRateBounds` | src/components/Dashboard.tsx:114-118 | the rate lies in [0, 100], and is 100 iff every invoice is paid |
| `Dashboard.CreatedThisMonthPanel` | src/components/Dashboard.tsx:414-416 | the invoices created in the current month of any year; compared by `PanelCountsAtLeastGrowthCounts` |
| `Dashboard.PaidThisMonthPanel` | src/components/Dashboard.tsx:422-425 | the paid invoices paid in the current month of any year; compared by `PanelCountsAtLeastGrowthCounts` |
| `Dashboard.PanelCountsAtLeastGrowthCounts` | src/components/Dashboard.tsx:414-425 | the panel compares only the month, so it counts at least the invoices the growth figures count |
| `Dashboard.Recent` | src/components/Dashboard.tsx:158 | the first five invoices at most |
| `Dashboard.DaysOverdue` | src/components/Dashboard.tsx:473 | whole days since the due date, rounded down |
| `Dashboard.Page.constructor` | src/components/Dashboard.tsx:24-36 | zero stats, no invoices, loading |
| `Dashboard.Page.Load` | src/components/Dashboard.tsx:38-131 | the page shows the figures of `getUserInvoices()` and the client count; loading ends |
| `Dashboard.Page.Compute` | src/components/Dashboard.tsx:51-118 | the stats, overdue list, growth figures and success rate of the loaded invoices |
| `EnhancedDashboard.TotalOutstanding` | src/components/EnhancedDashboard.tsx:62 | the summed totals of the unpaid invoices; its bounds are `OutstandingBounds` |
| `EnhancedDashboard.OutstandingBounds` | src/components/EnhancedDashboard.tsx:62 | with non-negative totals, the outstanding amount is at least 0, and with the paid revenue it adds up to no more than all totals |
| `EnhancedDashboard.TotalReceived` | src/components/EnhancedDashboard.tsx:63-66 | the summed totals of the invoices paid less than thirty days before `now`; bounded by `ReceivedAtMostRevenue` |
| `EnhancedDashboard.ReceivedAtMostRevenue` | src/components/EnhancedDashboard.tsx:63-66 | with non-negative totals, the thirty-day received amount lies between 0 and the all-time revenue |
| `EnhancedDashboard.OverdueCount` | src/components/EnhancedDashboard.tsx:67 | the number of unpaid invoices due before `now`; `OverdueCountsAgree` shows it is the main dashboard's overdue count |
| `EnhancedDashboard.OverdueCountsAgree` | src/components/EnhancedDashboard.tsx:67 | the overdue count equals the main dashboard's overdue list length |
| `EnhancedDashboard.StatusStep` | src/components/EnhancedDashboard.tsx:72 | `all` keeps everything; otherwise exactly the stored status, in order |
| `EnhancedDashboard.SearchStep` | src/components/EnhancedDashboard.tsx:73 | a blank term keeps everything; otherwise exactly the invoices whose client name contains it, in order |
| `EnhancedDashboard.FilteredInvoices` | src/components/EnhancedDashboard.tsx:70-75 | a subsequence holding exactly the invoices passing both steps |
| `EnhancedDashboard.OverdueTabIsEmpty` | src/components/EnhancedDashboard.tsx:72 | the `overdue` tab always shows an empty table |
| `EnhancedDashboard.NoStatusNamedOverdue` | src/components/EnhancedDashboard.tsx:135 | no stored status is the string `overdue` |
| `EnhancedDashboard.ClientIdsWith` | src/components/EnhancedDashboard.tsx:79 | the set of client ids of the invoices with the status |
| `EnhancedDashboard.PaidClients` | src/components/EnhancedDashboard.tsx:78-81 | the clients with a paid invoice, in client order; characterised by `QuickStatsFacts` |
| `EnhancedDashboard.OutstandingClients` | src/components/EnhancedDashboard.tsx:82-85 | the clients with an unpaid invoice, in client order; characterised by `QuickStatsFacts` |
| `EnhancedDashboard.QuickStatsFacts` | src/components/EnhancedDashboard.tsx:78-85 | a client is listed iff some invoice of the status has its id; the clients' order is kept |
| `EnhancedDashboard.ActivityOf` | src/components/EnhancedDashboard.tsx:89-96 | the activity fields, with `Unknown` for a missing name and `Payment` iff paid |
| `EnhancedDashboard.RecentActivities` | src/components/EnhancedDashboard.tsx:88-97 | the first ten invoices at most, each as its activity |
| `EnhancedDashboard.DonutFraction` | src/components/EnhancedDashboard.tsx:34 | `Math.min(value / 10000, 1)` |
| `ClientList.ClientMatches` | src/components/ClientList.tsx:29-33 | name, company or e-mail contains the term, ignoring case; `SearchClients` keeps exactly the matches |
| `ClientList.SearchClients` | src/components/ClientList.tsx:25-37 | an empty term keeps the list; otherwise exactly the clients whose name, company or e-mail contains the term, ignoring case, in order |
| `ClientList.SearchIgnoresTermCase` | src/components/ClientList.tsx:29-33 | lower-casing the term does not change the result |
| `ClientList.FormOf` | src/components/ClientList.tsx:40-42 | the form holds every field of the client |
| `ClientList.WithInput` | src/components/ClientList.tsx:226-263 | one input replaces one field |
| `ClientList.MergeForm` | src/components/ClientList.tsx:63 | the form's fields replace the client's; fields the form lacks are kept |
| `ClientList.MergeUnchangedForm` | src/components/ClientList.tsx:39-63 | merging a client's own untouched form gives back the client |
| `ClientList.EditedClients` | src/components/ClientList.tsx:61-65 | same length; the clients with the edited id are merged; all others are kept |
| `ClientList.EditUnchangedFormKeepsList` | src/components/ClientList.tsx:59-67 | submitting an untouched edit of a client with a unique id leaves the list as it was |
| `ClientList.NewClient` | src/components/ClientList.tsx:70-77 | the form fields, the clock reading, and an id that reads back the clock reading and the draw |
| `ClientList.Page.constructor` | src/components/ClientList.tsx:7-17 | no clients, empty term, closed modal, empty form |
| `ClientList.Page.Mount` | src/components/ClientList.tsx:19-23 | the stored clients, all shown |
| `ClientList.Page.SetSearchTerm` | src/components/ClientList.tsx:121 | the term is replaced |
| `ClientList.Page.Refresh` | src/components/ClientList.tsx:25-37 | the shown list is `SearchClients` of the clients and the term |
| `ClientList.Page.OpenModal` | src/components/ClientList.tsx:39-48 | editing loads the client into the form; adding loads the empty form; the modal opens |
| `ClientList.Page.CloseModal` | src/components/ClientList.tsx:50-54 | closed, not editing, empty form |
| `ClientList.Page.HandleInput` | src/components/ClientList.tsx:226-263 | the form becomes `WithInput` of the old form |
| `ClientList.Page.HandleSubmit` | src/components/ClientList.tsx:56-85 | an edit merges the form into the clients with the edited id; an add prepends one new client; the list is saved and the modal closes |
| `ClientList.Page.DeleteClient` | src/components/ClientList.tsx:87-93 | a confirmed delete keeps the clients with another id and saves them; otherwise nothing changes |
| `ClientList.DeleteFacts` | src/components/ClientList.tsx:89 | the clients with another id remain, in order, and none with the id |
| `ClientList.AddFacts` | src/components/ClientList.tsx:79 | the list grows by one, the old list follows unchanged, and the new id is fresh when no stored id was made from the same clock reading and draw |

## Left out

- Rendering, routing and navigation are left out: JSX, CSS classes, icons, `navigate`, and `formatCurrency` with `Intl.NumberFormat`. So are PDF generation, the Supabase and Stripe servers, the settings panel and the layout components.
- JSON serialisation is left out. Stored lists are Dafny values, so a malformed stored value cannot be written. The `try`/`catch` paths that only handle a JSON failure are therefore absent. These are the session restore's `removeItem` and the empty list `getUserInvoices` returns on error.
- ISO-8601 strings and `Date` objects are both `Time` values. Rehydrating a date is the identity.
- The time zone is left out. `getMonth`/`getFullYear` are the parameter `cal`, and `toISOString().slice(0, 10)` is the calendar-day parameter `day`.
- Each handler reads the clock once, as the parameter `now`. Where the source calls `new Date()` twice in one handler, both calls read the same time in the model.
- Timers and intervals are left out: the 30-second refresh, the 3-second payment delay and the 7-second auto-hide. The timer bodies are the methods `PublicInvoice.Page.CompletePayment` and `PublicInvoice.Page.CloseNotification`.
- React batching and render order are left out. Each effect is a method the caller runs after the state it depends on changes, such as the `Refresh` methods.
- IEEE-754 arithmetic is left out: amounts are exact `real`s. No rounding, `NaN` or `Infinity` is modelled. `number.toString()` in the invoice search is the parameter `totalText`.
- Case folding covers ASCII letters only. `toLowerCase`/`toUpperCase` of other characters is left out.
- Strings are sequences of Unicode code points, but JavaScript's `.length`, indices and `substring` count UTF-16 code units. For text with characters outside the Basic Multilingual Plane, the model's lengths, slices and order differ from the source's. For example, `PaymentModal.BankError` accepts a routing number of nine code points such as `12345678😀`, which JavaScript counts as ten units and refuses. The card-number, CVV and chunking length checks differ the same way.
- `InvoiceList.SortInvoices`: `localeCompare` is modelled as code-point order. The sort is an insertion sort on a `seq` rather than `Array.prototype.sort` in place. Its contract states sortedness, permutation and keep-order for unknown keys. It does not state stability for ties, which `Array.prototype.sort` guarantees.
- `InvoiceList.ClientName`: a missing client reads as the empty name. In the source, the invoice page's search would throw on such an invoice, but `getUserInvoices` always supplies a client (`InvoiceList.UserInvoicesHaveClients`).
- `InvoiceView.BadgeLabel`: for `cancelled` the source reads a field of `undefined` and the render throws. The model returns `None`.
- Keys that hold `undefined` JavaScript values are left out. A patch field given as `undefined` is indistinguishable from a missing field in the model. Object-prototype keys such as `toString`, which would hit the label lookup table, are also left out.
- `Math.random()` draws are parameters in [0, 1). Their distribution, and the 90% success rate, are left out. `navigator.clipboard` and `confirm()` are left out; `confirm()`'s answer is the parameter `confirmed`, and the `copied` flag is never set in the model.
- `user_${Date.now()}`, `Date.now().toString()` and the client-id generators take the clock reading as a natural number. Negative clock readings are left out.
- `Storage.DateDigits` requires `Storage.ValidDay`, so years after 9999 are left out. For such years `toISOString` writes a signed six-digit year, and the invoice id would not have the eight-digit date part that `Storage.GenerateInvoiceId` states.
