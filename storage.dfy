/** src/utils/storage.ts: the `solson_*` keys, the id generators and the
    public payment link. The clock and `Math.random` are parameters. */
module Storage {
  import opened Wrappers
  import opened Model
  import opened Strings
  import opened Seqs
  import opened Store

  /** The UTC calendar day of `new Date()`, as `toISOString` prints it. */
  datatype CalendarDay = CalendarDay(year: nat, month: nat, day: nat)

  /** The days `toISOString` prints with a four-digit year. */
  predicate ValidDay(d: CalendarDay) {
    d.year <= 9999 && 1 <= d.month <= 12 && 1 <= d.day <= 31
  }

  lemma Pow10Values()
    ensures Pow10(2) == 100 && Pow10(3) == 1000 && Pow10(4) == 10000
  {
    assert Pow10(1) == 10;
  }

  /** `n.toString().padStart(w, '0')` for a number that fits in `w` digits. */
  function ZeroPad(n: nat, w: nat): (r: string)
    requires 1 <= w && n < Pow10(w)
    ensures |r| == w && AllDigits(r)
    ensures DigitsValue(r) == n
  {
    var s := NatToString(n);
    NatToStringLength(n, w);
    var r := PadStart(s, w, '0');
    assert r == Repeat('0', w - |s|) + s;
    LeadingZeros(w - |s|, s);
    r
  }

  /** `date.toISOString().slice(0, 10).replace(/-/g, '')`: YYYYMMDD. */
  function DateDigits(d: CalendarDay): (r: string)
    requires ValidDay(d)
    ensures |r| == 8 && AllDigits(r)
    ensures DigitsValue(r[..4]) == d.year
    ensures DigitsValue(r[4..6]) == d.month
    ensures DigitsValue(r[6..]) == d.day
  {
    Pow10Values();
    var y, m, dd := ZeroPad(d.year, 4), ZeroPad(d.month, 2), ZeroPad(d.day, 2);
    DateParts(y, m, dd);
    y + m + dd
  }

  /** A four-digit, a two-digit and a two-digit string joined read back as
      their three values. */
  lemma DateParts(y: string, m: string, dd: string)
    requires |y| == 4 && |m| == 2 && |dd| == 2
    requires AllDigits(y) && AllDigits(m) && AllDigits(dd)
    ensures var r := y + m + dd;
            |r| == 8 && AllDigits(r) && r[..4] == y && r[4..6] == m && r[6..] == dd
  {
    var r := y + m + dd;
    assert r == y + (m + dd);
    assert forall i :: 0 <= i < 8 ==> r[i] == (if i < 4 then y[i] else if i < 6 then m[i - 4] else dd[i - 6]);
  }

  /** `Math.floor(random * k)` for `random` drawn by `Math.random()` from [0, 1). */
  function RandomBelow(random: real, k: nat): (n: nat)
    requires 0.0 <= random < 1.0 && k >= 1
    ensures n < k
  {
    RandomScales(random, k);
    (random * k as real).Floor
  }

  lemma RandomScales(random: real, k: nat)
    requires 0.0 <= random < 1.0 && k >= 1
    ensures 0.0 <= random * k as real < k as real
  {
  }

  /** The number drawn is the integer part of `random * k`. */
  lemma RandomBelowIsFloor(random: real, k: nat)
    requires 0.0 <= random < 1.0 && k >= 1
    ensures RandomBelow(random, k) as real <= random * k as real < RandomBelow(random, k) as real + 1.0
  {
  }

  /** `generateInvoiceId()`: "INV-", the eight date digits, "-", and the
      zero-padded number drawn from 0..9998. */
  function GenerateInvoiceId(day: CalendarDay, random: real): (id: string)
    requires ValidDay(day) && 0.0 <= random < 1.0
    ensures |id| == 17 && id[..4] == "INV-" && id[12] == '-'
    ensures id[4..12] == DateDigits(day)
    ensures AllDigits(id[13..]) && DigitsValue(id[13..]) == RandomBelow(random, 9999)
    ensures DigitsValue(id[13..]) <= 9998
  {
    Pow10Values();
    var n := ZeroPad(RandomBelow(random, 9999), 4);
    var d := DateDigits(day);
    JoinedParts("INV-", d, "-", n);
    "INV-" + d + "-" + n
  }

  /** Where the parts of `a + b + c + e` sit. */
  lemma JoinedParts(a: string, b: string, c: string, e: string)
    ensures var s := a + b + c + e;
            |s| == |a| + |b| + |c| + |e| && s[..|a|] == a && s[|a|..|a| + |b|] == b &&
            s[|a| + |b|..|a| + |b| + |c|] == c && s[|a| + |b| + |c|..] == e
  {
    var s := a + b + c + e;
    assert s == a + (b + (c + e));
  }

  /** `generateClientId()`: "CLIENT-", the clock reading `Date.now()`, "-",
      and a number drawn from 0..999. */
  function GenerateClientId(now: nat, random: real): string
    requires 0.0 <= random < 1.0
  {
    "CLIENT-" + NatToString(now) + "-" + NatToString(RandomBelow(random, 1000))
  }

  /** The clock reading and the random number can be read back from a client id. */
  lemma ClientIdFormat(now: nat, random: real)
    requires 0.0 <= random < 1.0
    ensures ParseClientId(GenerateClientId(now, random)) == Some((now, RandomBelow(random, 1000)))
  {
    ParseJoinedId(NatToString(now), NatToString(RandomBelow(random, 1000)));
  }

  /** Two digit strings joined by a dash after the prefix read back as themselves. */
  lemma ParseJoinedId(t: string, n: string)
    requires AllDigits(t) && AllDigits(n)
    ensures ParseClientId("CLIENT-" + t + "-" + n) == Some((DigitsValue(t), DigitsValue(n)))
  {
    var id := "CLIENT-" + t + "-" + n;
    var rest := t + "-" + n;
    assert id[..7] == "CLIENT-" && id[7..] == rest;
    assert rest[|t|] == '-';
    assert forall i :: 0 <= i < |t| ==> rest[i] == t[i];
    assert FindIndex(rest, IsDash) == |t|;
    assert rest[..|t|] == t && rest[|t| + 1..] == n;
  }

  predicate IsDash(c: char) { c == '-' }

  /** Reads back the clock reading and the random number of a client id. */
  function ParseClientId(id: string): Option<(nat, nat)> {
    if |id| < 7 || id[..7] != "CLIENT-" then None
    else
      var rest := id[7..];
      var k := FindIndex(rest, IsDash);
      if k == -1 then None
      else if !AllDigits(rest[..k]) || !AllDigits(rest[k + 1..]) then None
      else Some((DigitsValue(rest[..k]), DigitsValue(rest[k + 1..])))
  }

  /** `invoice.public_token || invoice.id`: the stored token unless it is
      missing or empty, else the id. */
  function TokenOf(inv: Invoice): string {
    if inv.publicToken.Some? && inv.publicToken.value != "" then inv.publicToken.value else inv.id
  }

  function WithToken(inv: Invoice): (r: Invoice)
    ensures r.publicToken == Some(TokenOf(inv))
    ensures r.(publicToken := inv.publicToken) == inv
  {
    inv.(publicToken := Some(TokenOf(inv)))
  }

  /** `loadInvoices()` on what `solson_invoices` holds: no list when nothing is
      stored, else the stored list in order with each public token filled in. */
  function LoadInvoices(stored: Option<seq<Invoice>>): (r: seq<Invoice>)
    ensures stored.None? ==> r == []
    ensures stored.Some? ==> |r| == |stored.value|
    ensures stored.Some? ==> forall i :: 0 <= i < |r| ==>
              r[i].(publicToken := stored.value[i].publicToken) == stored.value[i] &&
              r[i].publicToken == Some(TokenOf(stored.value[i]))
  {
    match stored
    case None => []
    case Some(invs) => seq(|invs|, i requires 0 <= i < |invs| => WithToken(invs[i]))
  }

  /** An invoice whose stored token is already non-empty. */
  predicate HasToken(inv: Invoice) {
    inv.publicToken.Some? && inv.publicToken.value != ""
  }

  /** Saving then loading returns the same invoices in the same order, with
      their tokens filled in; invoices that already carried a token come back
      exactly as saved. */
  lemma SaveThenLoad(invs: seq<Invoice>)
    ensures |LoadInvoices(Some(invs))| == |invs|
    ensures forall i :: 0 <= i < |invs| ==>
              LoadInvoices(Some(invs))[i].id == invs[i].id &&
              (HasToken(invs[i]) ==> LoadInvoices(Some(invs))[i] == invs[i])
    ensures (forall i :: 0 <= i < |invs| ==> HasToken(invs[i])) ==> LoadInvoices(Some(invs)) == invs
  {
  }

  /** Loading what was loaded changes nothing more. */
  lemma {:induction false} LoadIdempotent(invs: seq<Invoice>)
    ensures LoadInvoices(Some(LoadInvoices(Some(invs)))) == LoadInvoices(Some(invs))
  {
    var once := LoadInvoices(Some(invs));
    forall i | 0 <= i < |once|
      ensures WithToken(once[i]) == once[i]
    {
      TokenStable(invs[i]);
    }
  }

  /** Filling in the token a second time finds the token filled in the first
      time, even when that token is an empty id. */
  lemma TokenStable(inv: Invoice)
    ensures TokenOf(WithToken(inv)) == TokenOf(inv)
  {
  }

  /** `loadClients()` on what `solson_clients` holds. */
  function LoadClients(stored: Option<seq<Client>>): (r: seq<Client>)
    ensures stored.None? ==> r == []
    ensures stored.Some? ==> r == stored.value
  {
    stored.GetOr([])
  }

  /** `saveInvoices(invoices)`: one write of the `solson_invoices` key. */
  method SaveInvoices(st: LocalStore, invs: seq<Invoice>)
    modifies st`savedInvoices
    ensures st.savedInvoices == Some(invs)
  {
    st.savedInvoices := Some(invs);
  }

  /** `saveClients(clients)`: one write of the `solson_clients` key. */
  method SaveClients(st: LocalStore, clients: seq<Client>)
    modifies st`savedClients
    ensures st.savedClients == Some(clients)
  {
    st.savedClients := Some(clients);
  }

  const InvoicePath: string := "/invoice/"

  /** `getInvoicePaymentLink(token)`: `window.location.origin` (a parameter)
      followed by "/invoice/" and the token. */
  function PaymentLink(origin: string, token: string): (link: string)
    ensures LinkToken(origin, link) == Some(token)
  {
    var link := origin + InvoicePath + token;
    assert link[..|origin|] == origin;
    assert link[|origin|..|origin| + |InvoicePath|] == InvoicePath;
    assert link[|origin| + |InvoicePath|..] == token;
    link
  }

  /** The token a payment link under `origin` points to. */
  function LinkToken(origin: string, link: string): Option<string> {
    var n := |origin| + |InvoicePath|;
    if |link| >= n && link[..|origin|] == origin && link[|origin|..n] == InvoicePath
    then Some(link[n..]) else None
  }

  /** Different tokens give different links. */
  lemma PaymentLinkInjective(origin: string, t1: string, t2: string)
    ensures PaymentLink(origin, t1) == PaymentLink(origin, t2) <==> t1 == t2
  {
    if PaymentLink(origin, t1) == PaymentLink(origin, t2) {
      assert LinkToken(origin, PaymentLink(origin, t1)) == Some(t1);
    }
  }
}
