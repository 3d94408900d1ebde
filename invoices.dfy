/** The invoice API: invoice totals with a tax rate per line in basis
    points, the stored line totals, invoice numbers drawn from the settings
    sequence, the overdue sweep run by every listing, creating, updating
    and sending an invoice. Amounts are integer cents. The clock is a
    parameter: `today` for the sweep and `year` for numbering. */
module Invoices {
  import opened Common
  import opened Calendar

  datatype Status = Draft | Sent | Paid | Overdue

  /** A line of a request body. */
  datatype ItemInput = ItemInput(description: string, quantity: int, unitPriceCents: int, taxRate: int)

  /** A stored line. */
  datatype Item = Item(id: int, invoiceId: int, description: string, quantity: int, unitPriceCents: int,
                       taxRate: int, lineTotalCents: int)

  datatype Invoice = Invoice(
    id: int, customerId: int, number: string, issueDate: Date, dueDate: Date, status: Status,
    subtotalCents: int, taxCents: int, discountCents: int, totalCents: int, balanceDueCents: int,
    notes: Option<string>)

  /** The first row of the settings table: the invoice prefix and the last
      sequence number handed out. */
  datatype Settings = Settings(prefix: string, lastSequence: int)

  /** A payment recorded against an invoice; `paidAt` is a timestamp. */
  datatype Payment = Payment(id: int, invoiceId: int, amountCents: int, paidAt: int, payMethod: string)

  /** The settings row created when there is none. */
  const DefaultSettings := Settings("INV", 0)

  /** Tax rates are in hundredths of a percent. */
  const BasisPoints := 10000

  // ---------------------------------------------------------------------
  // calculate_invoice_totals and the line totals

  function LineSubtotal(i: ItemInput): int { i.quantity * i.unitPriceCents }

  /** What the line would be taxed before rounding, in basis points of a cent. */
  function LineTaxBase(i: ItemInput): int { LineSubtotal(i) * i.taxRate }

  /** The tax of one line, rounded down to the cent (Python's `//` by a
      positive divisor, even for a negative line). */
  function LineTax(i: ItemInput): (t: int)
    ensures t * BasisPoints <= LineTaxBase(i) < (t + 1) * BasisPoints
  {
    LineTaxBase(i) / BasisPoints
  }

  /** The stored `line_total_cents` of a line. */
  function LineTotal(i: ItemInput): int { LineSubtotal(i) + LineTax(i) }

  function Subtotal(items: seq<ItemInput>): int { SumOf(items, LineSubtotal) }

  function TaxTotal(items: seq<ItemInput>): int { SumOf(items, LineTax) }

  datatype Totals = Totals(subtotalCents: int, taxCents: int, totalCents: int)

  /** Subtotal, tax and total of an invoice: the discount comes off after
      tax. */
  function InvoiceTotals(items: seq<ItemInput>, discountCents: int): (t: Totals)
    ensures t.totalCents == t.subtotalCents + t.taxCents - discountCents
    ensures t.subtotalCents == SumOf(items, LineSubtotal) && t.taxCents == SumOf(items, LineTax)
  {
    var s := Subtotal(items);
    var tax := TaxTotal(items);
    Totals(s, tax, s + tax - discountCents)
  }

  /** calculate_invoice_totals: the loop with running subtotal and tax. */
  method CalculateInvoiceTotals(items: seq<ItemInput>, discountCents: int) returns (t: Totals)
    ensures t == InvoiceTotals(items, discountCents)
  {
    var subtotal := 0;
    var taxTotal := 0;
    for k := 0 to |items|
      invariant subtotal == SumOf(items[..k], LineSubtotal)
      invariant taxTotal == SumOf(items[..k], LineTax)
    {
      SumOfPrefix(items, k, LineSubtotal);
      SumOfPrefix(items, k, LineTax);
      var lineSubtotal := items[k].quantity * items[k].unitPriceCents;
      var lineTax := (lineSubtotal * items[k].taxRate) / BasisPoints;
      subtotal := subtotal + lineSubtotal;
      taxTotal := taxTotal + lineTax;
    }
    assert items[..|items|] == items;
    t := Totals(subtotal, taxTotal, subtotal + taxTotal - discountCents);
  }

  /** Rounding each line down never gives more than rounding the sum, and
      loses less than a cent per line. */
  lemma {:induction false} TaxPerLine(items: seq<ItemInput>)
    ensures TaxTotal(items) <= SumOf(items, LineTaxBase) / BasisPoints <= TaxTotal(items) + |items|
  {
    if items != [] {
      var init, last := items[..|items| - 1], items[|items| - 1];
      TaxPerLine(init);
      FloorOfSum(SumOf(init, LineTaxBase), LineTaxBase(last));
    }
  }

  lemma FloorOfSum(a: int, b: int)
    ensures a / BasisPoints + b / BasisPoints <= (a + b) / BasisPoints <= a / BasisPoints + b / BasisPoints + 1
  {
    var qa, ra := a / BasisPoints, a % BasisPoints;
    var qb, rb := b / BasisPoints, b % BasisPoints;
    assert a + b == (qa + qb) * BasisPoints + (ra + rb);
    if ra + rb < BasisPoints {
      assert (a + b) / BasisPoints == qa + qb;
    } else {
      assert a + b == (qa + qb + 1) * BasisPoints + (ra + rb - BasisPoints);
      assert (a + b) / BasisPoints == qa + qb + 1;
    }
  }

  /** Two one-cent lines at 50% carry no tax, though their sum would. */
  lemma TaxedPerLineNotOnSum()
    ensures var items := [ItemInput("a", 1, 1, 5000), ItemInput("b", 1, 1, 5000)];
      TaxTotal(items) == 0 && SumOf(items, LineTaxBase) / BasisPoints == 1
  {
    var items := [ItemInput("a", 1, 1, 5000), ItemInput("b", 1, 1, 5000)];
    assert LineTax(items[0]) == 0 && LineTax(items[1]) == 0;
    assert LineTaxBase(items[0]) == 5000 && LineTaxBase(items[1]) == 5000;
    assert [] + [items[0]] == [items[0]] && [items[0]] + [items[1]] == items;
    SumOfSnoc([], items[0], LineTax);
    SumOfSnoc([items[0]], items[1], LineTax);
    SumOfSnoc([], items[0], LineTaxBase);
    SumOfSnoc([items[0]], items[1], LineTaxBase);
  }

  /** The stored rows of the lines, with ids from firstId on. */
  function ItemRows(inputs: seq<ItemInput>, invoiceId: int, firstId: int): (r: seq<Item>)
    ensures |r| == |inputs|
    ensures forall k :: 0 <= k < |inputs| ==>
      r[k] == Item(firstId + k, invoiceId, inputs[k].description, inputs[k].quantity, inputs[k].unitPriceCents,
                   inputs[k].taxRate, LineTotal(inputs[k]))
  {
    if inputs == [] then []
    else
      var k := |inputs| - 1;
      var i := inputs[k];
      ItemRows(inputs[..k], invoiceId, firstId)
      + [Item(firstId + k, invoiceId, i.description, i.quantity, i.unitPriceCents, i.taxRate, LineTotal(i))]
  }

  function ItemLineTotal(i: Item): int { i.lineTotalCents }

  /** The stored line totals add up to subtotal plus tax, discount not
      included. */
  lemma {:induction false} StoredLineTotals(inputs: seq<ItemInput>, invoiceId: int, firstId: int)
    ensures SumOf(ItemRows(inputs, invoiceId, firstId), ItemLineTotal) == Subtotal(inputs) + TaxTotal(inputs)
  {
    if inputs != [] {
      var k := |inputs| - 1;
      StoredLineTotals(inputs[..k], invoiceId, firstId);
      var rows := ItemRows(inputs, invoiceId, firstId);
      assert rows[..k] == ItemRows(inputs[..k], invoiceId, firstId);
    }
  }

  // ---------------------------------------------------------------------
  // generate_invoice_number

  function Zeros(k: nat): (z: string)
    ensures |z| == k && forall i :: 0 <= i < k ==> z[i] == '0'
  {
    seq(k, _ => '0')
  }

  /** s with zeros in front up to the width. */
  function ZeroPad(s: string, width: nat): (r: string)
    ensures |r| == Max(|s|, width)
  {
    Zeros(if |s| >= width then 0 else width - |s|) + s
  }

  /** Python's `{n:04d}`: at least four characters, zero-filled after the
      sign. */
  function FormatSequence(n: int): string
  {
    if n >= 0 then ZeroPad(DecimalString(n), 4) else "-" + ZeroPad(DecimalString(-n), 3)
  }

  function InvoiceNumber(prefix: string, year: nat, n: int): string
  {
    prefix + "-" + DecimalString(year) + "-" + FormatSequence(n)
  }

  predicate IsDigits(s: string)
  {
    forall i :: 0 <= i < |s| ==> '0' <= s[i] <= '9'
  }

  /** Leading zeros do not change the value of a digit string. */
  lemma {:induction false} LeadingZeros(z: string, s: string)
    requires IsDigits(s) && forall i :: 0 <= i < |z| ==> z[i] == '0'
    ensures IsDigits(z + s) && DigitsValue(z + s) == DigitsValue(s)
  {
    if s == [] {
      assert z + s == z;
      AllZeros(z);
    } else {
      var k := |s| - 1;
      assert (z + s)[..|z + s| - 1] == z + s[..k];
      LeadingZeros(z, s[..k]);
    }
  }

  lemma {:induction false} AllZeros(z: string)
    requires forall i :: 0 <= i < |z| ==> z[i] == '0'
    ensures DigitsValue(z) == 0
  {
    if z != [] {
      AllZeros(z[..|z| - 1]);
    }
  }

  /** A padded number reads back as the number. */
  lemma PaddedValue(n: nat, width: nat)
    ensures IsDigits(ZeroPad(DecimalString(n), width))
    ensures DigitsValue(ZeroPad(DecimalString(n), width)) == n
  {
    var s := DecimalString(n);
    LeadingZeros(Zeros(if |s| >= width then 0 else width - |s|), s);
    DecimalStringValue(n);
  }

  /** The four-digit format is at least four characters long and tells
      apart any two sequence numbers. */
  lemma FormatSequenceInjective(a: int, b: int)
    requires a != b
    ensures |FormatSequence(a)| >= 4
    ensures FormatSequence(a) != FormatSequence(b)
  {
    FormatSequenceValue(a);
    FormatSequenceValue(b);
    if a >= 0 && b < 0 {
      SignDiffers(FormatSequence(a), FormatSequence(b));
    } else if a < 0 && b >= 0 {
      SignDiffers(FormatSequence(b), FormatSequence(a));
    }
  }

  lemma SignDiffers(x: string, y: string)
    requires |x| >= 1 && IsDigits(x) && |y| >= 1 && y[0] == '-'
    ensures x != y
  {
    assert '0' <= x[0] <= '9';
  }

  /** A non-negative number is its digits, a negative one a minus sign
      and then the digits of its magnitude. */
  lemma FormatSequenceValue(n: int)
    ensures |FormatSequence(n)| >= 4
    ensures n >= 0 ==> IsDigits(FormatSequence(n)) && DigitsValue(FormatSequence(n)) == n
    ensures n < 0 ==> FormatSequence(n)[0] == '-' && IsDigits(FormatSequence(n)[1..])
                      && DigitsValue(FormatSequence(n)[1..]) == -n
  {
    if n >= 0 {
      PaddedValue(n, 4);
    } else {
      PaddedValue(-n, 3);
      assert FormatSequence(n)[1..] == ZeroPad(DecimalString(-n), 3);
    }
  }

  /** Two different sequence numbers give two different invoice numbers
      for the same prefix and year. */
  lemma InvoiceNumbersDistinct(prefix: string, year: nat, a: int, b: int)
    requires a != b
    ensures InvoiceNumber(prefix, year, a) != InvoiceNumber(prefix, year, b)
  {
    var head := prefix + "-" + DecimalString(year) + "-";
    FormatSequenceInjective(a, b);
    assert InvoiceNumber(prefix, year, a) == head + FormatSequence(a);
    assert InvoiceNumber(prefix, year, b) == head + FormatSequence(b);
    assert (head + FormatSequence(a))[|head|..] == FormatSequence(a);
    assert (head + FormatSequence(b))[|head|..] == FormatSequence(b);
  }

  /** The settings after one number is drawn. */
  function NextSettings(s: Option<Settings>): (r: Settings)
    ensures s.None? ==> r == Settings(DefaultSettings.prefix, DefaultSettings.lastSequence + 1)
    ensures s.Some? ==> r.prefix == s.value.prefix && r.lastSequence == s.value.lastSequence + 1
  {
    var current := if s.Some? then s.value else DefaultSettings;
    current.(lastSequence := current.lastSequence + 1)
  }

  /** Drawing numbers k and j times in a year gives different numbers
      unless k == j: the sequence only counts up. */
  lemma SuccessiveNumbersDistinct(s: Settings, year: nat, k: nat, j: nat)
    requires k != j
    ensures InvoiceNumber(s.prefix, year, s.lastSequence + k) != InvoiceNumber(s.prefix, year, s.lastSequence + j)
  {
    InvoiceNumbersDistinct(s.prefix, year, s.lastSequence + k, s.lastSequence + j);
  }

  // ---------------------------------------------------------------------
  // The invoice tables

  class InvoiceDb {
    var invoices: seq<Invoice>
    var items: seq<Item>
    var payments: seq<Payment>
    var settings: Option<Settings>
    var nextId: int

    constructor ()
      ensures invoices == [] && items == [] && payments == [] && settings == None && nextId == 1
    {
      invoices, items, payments := [], [], [];
      settings := None;
      nextId := 1;
    }
  }

  /** generate_invoice_number */
  method GenerateInvoiceNumber(db: InvoiceDb, year: nat) returns (number: string)
    modifies db
    ensures db.settings == Some(NextSettings(old(db.settings)))
    ensures number == InvoiceNumber(db.settings.value.prefix, year, db.settings.value.lastSequence)
    ensures db.invoices == old(db.invoices) && db.items == old(db.items) && db.payments == old(db.payments)
    ensures db.nextId == old(db.nextId)
  {
    var s := if db.settings.Some? then db.settings.value else DefaultSettings;
    s := s.(lastSequence := s.lastSequence + 1);
    db.settings := Some(s);
    number := s.prefix + "-" + DecimalString(year) + "-" + FormatSequence(s.lastSequence);
  }

  /** The position of the invoice with this id. */
  function FindInvoice(invoices: seq<Invoice>, id: int): (r: Option<nat>)
    ensures r.Some? ==> r.value < |invoices| && invoices[r.value].id == id
    ensures r.None? ==> forall i :: 0 <= i < |invoices| ==> invoices[i].id != id
  {
    if invoices == [] then None
    else if invoices[0].id == id then Some(0)
    else match FindInvoice(invoices[1..], id)
         case None => None
         case Some(i) => Some(i + 1)
  }

  // ---------------------------------------------------------------------
  // list_invoices and the overdue sweep

  /** The filters of a listing: a status, and a text the number contains
      (the empty text filters nothing). The text is compared as SQLite's
      LIKE compares, ignoring the case of ASCII letters. */
  predicate Matches(inv: Invoice, status: Option<Status>, q: string)
  {
    (status.None? || inv.status == status.value) && (q == [] || Contains(Lower(inv.number), Lower(q)))
  }

  function MatchesOf(status: Option<Status>, q: string): Invoice -> bool
  {
    (inv: Invoice) => Matches(inv, status, q)
  }

  /** Past due, with money owed, and not paid. */
  predicate IsOverdue(inv: Invoice, today: Date)
  {
    DateLess(inv.dueDate, today) && inv.balanceDueCents > 0 && inv.status != Paid
  }

  function SweptInvoice(inv: Invoice, status: Option<Status>, q: string, today: Date): Invoice
  {
    if Matches(inv, status, q) && IsOverdue(inv, today) then inv.(status := Overdue) else inv
  }

  function Swept(invoices: seq<Invoice>, status: Option<Status>, q: string, today: Date): (r: seq<Invoice>)
    ensures |r| == |invoices|
    ensures forall i :: 0 <= i < |invoices| ==> r[i] == SweptInvoice(invoices[i], status, q, today)
  {
    seq(|invoices|, i requires 0 <= i < |invoices| => SweptInvoice(invoices[i], status, q, today))
  }

  /** The sweep marks every matched invoice that is past due with money
      owed as overdue, whatever its status (a draft included) other than
      paid, changes nothing else, never touches a paid invoice, and
      sweeping twice is sweeping once. */
  lemma SweptSound(invoices: seq<Invoice>, status: Option<Status>, q: string, today: Date)
    ensures var r := Swept(invoices, status, q, today);
      forall i :: 0 <= i < |invoices| ==>
        (Matches(invoices[i], status, q) && IsOverdue(invoices[i], today) ==> r[i] == invoices[i].(status := Overdue))
        && (!(Matches(invoices[i], status, q) && IsOverdue(invoices[i], today)) ==> r[i] == invoices[i])
        && (invoices[i].status == Paid ==> r[i] == invoices[i])
    ensures Swept(Swept(invoices, status, q, today), status, q, today) == Swept(invoices, status, q, today)
  {
    var r := Swept(invoices, status, q, today);
    var rr := Swept(r, status, q, today);
    forall i | 0 <= i < |invoices| ensures rr[i] == r[i] {
      if Matches(r[i], status, q) && IsOverdue(r[i], today) {
        assert r[i].status == Overdue;
      }
    }
  }

  /** The page returned after the sweep: the filters run again on the
      swept table, so an invoice the sweep moved out of the status asked
      for is not listed. The page is the window of the matches in table
      order that starts (page - 1) * limit in, at most `limit` long; when
      that window starts at the beginning and the limit does not bind, it
      lists every match. */
  function ListPage(invoices: seq<Invoice>, status: Option<Status>, q: string, page: int, limit: int): (r: seq<Invoice>)
    ensures forall inv :: inv in r ==> inv in invoices && Matches(inv, status, q)
    ensures var matches := Filter(invoices, MatchesOf(status, q));
      var start := Max((page - 1) * limit, 0);
      (limit >= 0 ==> |r| <= limit)
      && (start <= |matches| ==> |r| == if limit < 0 then |matches| - start else Min(limit, |matches| - start))
      && (start <= |matches| ==> r == matches[start..start + |r|])
      && (start >= |matches| ==> r == [])
    ensures (page - 1) * limit <= 0 && (limit < 0 || limit >= CountOf(invoices, MatchesOf(status, q))) ==>
      forall inv :: inv in invoices && Matches(inv, status, q) ==> inv in r
  {
    var matches := Filter(invoices, MatchesOf(status, q));
    FilterMembers(invoices, MatchesOf(status, q));
    FilterLength(invoices, MatchesOf(status, q));
    PageWindow(matches, (page - 1) * limit, limit);
    Page(matches, (page - 1) * limit, limit)
  }

  /** list_invoices */
  method ListInvoices(db: InvoiceDb, status: Option<Status>, q: string, page: int, limit: int, today: Date)
    returns (r: seq<Invoice>)
    modifies db
    ensures db.invoices == Swept(old(db.invoices), status, q, today)
    ensures r == ListPage(db.invoices, status, q, page, limit)
    ensures db.items == old(db.items) && db.payments == old(db.payments) && db.settings == old(db.settings)
    ensures db.nextId == old(db.nextId)
  {
    ghost var before := db.invoices;
    for i := 0 to |db.invoices|
      invariant |db.invoices| == |before|
      invariant forall k :: 0 <= k < i ==> db.invoices[k] == SweptInvoice(before[k], status, q, today)
      invariant forall k :: i <= k < |before| ==> db.invoices[k] == before[k]
      invariant db.items == old(db.items) && db.payments == old(db.payments) && db.settings == old(db.settings)
      invariant db.nextId == old(db.nextId)
    {
      var inv := db.invoices[i];
      if Matches(inv, status, q) && IsOverdue(inv, today) {
        db.invoices := db.invoices[i := inv.(status := Overdue)];
      }
    }
    r := Page(Filter(db.invoices, MatchesOf(status, q)), (page - 1) * limit, limit);
  }

  // ---------------------------------------------------------------------
  // create_invoice

  datatype InvoiceCreate = InvoiceCreate(customerId: int, issueDate: Date, dueDate: Date, notes: Option<string>,
                                         discountCents: int, items: seq<ItemInput>)

  /** The row of a new invoice: totals from its lines, all of the total
      still due, a draft. */
  function DraftInvoice(id: int, number: string, body: InvoiceCreate): (r: Invoice)
    ensures r.id == id && r.number == number && r.customerId == body.customerId
    ensures r.issueDate == body.issueDate && r.dueDate == body.dueDate && r.notes == body.notes
    ensures r.subtotalCents == Subtotal(body.items) && r.taxCents == TaxTotal(body.items)
    ensures r.discountCents == body.discountCents
    ensures r.totalCents == r.subtotalCents + r.taxCents - r.discountCents
    ensures r.balanceDueCents == r.totalCents && r.status == Draft
  {
    var t := InvoiceTotals(body.items, body.discountCents);
    Invoice(id, body.customerId, number, body.issueDate, body.dueDate, Draft,
            t.subtotalCents, t.taxCents, body.discountCents, t.totalCents, t.totalCents, body.notes)
  }

  /** create_invoice: the invoice takes the next number and the next id,
      and its lines are stored with their line totals. */
  method CreateInvoice(db: InvoiceDb, body: InvoiceCreate, year: nat) returns (inv: Invoice)
    modifies db
    ensures db.settings == Some(NextSettings(old(db.settings)))
    ensures inv == DraftInvoice(old(db.nextId), InvoiceNumber(db.settings.value.prefix, year, db.settings.value.lastSequence), body)
    ensures db.invoices == old(db.invoices) + [inv]
    ensures db.items == old(db.items) + ItemRows(body.items, inv.id, old(db.nextId) + 1)
    ensures db.nextId == old(db.nextId) + 1 + |body.items|
    ensures db.payments == old(db.payments)
  {
    var t := CalculateInvoiceTotals(body.items, body.discountCents);
    var number := GenerateInvoiceNumber(db, year);
    inv := Invoice(db.nextId, body.customerId, number, body.issueDate, body.dueDate, Draft,
                   t.subtotalCents, t.taxCents, body.discountCents, t.totalCents, t.totalCents, body.notes);
    db.invoices := db.invoices + [inv];
    db.nextId := db.nextId + 1;
    AddItemRows(db, body.items, inv.id);
  }

  /** The loop storing one row per line. */
  method AddItemRows(db: InvoiceDb, inputs: seq<ItemInput>, invoiceId: int)
    modifies db
    ensures db.items == old(db.items) + ItemRows(inputs, invoiceId, old(db.nextId))
    ensures db.nextId == old(db.nextId) + |inputs|
    ensures db.invoices == old(db.invoices) && db.payments == old(db.payments) && db.settings == old(db.settings)
  {
    ghost var start := db.items;
    var firstId := db.nextId;
    for k := 0 to |inputs|
      invariant db.items == start + ItemRows(inputs[..k], invoiceId, firstId)
      invariant db.nextId == firstId + k
      invariant db.invoices == old(db.invoices) && db.payments == old(db.payments) && db.settings == old(db.settings)
    {
      assert inputs[..k + 1][..k] == inputs[..k];
      var i := inputs[k];
      var lineSubtotal := i.quantity * i.unitPriceCents;
      var lineTax := (lineSubtotal * i.taxRate) / BasisPoints;
      db.items := db.items + [Item(db.nextId, invoiceId, i.description, i.quantity, i.unitPriceCents, i.taxRate,
                                   lineSubtotal + lineTax)];
      db.nextId := db.nextId + 1;
    }
    assert inputs[..|inputs|] == inputs;
  }

  // ---------------------------------------------------------------------
  // update_invoice

  /** The fields sent in an update; `notes` may be sent as null. */
  datatype InvoiceUpdate = InvoiceUpdate(
    customerId: Option<int>, issueDate: Option<Date>, dueDate: Option<Date>, notes: Option<Option<string>>,
    discountCents: Option<int>, items: Option<seq<ItemInput>>)

  /** The sent fields set, then, when lines are sent, the totals computed
      again from them with the discount as it now stands. */
  function UpdatedInvoice(inv: Invoice, u: InvoiceUpdate): (r: Invoice)
    ensures r.id == inv.id && r.number == inv.number && r.status == inv.status
    ensures r.balanceDueCents == inv.balanceDueCents
    ensures r.customerId == (if u.customerId.Some? then u.customerId.value else inv.customerId)
    ensures r.issueDate == (if u.issueDate.Some? then u.issueDate.value else inv.issueDate)
    ensures r.dueDate == (if u.dueDate.Some? then u.dueDate.value else inv.dueDate)
    ensures r.notes == (if u.notes.Some? then u.notes.value else inv.notes)
    ensures r.discountCents == (if u.discountCents.Some? then u.discountCents.value else inv.discountCents)
    ensures u.items.Some? ==>
      r.subtotalCents == Subtotal(u.items.value) && r.taxCents == TaxTotal(u.items.value)
      && r.totalCents == r.subtotalCents + r.taxCents - r.discountCents
    ensures u.items.None? ==>
      r.subtotalCents == inv.subtotalCents && r.taxCents == inv.taxCents && r.totalCents == inv.totalCents
  {
    var p := inv.(customerId := if u.customerId.Some? then u.customerId.value else inv.customerId,
                  issueDate := if u.issueDate.Some? then u.issueDate.value else inv.issueDate,
                  dueDate := if u.dueDate.Some? then u.dueDate.value else inv.dueDate,
                  notes := if u.notes.Some? then u.notes.value else inv.notes,
                  discountCents := if u.discountCents.Some? then u.discountCents.value else inv.discountCents);
    if u.items.None? then p
    else
      var t := InvoiceTotals(u.items.value, p.discountCents);
      p.(subtotalCents := t.subtotalCents, taxCents := t.taxCents, totalCents := t.totalCents)
  }

  /** A new discount sent without lines leaves the total as it was, and
      new lines never change what is still due. */
  lemma DiscountAloneKeepsTotal(inv: Invoice, d: int)
    ensures var r := UpdatedInvoice(inv, InvoiceUpdate(None, None, None, None, Some(d), None));
      r.discountCents == d && r.totalCents == inv.totalCents && r.balanceDueCents == inv.balanceDueCents
  {
  }

  function NotOfInvoice(invoiceId: int): Item -> bool
  {
    (i: Item) => i.invoiceId != invoiceId
  }

  /** update_invoice */
  method UpdateInvoice(db: InvoiceDb, invoiceId: int, u: InvoiceUpdate) returns (r: Result<Invoice>)
    modifies db
    ensures FindInvoice(old(db.invoices), invoiceId).None? ==>
      r == Err(NotFound("Invoice")) && db.invoices == old(db.invoices) && db.items == old(db.items)
      && db.nextId == old(db.nextId)
    ensures FindInvoice(old(db.invoices), invoiceId).Some? ==>
      var i := FindInvoice(old(db.invoices), invoiceId).value;
      db.invoices == old(db.invoices)[i := UpdatedInvoice(old(db.invoices)[i], u)]
      && r == Ok(db.invoices[i])
      && (u.items.None? ==> db.items == old(db.items) && db.nextId == old(db.nextId))
      && (u.items.Some? ==>
            db.items == Filter(old(db.items), NotOfInvoice(invoiceId)) + ItemRows(u.items.value, invoiceId, old(db.nextId))
            && db.nextId == old(db.nextId) + |u.items.value|)
    ensures db.payments == old(db.payments) && db.settings == old(db.settings)
  {
    var found := FindInvoice(db.invoices, invoiceId);
    if found.None? {
      return Err(NotFound("Invoice"));
    }
    var i := found.value;
    var inv := UpdatedInvoice(db.invoices[i], u);
    db.invoices := db.invoices[i := inv];
    if u.items.Some? {
      db.items := Filter(db.items, NotOfInvoice(invoiceId));
      AddItemRows(db, u.items.value, invoiceId);
    }
    return Ok(inv);
  }

  // ---------------------------------------------------------------------
  // send_invoice

  /** send_invoice: the status becomes sent whatever it was, a paid
      invoice included; the PDF is not part of this model. */
  method SendInvoice(db: InvoiceDb, invoiceId: int) returns (r: Result<Invoice>)
    modifies db
    ensures FindInvoice(old(db.invoices), invoiceId).None? ==>
      r == Err(NotFound("Invoice")) && db.invoices == old(db.invoices)
    ensures FindInvoice(old(db.invoices), invoiceId).Some? ==>
      var i := FindInvoice(old(db.invoices), invoiceId).value;
      db.invoices == old(db.invoices)[i := old(db.invoices)[i].(status := Sent)] && r == Ok(db.invoices[i])
    ensures db.items == old(db.items) && db.payments == old(db.payments) && db.settings == old(db.settings)
    ensures db.nextId == old(db.nextId)
  {
    var found := FindInvoice(db.invoices, invoiceId);
    if found.None? {
      return Err(NotFound("Invoice"));
    }
    var inv := db.invoices[found.value].(status := Sent);
    db.invoices := db.invoices[found.value := inv];
    return Ok(inv);
  }
}
