/** Recording a payment against an invoice: the payment row is stored and
    the invoice's balance goes down by the amount; a balance that reaches
    zero or below is set to zero and the invoice is paid. The sign of the
    amount is not checked. */
module Payments {
  import opened Common
  import opened Invoices

  /** The invoice after a payment of `amountCents`. */
  function AppliedPayment(inv: Invoice, amountCents: int): (r: Invoice)
    ensures r.balanceDueCents >= 0
    ensures inv.balanceDueCents - amountCents <= 0 ==> r.balanceDueCents == 0 && r.status == Paid
    ensures inv.balanceDueCents - amountCents > 0 ==>
      r.balanceDueCents == inv.balanceDueCents - amountCents && r.status == inv.status
    ensures r == inv.(balanceDueCents := r.balanceDueCents, status := r.status)
  {
    var balance := inv.balanceDueCents - amountCents;
    if balance <= 0 then inv.(status := Paid, balanceDueCents := 0) else inv.(balanceDueCents := balance)
  }

  /** Two payments that leave money owed after the first are one payment
      of their sum; paying the whole balance pays the invoice. */
  lemma PaymentsCompose(inv: Invoice, a: int, b: int)
    requires inv.balanceDueCents - a > 0
    ensures AppliedPayment(AppliedPayment(inv, a), b) == AppliedPayment(inv, a + b)
    ensures AppliedPayment(inv, inv.balanceDueCents).status == Paid
  {
  }

  /** A negative amount raises the balance instead, and an invoice already
      paid stays marked paid though money is owed again. */
  lemma NegativePaymentOnPaid(inv: Invoice, amountCents: int)
    requires inv.status == Paid && inv.balanceDueCents == 0 && amountCents < 0
    ensures AppliedPayment(inv, amountCents).balanceDueCents == -amountCents > 0
    ensures AppliedPayment(inv, amountCents).status == Paid
  {
  }

  /** record_payment */
  method RecordPayment(db: InvoiceDb, invoiceId: int, amountCents: int, paidAt: int, payMethod: string)
    returns (r: Result<Payment>)
    modifies db
    ensures FindInvoice(old(db.invoices), invoiceId).None? ==>
      r == Err(NotFound("Invoice")) && db.invoices == old(db.invoices) && db.payments == old(db.payments)
      && db.nextId == old(db.nextId)
    ensures FindInvoice(old(db.invoices), invoiceId).Some? ==>
      var i := FindInvoice(old(db.invoices), invoiceId).value;
      var p := Payment(old(db.nextId), invoiceId, amountCents, paidAt, payMethod);
      r == Ok(p) && db.payments == old(db.payments) + [p] && db.nextId == old(db.nextId) + 1
      && db.invoices == old(db.invoices)[i := AppliedPayment(old(db.invoices)[i], amountCents)]
    ensures db.items == old(db.items) && db.settings == old(db.settings)
  {
    var found := FindInvoice(db.invoices, invoiceId);
    if found.None? {
      return Err(NotFound("Invoice"));
    }
    var i := found.value;
    var p := Payment(db.nextId, invoiceId, amountCents, paidAt, payMethod);
    db.payments := db.payments + [p];
    db.nextId := db.nextId + 1;
    var inv := db.invoices[i];
    inv := inv.(balanceDueCents := inv.balanceDueCents - amountCents);
    if inv.balanceDueCents <= 0 {
      inv := inv.(status := Paid, balanceDueCents := 0);
    }
    db.invoices := db.invoices[i := inv];
    return Ok(p);
  }
}
