/** The documents of a run: what the rows of its invoices and credit notes carry, and the period summary over
    them. */
module ShopDocuments {
  import opened Money
  import opened Orders
  import opened Pricing
  import opened TaxBreakdown
  import opened Checkout
  import opened Coupons
  import opened Documents
  import opened Reports
  import opened DocumentLaws
  import opened Shop
  import opened ShopBooks
  import opened ShopSafety
  import opened ShopExceptions
  import opened ShopRuns

  // ----- What every credit note of a run satisfies -----

  predicate NoteFine(n: Note, bill: Bill) {
    n.amount > 0 && 0 <= n.tax <= bill.TotalTax()
  }

  predicate NotesFine(o: Order) {
    forall k :: 0 <= k < |o.notes| ==> NoteFine(o.notes[k], o.bill)
  }

  predicate AllNotesFine(orders: seq<Order>) {
    forall i :: 0 <= i < |orders| ==> NotesFine(orders[i])
  }

  lemma {:induction false} NotesTaxSigned(notes: seq<Note>, bill: Bill)
    requires forall k :: 0 <= k < |notes| ==> NoteFine(notes[k], bill)
    ensures NotesTax(notes) >= 0
  {
    if notes != [] {
      NotesTaxSigned(notes[..|notes| - 1], bill);
    }
  }

  lemma SameNotes(o: Order, r: Order)
    requires NotesFine(o) && r.notes == o.notes && r.bill == o.bill
    ensures NotesFine(r)
  {
  }

  lemma OneMoreNote(o: Order, r: Order, n: Note)
    requires NotesFine(o) && r.notes == o.notes + [n] && r.bill == o.bill && NoteFine(n, o.bill)
    ensures NotesFine(r)
  {
  }

  lemma RefundNotesFine(env: Env, s: State, i: nat, amount: int, reference: Option<nat>, mark: bool)
    requires i < |s.orders| && NotesFine(s.orders[i])
    requires 0 <= s.orders[i].refundedTax && s.orders[i].bill.TotalTax() >= 0
    ensures NotesFine(RecordRefund(env, s, i, amount, reference, mark).orders[i])
  {
    if RefundIsRecorded(s, i, amount, reference) {
      var o := s.orders[i];
      var given := Min(amount, Refundable(o));
      var tax := RefundTaxFor(o.bill, o.refundedTax, given);
      var r := RecordRefund(env, s, i, amount, reference, mark).orders[i];
      RecordShape(env, s, i, amount, reference, mark);
      if o.invoiced {
        WithinAllTax(o.bill, o.refundedTax, given);
        OneMoreNote(o, r, Note(ForRefund, given, tax));
      } else {
        SameNotes(o, r);
      }
    }
  }

  lemma WithinAllTax(bill: Bill, already: int, amount: int)
    requires already >= 0 && bill.TotalTax() >= 0
    ensures 0 <= RefundTaxFor(bill, already, amount) <= bill.TotalTax()
  {
  }

  lemma CancellationNoteFine(o: Order)
    requires NotesFine(o) && NotesSound(o) && o.refundedTax <= o.bill.TotalTax()
    ensures NotesFine(MaybeCancellationNote(o))
  {
    if CancellationNoteDue(o) {
      NotesTaxSigned(o.notes, o.bill);
      var n := Note(ForCancellation, o.bill.total - NotesAmount(o.notes), o.bill.TotalTax() - NotesTax(o.notes));
      OneMoreNote(o, MaybeCancellationNote(o), n);
    }
  }

  lemma RefundStepNotes(env: Env, s: State, i: nat, id: Option<nat>, amount: Option<int>, reference: Option<nat>)
    requires i < |s.orders| && s.orders[i].payment.Some? && NotesFine(s.orders[i]) && RowSound(s.orders[i])
    ensures NotesFine(MarkRefunded(env, s, i, id, amount, reference).orders[i])
  {
    var o := s.orders[i];
    if !Seen(s, id) && !o.payment.value.status.Returned? {
      var asked := if amount.Some? then amount.value else Refundable(o);
      var u := RecordRefund(env, s, i, asked, reference, false);
      RefundShape(env, s, i, id, amount, reference);
      RefundNotesFine(env, s, i, asked, reference, false);
      SameNotes(u.orders[i], MarkRefunded(env, s, i, id, amount, reference).orders[i]);
    }
  }

  lemma SavedNotes(o: Order, e: Event)
    requires e.Edit? && ApplyPayment(o, e.payStatus, e.codPaid).Some? && NotesFine(o) && RowSound(o)
    ensures NotesFine(SavedOrder(o, e))
  {
    var r := IfCancelling(ApplyPayment(o, e.payStatus, e.codPaid).value, Cancelling(o, e));
    var saved := MaybeInvoice(r.(status := if e.status.Some? then e.status.value else o.status));
    AppliedFrame(o, e.payStatus, e.codPaid);
    SameNotes(o, saved);
    if Cancelling(o, e) {
      SameSoundNotes(o, saved);
      CancellationNoteFine(saved);
    }
  }

  lemma SameSoundNotes(o: Order, r: Order)
    requires NotesSound(o) && r.notes == o.notes && r.bill == o.bill
    requires r.refundedAmount == o.refundedAmount && r.refundedTax == o.refundedTax
    ensures NotesSound(r)
  {
  }

  lemma EditStepNotes(env: Env, s: State, e: Event)
    requires e.Edit? && e.order < |s.orders| && NotesFine(s.orders[e.order]) && RowSound(s.orders[e.order])
    ensures NotesFine(EditOrder(env, s, e).orders[e.order])
  {
    var i, o := e.order, s.orders[e.order];
    if EditIsAccepted(o, e) {
      SavedFrame(env, s, e);
      SavedNotes(o, e);
      SavedBill(o, e);
      if RecordsRefund(o, e) {
        RefundNotesFine(env, SavedEdit(env, s, e), i, if e.refund.Some? then e.refund.value else Refundable(o), None,
                        true);
      }
    }
  }

  lemma CancelStepNotes(env: Env, s: State, i: nat, staff: bool)
    requires i < |s.orders| && NotesFine(s.orders[i]) && RowSound(s.orders[i])
    ensures NotesFine(CancelOrder(env, s, i, staff).orders[i])
  {
    var t := CancelOrder(env, s, i, staff);
    if t != s {
      RestoreFrame(env, s, i);
      var u := RestoreStock(env, s, i).orders[i].(status := Cancelled);
      SameNotes(s.orders[i], u);
      SameSoundNotes(s.orders[i], u);
      CancellationNoteFine(u);
    }
  }

  lemma CaptureStepNotes(s: State, i: nat, id: Option<nat>, amount: Option<int>)
    requires i < |s.orders| && s.orders[i].payment.Some? && NotesFine(s.orders[i])
    ensures NotesFine(MarkCaptured(s, i, id, amount).orders[i])
  {
    if CaptureIgnored(s, i, id, amount) {
      IgnoredCapture(s, i, id, amount);
    } else if s.orders[i].status.Cancelled? {
      LateCapture(s, i, id, amount);
    } else {
      ConfirmingCapture(s, i, id, amount);
      SameNotes(s.orders[i], ConfirmedOrder(s.orders[i]));
    }
  }

  lemma OpeningNotes(s: State, i: nat)
    requires i < |s.orders| && NotesFine(s.orders[i])
    ensures NotesFine(BeginPayment(s, i).orders[i])
  {
    SameNotes(s.orders[i], BeginPayment(s, i).orders[i]);
  }

  lemma FailNotes(s: State, i: nat, id: Option<nat>)
    requires i < |s.orders| && s.orders[i].payment.Some? && NotesFine(s.orders[i])
    ensures NotesFine(MarkFailed(s, i, id).orders[i])
  {
    SameNotes(s.orders[i], Settle(s.orders[i], Failed).(payStatus := Declined));
  }

  lemma AbandonNotes(env: Env, s: State, i: nat)
    requires i < |s.orders| && NotesFine(s.orders[i])
    ensures NotesFine(AbandonOrder(env, s, i).orders[i])
  {
    RestoreFrame(env, s, i);
    SameNotes(s.orders[i], AbandonOrder(env, s, i).orders[i]);
  }

  lemma TargetNotes(env: Env, s: State, e: Event, i: nat)
    requires !e.FillCart? && !e.PlaceOrder? && !e.EditRecipe? && Target(e) == i < |s.orders|
    requires NotesFine(s.orders[i]) && RowSound(s.orders[i])
    ensures NotesFine(Step(env, s, e).orders[i])
  {
    if e.Capture? {
      if Found(s, i, e.session) { CaptureStepNotes(s, i, e.eventId, e.amount); }
    } else if e.GatewayRefund? {
      if s.orders[i].payment.Some? { RefundStepNotes(env, s, i, e.eventId, e.amount, e.reference); }
    } else if e.Edit? {
      EditStepNotes(env, s, e);
    } else if e.Cancel? {
      CancelStepNotes(env, s, i, e.staff);
    } else if e.Abandon? {
      AbandonNotes(env, s, i);
    } else if e.StartPayment? {
      OpeningNotes(s, i);
    } else {
      if Found(s, i, e.session) { FailNotes(s, i, e.eventId); }
    }
  }

  lemma StepKeepsNotes(env: Env, s: State, e: Event, i: nat)
    requires Books(s) && AllNotesFine(s.orders) && i < |Step(env, s, e).orders|
    ensures NotesFine(Step(env, s, e).orders[i])
  {
    if e.PlaceOrder? {
      if Accepts(env, s, e) { CommitNotes(env, s, e, i); }
    } else {
      OtherStepsAppendNothing(env, s, e);
      if !e.FillCart? && !e.EditRecipe? && Target(e) < |s.orders| {
        StepTouches(env, s, e);
        if Target(e) == i {
          assert RowSound(s.orders[i]);
          TargetNotes(env, s, e, i);
        }
      }
    }
  }

  lemma CommitNotes(env: Env, s: State, e: Event, i: nat)
    requires e.PlaceOrder? && Accepts(env, s, e) && AllNotesFine(s.orders) && i < |Commit(env, s, e).orders|
    ensures NotesFine(Commit(env, s, e).orders[i])
  {
    var t := Commit(env, s, e);
    CommitRows(env, s, e, t);
    CommitShape(env, s, e, Supersede(env, s, e.user, |s.orders|), t);
    if i < |s.orders| {
      assert RowStep(e, s.orders[i], t.orders[i]);
      SameNotes(s.orders[i], t.orders[i]);
    } else {
      assert PlacedOrder(env, e).notes == [];
    }
  }

  /** In every run each credit note credits money, and between nothing and all of its order's GST. */
  lemma {:induction false} RunNotesFine(env: Env, s: State, es: seq<Event>)
    requires Opening(s)
    ensures AllNotesFine(Run(env, s, es).orders)
  {
    if es != [] {
      var u := Run(env, s, es[..|es| - 1]);
      RunNotesFine(env, s, es[..|es| - 1]);
      RunKeepsBooks(env, s, es[..|es| - 1]);
      forall i | 0 <= i < |Run(env, s, es).orders| ensures NotesFine(Run(env, s, es).orders[i]) {
        StepKeepsNotes(env, u, es[|es| - 1], i);
      }
    }
  }

  // ----- Their rows -----

  /** The rows a note of an order is printed with. */
  function NoteDocument(bill: Bill, rate: nat, invoice: TaxDocument, n: Note, at: int): TaxDocument
    requires n.tax >= 0
  {
    if n.reason.ForRefund? then RefundNote(invoice, Breakdown(bill, rate), n.amount, n.tax, at)
    else CancellationNote(invoice, Breakdown(bill, rate), n.amount, n.tax, at)
  }

  /** Large enough for its split over the order's slabs to have no negative row. */
  predicate SplitsIntoSlabs(n: Note, bill: Bill, rate: nat) {
    n.tax == 0 || 2 * n.tax >= |Breakdown(bill, rate)| * (|Breakdown(bill, rate)| - 1)
  }

  lemma NothingLeftRows(rows: seq<Row>, whole: int)
    requires rows != [] && whole > 0
    ensures NonNegativeRows(CancellationRows(rows, 0, whole))
  {
    var zero := RoundedRows(rows, 0, whole);
    forall i | 0 <= i < |rows| ensures zero[i].tax == 0 {
      WholeUnitsStay(0, whole);
      assert 0 * rows[i].tax == 0 && whole * 0 == 0;
    }
    AllZero(Taxes(zero));
  }

  /** Untaxed rows reconcile with a tax of nothing. */
  lemma UntaxedReconcile(rows: seq<Row>, interstate: bool)
    requires forall i :: 0 <= i < |rows| ==> rows[i].tax == 0
    ensures Sum(HeadSums(SnapshotRows(rows, interstate))) == 0
  {
    AllZero(Taxes(rows));
    HeadsOfRows(rows, interstate);
  }

  lemma ValueOnlyNote(invoice: TaxDocument, rows: seq<Row>, amount: int, at: int)
    requires amount > 0
    ensures Reconciled(RefundNote(invoice, rows, amount, 0, at))
  {
    UntaxedReconcile(RefundNoteRows(rows, amount, 0), invoice.interstate);
  }

  lemma RefundNoteOfRun(bill: Bill, rate: nat, invoice: TaxDocument, n: Note, at: int)
    requires NoteFine(n, bill) && n.reason.ForRefund? && Sum(Taxes(Breakdown(bill, rate))) == bill.TotalTax()
    requires SplitsIntoSlabs(n, bill, rate)
    ensures Reconciled(NoteDocument(bill, rate, invoice, n, at))
  {
    if n.tax == 0 {
      ValueOnlyNote(invoice, Breakdown(bill, rate), n.amount, at);
    } else {
      RefundNoteReconciles(invoice, bill, rate, n.amount, n.tax, at);
    }
  }

  lemma ExemptNoteOfRun(rows: seq<Row>, invoice: TaxDocument, amount: int, at: int)
    requires invoice.totalTax == 0
    ensures Reconciled(CancellationNote(invoice, rows, amount, 0, at))
  {
    ExemptCancellation(rows);
    UntaxedReconcile(CancellationRows(rows, 0, 0), invoice.interstate);
  }

  lemma TaxedNoteOfRun(rows: seq<Row>, invoice: TaxDocument, amount: int, tax: nat, at: int)
    requires NonNegativeRows(rows) && invoice.totalTax > 0 && invoice.totalTax == Sum(Taxes(rows))
    requires tax == 0 || 2 * tax >= |rows| * (|rows| - 1)
    ensures Reconciled(CancellationNote(invoice, rows, amount, tax, at))
  {
    CancellationReconciles(invoice, rows, amount, tax, at);
    if tax == 0 {
      NothingLeftRows(rows, invoice.totalTax);
    }
  }

  lemma CancellationNoteOfRun(bill: Bill, rate: nat, invoice: TaxDocument, n: Note, at: int)
    requires NoteFine(n, bill) && n.reason.ForCancellation? && Sum(Taxes(Breakdown(bill, rate))) == bill.TotalTax()
    requires SplitsIntoSlabs(n, bill, rate) && invoice.totalTax == bill.TotalTax()
    ensures Reconciled(NoteDocument(bill, rate, invoice, n, at))
  {
    BreakdownTotal(bill, rate);
    CancellationOfRows(Breakdown(bill, rate), invoice, n.amount, n.tax, at);
  }

  lemma CancellationOfRows(rows: seq<Row>, invoice: TaxDocument, amount: int, tax: nat, at: int)
    requires NonNegativeRows(rows) && invoice.totalTax == Sum(Taxes(rows)) && tax <= invoice.totalTax
    requires tax == 0 || 2 * tax >= |rows| * (|rows| - 1)
    ensures Reconciled(CancellationNote(invoice, rows, amount, tax, at))
  {
    if invoice.totalTax > 0 {
      TaxedNoteOfRun(rows, invoice, amount, tax, at);
    } else {
      ExemptNoteOfRun(rows, invoice, amount, at);
    }
  }

  // ----- The period summary over a run -----

  /** Where and when the documents of a run are issued. */
  datatype Issue = Issue(seller: string, code: nat -> string, invoiced: nat -> int, noted: (nat, nat) -> int)

  function RunInvoice(env: Env, o: Order, i: nat, issue: Issue): TaxDocument {
    InvoiceFor(o.bill, env.policy.shippingRate, issue.code(i), issue.seller, issue.invoiced(i))
  }

  function RunInvoices(env: Env, orders: seq<Order>, issue: Issue): seq<TaxDocument> {
    if orders == [] then []
    else
      var n := |orders| - 1;
      RunInvoices(env, orders[..n], issue) + if orders[n].invoiced then [RunInvoice(env, orders[n], n, issue)] else []
  }

  function OrderNotes(env: Env, o: Order, i: nat, issue: Issue, n: nat): (docs: seq<TaxDocument>)
    requires n <= |o.notes| && NotesFine(o)
    ensures |docs| == n
  {
    if n == 0 then []
    else
      OrderNotes(env, o, i, issue, n - 1)
      + [NoteDocument(o.bill, env.policy.shippingRate, RunInvoice(env, o, i, issue), o.notes[n - 1],
                      issue.noted(i, n - 1))]
  }

  function RunNotes(env: Env, orders: seq<Order>, issue: Issue): seq<TaxDocument>
    requires AllNotesFine(orders)
  {
    if orders == [] then []
    else
      var n := |orders| - 1;
      RunNotes(env, orders[..n], issue) + OrderNotes(env, orders[n], n, issue, |orders[n].notes|)
  }

  /** Every note of the run is large enough for its slabs. */
  predicate NotesSplit(env: Env, orders: seq<Order>) {
    forall i :: 0 <= i < |orders| ==> OrderSplits(env, orders[i])
  }

  predicate OrderSplits(env: Env, o: Order) {
    forall k :: 0 <= k < |o.notes| ==> SplitsIntoSlabs(o.notes[k], o.bill, env.policy.shippingRate)
  }

  lemma PricedInvoice(env: Env, o: Order, i: nat, issue: Issue)
    requires Priced(env, o.bill)
    ensures Reconciled(RunInvoice(env, o, i, issue)) && RunInvoice(env, o, i, issue).totalTax == o.bill.TotalTax()
  {
    var cart, coupon :| o.bill == PriceCart(cart, coupon, env.policy);
    PlacedInvoiceReconciles(cart, coupon, env.policy, issue.code(i), issue.seller, issue.invoiced(i));
  }

  lemma {:induction false} OrderNotesReconcile(env: Env, o: Order, i: nat, issue: Issue, n: nat)
    requires n <= |o.notes| && NotesFine(o) && Priced(env, o.bill) && OrderSplits(env, o)
    ensures AllReconciled(OrderNotes(env, o, i, issue, n))
  {
    if n > 0 {
      OrderNotesReconcile(env, o, i, issue, n - 1);
      PricedInvoice(env, o, i, issue);
      PricedBills(env, o.bill);
      NoteOfRun(o.bill, env.policy.shippingRate, RunInvoice(env, o, i, issue), o.notes[n - 1], issue.noted(i, n - 1));
    }
  }

  lemma NoteOfRun(bill: Bill, rate: nat, invoice: TaxDocument, n: Note, at: int)
    requires NoteFine(n, bill) && Sum(Taxes(Breakdown(bill, rate))) == bill.TotalTax()
    requires SplitsIntoSlabs(n, bill, rate) && invoice.totalTax == bill.TotalTax()
    ensures Reconciled(NoteDocument(bill, rate, invoice, n, at))
  {
    if n.reason.ForRefund? {
      RefundNoteOfRun(bill, rate, invoice, n, at);
    } else {
      CancellationNoteOfRun(bill, rate, invoice, n, at);
    }
  }

  lemma ReconciledConcat(a: seq<TaxDocument>, b: seq<TaxDocument>)
    requires AllReconciled(a) && AllReconciled(b)
    ensures AllReconciled(a + b)
  {
  }

  lemma OneOrderReconciles(env: Env, o: Order, i: nat, issue: Issue)
    requires NotesFine(o) && Priced(env, o.bill) && OrderSplits(env, o)
    ensures AllReconciled(if o.invoiced then [RunInvoice(env, o, i, issue)] else [])
    ensures AllReconciled(OrderNotes(env, o, i, issue, |o.notes|))
  {
    PricedInvoice(env, o, i, issue);
    OrderNotesReconcile(env, o, i, issue, |o.notes|);
  }

  lemma {:induction false} RunDocumentsReconcile(env: Env, orders: seq<Order>, issue: Issue)
    requires AllNotesFine(orders) && AllPriced(env, orders) && NotesSplit(env, orders)
    ensures AllReconciled(RunInvoices(env, orders, issue)) && AllReconciled(RunNotes(env, orders, issue))
  {
    if orders != [] {
      var n := |orders| - 1;
      RunDocumentsReconcile(env, orders[..n], issue);
      OneOrderReconciles(env, orders[n], n, issue);
      ReconciledConcat(RunNotes(env, orders[..n], issue), OrderNotes(env, orders[n], n, issue, |orders[n].notes|));
      ReconciledConcat(RunInvoices(env, orders[..n], issue),
                       if orders[n].invoiced then [RunInvoice(env, orders[n], n, issue)] else []);
    }
  }

  /** Over every run and any window, wherever and whenever its documents were issued: CGST, SGST and IGST add up
      to the tax in the invoice, credit-note and net blocks, if every note reaches n(n-1)/2 paise of its order's
      n slabs or reverses no tax. */
  lemma RunHeadsMatchTax(env: Env, s: State, es: seq<Event>, issue: Issue, start: int, end: int)
    requires Opening(s) && NotesSplit(env, Run(env, s, es).orders)
    ensures AllNotesFine(Run(env, s, es).orders)
    ensures var orders := Run(env, s, es).orders;
      var inv := BlockOf(Window(RunInvoices(env, orders, issue), start, end));
      var credit := BlockOf(Window(RunNotes(env, orders, issue), start, end));
      HeadsMatchTax(inv) && HeadsMatchTax(credit) && HeadsMatchTax(NetBlock(inv, credit))
  {
    var orders := Run(env, s, es).orders;
    RunNotesFine(env, s, es);
    RunPricesOrders(env, s, es);
    RunDocumentsReconcile(env, orders, issue);
    PeriodHeadsMatchTax(RunInvoices(env, orders, issue), RunNotes(env, orders, issue), start, end);
  }

  // ----- The state-wise report over a run -----

  lemma HeadedConcat(a: seq<TaxDocument>, b: seq<TaxDocument>, seller: string)
    requires AllHeaded(a, seller) && AllHeaded(b, seller)
    ensures AllHeaded(a + b, seller)
  {
  }

  lemma {:induction false} InvoicesHeaded(env: Env, orders: seq<Order>, issue: Issue)
    requires |issue.seller| >= 2
    ensures AllHeaded(RunInvoices(env, orders, issue), issue.seller)
  {
    if orders != [] {
      var n := |orders| - 1;
      var invoice := RunInvoice(env, orders[n], n, issue);
      InvoicesHeaded(env, orders[..n], issue);
      InvoiceIs(orders[n].bill, env.policy.shippingRate, issue.code(n), issue.seller, issue.invoiced(n), invoice);
      HeadedConcat(RunInvoices(env, orders[..n], issue), if orders[n].invoiced then [invoice] else [], issue.seller);
    }
  }

  lemma {:induction false} OrderNotesHeaded(env: Env, o: Order, i: nat, issue: Issue, n: nat)
    requires n <= |o.notes| && NotesFine(o) && |issue.seller| >= 2
    ensures AllHeaded(OrderNotes(env, o, i, issue, n), issue.seller)
  {
    if n > 0 {
      var note := o.notes[n - 1];
      OrderNotesHeaded(env, o, i, issue, n - 1);
      NotesAreHeaded(o.bill, env.policy.shippingRate, issue.code(i), issue.seller, issue.invoiced(i),
                     Breakdown(o.bill, env.policy.shippingRate), note.amount, note.tax, issue.noted(i, n - 1));
    }
  }

  lemma {:induction false} NotesHeaded(env: Env, orders: seq<Order>, issue: Issue)
    requires AllNotesFine(orders) && |issue.seller| >= 2
    ensures AllHeaded(RunNotes(env, orders, issue), issue.seller)
  {
    if orders != [] {
      var n := |orders| - 1;
      NotesHeaded(env, orders[..n], issue);
      OrderNotesHeaded(env, orders[n], n, issue, |orders[n].notes|);
      HeadedConcat(RunNotes(env, orders[..n], issue), OrderNotes(env, orders[n], n, issue, |orders[n].notes|),
                   issue.seller);
    }
  }

  lemma {:induction false} WindowHeaded(docs: seq<TaxDocument>, start: int, end: int, seller: string)
    requires AllHeaded(docs, seller)
    ensures AllHeaded(Window(docs, start, end), seller)
  {
    if docs != [] {
      WindowHeaded(docs[..|docs| - 1], start, end, seller);
    }
  }

  /** Over every run and any window, wherever its orders were supplied: the state-wise report shows no IGST for the
      seller's own state and nothing but IGST for any other, invoiced, credited or net. */
  lemma RunStatesShowTheirHeads(env: Env, s: State, es: seq<Event>, issue: Issue, start: int, end: int, i: nat)
    requires Opening(s) && |issue.seller| >= 2
    ensures AllNotesFine(Run(env, s, es).orders)
    ensures var orders := Run(env, s, es).orders;
      var gross := StateEntries(Window(RunInvoices(env, orders, issue), start, end));
      var credit := StateEntries(Window(RunNotes(env, orders, issue), start, end));
      var rows := StateRows(StateKeys(gross + credit), gross, credit);
      i < |rows| ==>
        var home := AtHome(rows[i].key.code, issue.seller);
        && TallyHeaded(rows[i].gross, home) && TallyHeaded(rows[i].credit, home)
        && if home then rows[i].net.igst == 0 else rows[i].net.cgst == 0 && rows[i].net.sgst == 0
  {
    var orders := Run(env, s, es).orders;
    RunNotesFine(env, s, es);
    var invoices, notes := RunInvoices(env, orders, issue), RunNotes(env, orders, issue);
    InvoicesHeaded(env, orders, issue);
    NotesHeaded(env, orders, issue);
    WindowHeaded(invoices, start, end, issue.seller);
    WindowHeaded(notes, start, end, issue.seller);
    var gross, credit := StateEntries(Window(invoices, start, end)), StateEntries(Window(notes, start, end));
    if i < |StateKeys(gross + credit)| {
      StatesShowTheirHeads(Window(invoices, start, end), Window(notes, start, end), issue.seller, i);
    }
  }
}
