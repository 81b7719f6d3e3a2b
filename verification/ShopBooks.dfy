/** What every run keeps about the refund ledger, the credit notes, the audit trail and the
    payment sessions of every order. */
module ShopBooks {
  import opened Money
  import opened Orders
  import opened Pricing
  import opened TaxBreakdown
  import opened Checkout
  import opened Coupons
  import opened Shop

  // ----- What an order row satisfies on its own -----

  /** Amounts credited by refunds recorded after the cancellation note. */
  function LateAmount(notes: seq<Note>): int {
    if notes == [] then 0
    else
      var n := |notes| - 1;
      if notes[n].reason.ForCancellation? || !HasCancellation(notes[..n]) then 0
      else LateAmount(notes[..n]) + notes[n].amount
  }

  function LateTax(notes: seq<Note>): int {
    if notes == [] then 0
    else
      var n := |notes| - 1;
      if notes[n].reason.ForCancellation? || !HasCancellation(notes[..n]) then 0
      else LateTax(notes[..n]) + notes[n].tax
  }

  predicate OneCancellation(notes: seq<Note>) {
    forall i, j :: 0 <= i < j < |notes| ==> !(notes[i].reason.ForCancellation? && notes[j].reason.ForCancellation?)
  }

  /** Credit notes against the invoice: at most one cancellation, which brings the notes to exactly the
      invoice; only refunds recorded after it go past. Without one, notes never exceed the refunds. */
  predicate NotesSound(o: Order) {
    && OneCancellation(o.notes)
    && LateAmount(o.notes) >= 0 && LateTax(o.notes) >= 0
    && (HasCancellation(o.notes) ==>
          && NotesAmount(o.notes) == o.bill.total + LateAmount(o.notes)
          && NotesTax(o.notes) == o.bill.TotalTax() + LateTax(o.notes))
    && (!HasCancellation(o.notes) ==>
          NotesAmount(o.notes) <= o.refundedAmount && NotesTax(o.notes) <= o.refundedTax && LateAmount(o.notes) == 0)
  }

  predicate MoneySound(o: Order) {
    && o.bill.total >= 0 && o.bill.TotalTax() >= 0
    && 0 <= o.refundedAmount <= o.bill.total
    && 0 <= o.refundedTax <= o.bill.TotalTax()
    && (o.status.Refunded? ==> o.refundedAmount > 0)
  }

  /** Stock given back at most once; over all of a payment's sessions, one confirmation for every time it
      was settled: at most one more than the times it was reopened after that. */
  predicate OnceOnly(o: Order) {
    && o.restocks == (if o.restored then 1 else 0)
    && (o.payment.Some? ==>
          var p := o.payment.value; p.confirmed <= p.reopened + if Terminal(p) then 1 else 0)
  }

  predicate RowSound(o: Order) {
    MoneySound(o) && NotesSound(o) && OnceOnly(o)
  }

  // ----- What links a row to the ledger and the audit trail -----

  /** The last status an order's audit trail says its payment moved to. */
  function LastStatus(audit: seq<Audit>, i: nat): Option<GatewayStatus> {
    if audit == [] then None
    else
      var a := audit[|audit| - 1];
      if a.order == i && a.toStatus.Some? then a.toStatus else LastStatus(audit[..|audit| - 1], i)
  }

  predicate Linked(s: State, i: nat)
    requires i < |s.orders|
  {
    var o := s.orders[i];
    && o.refundedAmount == LedgerAmount(s.ledger, i)
    && o.refundedTax == LedgerTax(s.ledger, i)
    && LastStatus(s.audit, i) == (if o.payment.Some? then Some(o.payment.value.status) else None)
  }

  predicate LedgerSound(s: State) {
    && (forall k :: 0 <= k < |s.ledger| ==>
          s.ledger[k].order < |s.orders| && s.ledger[k].amount > 0 && s.ledger[k].tax >= 0)
    && (forall j, k :: 0 <= j < k < |s.ledger| && s.ledger[j].reference.Some? ==>
          s.ledger[j].reference != s.ledger[k].reference)
    && (forall k :: 0 <= k < |s.audit| ==> s.audit[k].order < |s.orders|)
  }

  predicate Books(s: State) {
    && LedgerSound(s)
    && (forall i :: 0 <= i < |s.orders| ==> RowSound(s.orders[i]))
    && (forall i :: 0 <= i < |s.orders| ==> Linked(s, i))
  }

  // ----- A step that concerns one order -----

  predicate Extends<T(==)>(a: seq<T>, b: seq<T>) {
    |b| <= |a| + 1 && |a| <= |b| && b[..|a|] == a
  }

  /** Only order i changes; the ledger and the audit trail grow by at most one entry, about i. */
  predicate Concerns(s: State, t: State, i: nat) {
    && i < |s.orders| == |t.orders|
    && (forall j :: 0 <= j < |s.orders| && j != i ==> t.orders[j] == s.orders[j])
    && Extends(s.ledger, t.ledger) && (|t.ledger| > |s.ledger| ==> t.ledger[|s.ledger|].order == i)
    && Extends(s.audit, t.audit) && (|t.audit| > |s.audit| ==> t.audit[|s.audit|].order == i)
  }

  lemma OthersStayLinked(s: State, t: State, i: nat, j: nat)
    requires Concerns(s, t, i) && j < |s.orders| && j != i && Linked(s, j)
    ensures Linked(t, j)
  {
    if |t.ledger| == |s.ledger| {
      assert t.ledger == s.ledger;
    }
    if |t.audit| == |s.audit| {
      assert t.audit == s.audit;
    }
  }

  lemma LocalStepKeepsBooks(s: State, t: State, i: nat)
    requires Books(s) && Concerns(s, t, i)
    requires RowSound(t.orders[i]) && Linked(t, i) && LedgerSound(t)
    ensures Books(t)
  {
    forall j | 0 <= j < |t.orders| ensures RowSound(t.orders[j]) && Linked(t, j) {
      if j != i {
        OthersStayLinked(s, t, i, j);
      }
    }
  }

  lemma AuditOnly(s: State, t: State, i: nat)
    requires Books(s) && Concerns(s, t, i) && t.ledger == s.ledger
    requires RowSound(t.orders[i]) && Linked(t, i)
    ensures Books(t)
  {
    assert forall k :: 0 <= k < |s.audit| ==> t.audit[k] == s.audit[k] by {
      assert t.audit[..|s.audit|] == s.audit;
    }
    LocalStepKeepsBooks(s, t, i);
  }

  // ----- Payment events -----

  lemma LogsStatus(s: State, i: nat, kind: AuditKind, from: Option<GatewayStatus>, to: Option<GatewayStatus>,
                   alert: bool)
    ensures var t := Log(s, i, kind, from, to, alert);
      LastStatus(t.audit, i) == if to.Some? then to else LastStatus(s.audit, i)
    ensures Extends(s.audit, Log(s, i, kind, from, to, alert).audit)
  {
    var a := Audit(i, kind, from, to, alert);
    assert (s.audit + [a])[..|s.audit|] == s.audit;
  }

  /** Order i replaced and one audit entry written about it. */
  function LogPut(s: State, i: nat, o: Order, kind: AuditKind, from: Option<GatewayStatus>, to: Option<GatewayStatus>,
                  alert: bool): State
    requires i < |s.orders|
  {
    Log(Put(s, i, o), i, kind, from, to, alert)
  }

  lemma LogPutKeepsBooks(s: State, i: nat, o: Order, kind: AuditKind, from: Option<GatewayStatus>,
                         to: Option<GatewayStatus>, alert: bool)
    requires Books(s) && i < |s.orders| && RowSound(o)
    requires o.refundedAmount == s.orders[i].refundedAmount && o.refundedTax == s.orders[i].refundedTax
    requires to.Some? ==> o.payment.Some? && to.value == o.payment.value.status
    requires to.None? ==> o.payment == s.orders[i].payment
    ensures Books(LogPut(s, i, o, kind, from, to, alert))
  {
    var t := LogPut(s, i, o, kind, from, to, alert);
    LogsStatus(Put(s, i, o), i, kind, from, to, alert);
    assert Linked(s, i);
    AuditOnly(s, t, i);
  }

  /** Books look at orders, ledger and audit trail only. */
  lemma SameBooks(s: State, t: State)
    requires Books(s) && t.orders == s.orders && t.ledger == s.ledger && t.audit == s.audit
    ensures Books(t)
  {
    forall i | 0 <= i < |t.orders| ensures Linked(t, i) {
      assert Linked(s, i);
    }
  }

  /** A log entry without a status, on an unchanged row. */
  lemma NoteKeepsBooks(s: State, i: nat, kind: AuditKind, alert: bool)
    requires Books(s) && i < |s.orders|
    ensures Books(Log(s, i, kind, None, None, alert))
  {
    assert Put(s, i, s.orders[i]) == s;
    LogPutKeepsBooks(s, i, s.orders[i], kind, None, None, alert);
  }

  lemma ConfirmedKeepsRow(o: Order)
    requires RowSound(o) && o.payment.Some?
    requires o.payment.value.status.Awaiting? || o.payment.value.status.Failed?
    ensures RowSound(ConfirmedOrder(o)) && RowSound(Settle(o, Completed))
  {
  }

  lemma IgnoredCaptureKeepsBooks(s: State, i: nat, id: Option<nat>, amount: Option<int>)
    requires Books(s) && i < |s.orders| && s.orders[i].payment.Some?
    requires CaptureIgnored(s, i, id, amount)
    ensures Books(MarkCaptured(s, i, id, amount))
  {
    var t := MarkCaptured(s, i, id, amount);
    if Terminal(s.orders[i].payment.value) || Seen(s, id) {
      NoteKeepsBooks(s, i, DuplicateIgnored, false);
      SameBooks(Log(s, i, DuplicateIgnored, None, None, false), t);
    } else {
      NoteKeepsBooks(s, i, AmountMismatch, true);
      SameBooks(Log(s, i, AmountMismatch, None, None, true), t);
    }
  }

  lemma AcceptedCaptureKeepsBooks(s: State, i: nat, id: Option<nat>, amount: Option<int>)
    requires Books(s) && i < |s.orders| && s.orders[i].payment.Some?
    requires !CaptureIgnored(s, i, id, amount)
    ensures Books(MarkCaptured(s, i, id, amount))
  {
    var o := s.orders[i];
    ConfirmedKeepsRow(o);
    var cancelled := o.status.Cancelled?;
    var r := if cancelled then Settle(o, Completed) else ConfirmedOrder(o);
    var kind := if cancelled then CapturedAfterCancel else Captured;
    var from := if cancelled then Awaiting else o.payment.value.status;
    LogPutKeepsBooks(s, i, r, kind, Some(from), Some(Completed), cancelled);
    SameBooks(LogPut(s, i, r, kind, Some(from), Some(Completed), cancelled), MarkCaptured(s, i, id, amount));
  }

  lemma CaptureKeepsBooks(s: State, i: nat, id: Option<nat>, amount: Option<int>)
    requires Books(s) && i < |s.orders| && s.orders[i].payment.Some?
    ensures Books(MarkCaptured(s, i, id, amount))
  {
    if CaptureIgnored(s, i, id, amount) {
      IgnoredCaptureKeepsBooks(s, i, id, amount);
    } else {
      AcceptedCaptureKeepsBooks(s, i, id, amount);
    }
  }

  lemma DeclinedKeepsBooks(s: State, i: nat, t: State)
    requires Books(s) && i < |s.orders| && s.orders[i].payment.Some? && s.orders[i].payment.value.status.Awaiting?
    requires
      var d := LogPut(s, i, Settle(s.orders[i], Failed).(payStatus := Declined), PaymentFailed, Some(Awaiting),
                      Some(Failed), false);
      t.orders == d.orders && t.ledger == d.ledger && t.audit == d.audit
    ensures Books(t)
  {
    var d := Settle(s.orders[i], Failed).(payStatus := Declined);
    assert RowSound(s.orders[i]);
    LogPutKeepsBooks(s, i, d, PaymentFailed, Some(Awaiting), Some(Failed), false);
    SameBooks(LogPut(s, i, d, PaymentFailed, Some(Awaiting), Some(Failed), false), t);
  }

  lemma FailKeepsBooks(s: State, i: nat, id: Option<nat>)
    requires Books(s) && i < |s.orders| && s.orders[i].payment.Some?
    ensures Books(MarkFailed(s, i, id))
  {
    var t := MarkFailed(s, i, id);
    if !Seen(s, id) {
      if s.orders[i].payment.value.status.Awaiting? {
        DeclinedKeepsBooks(s, i, t);
      } else {
        NoteKeepsBooks(s, i, OutOfOrderIgnored, false);
        SameBooks(Log(s, i, OutOfOrderIgnored, None, None, false), t);
      }
    }
  }

  lemma BeginKeepsBooks(s: State, i: nat)
    requires Books(s) && i < |s.orders|
    ensures Books(BeginPayment(s, i))
  {
    var o, t := s.orders[i], BeginPayment(s, i);
    if t != s {
      LogPutKeepsBooks(s, i, t.orders[i], OrderCreated, None, Some(Awaiting), false);
    }
  }

  // ----- Restocking, notes and cancellation -----

  lemma RestoreFrame(env: Env, s: State, i: nat)
    requires i < |s.orders|
    ensures var t := RestoreStock(env, s, i);
      && t.ledger == s.ledger && t.audit == s.audit && t.processed == s.processed
      && t.coupons == s.coupons && t.carts == s.carts && t.recipes == s.recipes
      && (forall j :: 0 <= j < |s.orders| && j != i ==> t.orders[j] == s.orders[j])
      && (var o := s.orders[i]; t.orders[i] == if o.restored then o
        else o.(restored := true, restocks := o.restocks + 1))
  {
  }

  /** Restocking an order and then rewriting its row. */
  lemma RestoreThenPut(env: Env, s: State, i: nat, o: Order, t: State)
    requires Books(s) && i < |s.orders| && RowSound(o)
    requires o.refundedAmount == s.orders[i].refundedAmount && o.refundedTax == s.orders[i].refundedTax
    requires o.payment == s.orders[i].payment
    requires t.orders == RestoreStock(env, s, i).orders[i := o] && t.ledger == s.ledger
    requires t.audit == s.audit
    ensures Books(t)
  {
    RestoreFrame(env, s, i);
    assert Linked(s, i);
    AuditOnly(s, t, i);
  }

  lemma CancellationAppended(notes: seq<Note>, n: Note)
    requires !HasCancellation(notes) && n.reason.ForCancellation?
    ensures var m := notes + [n];
      && HasCancellation(m) && OneCancellation(m) && LateAmount(m) == 0 && LateTax(m) == 0
      && NotesAmount(m) == NotesAmount(notes) + n.amount && NotesTax(m) == NotesTax(notes) + n.tax
  {
    var m := notes + [n];
    assert m[..|notes|] == notes && m[|notes|] == n;
  }

  lemma CancellationKeepsRow(o: Order)
    requires RowSound(o)
    ensures RowSound(MaybeCancellationNote(o))
  {
    if CancellationNoteDue(o) {
      CancellationAppended(o.notes,
                           Note(ForCancellation, o.bill.total - NotesAmount(o.notes),
                                o.bill.TotalTax() - NotesTax(o.notes)));
    }
  }

  lemma CancelKeepsBooks(env: Env, s: State, i: nat, staff: bool)
    requires Books(s) && i < |s.orders|
    ensures Books(CancelOrder(env, s, i, staff))
  {
    var t := CancelOrder(env, s, i, staff);
    if t != s {
      RestoreFrame(env, s, i);
      CancellationKeepsRow(RestoreStock(env, s, i).orders[i].(status := Cancelled));
      RestoreThenPut(env, s, i, t.orders[i], t);
    }
  }

  lemma ClosedKeepsBooks(env: Env, s: State, i: nat)
    requires Books(s) && i < |s.orders|
    ensures Books(CloseUnpaid(env, s, i))
  {
    var t := CloseUnpaid(env, s, i);
    RestoreFrame(env, s, i);
    RestoreThenPut(env, s, i, t.orders[i], t);
  }

  lemma AbandonKeepsBooks(env: Env, s: State, i: nat)
    requires Books(s) && i < |s.orders|
    ensures Books(AbandonOrder(env, s, i))
  {
    if AbandonOrder(env, s, i) != s {
      ClosedKeepsBooks(env, s, i);
      NoteKeepsBooks(CloseUnpaid(env, s, i), i, AutoCancelled, false);
    }
  }

  // ----- Refunds -----

  lemma LedgerGrows(ledger: seq<RefundRow>, row: RefundRow, i: nat)
    ensures LedgerAmount(ledger + [row], i) == LedgerAmount(ledger, i) + if row.order == i then row.amount else 0
    ensures LedgerTax(ledger + [row], i) == LedgerTax(ledger, i) + if row.order == i then row.tax else 0
  {
    assert (ledger + [row])[..|ledger|] == ledger;
  }

  lemma RefundNoteAppended(notes: seq<Note>, n: Note)
    requires n.reason.ForRefund?
    ensures var m := notes + [n];
      && (HasCancellation(m) <==> HasCancellation(notes)) && (OneCancellation(notes) ==> OneCancellation(m))
      && NotesAmount(m) == NotesAmount(notes) + n.amount && NotesTax(m) == NotesTax(notes) + n.tax
      && LateAmount(m) == (if HasCancellation(notes) then LateAmount(notes) + n.amount else 0)
      && LateTax(m) == (if HasCancellation(notes) then LateTax(notes) + n.tax else 0)
  {
    var m := notes + [n];
    assert m[..|notes|] == notes && m[|notes|] == n;
    if HasCancellation(notes) {
      var k :| 0 <= k < |notes| && notes[k].reason.ForCancellation?;
      assert m[k].reason.ForCancellation?;
    }
  }

  /** What recording a refund does to the row and the ledger. */
  lemma RecordShape(env: Env, s: State, i: nat, amount: int, reference: Option<nat>, mark: bool)
    requires i < |s.orders| && RefundIsRecorded(s, i, amount, reference)
    ensures var o, t := s.orders[i], RecordRefund(env, s, i, amount, reference, mark);
      var given := Min(amount, Refundable(o));
      var row := RefundRow(i, given, RefundTaxFor(o.bill, o.refundedTax, given), reference);
      && t.ledger == s.ledger + [row] && t.audit == s.audit
      && (forall j :: 0 <= j < |s.orders| && j != i ==> t.orders[j] == s.orders[j])
      && (var r := RefundedOrder(o, t.ledger, i, mark);
          t.orders[i] == AddNote(if r.restored then r else r.(restored := true, restocks := r.restocks + 1),
                                 Note(ForRefund, given, row.tax)))
  {
    var o := s.orders[i];
    var given := Min(amount, Refundable(o));
    var ledger := s.ledger + [RefundRow(i, given, RefundTaxFor(o.bill, o.refundedTax, given), reference)];
    RestoreFrame(env, Put(s, i, RefundedOrder(o, ledger, i, mark)).(ledger := ledger), i);
  }

  /** Sound but for a status that says "refunded" before the ledger does. */
  predicate RowSoundSoFar(o: Order) {
    RowSound(o.(status := Pending))
  }

  lemma RefundKeepsRow(o: Order, r: Order, given: int, tax: int)
    requires RowSoundSoFar(o)
    requires 0 < given <= Refundable(o) && 0 <= tax <= o.bill.TotalTax() - o.refundedTax
    requires r == o.(refundedAmount := o.refundedAmount + given, refundedTax := o.refundedTax + tax,
                     status := r.status, payStatus := r.payStatus, restored := true, restocks := 1)
    ensures RowSound(AddNote(r, Note(ForRefund, given, tax)))
  {
    RefundNoteAppended(o.notes, Note(ForRefund, given, tax));
  }

  lemma NewLedgerRow(s: State, t: State, i: nat, row: RefundRow)
    requires LedgerSound(s) && i < |s.orders| == |t.orders|
    requires t.ledger == s.ledger + [row] && t.audit == s.audit
    requires row.order == i && row.amount > 0 && row.tax >= 0 && !ReferenceKnown(s.ledger, row.reference)
    ensures LedgerSound(t)
  {
  }

  /** Recording a refund keeps the books, even on a row already marked refunded. */
  lemma RecordKeepsBooks(env: Env, s: State, i: nat, amount: int, reference: Option<nat>, mark: bool)
    requires i < |s.orders| && RefundIsRecorded(s, i, amount, reference)
    requires Books(Put(s, i, s.orders[i].(status := Pending)))
    ensures Books(RecordRefund(env, s, i, amount, reference, mark))
  {
    var o, t := s.orders[i], RecordRefund(env, s, i, amount, reference, mark);
    var base := Put(s, i, o.(status := Pending));
    assert RowSound(base.orders[i]) && Linked(base, i);
    var given := Min(amount, Refundable(o));
    var row := RefundRow(i, given, RefundTaxFor(o.bill, o.refundedTax, given), reference);
    RecordShape(env, s, i, amount, reference, mark);
    LedgerGrows(s.ledger, row, i);
    RefundedRow(o, t.ledger, i, mark, given, row.tax);
    NewLedgerRow(base, t, i, row);
    RecordedKeepsBooks(base, t, i, row);
  }

  lemma RecordedKeepsBooks(s: State, t: State, i: nat, row: RefundRow)
    requires Books(s) && i < |s.orders| == |t.orders| && LedgerSound(t) && row.order == i
    requires forall j :: 0 <= j < |s.orders| && j != i ==> t.orders[j] == s.orders[j]
    requires t.ledger == s.ledger + [row] && t.audit == s.audit
    requires RowSound(t.orders[i]) && Linked(t, i)
    ensures Books(t)
  {
    assert t.ledger[..|s.ledger|] == s.ledger;
    LocalStepKeepsBooks(s, t, i);
  }

  lemma RefundedRow(o: Order, ledger: seq<RefundRow>, i: nat, mark: bool, given: int, tax: int)
    requires RowSoundSoFar(o) && 0 < given <= Refundable(o) && 0 <= tax <= o.bill.TotalTax() - o.refundedTax
    requires LedgerAmount(ledger, i) == o.refundedAmount + given && LedgerTax(ledger, i) == o.refundedTax + tax
    ensures
      var r := RefundedOrder(o, ledger, i, mark);
      var t := AddNote(if r.restored then r else r.(restored := true, restocks := r.restocks + 1),
                       Note(ForRefund, given, tax));
      RowSound(t) && t.payment == o.payment && t.refundedAmount == LedgerAmount(ledger, i)
        && t.refundedTax == LedgerTax(ledger, i)
  {
    var r := RefundedOrder(o, ledger, i, mark);
    var u := if r.restored then r else r.(restored := true, restocks := r.restocks + 1);
    RefundedOrderIs(o, ledger, i, mark, o.refundedAmount + given, o.refundedTax + tax);
    RestockedOnce(o);
    RefundKeepsRow(o, u, given, tax);
  }

  lemma RefundedOrderIs(o: Order, ledger: seq<RefundRow>, i: nat, mark: bool, amount: int, tax: int)
    requires amount == LedgerAmount(ledger, i) && tax == LedgerTax(ledger, i)
    ensures var r := RefundedOrder(o, ledger, i, mark);
      r == o.(refundedAmount := amount, refundedTax := tax, status := r.status, payStatus := r.payStatus)
  {
  }

  lemma RestockedOnce(o: Order)
    requires RowSoundSoFar(o)
    ensures o.restocks == if o.restored then 1 else 0
  {
  }

  lemma RefundedKeepsBooks(env: Env, s: State, i: nat, id: Option<nat>, amount: Option<int>, reference: Option<nat>)
    requires Books(s) && i < |s.orders| && s.orders[i].payment.Some?
    ensures Books(MarkRefunded(env, s, i, id, amount, reference))
  {
    var o, t := s.orders[i], MarkRefunded(env, s, i, id, amount, reference);
    if Seen(s, id) || o.payment.value.status.Returned? {
      SameBooks(s, t);
    } else {
      var given := if amount.Some? then amount.value else Refundable(o);
      GatewayRecordKeepsBooks(env, s, i, given, reference);
      RecordKeepsPayment(env, s, i, given, reference, false);
      SettledKeepsBooks(RecordRefund(env, s, i, given, reference, false), i, o.payment.value.status, t);
    }
  }

  lemma GatewayRecordKeepsBooks(env: Env, s: State, i: nat, amount: int, reference: Option<nat>)
    requires Books(s) && i < |s.orders|
    ensures Books(RecordRefund(env, s, i, amount, reference, false))
  {
    if RefundIsRecorded(s, i, amount, reference) {
      PendingKeepsBooks(s, i);
      RecordKeepsBooks(env, s, i, amount, reference, false);
    }
  }

  lemma PendingKeepsBooks(s: State, i: nat)
    requires Books(s) && i < |s.orders|
    ensures Books(Put(s, i, s.orders[i].(status := Pending)))
  {
    assert Linked(s, i);
    AuditOnly(s, Put(s, i, s.orders[i].(status := Pending)), i);
  }

  /** The payment's own row follows the ledger: returned once the whole order is. */
  lemma SettledKeepsBooks(u: State, i: nat, from: GatewayStatus, t: State)
    requires Books(u) && i < |u.orders| && u.orders[i].payment.Some? && u.orders[i].payment.value.status == from
    requires var settled := SettledRefund(u, i, from);
      t.orders == settled.orders && t.ledger == settled.ledger && t.audit == settled.audit
    ensures Books(t)
  {
    var after := if FullyRefunded(u.orders[i]) then Returned else from;
    assert RowSound(u.orders[i]);
    LogPutKeepsBooks(u, i, Settle(u.orders[i], after), PaymentRefunded, Some(from), Some(after), false);
    SameBooks(LogPut(u, i, Settle(u.orders[i], after), PaymentRefunded, Some(from), Some(after), false), t);
  }

  // ----- Admin edits -----

  function IfCancelling(p: Order, cancelling: bool): Order {
    if cancelling && !p.restored then p.(restored := true, restocks := p.restocks + 1) else p
  }

  /** The row an edit saves before any refund it records. */
  function SavedOrder(o: Order, e: Event): Order
    requires e.Edit? && ApplyPayment(o, e.payStatus, e.codPaid).Some?
  {
    var r := IfCancelling(ApplyPayment(o, e.payStatus, e.codPaid).value, Cancelling(o, e));
    EditedOrder(r, if e.status.Some? then e.status.value else o.status, Cancelling(o, e))
  }

  lemma AppliedFrame(o: Order, payStatus: Option<PayStatus>, codPaid: Option<bool>)
    requires ApplyPayment(o, payStatus, codPaid).Some?
    ensures var p := ApplyPayment(o, payStatus, codPaid).value;
      p == o.(payStatus := p.payStatus, codPaid := p.codPaid)
  {
  }

  lemma PaymentMarksKeepRow(o: Order, payStatus: PayStatus, codPaid: bool)
    requires RowSound(o)
    ensures RowSound(o.(payStatus := payStatus, codPaid := codPaid))
  {
    var p := o.(payStatus := payStatus, codPaid := codPaid);
    assert p.notes == o.notes && p.payment == o.payment && p.bill == o.bill && p.status == o.status;
  }

  lemma EditedRow(r: Order, status: Status, cancelling: bool)
    requires RowSound(r)
    ensures var t := EditedOrder(r, status, cancelling);
      && RowSoundSoFar(t) && t == r.(status := status, invoiced := t.invoiced, notes := t.notes)
  {
    var saved := MaybeInvoice(r.(status := status));
    assert RowSoundSoFar(saved);
    if cancelling && CancellationNoteDue(saved) {
      CancellationKeepsRow(saved);
    }
  }

  lemma RestockKeepsRow(p: Order, cancelling: bool)
    requires RowSound(p)
    ensures var r := IfCancelling(p, cancelling);
      RowSound(r) && r == p.(restored := r.restored, restocks := r.restocks)
  {
  }

  lemma SavedRow(o: Order, e: Event)
    requires e.Edit? && ApplyPayment(o, e.payStatus, e.codPaid).Some? && RowSound(o)
    ensures var r := SavedOrder(o, e);
      && RowSoundSoFar(r) && r.payment == o.payment && r.refundedAmount == o.refundedAmount
        && r.refundedTax == o.refundedTax
      && r.bill == o.bill && r.status == if e.status.Some? then e.status.value else o.status
  {
    var p := ApplyPayment(o, e.payStatus, e.codPaid).value;
    AppliedFrame(o, e.payStatus, e.codPaid);
    PaymentMarksKeepRow(o, p.payStatus, p.codPaid);
    RestockKeepsRow(p, Cancelling(o, e));
    EditedRow(IfCancelling(p, Cancelling(o, e)), if e.status.Some? then e.status.value else o.status, Cancelling(o, e));
  }

  lemma SavedFrame(env: Env, s: State, e: Event)
    requires e.Edit? && e.order < |s.orders| && ApplyPayment(s.orders[e.order], e.payStatus, e.codPaid).Some?
    ensures var t := SavedEdit(env, s, e);
      && t.ledger == s.ledger && t.audit == s.audit && t.orders == s.orders[e.order := SavedOrder(s.orders[e.order], e)]
      && t.processed == s.processed && t.coupons == s.coupons && t.carts == s.carts && t.recipes == s.recipes
  {
    var applied := Put(s, e.order, ApplyPayment(s.orders[e.order], e.payStatus, e.codPaid).value);
    RestoreFrame(env, applied, e.order);
  }

  lemma SavedKeepsBooks(s: State, saved: State, i: nat)
    requires Books(s) && i < |s.orders| == |saved.orders| && Concerns(s, saved, i)
    requires saved.ledger == s.ledger && saved.audit == s.audit && RowSoundSoFar(saved.orders[i]) && Linked(saved, i)
    ensures Books(Put(saved, i, saved.orders[i].(status := Pending)))
    ensures !saved.orders[i].status.Refunded? || saved.orders[i].refundedAmount > 0 ==> Books(saved)
  {
    AuditOnly(s, Put(saved, i, saved.orders[i].(status := Pending)), i);
    if RowSound(saved.orders[i]) {
      AuditOnly(s, saved, i);
    }
  }

  lemma EditKeepsBooks(env: Env, s: State, e: Event)
    requires Books(s) && e.Edit? && e.order < |s.orders|
    ensures Books(EditOrder(env, s, e))
  {
    var i, o, t := e.order, s.orders[e.order], EditOrder(env, s, e);
    if EditIsAccepted(o, e) {
      var saved := SavedEdit(env, s, e);
      SavedFrame(env, s, e);
      SavedRow(o, e);
      assert Linked(s, i);
      SavedKeepsBooks(s, saved, i);
      if RecordsRefund(o, e) {
        RecordKeepsBooks(env, saved, i, if e.refund.Some? then e.refund.value else Refundable(o), None, true);
      }
    }
  }

  // ----- Checkout -----

  lemma CloseStaleKeepsBooks(env: Env, s: State, i: nat, user: nat, t: State)
    requires Books(s) && i < |s.orders| && t == CloseIfStale(env, s, i, user)
    ensures Books(t)
  {
    if IsStale(s.orders[i], user) {
      ClosedKeepsBooks(env, s, i);
    }
  }

  lemma {:induction false} SupersedeKeepsBooks(env: Env, s: State, user: nat, n: nat, t: State)
    requires Books(s) && n <= |s.orders| && t == Supersede(env, s, user, n)
    ensures Books(t)
  {
    if n > 0 {
      var u := Supersede(env, s, user, n - 1);
      SupersedeKeepsBooks(env, s, user, n - 1, u);
      CloseStaleKeepsBooks(env, u, n - 1, user, t);
    }
  }

  lemma {:induction false} NoRefundsYet(ledger: seq<RefundRow>, i: nat)
    requires forall k :: 0 <= k < |ledger| ==> ledger[k].order < i
    ensures LedgerAmount(ledger, i) == 0 && LedgerTax(ledger, i) == 0
  {
    if ledger != [] {
      NoRefundsYet(ledger[..|ledger| - 1], i);
    }
  }

  lemma {:induction false} NoAuditYet(audit: seq<Audit>, i: nat)
    requires forall k :: 0 <= k < |audit| ==> audit[k].order < i
    ensures LastStatus(audit, i) == None
  {
    if audit != [] {
      NoAuditYet(audit[..|audit| - 1], i);
    }
  }

  lemma AppendKeepsBooks(s: State, o: Order, t: State)
    requires Books(s) && RowSound(o) && o.refundedAmount == 0 && o.refundedTax == 0 && o.payment.None?
    requires t.orders == s.orders + [o] && t.ledger == s.ledger && t.audit == s.audit
    ensures Books(t)
  {
    var n := |s.orders|;
    NoRefundsYet(s.ledger, n);
    NoAuditYet(s.audit, n);
    forall i | 0 <= i < |t.orders| ensures RowSound(t.orders[i]) && Linked(t, i) {
      if i < n {
        assert t.orders[i] == s.orders[i] && Linked(s, i);
      }
    }
  }

  lemma PlacedRow(user: nat, payBy: Method, cart: seq<CartLine>, coupon: Option<Coupon>, policy: Policy, waived: bool,
                  draws: seq<Draw>)
    ensures RowSound(NewOrder(user, payBy, PriceCart(cart, coupon, policy), waived, draws))
  {
    PlacedOrderShape(cart, coupon, policy);
  }

  lemma CommitKeepsBooks(env: Env, s: State, e: Event)
    requires Books(s) && e.PlaceOrder? && Accepts(env, s, e)
    ensures Books(Commit(env, s, e))
  {
    var t, w := Supersede(env, s, e.user, |s.orders|), Commit(env, s, e);
    SupersedeKeepsBooks(env, s, e.user, |s.orders|, t);
    SupersedeFrame(env, s, e.user, |s.orders|);
    CommitShape(env, s, e, t, w);
    PlacedOrderGoods(env, e);
    PlacedRow(e.user, e.payBy, e.cart, CouponRow(e.coupon), env.policy, WaivedBy(e), CartDraws(e.cart));
    AppendKeepsBooks(t, PlacedOrder(env, e), w);
  }

  // ----- Every run -----

  lemma StepKeepsBooks(env: Env, s: State, e: Event)
    requires Books(s)
    ensures Books(Step(env, s, e))
  {
    match e
    case FillCart(_) => SameBooks(s, Step(env, s, e));
    case PlaceOrder(_, _, _, _, _) => if Accepts(env, s, e) { CommitKeepsBooks(env, s, e); }
    case StartPayment(i) => if i < |s.orders| { BeginKeepsBooks(s, i); }
    case Capture(i, session, id, amount) => if Found(s, i, session) { CaptureKeepsBooks(s, i, id, amount); }
    case Fail(i, session, id) => if Found(s, i, session) { FailKeepsBooks(s, i, id); }
    case GatewayRefund(i, id, amount, reference) =>
      if i < |s.orders| && s.orders[i].payment.Some? { RefundedKeepsBooks(env, s, i, id, amount, reference); }
    case Cancel(i, staff) => if i < |s.orders| { CancelKeepsBooks(env, s, i, staff); }
    case Abandon(i) => if i < |s.orders| { AbandonKeepsBooks(env, s, i); }
    case Edit(i, _, _, _, _) => if i < |s.orders| { EditKeepsBooks(env, s, e); }
    case EditRecipe(_, _) => SameBooks(s, Step(env, s, e));
  }

  /** After any run of requests, in any order, with any repeats: refunded totals are the ledger's sums
      and stay within the order, references are recorded once, each order is restocked at most once,
      a payment confirms at most once more than it was reopened after being settled, credit notes match the
      invoice until a refund follows a cancellation note, and the audit trail's last word is the payment's status. */
  lemma {:induction false} RunKeepsBooks(env: Env, s: State, es: seq<Event>)
    requires Opening(s)
    ensures Books(Run(env, s, es))
  {
    if es != [] {
      RunKeepsBooks(env, s, es[..|es| - 1]);
      StepKeepsBooks(env, Run(env, s, es[..|es| - 1]), es[|es| - 1]);
    }
  }

  /** In every run an order's credit notes stay within its invoice exactly when no refund was credited
      after its cancellation note. */
  lemma NotesWithinInvoice(env: Env, s: State, es: seq<Event>, i: nat)
    requires Opening(s) && i < |Run(env, s, es).orders|
    ensures var o := Run(env, s, es).orders[i];
      && (NotesAmount(o.notes) <= o.bill.total <==> LateAmount(o.notes) == 0)
      && (NotesTax(o.notes) <= o.bill.TotalTax() <==> LateTax(o.notes) == 0)
  {
    RunKeepsBooks(env, s, es);
  }

  /** In every run, once an order has its cancellation note, its notes come to exactly the invoice's amount and
      GST plus whatever was refunded after that note; it has one such note at most. */
  lemma CancelledOrderIsCredited(env: Env, s: State, es: seq<Event>, i: nat)
    requires Opening(s) && i < |Run(env, s, es).orders| && HasCancellation(Run(env, s, es).orders[i].notes)
    ensures var o := Run(env, s, es).orders[i];
      && OneCancellation(o.notes) && LateAmount(o.notes) >= 0 && LateTax(o.notes) >= 0
      && NotesAmount(o.notes) == o.bill.total + LateAmount(o.notes)
      && NotesTax(o.notes) == o.bill.TotalTax() + LateTax(o.notes)
  {
    RunKeepsBooks(env, s, es);
    assert RowSound(Run(env, s, es).orders[i]);
  }

  /** A recorded refund takes an invoiced order's credit notes past its invoice exactly when a
      cancellation note already stands. */
  lemma RefundStaysWithinInvoice(env: Env, s: State, i: nat, amount: int, reference: Option<nat>, mark: bool)
    requires Books(s) && i < |s.orders| && RefundIsRecorded(s, i, amount, reference)
    requires s.orders[i].invoiced && NotesAmount(s.orders[i].notes) <= s.orders[i].bill.total
    ensures NotesAmount(RecordRefund(env, s, i, amount, reference, mark).orders[i].notes) <= s.orders[i].bill.total
            <==> !HasCancellation(s.orders[i].notes)
  {
    var o := s.orders[i];
    assert RowSound(o);
    RecordShape(env, s, i, amount, reference, mark);
    var given := Min(amount, Refundable(o));
    RefundNoteAppended(o.notes, Note(ForRefund, given, RefundTaxFor(o.bill, o.refundedTax, given)));
  }

  /** A delivery-paid order out for shipping, invoiced and unpaid. */
  predicate ShippedUnpaid(o: Order) {
    && o.payBy.COD? && o.status.Shipped? && o.payStatus.Unpaid? && !o.codPaid && o.invoiced && o.notes == []
    && o.refundedAmount == 0 && o.bill.total > 0
  }

  function EditOf(i: nat, status: Option<Status>, codPaid: Option<bool>): Event {
    Edit(i, status, None, codPaid, None)
  }

  /** Cancelling such an order, ticking its cash as received and then refunding it credits its invoice twice. */
  lemma LateRefundCreditsTwice(env: Env, s: State, i: nat)
    requires i < |s.orders| && ShippedUnpaid(s.orders[i])
    ensures var run := [EditOf(i, Some(Cancelled), None), EditOf(i, None, Some(true)), EditOf(i, Some(Refunded), None)];
      var t := Run(env, s, run);
      |t.orders| == |s.orders| && NotesAmount(t.orders[i].notes) == 2 * s.orders[i].bill.total
  {
    var run := [EditOf(i, Some(Cancelled), None), EditOf(i, None, Some(true)), EditOf(i, Some(Refunded), None)];
    var u := CancelledByEdit(env, s, i);
    var v := TickedByEdit(env, u, i);
    RefundedByEdit(env, v, i);
    RunOfThree(env, s, run[0], run[1], run[2]);
    assert run == [run[0], run[1], run[2]];
  }

  /** The full credit stands on a cancelled order whose cash was never ticked. */
  predicate CreditedInFull(o: Order) {
    && o.payBy.COD? && o.status.Cancelled? && o.invoiced && o.refundedAmount == 0 && o.bill.total > 0
    && NotesAmount(o.notes) == o.bill.total
  }

  lemma CancelledByEdit(env: Env, s: State, i: nat) returns (t: State)
    requires i < |s.orders| && ShippedUnpaid(s.orders[i])
    ensures t == EditOrder(env, s, EditOf(i, Some(Cancelled), None))
    ensures CreditedInFull(t.orders[i]) && !t.orders[i].codPaid && t.orders[i].bill == s.orders[i].bill
  {
    var e := EditOf(i, Some(Cancelled), None);
    CancellationAccepted(s.orders[i], e);
    t := SavedEdit(env, s, e);
    SavedFrame(env, s, e);
    CancelledRow(s.orders[i], e);
  }

  lemma CancellationAccepted(o: Order, e: Event)
    requires ShippedUnpaid(o) && e.Edit? && e == Edit(e.order, Some(Cancelled), None, None, None)
    ensures EditIsAccepted(o, e) && !RecordsRefund(o, e)
  {
  }

  lemma CancelledRow(o: Order, e: Event)
    requires ShippedUnpaid(o) && e.Edit? && e == Edit(e.order, Some(Cancelled), None, None, None)
    ensures var r := SavedOrder(o, e);
      CreditedInFull(r) && !r.codPaid && r.bill == o.bill
  {
    var c := Note(ForCancellation, o.bill.total, o.bill.TotalTax());
    assert SavedOrder(o, e).notes == [] + [c];
    CancellationAppended([], c);
  }

  lemma TickedByEdit(env: Env, s: State, i: nat) returns (t: State)
    requires i < |s.orders| && CreditedInFull(s.orders[i]) && !s.orders[i].codPaid
    ensures t == Step(env, s, EditOf(i, None, Some(true))) && |t.orders| == |s.orders|
    ensures t.orders[i] == s.orders[i].(codPaid := true, payStatus := Paid)
  {
    t := EditOrder(env, s, EditOf(i, None, Some(true)));
  }

  lemma RefundedByEdit(env: Env, s: State, i: nat)
    requires i < |s.orders| && CreditedInFull(s.orders[i]) && s.orders[i].codPaid && s.orders[i].payStatus.Paid?
    ensures var t := Step(env, s, EditOf(i, Some(Refunded), None));
      |t.orders| == |s.orders| && NotesAmount(t.orders[i].notes) == 2 * s.orders[i].bill.total
  {
    var e := EditOf(i, Some(Refunded), None);
    var o := s.orders[i];
    SavedFrame(env, s, e);
    var saved := SavedEdit(env, s, e);
    assert saved.orders[i] == o.(status := Refunded);
    RecordShape(env, saved, i, o.bill.total, None, true);
    RefundNoteAppended(o.notes, Note(ForRefund, o.bill.total, RefundTaxFor(o.bill, o.refundedTax, o.bill.total)));
  }
}
