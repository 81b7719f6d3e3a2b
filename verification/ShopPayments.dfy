/** Gateway events in any order and any number of times: where a payment ends, and what a capture that
    races a cancellation leaves behind. */
module ShopPayments {
  import opened Money
  import opened Orders
  import opened Pricing
  import opened TaxBreakdown
  import opened Checkout
  import opened Coupons
  import opened Shop
  import opened ShopBooks

  // ----- Confluence of capture and failure events -----

  /** A capture or failure event of one gateway session of order i. */
  predicate About(e: Event, i: nat, session: nat) {
    (e.Capture? || e.Fail?) && e.order == i && e.session == session
  }

  /** One id per distinct event: a redelivery repeats the whole event. */
  predicate IdsConsistent(es: seq<Event>) {
    forall j, k :: 0 <= j < |es| && 0 <= k < |es| && SameId(es[j], es[k]) ==> es[j] == es[k]
  }

  predicate SameId(a: Event, b: Event) {
    (a.Capture? || a.Fail?) && (b.Capture? || b.Fail?) && a.eventId.Some? && a.eventId == b.eventId
  }

  predicate GoodCapture(e: Event, amount: int) {
    e.Capture? && (e.amount.Some? ==> e.amount.value == amount)
  }

  predicate Captures(es: seq<Event>, amount: int) {
    exists k :: 0 <= k < |es| && GoodCapture(es[k], amount)
  }

  predicate Fails(es: seq<Event>) {
    exists k :: 0 <= k < |es| && es[k].Fail?
  }

  /** Where a payment ends, whatever the order of its events. */
  function Outcome(es: seq<Event>, amount: int): GatewayStatus {
    if Captures(es, amount) then Completed else if Fails(es) then Failed else Awaiting
  }

  /** The row an open order ends with. */
  function SettledRow(o: Order, es: seq<Event>): Order
    requires o.payment.Some?
  {
    match Outcome(es, o.payment.value.amount)
    case Completed => ConfirmedOrder(o)
    case Failed => Settle(o, Failed).(payStatus := Declined)
    case _ => o
  }

  /** The events are about this order's live payment and none of their ids has been processed before. */
  predicate Deliverable(s: State, es: seq<Event>, i: nat, session: nat) {
    && Found(s, i, session) && s.orders[i].payment.value.status.Awaiting?
    && IdsConsistent(es)
    && (forall k :: 0 <= k < |es| ==> About(es[k], i, session) && !Seen(s, es[k].eventId))
  }

  lemma OneMoreEvent(es: seq<Event>, amount: int)
    requires es != []
    ensures var n := |es| - 1;
      && (Captures(es, amount) <==> Captures(es[..n], amount) || GoodCapture(es[n], amount))
      && (Fails(es) <==> Fails(es[..n]) || es[n].Fail?)
  {
    var n := |es| - 1;
    assert forall k :: 0 <= k < n ==> es[..n][k] == es[k];
    if Captures(es[..n], amount) {
      var k :| 0 <= k < n && GoodCapture(es[..n][k], amount);
      assert GoodCapture(es[k], amount);
    }
    if Fails(es[..n]) {
      var k :| 0 <= k < n && es[..n][k].Fail?;
      assert es[k].Fail?;
    }
  }

  predicate IdAmong(es: seq<Event>, id: nat) {
    exists k :: 0 <= k < |es| && (es[k].Capture? || es[k].Fail?) && es[k].eventId == Some(id)
  }

  /** What is known of the state after a prefix of the events. */
  predicate Delivered(s: State, t: State, es: seq<Event>, i: nat, session: nat)
    requires Found(s, i, session)
  {
    var o := s.orders[i];
    && Found(t, i, session)
    && t.orders[i].payment.value.amount == o.payment.value.amount
    && t.orders[i].payment.value.status == Outcome(es, o.payment.value.amount)
    && (t.orders[i].status.Cancelled? <==> o.status.Cancelled?)
    && (!o.status.Cancelled? ==> t.orders == s.orders[i := SettledRow(o, es)])
    && (forall id :: id in t.processed ==> id in s.processed || IdAmong(es, id))
  }

  lemma ProcessedGrows(s: State, t: State, u: State, es: seq<Event>, id: nat)
    requires es != []
    requires var n := |es| - 1;
      && (forall k :: k in t.processed ==> k in s.processed || IdAmong(es[..n], k))
      && (es[n].Capture? || es[n].Fail?)
      && (u.processed == t.processed || (es[n].eventId.Some? && u.processed == t.processed + {es[n].eventId.value}))
    requires id in u.processed
    ensures id in s.processed || IdAmong(es, id)
  {
    var n := |es| - 1;
    if id in t.processed {
      if id !in s.processed {
        var k :| 0 <= k < n && (es[..n][k].Capture? || es[..n][k].Fail?) && es[..n][k].eventId == Some(id);
        assert es[k].eventId == Some(id);
      }
    } else {
      assert es[n].eventId == Some(id);
    }
  }

  /** A seen id belongs to an earlier delivery of the same event. */
  lemma SeenBefore(s: State, t: State, es: seq<Event>, i: nat, session: nat)
    requires es != [] && Deliverable(s, es, i, session)
    requires forall id :: id in t.processed ==> id in s.processed || IdAmong(es[..|es| - 1], id)
    requires Seen(t, es[|es| - 1].eventId)
    ensures es[|es| - 1] in es[..|es| - 1]
  {
    var n := |es| - 1;
    var id := es[n].eventId.value;
    assert !Seen(s, es[n].eventId);
    var k :| 0 <= k < n && (es[..n][k].Capture? || es[..n][k].Fail?) && es[..n][k].eventId == Some(id);
    assert es[..n][k] == es[k];
    assert SameId(es[k], es[n]);
  }

  lemma DeliveredFail(s: State, t: State, es: seq<Event>, i: nat, session: nat)
    requires es != [] && Deliverable(s, es, i, session) && es[|es| - 1].Fail?
    requires Delivered(s, t, es[..|es| - 1], i, session)
    ensures Delivered(s, MarkFailed(t, i, es[|es| - 1].eventId), es, i, session)
  {
    var n := |es| - 1;
    var u := MarkFailed(t, i, es[n].eventId);
    OneMoreEvent(es, s.orders[i].payment.value.amount);
    if Seen(t, es[n].eventId) {
      SeenBefore(s, t, es, i, session);
    }
    forall id | id in u.processed ensures id in s.processed || IdAmong(es, id) {
      ProcessedGrows(s, t, u, es, id);
    }
  }

  /** A capture confirms an open order to the same row, whether or not a failure came first. */
  lemma ConfirmedFromEither(o: Order, es: seq<Event>)
    requires o.payment.Some? && Outcome(es, o.payment.value.amount) != Completed
    ensures ConfirmedOrder(SettledRow(o, es)) == ConfirmedOrder(o)
  {
  }

  lemma IdsDelivered(s: State, t: State, u: State, es: seq<Event>, i: nat, session: nat)
    requires es != [] && Deliverable(s, es, i, session)
    requires Delivered(s, t, es[..|es| - 1], i, session) && Remembers(t, u, es[|es| - 1].eventId)
    ensures forall id :: id in u.processed ==> id in s.processed || IdAmong(es, id)
  {
    assert About(es[|es| - 1], i, session);
    forall id | id in u.processed ensures id in s.processed || IdAmong(es, id) {
      ProcessedGrows(s, t, u, es, id);
    }
  }

  lemma DeliveredUnchanged(s: State, t: State, es: seq<Event>, i: nat, session: nat, u: State)
    requires es != [] && Deliverable(s, es, i, session)
    requires Delivered(s, t, es[..|es| - 1], i, session)
    requires u.orders == t.orders && Remembers(t, u, es[|es| - 1].eventId)
    requires var amount := s.orders[i].payment.value.amount; Outcome(es, amount) == Outcome(es[..|es| - 1], amount)
    ensures Delivered(s, u, es, i, session)
  {
    IdsDelivered(s, t, u, es, i, session);
  }

  lemma IgnoredOutcome(s: State, t: State, es: seq<Event>, i: nat, session: nat)
    requires es != [] && Deliverable(s, es, i, session) && es[|es| - 1].Capture?
    requires Delivered(s, t, es[..|es| - 1], i, session)
    requires CaptureIgnored(t, i, es[|es| - 1].eventId, es[|es| - 1].amount)
    ensures var amount := s.orders[i].payment.value.amount; Outcome(es, amount) == Outcome(es[..|es| - 1], amount)
  {
    var n := |es| - 1;
    OneMoreEvent(es, s.orders[i].payment.value.amount);
    if Seen(t, es[n].eventId) {
      SeenBefore(s, t, es, i, session);
    }
  }

  lemma DeliveredAccepted(s: State, t: State, es: seq<Event>, i: nat, session: nat, u: State)
    requires es != [] && Deliverable(s, es, i, session) && Outcome(es, s.orders[i].payment.value.amount) == Completed
    requires Outcome(es[..|es| - 1], s.orders[i].payment.value.amount) != Completed
    requires Delivered(s, t, es[..|es| - 1], i, session) && Remembers(t, u, es[|es| - 1].eventId)
    requires var o := t.orders[i];
      u.orders == t.orders[i := if o.status.Cancelled? then Settle(o, Completed) else ConfirmedOrder(o)]
    ensures Delivered(s, u, es, i, session)
  {
    IdsDelivered(s, t, u, es, i, session);
    ConfirmedFromEither(s.orders[i], es[..|es| - 1]);
  }

  lemma DeliveredCapture(s: State, t: State, es: seq<Event>, i: nat, session: nat)
    requires es != [] && Deliverable(s, es, i, session) && es[|es| - 1].Capture?
    requires Delivered(s, t, es[..|es| - 1], i, session)
    ensures Delivered(s, MarkCaptured(t, i, es[|es| - 1].eventId, es[|es| - 1].amount), es, i, session)
  {
    var e := es[|es| - 1];
    var u := MarkCaptured(t, i, e.eventId, e.amount);
    if CaptureIgnored(t, i, e.eventId, e.amount) {
      IgnoredCapture(t, i, e.eventId, e.amount);
      IgnoredOutcome(s, t, es, i, session);
      DeliveredUnchanged(s, t, es, i, session, u);
    } else {
      OneMoreEvent(es, s.orders[i].payment.value.amount);
      if t.orders[i].status.Cancelled? {
        LateCapture(t, i, e.eventId, e.amount);
      } else {
        ConfirmingCapture(t, i, e.eventId, e.amount);
      }
      DeliveredAccepted(s, t, es, i, session, u);
    }
  }

  /** Any finite sequence of capture and failure events for one payment, with repeats and in any order:
      the payment ends completed when some capture has a matching or absent amount, otherwise failed
      when some failure arrived, otherwise awaiting; an open order's row follows from that alone. */
  lemma {:induction false} PaymentOutcome(env: Env, s: State, es: seq<Event>, i: nat, session: nat)
    requires Deliverable(s, es, i, session)
    ensures Delivered(s, Run(env, s, es), es, i, session)
  {
    if es == [] {
      assert s.orders == s.orders[i := SettledRow(s.orders[i], es)];
    } else {
      var n := |es| - 1;
      assert forall k :: 0 <= k < n ==> es[..n][k] == es[k];
      PaymentOutcome(env, s, es[..n], i, session);
      var t := Run(env, s, es[..n]);
      assert About(es[n], i, session);
      if es[n].Fail? {
        DeliveredFail(s, t, es, i, session);
      } else {
        DeliveredCapture(s, t, es, i, session);
      }
    }
  }

  predicate SameEvents(a: seq<Event>, b: seq<Event>) {
    (forall e :: e in a ==> e in b) && (forall e :: e in b ==> e in a)
  }

  lemma OutcomeIgnoresOrder(a: seq<Event>, b: seq<Event>, amount: int)
    requires SameEvents(a, b)
    ensures Outcome(a, amount) == Outcome(b, amount)
  {
    if Captures(a, amount) {
      var k :| 0 <= k < |a| && GoodCapture(a[k], amount);
      assert a[k] in b;
    }
    if Captures(b, amount) {
      var k :| 0 <= k < |b| && GoodCapture(b[k], amount);
      assert b[k] in a;
    }
    if Fails(a) {
      var k :| 0 <= k < |a| && a[k].Fail?;
      assert a[k] in b;
    }
    if Fails(b) {
      var k :| 0 <= k < |b| && b[k].Fail?;
      assert b[k] in a;
    }
  }

  /** Two deliveries of the same events, reordered and repeated at will, leave the same payment status,
      and the same orders when the order was open. */
  lemma DeliveriesConverge(env: Env, s: State, a: seq<Event>, b: seq<Event>, i: nat, session: nat)
    requires Deliverable(s, a, i, session) && Deliverable(s, b, i, session) && SameEvents(a, b)
    ensures var t, u := Run(env, s, a), Run(env, s, b);
      && Found(t, i, session) && Found(u, i, session)
      && t.orders[i].payment.value.status == u.orders[i].payment.value.status
      && (!s.orders[i].status.Cancelled? ==> t.orders == u.orders)
  {
    PaymentOutcome(env, s, a, i, session);
    PaymentOutcome(env, s, b, i, session);
    OutcomeIgnoresOrder(a, b, s.orders[i].payment.value.amount);
  }

  /** Ids must tell events apart: a failure and a capture under one id settle by whoever comes first. */
  lemma FailureFirst(env: Env, s: State, i: nat, session: nat, id: nat)
    requires Found(s, i, session) && s.orders[i].payment.value.status.Awaiting? && id !in s.processed
    ensures var t := Step(env, Step(env, s, Fail(i, session, Some(id))), Capture(i, session, Some(id), None));
      Found(t, i, session) && t.orders[i].payment.value.status == Failed
  {
    var u := Step(env, s, Fail(i, session, Some(id)));
    assert Found(u, i, session) && Seen(u, Some(id));
    IgnoredCapture(u, i, Some(id), None);
  }

  lemma CaptureFirst(env: Env, s: State, i: nat, session: nat, id: nat)
    requires Found(s, i, session) && s.orders[i].payment.value.status.Awaiting? && id !in s.processed
    ensures var t := Step(env, Step(env, s, Capture(i, session, Some(id), None)), Fail(i, session, Some(id)));
      Found(t, i, session) && t.orders[i].payment.value.status == Completed
  {
    var u := Step(env, s, Capture(i, session, Some(id), None));
    if s.orders[i].status.Cancelled? {
      LateCapture(s, i, Some(id), None);
    } else {
      ConfirmingCapture(s, i, Some(id), None);
    }
    assert u.orders[i].payment.value.status.Completed?;
  }
}
