/** What each provider callback does, exactly: which are turned away and with which answer, which are
    duplicates, and what the others capture, refund or complete. Stated on the callback and the rows,
    without the code that checks and dispatches. */
module Callbacks {
  import opened Domain
  import opened StoreSpec
  import opened ServiceSpec
  import opened Machine
  import opened Acceptance
  import W = Webhooks

  // The store with the event id registered.
  function Registered(s: State, id: string): State {
    s.(webhooks := s.webhooks + {id})
  }

  /** Callbacks that never reach a command change nothing: an unsigned one is unauthorized, one that cannot
      be read, names no event or no record, or carries no positive amount is a bad request, one of an
      unknown type is unprocessable, and one whose event id is registered is a duplicate. */
  lemma TurnedAway(s: State, d: W.Callback)
    ensures !d.signed ==> W.Handle(s, d) == (s, W.Unauthorized)
    ensures d.signed && (!d.decoded || d.id == "") ==> W.Handle(s, d) == (s, W.BadRequest)
    ensures d.signed && d.PaymentCallback? && (d.paymentId == "" || d.amount == None || d.amount.value <= 0.0) ==>
              W.Handle(s, d) == (s, W.BadRequest)
    ensures d.signed && d.PayoutCallback? && d.payoutId == "" ==> W.Handle(s, d) == (s, W.BadRequest)
    ensures && d.signed && d.decoded && d.id != "" && d.PaymentCallback? && d.paymentId != ""
            && d.amount != None && d.amount.value > 0.0 ==>
              && (d.action == W.OtherAction ==> W.Handle(s, d) == (s, W.Unprocessable))
              && (d.action != W.OtherAction && d.id in s.webhooks ==> W.Handle(s, d) == (s, W.Duplicate))
    ensures d.signed && d.decoded && d.id != "" && d.PayoutCallback? && d.payoutId != "" ==>
              && (d.outcome == W.UnknownAction ==> W.Handle(s, d) == (s, W.Unprocessable))
              && (d.outcome != W.UnknownAction && d.id in s.webhooks ==> W.Handle(s, d) == (s, W.Duplicate))
  {
  }

  // A callback about a payment that passes every check and is no duplicate.
  predicate NewPaymentCallback(s: State, d: W.Callback, action: W.PaymentAction) {
    && d.PaymentCallback? && d.signed && d.decoded && d.id != "" && d.paymentId != ""
    && d.amount.Some? && d.amount.value > 0.0 && d.action == action && d.id !in s.webhooks
  }

  predicate NewPayoutCallback(s: State, d: W.Callback, outcome: W.PayoutAction) {
    && d.PayoutCallback? && d.signed && d.decoded && d.id != "" && d.payoutId != ""
    && d.outcome == outcome && d.id !in s.webhooks
  }

  // Such a callback is registered and then makes the capture or refund.
  lemma Dispatched(s: State, d: W.Callback)
    requires d.PaymentCallback? && d.action != W.OtherAction && NewPaymentCallback(s, d, d.action)
    ensures var t := Registered(s, d.id);
            var (s', r) := if d.action == W.CaptureAction
                           then CaptureCall(t, d.paymentId, d.amount.value, d.providerOk, d.ids)
                           else RefundCall(t, d.paymentId, d.amount.value, d.providerOk, d.ids);
            W.Handle(s, d) == (s', if r.Err? then W.CommandFailed else W.Accepted)
  {
  }

  lemma RowsStay(k: Config, id: string)
    requires RowsOk(k)
    ensures RowsOk(k.(store := Registered(k.store, id)))
  {
  }

  /** A new capture callback is accepted exactly when the payment can be captured by its amount and the
      provider agrees: then captured grows by the amount and refunded stays. Else only its id is
      registered. */
  lemma CaptureCallback(k: Config, d: W.Callback)
    requires RowsOk(k) && NewPaymentCallback(k.store, d, W.CaptureAction)
    ensures var s, id, amount := k.store, d.paymentId, d.amount.value;
            var (s', answer) := W.Handle(s, d);
            && (answer == W.Accepted
                <==> && id in s.payments && d.providerOk && s.payments[id].status in {Authorized, Captured}
                     && amount <= s.payments[id].amount - s.payments[id].captured)
            && (answer == W.Accepted ==>
                  var p := s.payments[id];
                  && s'.payments == s.payments[id := p.(status := Captured, captured := p.captured + amount)]
                  && |s'.ledger| == |s.ledger| + 2 && s'.webhooks == s.webhooks + {d.id})
            && (answer != W.Accepted ==> answer == W.CommandFailed && s' == Registered(s, d.id))
  {
    var registered := k.(store := Registered(k.store, d.id));
    Dispatched(k.store, d);
    RowsStay(k, d.id);
    CaptureSucceedsIff(registered, d.paymentId, d.amount.value, d.providerOk, d.ids);
    CaptureOrRefundFailsExactly(registered, d.paymentId, d.amount.value, d.providerOk, d.ids);
  }

  /** A new refund callback is accepted exactly when the amount is left to refund and the provider agrees:
      then refunded grows by the amount and captured stays. Else only its id is registered. */
  lemma RefundCallback(k: Config, d: W.Callback)
    requires RowsOk(k) && NewPaymentCallback(k.store, d, W.RefundAction)
    ensures var s, id, amount := k.store, d.paymentId, d.amount.value;
            var (s', answer) := W.Handle(s, d);
            && (answer == W.Accepted
                <==> && id in s.payments && d.providerOk && s.payments[id].status in {Captured, Refunded}
                     && amount <= s.payments[id].captured - s.payments[id].refunded)
            && (answer == W.Accepted ==>
                  var p := s.payments[id];
                  && s'.payments == s.payments[id := p.(status := Refunded, refunded := p.refunded + amount)]
                  && |s'.ledger| == |s.ledger| + 2 && s'.webhooks == s.webhooks + {d.id})
            && (answer != W.Accepted ==> answer == W.CommandFailed && s' == Registered(s, d.id))
  {
    var registered := k.(store := Registered(k.store, d.id));
    Dispatched(k.store, d);
    RowsStay(k, d.id);
    RefundSucceedsIff(registered, d.paymentId, d.amount.value, d.providerOk, d.ids);
    CaptureOrRefundFailsExactly(registered, d.paymentId, d.amount.value, d.providerOk, d.ids);
  }

  /** A new payout callback is accepted exactly when the payout is pending: it is then paid or failed, as
      the callback says, with the reference of the callback. Else only its id is registered. */
  lemma PayoutCallback(k: Config, d: W.Callback, paid: bool)
    requires ClaimsOk(k.store) && NewPayoutCallback(k.store, d, if paid then W.PaidAction else W.FailedAction)
    ensures var s, id := k.store, d.payoutId;
            var (s', answer) := W.Handle(s, d);
            && (answer == W.Accepted <==> id in s.payouts && s.payouts[id].status == PayoutPending)
            && (answer == W.Accepted ==>
                  && s'.payouts == s.payouts[id := s.payouts[id].(providerReference := d.reference,
                                                                  status := if paid then PayoutPaid else PayoutFailed)]
                  && |s'.ledger| == |s.ledger| + 2 && s'.webhooks == s.webhooks + {d.id})
            && (answer != W.Accepted ==> answer == W.CommandFailed && s' == Registered(s, d.id))
  {
    var registered := k.(store := Registered(k.store, d.id));
    assert ClaimsOk(registered.store) by {
      forall x | x in k.store.disputes ensures DisputeOk(registered.store, x, k.store.disputes[x]) {
        assert DisputeOk(k.store, x, k.store.disputes[x]);
      }
    }
    CompleteSucceedsIff(registered, d.payoutId, d.reference, paid, d.ids);
  }
}
