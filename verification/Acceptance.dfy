/** Exactly which service calls succeed on a store that a run can reach, what they then write and answer,
    and what every other call answers. Everything is stated on the rows and in the source's own account
    names, without the transition table and the helpers that build entries and events. */
module Acceptance {
  import opened Domain
  import opened Accounts
  import opened StoreSpec
  import opened ServiceSpec
  import opened Machine

  // A debit of `from` and a credit of `to` were appended with one event, unpublished, under the drawn
  // ids; keys and webhooks stayed.
  ghost predicate Wrote(s: State, s': State, ids: Ids, paymentId: string, from: string, to: string, currency: string,
                        amount: real, eventType: EventType, aggregate: string, payload: Payload) {
    && s'.ledger == s.ledger + [LedgerEntry(ids.debit, paymentId, from, currency, amount, 0.0),
                                LedgerEntry(ids.credit, paymentId, to, currency, 0.0, amount)]
    && s'.outbox == s.outbox[ids.event := OutboxEvent(ids.event, aggregate, eventType, payload, false)]
    && s'.keys == s.keys && s'.webhooks == s.webhooks
  }

  // Of the records, only payment `id` differs.
  ghost predicate OnlyPayment(s: State, s': State, id: string, p: Payment) {
    s'.payments == s.payments[id := p] && s'.payouts == s.payouts && s'.disputes == s.disputes
  }

  // ---------- creation ----------

  /** A creation is refused without a key, for a blank merchant or customer, for a currency that has not
      three characters and for an amount that is not positive; else it stores the payment as requested,
      unless the key is in use already. */
  lemma CreateSucceedsIff(s: State, input: CreatePayment, key: string, ids: Ids)
    ensures var (s', ok) := Serve(s, CreateRequest(input, key, ids));
            && (ok <==> && key != "" && !IsBlank(input.merchantId) && !IsBlank(input.customerId)
                        && |input.currency| == 3 && input.amount > 0.0)
            && (!ok || key in s.keys ==> s' == s)
            && (ok && key !in s.keys ==>
                  s' == s.(payments := s.payments[ids.record :=
                             Payment(ids.record, input.merchantId, input.customerId, ToUpper(input.currency),
                                     input.amount, 0.0, 0.0, Created, "")],
                           keys := s.keys[key := ids.record]))
  {
  }

  // ---------- authorization ----------

  lemma AuthorizeSucceedsIff(k: Config, id: string, risk: Risk, answer: Option<string>, ids: Ids)
    requires RowsOk(k)
    ensures var (s', r) := AuthorizeCall(k.store, id, risk, answer, ids);
            && (r.Ok? <==> && id in k.store.payments && k.store.payments[id].status == Created
                           && risk != EngineError && risk != Blocked && answer != None)
            && (r.Ok? ==> var p := k.store.payments[id];
                          && r.value == p.(status := Authorized, providerReference := answer.value)
                          && OnlyPayment(k.store, s', id, r.value)
                          && Wrote(k.store, s', ids, id, "customer:pending", "merchant:" + p.merchantId + ":pending",
                                   p.currency, p.amount, PaymentAuthorizedEvent, id, OfPayment(r.value)))
  {
    if id in k.store.payments {
      var p := k.store.payments[id];
      assert RowOk(id, p, id in k.authorized);
      PairBalanced(id, CustomerPending, MerchantPending(p.merchantId), p.currency, p.amount, ids);
    }
  }

  // A payment that is still created or authorized fails for the reason; any other is left alone.
  function Refused(s: State, id: string, reason: string): State
    requires id in s.payments
  {
    var p := s.payments[id];
    if p.status == Created || p.status == Authorized
    then s.(payments := s.payments[id := p.(status := Failed, providerReference := reason)]) else s
  }

  /** What every authorization that does not succeed leaves and answers: a block by the risk engine or a
      refusal by the provider fails a payment that is created or authorized, with that very reason; an
      error of the risk engine and an authorization of a payment that is past creation change nothing. */
  lemma AuthorizeFailsExactly(k: Config, id: string, risk: Risk, answer: Option<string>, ids: Ids)
    requires RowsOk(k)
    ensures var s := k.store;
            var (s', r) := AuthorizeCall(s, id, risk, answer, ids);
            && (id !in s.payments ==> s' == s && r == Err(NotFound))
            && (id in s.payments ==>
                  && (risk == EngineError ==> s' == s && r == Err(ProviderError))
                  && (risk == Blocked ==> s' == Refused(s, id, "risk_blocked") && r == Err(RiskBlocked))
                  && (risk != EngineError && risk != Blocked && answer == None ==>
                        s' == Refused(s, id, "provider_error") && r == Err(ProviderError))
                  && (risk != EngineError && risk != Blocked && answer != None && s.payments[id].status != Created ==>
                        s' == s && r == Err(InvalidTransition)))
  {
    if id in k.store.payments {
      assert RowOk(id, k.store.payments[id], id in k.authorized);
    }
  }

  // ---------- capture and refund ----------

  /** Captures may be partial and repeated until the amount is used up, until the first refund. */
  lemma CaptureSucceedsIff(k: Config, id: string, amount: real, providerOk: bool, ids: Ids)
    requires RowsOk(k)
    ensures var (s', r) := CaptureCall(k.store, id, amount, providerOk, ids);
            && (r.Ok? <==> && id in k.store.payments && providerOk
                           && k.store.payments[id].status in {Authorized, Captured}
                           && 0.0 < amount <= k.store.payments[id].amount - k.store.payments[id].captured)
            && (r.Ok? ==> var p := k.store.payments[id];
                          && r.value == p.(status := Captured, captured := p.captured + amount)
                          && OnlyPayment(k.store, s', id, r.value)
                          && Wrote(k.store, s', ids, id, "merchant:" + p.merchantId + ":pending",
                                   "merchant:" + p.merchantId + ":available", p.currency, amount,
                                   PaymentCapturedEvent, id, OfPayment(r.value)))
  {
    if id in k.store.payments {
      var p := k.store.payments[id];
      assert RowOk(id, p, id in k.authorized);
      PairBalanced(id, MerchantPending(p.merchantId), MerchantAvailable(p.merchantId), p.currency, amount, ids);
    }
  }

  /** Refunds may be partial and repeated until everything captured is refunded. */
  lemma RefundSucceedsIff(k: Config, id: string, amount: real, providerOk: bool, ids: Ids)
    requires RowsOk(k)
    ensures var (s', r) := RefundCall(k.store, id, amount, providerOk, ids);
            && (r.Ok? <==> && id in k.store.payments && providerOk
                           && k.store.payments[id].status in {Captured, Refunded}
                           && 0.0 < amount <= k.store.payments[id].captured - k.store.payments[id].refunded)
            && (r.Ok? ==> var p := k.store.payments[id];
                          && r.value == p.(status := Refunded, refunded := p.refunded + amount)
                          && OnlyPayment(k.store, s', id, r.value)
                          && Wrote(k.store, s', ids, id, "merchant:" + p.merchantId + ":available", "customer:refunded",
                                   p.currency, amount, PaymentRefundedEvent, id, OfPayment(r.value)))
  {
    if id in k.store.payments {
      var p := k.store.payments[id];
      assert RowOk(id, p, id in k.authorized);
      PairBalanced(id, MerchantAvailable(p.merchantId), CustomerRefunded, p.currency, amount, ids);
    }
  }

  /** A capture or refund that does not succeed changes nothing, and answers with the first reason: no
      such payment, an amount outside what is left, a refusal by the provider, a wrong status. */
  lemma CaptureOrRefundFailsExactly(k: Config, id: string, amount: real, providerOk: bool, ids: Ids)
    requires RowsOk(k)
    ensures var s := k.store;
            var (s', r) := CaptureCall(s, id, amount, providerOk, ids);
            r.Err? ==>
              && s' == s
              && r.error == if id !in s.payments then NotFound
                            else if !(0.0 < amount <= s.payments[id].amount - s.payments[id].captured)
                            then CaptureExceedsAuthorized
                            else if !providerOk then ProviderError else InvalidTransition
    ensures var s := k.store;
            var (s', r) := RefundCall(s, id, amount, providerOk, ids);
            r.Err? ==>
              && s' == s
              && r.error == if id !in s.payments then NotFound
                            else if !(0.0 < amount <= s.payments[id].captured - s.payments[id].refunded)
                            then RefundExceedsCaptured
                            else if !providerOk then ProviderError else InvalidTransition
  {
    if id in k.store.payments {
      var p := k.store.payments[id];
      assert RowOk(id, p, id in k.authorized);
      PairBalanced(id, MerchantPending(p.merchantId), MerchantAvailable(p.merchantId), p.currency, amount, ids);
      PairBalanced(id, MerchantAvailable(p.merchantId), CustomerRefunded, p.currency, amount, ids);
    }
  }

  /** A failed payment refuses every later authorization, capture and refund, and stays as it is. */
  lemma FailedRefusesEverything(k: Config, q: Request)
    requires RowsOk(k) && (q.AuthorizeRequest? || q.CaptureRequest? || q.RefundRequest?)
    requires q.id in k.store.payments && k.store.payments[q.id].status == Failed
    ensures Serve(k.store, q) == (k.store, false)
  {
    match q
    case AuthorizeRequest(id, risk, answer, ids) =>
      AuthorizeSucceedsIff(k, id, risk, answer, ids);
      AuthorizeFailsExactly(k, id, risk, answer, ids);
    case CaptureRequest(id, amount, providerOk, ids) =>
      CaptureSucceedsIff(k, id, amount, providerOk, ids);
      CaptureOrRefundFailsExactly(k, id, amount, providerOk, ids);
    case RefundRequest(id, amount, providerOk, ids) =>
      RefundSucceedsIff(k, id, amount, providerOk, ids);
      CaptureOrRefundFailsExactly(k, id, amount, providerOk, ids);
  }

  // ---------- payouts ----------

  lemma PayoutSucceedsIff(k: Config, merchant: string, currency: string, amount: real, ids: Ids)
    ensures var s := k.store;
            var (s', r) := PayoutCall(s, merchant, currency, amount, ids);
            var upper := ToUpper(currency);
            && (r.Ok? <==> && merchant != "" && |currency| == 3
                           && 0.0 < amount <= Balance(s.ledger, "merchant:" + merchant + ":available", upper))
            && (r.Ok? ==> && r.value == Payout(ids.record, merchant, upper, amount, "", PayoutPending)
                          && s'.payouts == s.payouts[ids.record := r.value]
                          && s'.payments == s.payments && s'.disputes == s.disputes
                          && Wrote(s, s', ids, "", "merchant:" + merchant + ":available",
                                   "merchant:" + merchant + ":payout_pending", upper, amount,
                                   PayoutCreatedEvent, ids.record, OfPayout(r.value)))
            && (r.Err? ==> && s' == s
                           && r.error == if merchant == "" || |currency| != 3 || amount <= 0.0 then InvalidPayout
                                         else InsufficientBalance)
  {
    PairBalanced("", MerchantAvailable(merchant), MerchantPayoutPending(merchant), ToUpper(currency), amount, ids);
  }

  lemma CompleteSucceedsIff(k: Config, id: string, reference: string, success: bool, ids: Ids)
    requires ClaimsOk(k.store)
    ensures var s := k.store;
            var (s', r) := CompleteCall(s, id, reference, success, ids);
            && (r.Ok? <==> id in s.payouts && s.payouts[id].status == PayoutPending)
            && (r.Ok? ==> var p := s.payouts[id];
                          && r.value == p.(providerReference := reference,
                                           status := if success then PayoutPaid else PayoutFailed)
                          && s'.payouts == s.payouts[id := r.value]
                          && s'.payments == s.payments && s'.disputes == s.disputes
                          && Wrote(s, s', ids, "", "merchant:" + p.merchantId + ":payout_pending",
                                   if success then "provider:payout_settled"
                                   else "merchant:" + p.merchantId + ":available",
                                   p.currency, p.amount, if success then PayoutPaidEvent else PayoutFailedEvent,
                                   id, OfPayout(r.value)))
            && (r.Err? ==> s' == s && r.error == if id !in s.payouts then NotFound else PayoutResolved)
  {
    if id in k.store.payouts {
      var p := k.store.payouts[id];
      assert PayoutOk(id, p);
      PairBalanced("", MerchantPayoutPending(p.merchantId),
                   if success then ProviderPayoutSettled else MerchantAvailable(p.merchantId),
                   p.currency, p.amount, ids);
    }
  }

  // ---------- disputes ----------

  lemma OpenSucceedsIff(k: Config, id: string, reason: string, amount: real, ids: Ids)
    requires RowsOk(k) && ids.record !in k.store.disputes
    ensures var s := k.store;
            var (s', r) := OpenCall(s, id, reason, amount, ids);
            && (r.Ok? <==> && id in s.payments && id != "" && reason != ""
                           && s.payments[id].merchantId != ""
                           && 0.0 < amount <= s.payments[id].captured - s.payments[id].refunded)
            && (r.Ok? ==> var p := s.payments[id];
                          && r.value == Dispute(ids.record, id, p.merchantId, p.currency, reason, amount, DisputeOpen)
                          && s'.disputes == s.disputes[ids.record := r.value]
                          && s'.payments == s.payments && s'.payouts == s.payouts
                          && Wrote(s, s', ids, id, "merchant:" + p.merchantId + ":available",
                                   "merchant:" + p.merchantId + ":dispute_frozen", p.currency, amount,
                                   DisputeOpenedEvent, ids.record, OfDispute(r.value)))
            && (r.Err? ==> && s' == s
                           && r.error == if id !in s.payments then NotFound
                                         else if !(0.0 < amount <= s.payments[id].captured - s.payments[id].refunded)
                                         then DisputeExceedsSettled else InvalidDispute)
  {
    if id in k.store.payments {
      var p := k.store.payments[id];
      assert RowOk(id, p, id in k.authorized);
      PairBalanced(id, MerchantAvailable(p.merchantId), MerchantDisputeFrozen(p.merchantId), p.currency, amount, ids);
    }
  }

  lemma ResolveSucceedsIff(k: Config, id: string, merchantWins: bool, ids: Ids)
    requires ClaimsOk(k.store)
    ensures var s := k.store;
            var (s', r) := ResolveCall(s, id, merchantWins, ids);
            && (r.Ok? <==> id in s.disputes && s.disputes[id].status == DisputeOpen)
            && (r.Ok? ==> var d := s.disputes[id];
                          && r.value == d.(status := if merchantWins then DisputeWon else DisputeLost)
                          && s'.disputes == s.disputes[id := r.value]
                          && s'.payments == s.payments && s'.payouts == s.payouts
                          && Wrote(s, s', ids, d.paymentId, "merchant:" + d.merchantId + ":dispute_frozen",
                                   if merchantWins then "merchant:" + d.merchantId + ":available"
                                   else "customer:chargeback",
                                   d.currency, d.amount, if merchantWins then DisputeWonEvent else DisputeLostEvent,
                                   id, OfDispute(r.value)))
            && (r.Err? ==> s' == s && r.error == if id !in s.disputes then NotFound else DisputeResolved)
  {
    if id in k.store.disputes {
      var d := k.store.disputes[id];
      assert DisputeOk(k.store, id, d);
      PairBalanced(d.paymentId, MerchantDisputeFrozen(d.merchantId),
                   if merchantWins then MerchantAvailable(d.merchantId) else CustomerChargeback,
                   d.currency, d.amount, ids);
    }
  }
}
