/** internal/service/payment_service.go, payout.go and dispute.go over the in-memory store.
    Risk and provider answers and the UUIDs are inputs. */
module Services {
  import opened Domain
  import opened Accounts
  import opened MemoryStores
  import opened ServiceSpec
  import S = StoreSpec

  class PaymentService {
    const store: MemoryStore

    constructor (store: MemoryStore)
      ensures this.store == store
    {
      this.store := store;
    }

    method Create(input: CreatePayment, key: string, ids: Ids) returns (r: Result<Payment>, replay: bool)
      modifies store
      ensures key == "" ==> r == Err(MissingKey) && !replay && store.Contents() == old(store.Contents())
      ensures key != "" && NewPayment(input, ids.record).Err? ==>
                r.Err? && !replay && store.Contents() == old(store.Contents())
      ensures key != "" && NewPayment(input, ids.record).Ok? ==>
                && r.Ok?
                && (store.Contents(), r.value, replay)
                   == S.CreatePayment(old(store.Contents()), NewPayment(input, ids.record).value, key)
    {
      if key == "" {
        return Err(MissingKey), false;
      }
      var made := NewPayment(input, ids.record);
      if made.Err? {
        return made, false;
      }
      var p;
      p, replay := store.CreatePayment(made.value, key);
      r := Ok(p);
    }

    method Authorize(id: string, risk: Risk, answer: Option<string>, ids: Ids) returns (r: Result<Payment>)
      modifies store
      ensures (store.Contents(), r) == AuthorizeCall(old(store.Contents()), id, risk, answer, ids)
    {
      var read := store.GetPayment(id);
      if read.Err? {
        return read;
      }
      var p := read.value;
      if risk != NoEngine {
        if risk == EngineError {
          return Err(ProviderError);
        }
        if risk == Blocked {
          var _ := store.Transition(id, Failed, "risk_blocked");
          return Err(RiskBlocked);
        }
      }
      if answer == None {
        var _ := store.Transition(id, Failed, "provider_error");
        return Err(ProviderError);
      }
      var entries := Pair(id, CustomerPending, MerchantPending(p.merchantId), p.currency, p.amount, ids);
      r := Commit(p, Authorized, 0.0, answer.value, entries, PaymentAuthorizedEvent, ids);
    }

    method Capture(id: string, amount: real, providerOk: bool, ids: Ids) returns (r: Result<Payment>)
      modifies store
      ensures (store.Contents(), r) == CaptureCall(old(store.Contents()), id, amount, providerOk, ids)
    {
      var read := store.GetPayment(id);
      if read.Err? {
        return read;
      }
      var p := read.value;
      if !ValidCapture(p, amount) {
        return Err(CaptureExceedsAuthorized);
      }
      if !providerOk {
        return Err(ProviderError);
      }
      var entries := Pair(id, MerchantPending(p.merchantId), MerchantAvailable(p.merchantId), p.currency, amount, ids);
      r := Commit(p, Captured, amount, p.providerReference, entries, PaymentCapturedEvent, ids);
    }

    method Refund(id: string, amount: real, providerOk: bool, ids: Ids) returns (r: Result<Payment>)
      modifies store
      ensures (store.Contents(), r) == RefundCall(old(store.Contents()), id, amount, providerOk, ids)
    {
      var read := store.GetPayment(id);
      if read.Err? {
        return read;
      }
      var p := read.value;
      if !ValidRefund(p, amount) {
        return Err(RefundExceedsCaptured);
      }
      if !providerOk {
        return Err(ProviderError);
      }
      var entries := Pair(id, MerchantAvailable(p.merchantId), CustomerRefunded, p.currency, amount, ids);
      r := Commit(p, Refunded, amount, p.providerReference, entries, PaymentRefundedEvent, ids);
    }

    method Commit(p: Payment, status: PaymentStatus, amount: real, reference: string,
                  entries: seq<LedgerEntry>, eventType: EventType, ids: Ids) returns (r: Result<Payment>)
      modifies store
      ensures (store.Contents(), r)
           == S.CommitPaymentCommand(old(store.Contents()),
                                     CommandOf(p, status, amount, reference, entries, eventType, ids))
    {
      var expected := p;
      expected := expected.(status := status);
      expected := expected.(providerReference := reference);
      if status == Captured {
        expected := expected.(captured := expected.captured + amount);
      }
      if status == Refunded {
        expected := expected.(refunded := expected.refunded + amount);
      }
      var event := OutboxEvent(ids.event, p.id, eventType, OfPayment(expected), false);
      r := store.CommitPaymentCommand(PaymentCommand(p.id, reference, status, amount, entries, event));
    }
  }

  class PayoutService {
    const store: MemoryStore

    constructor (store: MemoryStore)
      ensures this.store == store
    {
      this.store := store;
    }

    method Create(merchant: string, currency: string, amount: real, ids: Ids) returns (r: Result<Payout>)
      modifies store
      ensures (store.Contents(), r) == PayoutCall(old(store.Contents()), merchant, currency, amount, ids)
    {
      var made := NewPayout(merchant, currency, amount, ids.record);
      if made.Err? {
        return made;
      }
      var p := made.value;
      var entries := Pair("", MerchantAvailable(merchant), MerchantPayoutPending(merchant), p.currency, amount, ids);
      r := store.CreatePayout(p, entries, OutboxEvent(ids.event, p.id, PayoutCreatedEvent, OfPayout(p), false));
    }

    method Complete(id: string, reference: string, success: bool, ids: Ids) returns (r: Result<Payout>)
      modifies store
      ensures (store.Contents(), r) == CompleteCall(old(store.Contents()), id, reference, success, ids)
    {
      var status := PayoutFailed;
      var eventType := PayoutFailedEvent;
      var read := store.GetPayout(id);
      if read.Err? {
        return read;
      }
      var payout := read.value;
      var pending := MerchantPayoutPending(payout.merchantId);
      var entries;
      if success {
        status := PayoutPaid;
        eventType := PayoutPaidEvent;
        entries := Pair("", pending, ProviderPayoutSettled, payout.currency, payout.amount, ids);
      } else {
        entries := Pair("", pending, MerchantAvailable(payout.merchantId), payout.currency, payout.amount, ids);
      }
      payout := payout.(status := status);
      payout := payout.(providerReference := reference);
      r := store.TransitionPayout(id, status, reference, entries,
                                  OutboxEvent(ids.event, id, eventType, OfPayout(payout), false));
    }
  }

  class DisputeService {
    const store: MemoryStore

    constructor (store: MemoryStore)
      ensures this.store == store
    {
      this.store := store;
    }

    method Open(id: string, reason: string, amount: real, ids: Ids) returns (r: Result<Dispute>)
      modifies store
      ensures (store.Contents(), r) == OpenCall(old(store.Contents()), id, reason, amount, ids)
    {
      var read := store.GetPayment(id);
      if read.Err? {
        return Err(read.error);
      }
      var p := read.value;
      if !(amount > 0.0) || amount > p.captured - p.refunded {
        return Err(DisputeExceedsSettled);
      }
      var made := NewDispute(id, p.merchantId, p.currency, reason, amount, ids.record);
      if made.Err? {
        return made;
      }
      var d := made.value;
      var entries := Pair(id, MerchantAvailable(p.merchantId), MerchantDisputeFrozen(p.merchantId),
                          p.currency, amount, ids);
      r := store.CreateDispute(d, entries, OutboxEvent(ids.event, d.id, DisputeOpenedEvent, OfDispute(d), false));
    }

    method Resolve(id: string, merchantWins: bool, ids: Ids) returns (r: Result<Dispute>)
      modifies store
      ensures (store.Contents(), r) == ResolveCall(old(store.Contents()), id, merchantWins, ids)
    {
      var read := store.GetDispute(id);
      if read.Err? {
        return read;
      }
      var d := read.value;
      var frozen := MerchantDisputeFrozen(d.merchantId);
      var status := DisputeLost;
      var eventType := DisputeLostEvent;
      var entries := Pair(d.paymentId, frozen, CustomerChargeback, d.currency, d.amount, ids);
      if merchantWins {
        status := DisputeWon;
        eventType := DisputeWonEvent;
        entries := Pair(d.paymentId, frozen, MerchantAvailable(d.merchantId), d.currency, d.amount, ids);
      }
      d := d.(status := status);
      r := store.ResolveDispute(id, status, entries, OutboxEvent(ids.event, id, eventType, OfDispute(d), false));
    }
  }
}
