/** internal/store/store.go: the in-memory store. Every method holds the mutex for its whole body,
    so each is one atomic step; its postcondition ties the new contents and the answer to the
    function of the same name in `StoreSpec`. */
module MemoryStores {
  import opened Domain
  import opened Accounts
  import S = StoreSpec

  class MemoryStore {
    var payments: map<string, Payment>
    var keys: map<string, string>
    var outbox: map<string, OutboxEvent>
    var ledger: seq<LedgerEntry>
    var webhooks: set<string>
    var payouts: map<string, Payout>
    var disputes: map<string, Dispute>

    ghost function Contents(): S.State
      reads this
    {
      S.State(payments, keys, outbox, ledger, webhooks, payouts, disputes)
    }

    constructor ()
      ensures Contents() == S.EMPTY
    {
      payments, keys, outbox, ledger := map[], map[], map[], [];
      webhooks, payouts, disputes := {}, map[], map[];
    }

    method CreatePayment(p: Payment, key: string) returns (r: Payment, replay: bool)
      modifies this
      ensures (Contents(), r, replay) == S.CreatePayment(old(Contents()), p, key)
    {
      if key in keys {
        var existing := keys[key];
        return (if existing in payments then payments[existing] else ZERO_PAYMENT), true;
      }
      payments := payments[p.id := p];
      keys := keys[key := p.id];
      return p, false;
    }

    method GetPayment(id: string) returns (r: Result<Payment>)
      ensures r == if id in payments then Ok(payments[id]) else Err(NotFound)
    {
      if id !in payments {
        return Err(NotFound);
      }
      return Ok(payments[id]);
    }

    /** Go visits the map in an arbitrary order, so any row with the reference may come back. */
    method GetPaymentByProviderReference(reference: string) returns (r: Result<Payment>)
      ensures r.Ok? ==> r.value in payments.Values && r.value.providerReference == reference
      ensures r.Err? ==> r.error == NotFound
      ensures r.Err? ==> forall id :: id in payments ==> payments[id].providerReference != reference
    {
      var unseen := payments.Keys;
      while unseen != {}
        invariant unseen <= payments.Keys
        invariant forall id :: id in payments && id !in unseen ==> payments[id].providerReference != reference
        decreases |unseen|
      {
        var id :| id in unseen;
        if payments[id].providerReference == reference {
          return Ok(payments[id]);
        }
        unseen := unseen - {id};
      }
      return Err(NotFound);
    }

    method Transition(id: string, to: PaymentStatus, reference: string) returns (r: Result<Payment>)
      modifies this
      ensures (Contents(), r) == S.Transition(old(Contents()), id, to, reference)
    {
      if id !in payments {
        return Err(NotFound);
      }
      var p := payments[id];
      if !CanTransition(p.status, to) {
        return Err(InvalidTransition);
      }
      p := p.(status := to, providerReference := reference);
      payments := payments[id := p];
      return Ok(p);
    }

    method AppendLedger(entries: seq<LedgerEntry>) returns (r: Result<()>)
      modifies this
      ensures (Contents(), r) == S.AppendLedger(old(Contents()), entries)
    {
      var error := ValidateBalanced(entries);
      if error.Some? {
        return Err(error.value);
      }
      ledger := ledger + entries;
      return Ok(());
    }

    /** Collects unpublished events in an arbitrary order and stops at `n` of them. Go's `make`
        panics on a negative `n`; for `n == 0` the break never fires and all are collected. */
    method ClaimOutbox(n: int) returns (claimed: seq<OutboxEvent>)
      requires n >= 0
      ensures exists ids: seq<string> :: LegalClaim(outbox, n, ids, claimed)
    {
      claimed := [];
      ghost var ids: seq<string> := [];
      var unseen := outbox.Keys;
      while unseen != {}
        invariant unseen <= outbox.Keys
        invariant |ids| == |claimed|
        invariant forall i :: 0 <= i < |ids| ==>
                    ids[i] in outbox && ids[i] !in unseen && claimed[i] == outbox[ids[i]] && !claimed[i].published
        invariant forall i, j :: 0 <= i < j < |ids| ==> ids[i] != ids[j]
        invariant forall k :: k in outbox && k !in unseen && !outbox[k].published ==> k in ids
        invariant n > 0 ==> |claimed| < n
        decreases |unseen|
      {
        var k :| k in unseen;
        unseen := unseen - {k};
        if !outbox[k].published {
          claimed := claimed + [outbox[k]];
          ids := ids + [k];
          if |claimed| == n {
            break;
          }
        }
      }
      assert LegalClaim(outbox, n, ids, claimed);
    }

    method MarkPublished(id: string) returns (r: Result<()>)
      modifies this
      ensures (Contents(), r) == S.MarkPublished(old(Contents()), id)
    {
      if id !in outbox {
        return Err(NotFound);
      }
      outbox := outbox[id := outbox[id].(published := true)];
      return Ok(());
    }

    method RegisterWebhook(id: string) returns (accepted: bool)
      modifies this
      ensures (Contents(), accepted) == S.RegisterWebhook(old(Contents()), id)
    {
      if id in webhooks {
        return false;
      }
      webhooks := webhooks + {id};
      return true;
    }

    method CommitPaymentCommand(command: PaymentCommand) returns (r: Result<Payment>)
      modifies this
      ensures (Contents(), r) == S.CommitPaymentCommand(old(Contents()), command)
    {
      if command.paymentId !in payments {
        return Err(NotFound);
      }
      var p := payments[command.paymentId];
      if !CanTransition(p.status, command.status) {
        return Err(InvalidTransition);
      }
      if command.status == Captured {
        if !ValidCapture(p, command.amount) {
          return Err(CaptureExceedsAuthorized);
        }
        p := p.(captured := p.captured + command.amount);
      }
      if command.status == Refunded {
        if !ValidRefund(p, command.amount) {
          return Err(RefundExceedsCaptured);
        }
        p := p.(refunded := p.refunded + command.amount);
      }
      var error := ValidateBalanced(command.ledger);
      if error.Some? {
        return Err(error.value);
      }
      p := p.(status := command.status);
      if command.providerReference != "" {
        p := p.(providerReference := command.providerReference);
      }
      payments := payments[p.id := p];
      ledger := ledger + command.ledger;
      var payload := command.event.(aggregateId := p.id);
      outbox := outbox[payload.id := payload];
      return Ok(p);
    }

    method AvailableBalance(merchant: string, currency: string) returns (balance: real)
      ensures balance == Balance(ledger, Name(MerchantAvailable(merchant)), currency)
    {
      balance := 0.0;
      var account := "merchant:" + merchant + ":available";
      for i := 0 to |ledger|
        invariant balance == Balance(ledger[..i], account, currency)
      {
        var entry := ledger[i];
        assert ledger[..i + 1][..i] == ledger[..i];
        if entry.accountId == account && entry.currency == currency {
          balance := balance + entry.credit - entry.debit;
        }
      }
      assert ledger[..|ledger|] == ledger;
    }

    method CreatePayout(p: Payout, entries: seq<LedgerEntry>, event: OutboxEvent) returns (r: Result<Payout>)
      modifies this
      ensures (Contents(), r) == S.CreatePayout(old(Contents()), p, entries, event)
    {
      var balance := AvailableBalance(p.merchantId, p.currency);
      if balance < p.amount {
        return Err(InsufficientBalance);
      }
      var error := ValidateBalanced(entries);
      if error.Some? {
        return Err(error.value);
      }
      payouts := payouts[p.id := p];
      ledger := ledger + entries;
      outbox := outbox[event.id := event];
      return Ok(p);
    }

    method GetPayout(id: string) returns (r: Result<Payout>)
      ensures r == if id in payouts then Ok(payouts[id]) else Err(NotFound)
    {
      if id !in payouts {
        return Err(NotFound);
      }
      return Ok(payouts[id]);
    }

    method TransitionPayout(id: string, status: PayoutStatus, reference: string,
                            entries: seq<LedgerEntry>, event: OutboxEvent) returns (r: Result<Payout>)
      modifies this
      ensures (Contents(), r) == S.TransitionPayout(old(Contents()), id, status, reference, entries, event)
    {
      if id !in payouts {
        return Err(NotFound);
      }
      var p := payouts[id];
      if p.status != PayoutPending {
        return Err(PayoutResolved);
      }
      if status != PayoutPaid && status != PayoutFailed {
        return Err(InvalidPayoutStatus);
      }
      var error := ValidateBalanced(entries);
      if error.Some? {
        return Err(error.value);
      }
      p := p.(status := status, providerReference := reference);
      payouts := payouts[id := p];
      ledger := ledger + entries;
      outbox := outbox[event.id := event];
      return Ok(p);
    }

    method CreateDispute(d: Dispute, entries: seq<LedgerEntry>, event: OutboxEvent) returns (r: Result<Dispute>)
      modifies this
      ensures (Contents(), r) == S.CreateDispute(old(Contents()), d, entries, event)
    {
      if d.id in disputes {
        return Err(DisputeExists);
      }
      var error := ValidateBalanced(entries);
      if error.Some? {
        return Err(error.value);
      }
      disputes := disputes[d.id := d];
      ledger := ledger + entries;
      outbox := outbox[event.id := event];
      return Ok(d);
    }

    method GetDispute(id: string) returns (r: Result<Dispute>)
      ensures r == if id in disputes then Ok(disputes[id]) else Err(NotFound)
    {
      if id !in disputes {
        return Err(NotFound);
      }
      return Ok(disputes[id]);
    }

    method ResolveDispute(id: string, status: DisputeStatus,
                          entries: seq<LedgerEntry>, event: OutboxEvent) returns (r: Result<Dispute>)
      modifies this
      ensures (Contents(), r) == S.ResolveDispute(old(Contents()), id, status, entries, event)
    {
      if id !in disputes {
        return Err(NotFound);
      }
      var d := disputes[id];
      if d.status != DisputeOpen {
        return Err(DisputeResolved);
      }
      if status != DisputeWon && status != DisputeLost {
        return Err(InvalidDisputeStatus);
      }
      var error := ValidateBalanced(entries);
      if error.Some? {
        return Err(error.value);
      }
      d := d.(status := status);
      disputes := disputes[id := d];
      ledger := ledger + entries;
      outbox := outbox[event.id := event];
      return Ok(d);
    }
  }

  // `ids` are the keys of a legal claim of batch size `n`: distinct, unpublished, and cut short
  // only by the batch size.
  ghost predicate LegalClaim(outbox: map<string, OutboxEvent>, n: int, ids: seq<string>, claimed: seq<OutboxEvent>) {
    && |ids| == |claimed|
    && (forall i :: 0 <= i < |ids| ==> ids[i] in outbox && claimed[i] == outbox[ids[i]] && !claimed[i].published)
    && (forall i, j :: 0 <= i < j < |ids| ==> ids[i] != ids[j])
    && (n > 0 ==> |ids| <= n)
    && ((n > 0 && |ids| == n) || (forall k :: k in outbox && !outbox[k].published ==> k in ids))
  }
}
