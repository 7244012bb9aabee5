/** Payout and dispute steps keep the invariant. */
module ClaimSteps {
  import opened Domain
  import opened Accounts
  import opened StoreSpec
  import opened ServiceSpec
  import opened Machine
  import opened Postings
  import opened Steps

  lemma SeenSame(k: Config, s': State)
    requires RowsOk(k) && s'.payments == k.store.payments
    ensures k.authorized + SeenAuthorized(s') == k.authorized
  {
    forall x | x in SeenAuthorized(s') ensures x in k.authorized {
      assert RowOk(x, k.store.payments[x], x in k.authorized);
    }
  }

  // The step changes one payout or dispute, and appends to the ledger and the outbox.
  ghost predicate ClaimChange(k: Config, k': Config, key: RecordKey) {
    && !key.PaymentKey?
    && k'.calls == k.calls && k'.authorized == k.authorized
    && k'.store == k.store.(payouts := k'.store.payouts, disputes := k'.store.disputes,
                            ledger := k'.store.ledger, outbox := k'.store.outbox)
    && OneRecord(k, k', key)
    && match key
       case PayoutKey(id) =>
         && PayoutOk(id, k'.store.payouts[id])
         && (id in k.store.payouts ==> PayoutEvolves(k.store.payouts[id], k'.store.payouts[id]))
       case DisputeKey(id) =>
         && DisputeOk(k.store, id, k'.store.disputes[id])
         && (id in k.store.disputes ==> DisputeEvolves(k.store.disputes[id], k'.store.disputes[id]))
       case PaymentKey(_) => false
  }

  lemma ClaimEvolves(k: Config, k': Config, key: RecordKey)
    requires ClaimChange(k, k', key)
    requires k.store.ledger <= k'.store.ledger
    requires forall x :: x in k.store.outbox ==> x in k'.store.outbox && k'.store.outbox[x] == k.store.outbox[x]
    ensures StoreEvolves(k.store, k'.store)
    ensures ClaimsOk(k.store) ==> ClaimsOk(k'.store)
    ensures RowsOk(k) ==> RowsOk(k')
    ensures KeysOk(k.store) ==> KeysOk(k'.store)
  {
    if ClaimsOk(k.store) {
      forall id | id in k'.store.disputes ensures DisputeOk(k'.store, id, k'.store.disputes[id]) {
        if key != DisputeKey(id) {
          assert DisputeOk(k.store, id, k.store.disputes[id]);
        }
      }
    }
  }

  lemma ClaimTables(k: Config, k': Config, key: RecordKey)
    requires Tables(k) && ClaimChange(k, k', key)
    requires k.store.ledger <= k'.store.ledger && k.journal <= k'.journal
    requires forall x :: x in k.store.outbox ==> x in k'.store.outbox && k'.store.outbox[x] == k.store.outbox[x]
    ensures Tables(k') && Evolves(k, k')
  {
    ClaimEvolves(k, k', key);
    CallsStable(k, k');
  }

  function RowPayload(s: State, key: RecordKey): Option<Payload> {
    match key
    case PaymentKey(id) => if id in s.payments then Some(OfPayment(s.payments[id])) else None
    case PayoutKey(id) => if id in s.payouts then Some(OfPayout(s.payouts[id])) else None
    case DisputeKey(id) => if id in s.disputes then Some(OfDispute(s.disputes[id])) else None
  }

  lemma ClaimEvents(k: Config, k': Config, key: RecordKey, paymentId: string, from: Account, to: Account,
                    currency: string, amount: real, ids: Ids, event: OutboxEvent)
    requires EventsCurrent(k) && StagesPosted(k) && !key.PaymentKey?
    requires Posts(k, k', paymentId, from, to, currency, amount, ids, event)
    requires OneRecord(k, k', key) && KeyOf(event.payload) == key
    requires RowPayload(k'.store, key) == Some(event.payload) && Stage(k'.store, key) == Stage(k.store, key) + 1
    ensures EventsCurrent(k') && StagesPosted(k')
  {
    forall other
      ensures Latest(k'.journal, other)
           == if KeyOf(event.payload) == other then Some(event.payload) else Latest(k.journal, other)
      ensures TimesPosted(k'.journal, other)
           == TimesPosted(k.journal, other) + (if KeyOf(event.payload) == other then 1 else 0)
    {
      PostingLatest(k, k', paymentId, from, to, currency, amount, ids, event, other);
    }
    forall other: RecordKey | !other.PaymentKey? && other != key
      ensures Stage(k'.store, other) == Stage(k.store, other)
    {
    }
  }

  lemma ClaimBooks(k: Config, k': Config, key: RecordKey, paymentId: string, from: Account, to: Account,
                   currency: string, amount: real, ids: Ids, event: OutboxEvent)
    requires Books(k) && !key.PaymentKey? && k'.authorized == k.authorized
    requires Posts(k, k', paymentId, from, to, currency, amount, ids, event)
    requires OneRecord(k, k', key) && ShareMoves(k, k', key, from, to, currency, amount)
    requires KeyOf(event.payload) == key && from != CustomerPending && to != CustomerPending
    requires RowPayload(k'.store, key) == Some(event.payload) && Stage(k'.store, key) == Stage(k.store, key) + 1
    ensures Books(k')
  {
    PostingAgrees(k, k', key, paymentId, from, to, currency, amount, ids, event);
    PostingAttributed(k, k', key, paymentId, from, to, currency, amount, ids, event);
    PostingJournal(k, k', paymentId, from, to, currency, amount, ids, event);
    forall x ensures Authorizations(k'.store.ledger, x) == if x in k'.authorized then 1 else 0 {
      PostingAuthorizations(k, k', paymentId, from, to, currency, amount, ids, event, x);
    }
    ClaimEvents(k, k', key, paymentId, from, to, currency, amount, ids, event);
  }

  // A claim step by its parts: the record, its new row, and the pair that goes with it.
  lemma ClaimStep(k: Config, k': Config, key: RecordKey, paymentId: string, from: Account, to: Account,
                  currency: string, amount: real, ids: Ids, event: OutboxEvent)
    requires Inv(k) && ClaimChange(k, k', key)
    requires Posts(k, k', paymentId, from, to, currency, amount, ids, event)
    requires ShareMoves(k, k', key, from, to, currency, amount)
    requires KeyOf(event.payload) == key && from != CustomerPending && to != CustomerPending
    requires RowPayload(k'.store, key) == Some(event.payload) && Stage(k'.store, key) == Stage(k.store, key) + 1
    ensures Inv(k') && Evolves(k, k')
  {
    ClaimTables(k, k', key);
    ClaimBooks(k, k', key, paymentId, from, to, currency, amount, ids, event);
  }

  // ---------- payouts ----------

  lemma PayoutInserted(k: Config, k': Config, p: Payout, ids: Ids)
    requires RowsOk(k) && p.id !in k.store.payouts && ids.event !in k.store.outbox
    requires p.amount > 0.0 && p.status.PayoutPending?
    requires k' == After(k, InsertPayout(k.store, p, PayoutEntries(p, ids), PayoutEvent(p, ids)), ids.event)
    ensures ClaimChange(k, k', PayoutKey(p.id))
    ensures Posts(k, k', "", MerchantAvailable(p.merchantId), MerchantPayoutPending(p.merchantId), p.currency,
                  p.amount, ids, PayoutEvent(p, ids))
    ensures ShareMoves(k, k', PayoutKey(p.id), MerchantAvailable(p.merchantId), MerchantPayoutPending(p.merchantId),
                       p.currency, p.amount)
  {
    SeenSame(k, k'.store);
    AfterPosting(k, k'.store, PayoutEntries(p, ids), PayoutEvent(p, ids));
  }

  /** The write half of payout creation keeps the invariant with or without the balance check. */
  lemma InsertPayoutStep(k: Config, k': Config, p: Payout, ids: Ids)
    requires Inv(k) && p.id !in k.store.payouts && ids.event !in k.store.outbox
    requires p.amount > 0.0 && p.status.PayoutPending?
    requires k' == After(k, InsertPayout(k.store, p, PayoutEntries(p, ids), PayoutEvent(p, ids)), ids.event)
    ensures Inv(k') && Evolves(k, k')
  {
    PayoutInserted(k, k', p, ids);
    ClaimStep(k, k', PayoutKey(p.id), "", MerchantAvailable(p.merchantId), MerchantPayoutPending(p.merchantId),
              p.currency, p.amount, ids, PayoutEvent(p, ids));
  }

  ghost function CompleteTarget(p: Payout, success: bool): Account {
    if success then ProviderPayoutSettled else MerchantAvailable(p.merchantId)
  }

  // A completion that succeeds read the very row it replaces.
  lemma CompletionRead(s: State, call: Call, reference: string, ids: Ids)
    requires ClaimsOk(s) && CallOk(s, call) && call.Completing?
    requires CommitCall(s, call, reference, ids) != s
    ensures var p := call.payout;
            && p == s.payouts[call.id] && p.status.PayoutPending? && PayoutOk(call.id, p)
            && CommitCall(s, call, reference, ids)
               == s.(payouts := s.payouts[call.id := p.(status := CompletedStatus(call.success),
                                                        providerReference := call.reference)],
                     ledger := s.ledger + CompleteEntries(p, call.success, ids),
                     outbox := s.outbox[ids.event := CompleteEvent(call.id, p, call.reference, call.success, ids)])
  {
    assert PayoutOk(call.id, s.payouts[call.id]);
  }

  lemma PayoutCompletedShare(k: Config, k': Config, id: string, p: Payout, success: bool, reference: string)
    requires id in k.store.payouts && id in k'.store.payouts
    requires k.store.payouts[id] == p && p.status.PayoutPending?
    requires k'.store.payouts[id] == p.(status := CompletedStatus(success), providerReference := reference)
    ensures ShareMoves(k, k', PayoutKey(id), MerchantPayoutPending(p.merchantId), CompleteTarget(p, success),
                       p.currency, p.amount)
  {
  }

  lemma PayoutCompleted(k: Config, k': Config, call: Call, reference: string, ids: Ids)
    requires RowsOk(k) && ClaimsOk(k.store) && CallOk(k.store, call) && call.Completing?
    requires ids.event !in k.store.outbox
    requires CommitCall(k.store, call, reference, ids) != k.store
    requires k' == After(k, CommitCall(k.store, call, reference, ids), ids.event)
    ensures var p := call.payout;
            var event := CompleteEvent(call.id, p, call.reference, call.success, ids);
            && ClaimChange(k, k', PayoutKey(call.id))
            && Posts(k, k', "", MerchantPayoutPending(p.merchantId), CompleteTarget(p, call.success), p.currency,
                     p.amount, ids, event)
            && ShareMoves(k, k', PayoutKey(call.id), MerchantPayoutPending(p.merchantId),
                          CompleteTarget(p, call.success),
                          p.currency, p.amount)
            && RowPayload(k'.store, PayoutKey(call.id)) == Some(event.payload)
            && Stage(k'.store, PayoutKey(call.id)) == Stage(k.store, PayoutKey(call.id)) + 1
            && KeyOf(event.payload) == PayoutKey(call.id)
  {
    var p := call.payout;
    var event := CompleteEvent(call.id, p, call.reference, call.success, ids);
    CompletionRead(k.store, call, reference, ids);
    PayoutCompletedShare(k, k', call.id, p, call.success, call.reference);
    SeenSame(k, k'.store);
    AfterPosting(k, k'.store, CompleteEntries(p, call.success, ids), event);
  }

  lemma CompletePayoutStep(k: Config, k': Config, call: Call, reference: string, ids: Ids)
    requires Inv(k) && CallOk(k.store, call) && call.Completing?
    requires ids.event !in k.store.outbox
    requires CommitCall(k.store, call, reference, ids) != k.store
    requires k' == After(k, CommitCall(k.store, call, reference, ids), ids.event)
    ensures Inv(k') && Evolves(k, k')
  {
    PayoutCompleted(k, k', call, reference, ids);
    var p := call.payout;
    ClaimStep(k, k', PayoutKey(call.id), "", MerchantPayoutPending(p.merchantId), CompleteTarget(p, call.success),
              p.currency, p.amount, ids, CompleteEvent(call.id, p, call.reference, call.success, ids));
  }

  // ---------- disputes ----------

  lemma DisputeOpened(k: Config, k': Config, call: Call, reference: string, ids: Ids)
    requires RowsOk(k) && CallOk(k.store, call) && call.Opening?
    requires ids.event !in k.store.outbox
    requires CommitCall(k.store, call, reference, ids) != k.store
    requires k' == After(k, CommitCall(k.store, call, reference, ids), ids.event)
    ensures var p := call.payment;
            var d := NewDispute(call.id, p.merchantId, p.currency, call.reason, call.amount, ids.record);
            && d.Ok?
            && ClaimChange(k, k', DisputeKey(ids.record))
            && Posts(k, k', call.id, MerchantAvailable(p.merchantId), MerchantDisputeFrozen(p.merchantId), p.currency,
                     call.amount, ids, OpenEvent(d.value, ids))
            && ShareMoves(k, k', DisputeKey(ids.record), MerchantAvailable(p.merchantId),
                          MerchantDisputeFrozen(p.merchantId), p.currency, call.amount)
            && RowPayload(k'.store, DisputeKey(ids.record)) == Some(OfDispute(d.value))
            && d.value.id == ids.record
            && Stage(k'.store, DisputeKey(ids.record)) == Stage(k.store, DisputeKey(ids.record)) + 1
  {
    var p := call.payment;
    assert RowOk(call.id, k.store.payments[call.id], call.id in k.authorized);
    var d := NewDispute(call.id, p.merchantId, p.currency, call.reason, call.amount, ids.record).value;
    SeenSame(k, k'.store);
    AfterPosting(k, k'.store, OpenEntries(call.id, p, call.amount, ids), OpenEvent(d, ids));
  }

  lemma OpenDisputeStep(k: Config, k': Config, call: Call, reference: string, ids: Ids)
    requires Inv(k) && CallOk(k.store, call) && call.Opening?
    requires ids.event !in k.store.outbox
    requires CommitCall(k.store, call, reference, ids) != k.store
    requires k' == After(k, CommitCall(k.store, call, reference, ids), ids.event)
    ensures Inv(k') && Evolves(k, k')
  {
    DisputeOpened(k, k', call, reference, ids);
    var p := call.payment;
    var d := NewDispute(call.id, p.merchantId, p.currency, call.reason, call.amount, ids.record).value;
    ClaimStep(k, k', DisputeKey(ids.record), call.id, MerchantAvailable(p.merchantId),
              MerchantDisputeFrozen(p.merchantId),
              p.currency, call.amount, ids, OpenEvent(d, ids));
  }

  ghost function ResolveTarget(d: Dispute, merchantWins: bool): Account {
    if merchantWins then MerchantAvailable(d.merchantId) else CustomerChargeback
  }

  lemma DisputeResolvedShare(k: Config, k': Config, id: string, d: Dispute, merchantWins: bool)
    requires id in k.store.disputes && id in k'.store.disputes
    requires k.store.disputes[id] == d && d.status.DisputeOpen?
    requires k'.store.disputes[id] == d.(status := ResolvedStatus(merchantWins))
    ensures ShareMoves(k, k', DisputeKey(id), MerchantDisputeFrozen(d.merchantId), ResolveTarget(d, merchantWins),
                       d.currency, d.amount)
  {
  }

  // A resolution that succeeds read the very row it replaces.
  lemma ResolutionRead(s: State, call: Call, reference: string, ids: Ids)
    requires ClaimsOk(s) && CallOk(s, call) && call.Resolving?
    requires CommitCall(s, call, reference, ids) != s
    ensures var d := call.dispute;
            && d == s.disputes[call.id] && d.status.DisputeOpen? && DisputeOk(s, call.id, d)
            && CommitCall(s, call, reference, ids)
               == s.(disputes := s.disputes[call.id := d.(status := ResolvedStatus(call.merchantWins))],
                     ledger := s.ledger + ResolveEntries(d, call.merchantWins, ids),
                     outbox := s.outbox[ids.event := ResolveEvent(call.id, d, call.merchantWins, ids)])
  {
    assert DisputeOk(s, call.id, s.disputes[call.id]);
  }

  // The pair and the event of a resolution explain each other.
  lemma ResolutionExplained(id: string, d: Dispute, merchantWins: bool, ids: Ids)
    requires d.id == id && d.amount > 0.0
    ensures var pair := ResolveEntries(d, merchantWins, ids);
            Explained(Posting(ResolveEvent(id, d, merchantWins, ids), pair[0], pair[1]))
  {
  }

  lemma DisputeResolvedPosts(k: Config, k': Config, call: Call, reference: string, ids: Ids)
    requires RowsOk(k) && ClaimsOk(k.store) && CallOk(k.store, call) && call.Resolving?
    requires ids.event !in k.store.outbox
    requires CommitCall(k.store, call, reference, ids) != k.store
    requires k' == After(k, CommitCall(k.store, call, reference, ids), ids.event)
    ensures var d := call.dispute;
            Posts(k, k', d.paymentId, MerchantDisputeFrozen(d.merchantId), ResolveTarget(d, call.merchantWins),
                  d.currency,
                  d.amount, ids, ResolveEvent(call.id, d, call.merchantWins, ids))
  {
    var d := call.dispute;
    ResolutionRead(k.store, call, reference, ids);
    ResolutionExplained(call.id, d, call.merchantWins, ids);
    AfterPosting(k, k'.store, ResolveEntries(d, call.merchantWins, ids),
                 ResolveEvent(call.id, d, call.merchantWins, ids));
  }

  lemma DisputeResolvedChange(k: Config, k': Config, call: Call, reference: string, ids: Ids)
    requires RowsOk(k) && ClaimsOk(k.store) && CallOk(k.store, call) && call.Resolving?
    requires CommitCall(k.store, call, reference, ids) != k.store
    requires k' == After(k, CommitCall(k.store, call, reference, ids), ids.event)
    ensures var d := call.dispute;
            && ClaimChange(k, k', DisputeKey(call.id))
            && RowPayload(k'.store, DisputeKey(call.id))
                == Some(OfDispute(d.(status := ResolvedStatus(call.merchantWins))))
            && Stage(k'.store, DisputeKey(call.id)) == Stage(k.store, DisputeKey(call.id)) + 1
            && d.id == call.id
            && ShareMoves(k, k', DisputeKey(call.id), MerchantDisputeFrozen(d.merchantId),
                          ResolveTarget(d, call.merchantWins),
                          d.currency, d.amount)
  {
    ResolutionRead(k.store, call, reference, ids);
    SeenSame(k, k'.store);
    DisputeResolvedShare(k, k', call.id, call.dispute, call.merchantWins);
  }

  lemma DisputeResolvedShape(k: Config, k': Config, call: Call, reference: string, ids: Ids)
    requires RowsOk(k) && ClaimsOk(k.store) && CallOk(k.store, call) && call.Resolving?
    requires ids.event !in k.store.outbox
    requires CommitCall(k.store, call, reference, ids) != k.store
    requires k' == After(k, CommitCall(k.store, call, reference, ids), ids.event)
    ensures var d := call.dispute;
            var event := ResolveEvent(call.id, d, call.merchantWins, ids);
            && ClaimChange(k, k', DisputeKey(call.id))
            && Posts(k, k', d.paymentId, MerchantDisputeFrozen(d.merchantId), ResolveTarget(d, call.merchantWins),
                     d.currency,
                     d.amount, ids, event)
            && ShareMoves(k, k', DisputeKey(call.id), MerchantDisputeFrozen(d.merchantId),
                          ResolveTarget(d, call.merchantWins),
                          d.currency, d.amount)
            && RowPayload(k'.store, DisputeKey(call.id)) == Some(event.payload)
            && Stage(k'.store, DisputeKey(call.id)) == Stage(k.store, DisputeKey(call.id)) + 1
            && KeyOf(event.payload) == DisputeKey(call.id)
  {
    DisputeResolvedPosts(k, k', call, reference, ids);
    DisputeResolvedChange(k, k', call, reference, ids);
  }

  lemma ResolveDisputeStep(k: Config, k': Config, call: Call, reference: string, ids: Ids)
    requires Inv(k) && CallOk(k.store, call) && call.Resolving?
    requires ids.event !in k.store.outbox
    requires CommitCall(k.store, call, reference, ids) != k.store
    requires k' == After(k, CommitCall(k.store, call, reference, ids), ids.event)
    ensures Inv(k') && Evolves(k, k')
  {
    DisputeResolvedShape(k, k', call, reference, ids);
    var d := call.dispute;
    ClaimStep(k, k', DisputeKey(call.id), d.paymentId, MerchantDisputeFrozen(d.merchantId),
              ResolveTarget(d, call.merchantWins),
              d.currency, d.amount, ids, ResolveEvent(call.id, d, call.merchantWins, ids));
  }
}
