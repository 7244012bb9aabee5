/** What one posting, or one quiet change of a record, does to the ledger side of the invariant. */
module Postings {
  import opened Domain
  import opened Accounts
  import opened Sums
  import opened Machine

  // The step writes one balanced pair and one new event about record `key`.
  ghost predicate Posts(k: Config, k': Config, paymentId: string, from: Account, to: Account,
                        currency: string, amount: real, ids: Ids, event: OutboxEvent) {
    var pair := Pair(paymentId, from, to, currency, amount, ids);
    && k'.store.ledger == k.store.ledger + pair
    && event.id !in k.store.outbox
    && k'.store.outbox == k.store.outbox[event.id := event]
    && k'.journal == k.journal + [Posting(event, pair[0], pair[1])]
    && Explained(Posting(event, pair[0], pair[1]))
  }

  // Of the three tables, only the record `key` may differ.
  ghost predicate OneRecord(k: Config, k': Config, key: RecordKey) {
    match key
    case PaymentKey(id) =>
      && id in k'.store.payments
      && k'.store.payments == k.store.payments[id := k'.store.payments[id]]
      && k'.store.payouts == k.store.payouts && k'.store.disputes == k.store.disputes
      && (forall x :: x != id ==> (x in k'.authorized <==> x in k.authorized))
    case PayoutKey(id) =>
      && id in k'.store.payouts
      && k'.store.payouts == k.store.payouts[id := k'.store.payouts[id]]
      && k'.store.payments == k.store.payments && k'.store.disputes == k.store.disputes
      && k'.authorized == k.authorized
    case DisputeKey(id) =>
      && id in k'.store.disputes
      && k'.store.disputes == k.store.disputes[id := k'.store.disputes[id]]
      && k'.store.payments == k.store.payments && k'.store.payouts == k.store.payouts
      && k'.authorized == k.authorized
  }

  ghost predicate ShareMoves(k: Config, k': Config, key: RecordKey, from: Account, to: Account,
                             currency: string, amount: real) {
    forall a, c :: Share(k', key, a, c) == Share(k, key, a, c) + Moved(from, to, currency, amount, a, c)
  }

  ghost predicate ShareStays(k: Config, k': Config, key: RecordKey) {
    forall a, c :: Share(k', key, a, c) == Share(k, key, a, c)
  }

  /** Changing one record changes what the tables say by the change of that record's share. */
  lemma RecordedMoves(k: Config, k': Config, key: RecordKey, a: Account, c: string)
    requires OneRecord(k, k', key)
    ensures Recorded(k', a, c) == Recorded(k, a, c) + Share(k', key, a, c) - Share(k, key, a, c)
  {
    match key
    case PaymentKey(id) =>
      var before, after := PaymentTerm(k.authorized, a, c), PaymentTerm(k'.authorized, a, c);
      var rest := k.store.payments - {id};
      SumRemove(k'.store.payments, after, id);
      assert k'.store.payments - {id} == rest;
      SumCongruent(rest, before, after);
      if id in k.store.payments {
        SumRemove(k.store.payments, before, id);
      } else {
        assert rest == k.store.payments;
      }
    case PayoutKey(id) => SumUpdate(k.store.payouts, PayoutTerm(a, c), id, k'.store.payouts[id]);
    case DisputeKey(id) => SumUpdate(k.store.disputes, DisputeTerm(a, c), id, k'.store.disputes[id]);
  }

  lemma PostingAgrees(k: Config, k': Config, key: RecordKey, paymentId: string, from: Account, to: Account,
                      currency: string, amount: real, ids: Ids, event: OutboxEvent)
    requires Agrees(k) && Posts(k, k', paymentId, from, to, currency, amount, ids, event)
    requires OneRecord(k, k', key) && ShareMoves(k, k', key, from, to, currency, amount)
    ensures Agrees(k')
  {
    forall a, c ensures AgreesAt(k', a, c) {
      assert AgreesAt(k, a, c);
      PairBalance(k.store.ledger, paymentId, from, to, currency, amount, ids, a, c);
      RecordedMoves(k, k', key, a, c);
    }
  }

  lemma PostingAttributed(k: Config, k': Config, key: RecordKey, paymentId: string, from: Account, to: Account,
                          currency: string, amount: real, ids: Ids, event: OutboxEvent)
    requires AllAttributed(k) && Posts(k, k', paymentId, from, to, currency, amount, ids, event)
    requires OneRecord(k, k', key) && ShareMoves(k, k', key, from, to, currency, amount)
    requires KeyOf(event.payload) == key
    ensures AllAttributed(k')
  {
    forall other, a, c ensures AttributedAt(k', other, a, c) {
      assert AttributedAt(k, other, a, c);
      assert k'.journal[..|k.journal|] == k.journal;
      NameInjective(from, a);
      NameInjective(to, a);
      if other != key {
        assert Share(k', other, a, c) == Share(k, other, a, c);
      }
    }
  }

  lemma PostingJournal(k: Config, k': Config, paymentId: string, from: Account, to: Account,
                       currency: string, amount: real, ids: Ids, event: OutboxEvent)
    requires JournalOk(k) && Posts(k, k', paymentId, from, to, currency, amount, ids, event)
    ensures JournalOk(k')
  {
    var n := |k.journal|;
    forall i | 0 <= i < n + 1
      ensures && k'.store.ledger[2 * i] == k'.journal[i].debit
              && k'.store.ledger[2 * i + 1] == k'.journal[i].credit
    {
      if i < n {
        assert k'.journal[i] == k.journal[i];
        assert k.store.ledger[2 * i] == k.journal[i].debit;
      }
    }
    forall i | 0 <= i < n ensures k'.journal[i].event.id != event.id {
      assert k'.journal[i] == k.journal[i];
    }
  }

  lemma PostingAuthorizations(k: Config, k': Config, paymentId: string, from: Account, to: Account,
                              currency: string, amount: real, ids: Ids, event: OutboxEvent, id: string)
    requires Posts(k, k', paymentId, from, to, currency, amount, ids, event)
    requires to != CustomerPending
    ensures Authorizations(k'.store.ledger, id)
         == Authorizations(k.store.ledger, id) + (if from == CustomerPending && id == paymentId then 1 else 0)
  {
    var pair := Pair(paymentId, from, to, currency, amount, ids);
    var middle := k.store.ledger + [pair[0]];
    assert k'.store.ledger[..|k'.store.ledger| - 1] == middle;
    assert middle[..|middle| - 1] == k.store.ledger;
    NameInjective(from, CustomerPending);
    NameInjective(to, CustomerPending);
  }

  lemma PostingLatest(k: Config, k': Config, paymentId: string, from: Account, to: Account,
                      currency: string, amount: real, ids: Ids, event: OutboxEvent, key: RecordKey)
    requires Posts(k, k', paymentId, from, to, currency, amount, ids, event)
    ensures Latest(k'.journal, key)
         == if KeyOf(event.payload) == key then Some(event.payload) else Latest(k.journal, key)
    ensures TimesPosted(k'.journal, key)
         == TimesPosted(k.journal, key) + (if KeyOf(event.payload) == key then 1 else 0)
  {
    assert k'.journal[..|k.journal|] == k.journal;
  }

  /** A record that changes without changing its share needs no ledger entry. */
  lemma QuietStep(k: Config, k': Config, key: RecordKey)
    requires Agrees(k) && AllAttributed(k)
    requires OneRecord(k, k', key)
    requires ShareStays(k, k', key)
    requires k'.store.ledger == k.store.ledger && k'.journal == k.journal
    ensures Agrees(k') && AllAttributed(k')
  {
    forall a, c ensures AgreesAt(k', a, c) {
      assert AgreesAt(k, a, c);
      RecordedMoves(k, k', key, a, c);
    }
    forall other, a, c ensures AttributedAt(k', other, a, c) {
      assert AttributedAt(k, other, a, c);
      assert Share(k', other, a, c) == Share(k, other, a, c);
    }
  }
}
