/** What holds at every point of every run, for every interleaving of calls in flight. */
module Theorems {
  import opened Domain
  import opened Accounts
  import opened StoreSpec
  import opened ServiceSpec
  import opened Machine
  import opened Steps
  import opened ClaimSteps
  import opened Runs
  import opened Bounds

  // ---------- agreement ----------

  /** Every account, in every currency, holds exactly what the payment, payout and dispute tables
      say it should. */
  lemma LedgerAgreesWithRecords(r: seq<Config>, i: nat, a: Account, c: string)
    requires Run(r) && i < |r|
    ensures Balance(r[i].store.ledger, Name(a), c) == Recorded(r[i], a, c)
  {
    RunInv(r, i);
    assert AgreesAt(r[i], a, c);
  }

  /** The same record by record: the entries written on behalf of one payment, payout or dispute
      add up to that record's own share of every account. */
  lemma EntriesAgreeWithTheirRecord(r: seq<Config>, i: nat, key: RecordKey, a: Account, c: string)
    requires Run(r) && i < |r|
    ensures Attributed(r[i].journal, key, Name(a), c) == Share(r[i], key, a, c)
  {
    RunInv(r, i);
    assert AttributedAt(r[i], key, a, c);
  }

  /** A payout that failed, or a dispute the merchant won, has cancelled itself on every account,
      whatever ran in between. */
  lemma CancelledLifecycles(r: seq<Config>, i: nat, id: string, a: Account, c: string)
    requires Run(r) && i < |r|
    ensures (id in r[i].store.payouts && r[i].store.payouts[id].status.PayoutFailed?) ==>
              Attributed(r[i].journal, PayoutKey(id), Name(a), c) == 0.0
    ensures (id in r[i].store.disputes && r[i].store.disputes[id].status.DisputeWon?) ==>
              Attributed(r[i].journal, DisputeKey(id), Name(a), c) == 0.0
  {
    EntriesAgreeWithTheirRecord(r, i, PayoutKey(id), a, c);
    EntriesAgreeWithTheirRecord(r, i, DisputeKey(id), a, c);
  }

  // ---------- history ----------

  lemma NextRecordsAuthorized(k: Config, k': Config)
    requires RowsOk(k) && Next(k, k')
    ensures k'.authorized == k.authorized + SeenAuthorized(k'.store)
  {
    var a :| Enabled(k, a) && k' == Perform(k, a);
    if a.Begin? || a.Abort? || a.Register? || a.Publish? || k' == k {
      SeenSame(k, k'.store);
    }
  }

  lemma RunRows(r: seq<Config>, i: nat)
    requires Run(r) && i < |r|
    ensures RowsOk(r[i])
    ensures i + 1 < |r| ==> Next(r[i], r[i + 1])
  {
    RunInv(r, i);
  }

  predicate AuthorizedAt(s: State, id: string) {
    id in s.payments && s.payments[id].status.Authorized?
  }

  ghost predicate SeenUpTo(r: seq<Config>, i: nat, id: string)
    requires i < |r|
  {
    exists j :: 0 <= j <= i && AuthorizedAt(r[j].store, id)
  }

  lemma SeenNext(r: seq<Config>, i: nat, id: string)
    requires i + 1 < |r|
    ensures SeenUpTo(r, i + 1, id) <==> SeenUpTo(r, i, id) || AuthorizedAt(r[i + 1].store, id)
  {
  }

  lemma {:induction false} HistoryUpTo(r: seq<Config>, i: nat, id: string)
    requires Run(r) && i < |r|
    ensures id in r[i].authorized <==> SeenUpTo(r, i, id)
    decreases i
  {
    if i == 0 {
      assert r[0].store.payments == map[];
    } else {
      HistoryUpTo(r, i - 1, id);
      SeenNext(r, i - 1, id);
      assert r[i].authorized == r[i - 1].authorized + SeenAuthorized(r[i].store) by {
        RunRows(r, i - 1);
        NextRecordsAuthorized(r[i - 1], r[i]);
      }
    }
  }

  /** The history variable `authorized` is what its name says. */
  lemma AuthorizedIsHistory(r: seq<Config>, i: nat, id: string)
    requires Run(r) && i < |r|
    ensures id in r[i].authorized
       <==> exists j :: 0 <= j <= i && id in r[j].store.payments && r[j].store.payments[id].status.Authorized?
  {
    HistoryUpTo(r, i, id);
    assert SeenUpTo(r, i, id)
      <==> exists j :: 0 <= j <= i && id in r[j].store.payments && r[j].store.payments[id].status.Authorized?;
  }

  /** Between any two points of a run, rows keep their identity and amounts only grow, resolved
      payouts and disputes never change again, keys, ledger entries and events are never lost. */
  lemma {:induction false} RunEvolves(r: seq<Config>, i: nat, j: nat)
    requires Run(r) && i <= j < |r|
    ensures Evolves(r[i], r[j])
    decreases j
  {
    if i == j {
      assert StoreEvolves(r[i].store, r[i].store);
    } else {
      RunEvolves(r, i, j - 1);
      RunInv(r, j - 1);
      assert Next(r[j - 1], r[j - 1 + 1]);
      var a :| Enabled(r[j - 1], a) && r[j] == Perform(r[j - 1], a);
      StepKeepsInv(r[j - 1], a);
      EvolvesTransitive(r[i], r[j - 1], r[j]);
    }
  }

  /** A resolved payout or dispute keeps its row for ever, and the journal holds exactly one
      opening and one resolution of it. */
  lemma ResolvedOnce(r: seq<Config>, i: nat, j: nat, id: string)
    requires Run(r) && i <= j < |r|
    ensures (id in r[i].store.payouts && !r[i].store.payouts[id].status.PayoutPending?) ==>
              && id in r[j].store.payouts && r[j].store.payouts[id] == r[i].store.payouts[id]
              && TimesPosted(r[j].journal, PayoutKey(id)) == 2
    ensures (id in r[i].store.disputes && !r[i].store.disputes[id].status.DisputeOpen?) ==>
              && id in r[j].store.disputes && r[j].store.disputes[id] == r[i].store.disputes[id]
              && TimesPosted(r[j].journal, DisputeKey(id)) == 2
  {
    RunEvolves(r, i, j);
    RunInv(r, j);
    StagesAt(r[j], PayoutKey(id));
    StagesAt(r[j], DisputeKey(id));
    if id in r[i].store.payouts {
      assert PayoutEvolves(r[i].store.payouts[id], r[j].store.payouts[id]);
    }
    if id in r[i].store.disputes {
      assert DisputeEvolves(r[i].store.disputes[id], r[j].store.disputes[id]);
    }
  }

  lemma StagesAt(k: Config, key: RecordKey)
    requires StagesPosted(k) && !key.PaymentKey?
    ensures TimesPosted(k.journal, key) == Stage(k.store, key)
  {
  }

  /** No dispute is ever larger than what its payment has captured. */
  lemma DisputeWithinCaptured(r: seq<Config>, i: nat, j: nat, id: string)
    requires Run(r) && i <= j < |r| && id in r[i].store.disputes
    ensures var d := r[i].store.disputes[id];
            d.paymentId in r[j].store.payments && 0.0 < d.amount <= r[j].store.payments[d.paymentId].captured
  {
    RunEvolves(r, i, j);
    RunInv(r, j);
    assert DisputeEvolves(r[i].store.disputes[id], r[j].store.disputes[id]);
    assert DisputeOk(r[j].store, id, r[j].store.disputes[id]);
  }

  // ---------- payments ----------

  lemma CommandKeepsStatusOk(p: Payment, cmd: PaymentCommand)
    requires CommandRow(p, cmd).Ok? && StatusOk(p) && 0.0 <= p.refunded <= p.captured
    ensures StatusOk(CommandRow(p, cmd).value)
  {
  }

  ghost predicate StatusesOk(s: State) {
    forall id :: id in s.payments ==> StatusOk(s.payments[id])
  }

  lemma CommitKeepsStatuses(s: State, call: Call, reference: string, ids: Ids)
    requires StatusesOk(s) && CallOk(s, call)
    requires forall id :: id in s.payments ==>
               s.payments[id].id == id && 0.0 <= s.payments[id].refunded <= s.payments[id].captured
    ensures StatusesOk(CommitCall(s, call, reference, ids))
  {
    if call.Authorizing? || call.Capturing? || call.Refunding? {
      var cmd := PaymentCommandParts(call, reference, ids).0;
      if CommandRow(s.payments[call.id], cmd).Ok? {
        CommandKeepsStatusOk(s.payments[call.id], cmd);
      }
    }
  }

  lemma CreateKeepsStatuses(k: Config, a: Action)
    requires RowsOk(k) && StatusesOk(k.store) && Enabled(k, a) && a.Create?
    ensures StatusesOk(Perform(k, a).store)
  {
    CreateShape(k, a.input, a.key, a.ids);
  }

  // A payment that can still fail has captured nothing.
  lemma FailKeepsStatuses(s: State, id: string, reason: string)
    requires StatusesOk(s)
    requires forall x :: x in s.payments ==> 0.0 <= s.payments[x].refunded <= s.payments[x].captured
    ensures StatusesOk(Transition(s, id, Failed, reason).0)
  {
  }

  lemma NextKeepsStatuses(k: Config, k': Config)
    requires RowsOk(k) && StatusesOk(k.store) && CallsOk(k) && Next(k, k')
    ensures StatusesOk(k'.store)
  {
    var a :| Enabled(k, a) && k' == Perform(k, a);
    assert forall id :: id in k.store.payments ==> RowOk(id, k.store.payments[id], id in k.authorized);
    if a.Commit? {
      CommitKeepsStatuses(k.store, k.calls[a.n], a.reference, a.ids);
    } else if a.Create? {
      CreateKeepsStatuses(k, a);
    } else if a.Fail? {
      FailKeepsStatuses(k.store, k.calls[a.n].id, a.reason);
    } else {
      assert k'.store.payments == k.store.payments;
    }
  }

  lemma {:induction false} RunStatuses(r: seq<Config>, i: nat)
    requires Run(r) && i < |r|
    ensures StatusesOk(r[i].store)
    decreases i
  {
    if i > 0 {
      RunStatuses(r, i - 1);
      RunRows(r, i - 1);
      assert CallsOk(r[i - 1]) by { RunInv(r, i - 1); }
      NextKeepsStatuses(r[i - 1], r[i]);
    }
  }

  /** At every point of every run a payment satisfies 0 <= refunded <= captured <= amount, captured
      is positive exactly in status captured or refunded, refunded exactly in status refunded, and
      the ledger holds one authorization of it if it was ever authorized and none otherwise. */
  lemma PaymentsStayValid(r: seq<Config>, i: nat, id: string)
    requires Run(r) && i < |r| && id in r[i].store.payments
    ensures var p := r[i].store.payments[id];
            && p.id == id && 0.0 <= p.refunded <= p.captured <= p.amount
            && (p.captured > 0.0 <==> p.status.Captured? || p.status.Refunded?)
            && (p.refunded > 0.0 <==> p.status.Refunded?)
    ensures Authorizations(r[i].store.ledger, id) == if id in r[i].authorized then 1 else 0
  {
    RunInv(r, i);
    RunStatuses(r, i);
    assert RowOk(id, r[i].store.payments[id], id in r[i].authorized);
    assert StatusOk(r[i].store.payments[id]);
  }

  // ---------- failed payments ----------

  lemma FailedRefusesCommand(s: State, call: Call, reference: string, ids: Ids)
    requires call.Authorizing? || call.Capturing? || call.Refunding?
    requires call.payment.id == call.id && call.id in s.payments && s.payments[call.id].status.Failed?
    ensures CommitCall(s, call, reference, ids) == s
  {
  }

  lemma TimesPostedAppend(journal: seq<Posting>, x: Posting, key: RecordKey)
    ensures TimesPosted(journal + [x], key)
         == TimesPosted(journal, key) + (if KeyOf(x.event.payload) == key then 1 else 0)
  {
    assert (journal + [x])[..|journal|] == journal;
  }

  // The step leaves the failed payment alone and posts nothing about it.
  ghost predicate LeavesAlone(k: Config, k': Config, id: string) {
    && id in k.store.payments && id in k'.store.payments && k'.store.payments[id] == k.store.payments[id]
    && TimesPosted(k'.journal, PaymentKey(id)) == TimesPosted(k.journal, PaymentKey(id))
  }

  lemma PaymentCommitLeavesAlone(k: Config, call: Call, reference: string, ids: Ids, id: string)
    requires RowsOk(k) && CallOk(k.store, call) && ids.event !in k.store.outbox
    requires call.Authorizing? || call.Capturing? || call.Refunding?
    requires id in k.store.payments && k.store.payments[id].status.Failed?
    ensures LeavesAlone(k, After(k, CommitCall(k.store, call, reference, ids), ids.event), id)
  {
    var k' := After(k, CommitCall(k.store, call, reference, ids), ids.event);
    if CommitCall(k.store, call, reference, ids) == k.store {
      AfterNothing(k, ids.event);
    } else if call.id == id {
      FailedRefusesCommand(k.store, call, reference, ids);
    } else {
      PaymentCommandPosts(k, k', call, reference, ids);
      TimesPostedAppend(k.journal, k'.journal[|k.journal|], PaymentKey(id));
    }
  }

  // The step posts at most an event about a payout or dispute, and no payment changes.
  lemma ClaimLeavesAlone(k: Config, k': Config, id: string)
    requires k'.store.payments == k.store.payments && id in k.store.payments
    requires k'.journal == k.journal
          || exists x: Posting :: k'.journal == k.journal + [x] && !x.event.payload.OfPayment?
    ensures LeavesAlone(k, k', id)
  {
    if k'.journal != k.journal {
      TimesPostedAppend(k.journal, k'.journal[|k.journal|], PaymentKey(id));
    }
  }

  lemma ClaimCommitLeavesAlone(k: Config, call: Call, reference: string, ids: Ids, id: string)
    requires call.Completing? || call.Opening? || call.Resolving?
    requires id in k.store.payments && ids.event !in k.store.outbox
    ensures LeavesAlone(k, After(k, CommitCall(k.store, call, reference, ids), ids.event), id)
  {
    ClaimLeavesAlone(k, After(k, CommitCall(k.store, call, reference, ids), ids.event), id);
  }

  lemma PayoutLeavesAlone(k: Config, a: Action, id: string)
    requires Enabled(k, a) && a.RequestPayout? && id in k.store.payments
    ensures LeavesAlone(k, Perform(k, a), id)
  {
    ClaimLeavesAlone(k, Perform(k, a), id);
  }

  lemma CommitLeavesAlone(k: Config, a: Action, id: string)
    requires RowsOk(k) && CallsOk(k) && Enabled(k, a) && a.Commit?
    requires id in k.store.payments && k.store.payments[id].status.Failed?
    ensures LeavesAlone(k, Perform(k, a), id)
  {
    var call, ended := k.calls[a.n], EndCall(k, a.n);
    assert CallOk(k.store, call);
    if call.Completing? || call.Opening? || call.Resolving? {
      ClaimCommitLeavesAlone(ended, call, a.reference, a.ids, id);
    } else {
      PaymentCommitLeavesAlone(ended, call, a.reference, a.ids, id);
    }
  }

  lemma CreateLeavesAlone(k: Config, a: Action, id: string)
    requires RowsOk(k) && Enabled(k, a) && a.Create? && id in k.store.payments
    ensures LeavesAlone(k, Perform(k, a), id)
  {
    CreateShape(k, a.input, a.key, a.ids);
  }

  lemma OtherStepLeavesAlone(k: Config, a: Action, id: string)
    requires Enabled(k, a) && !a.Commit? && !a.Create? && !a.RequestPayout?
    requires id in k.store.payments && k.store.payments[id].status.Failed?
    ensures LeavesAlone(k, Perform(k, a), id)
  {
  }

  lemma NextLeavesAlone(k: Config, k': Config, id: string)
    requires RowsOk(k) && CallsOk(k) && Next(k, k') && id in k.store.payments && k.store.payments[id].status.Failed?
    ensures LeavesAlone(k, k', id)
  {
    var a :| Enabled(k, a) && k' == Perform(k, a);
    if a.Commit? {
      CommitLeavesAlone(k, a, id);
    } else if a.Create? {
      CreateLeavesAlone(k, a, id);
    } else if a.RequestPayout? {
      PayoutLeavesAlone(k, a, id);
    } else {
      OtherStepLeavesAlone(k, a, id);
    }
  }

  lemma {:induction false} LeftAloneAlong(r: seq<Config>, i: nat, j: nat, id: string)
    requires i <= j < |r| && id in r[i].store.payments && r[i].store.payments[id].status.Failed?
    requires forall l :: i <= l < j && id in r[l].store.payments && r[l].store.payments[id].status.Failed? ==>
               LeavesAlone(r[l], r[l + 1], id)
    ensures LeavesAlone(r[i], r[j], id)
    decreases j
  {
    if i < j {
      LeftAloneAlong(r, i, j - 1, id);
      assert LeavesAlone(r[j - 1], r[j - 1 + 1], id);
    }
  }

  /** Once a payment has failed its row never changes again and nothing is ever posted about it, whatever
      calls on it are still in flight. */
  lemma FailedIsFinal(r: seq<Config>, i: nat, j: nat, id: string)
    requires Run(r) && i <= j < |r| && id in r[i].store.payments && r[i].store.payments[id].status.Failed?
    ensures LeavesAlone(r[i], r[j], id)
  {
    forall l | i <= l < j && id in r[l].store.payments && r[l].store.payments[id].status.Failed?
      ensures LeavesAlone(r[l], r[l + 1], id)
    {
      RunRows(r, l);
      assert CallsOk(r[l]) by { RunInv(r, l); }
      NextLeavesAlone(r[l], r[l + 1], id);
    }
    LeftAloneAlong(r, i, j, id);
  }

  // ---------- bounds ----------

  lemma CommitPayoutKeys(s: State, call: Call, reference: string, ids: Ids)
    ensures CommitCall(s, call, reference, ids).payouts.Keys == s.payouts.Keys
  {
  }

  lemma StepPayoutKeys(k: Config, a: Action)
    requires Enabled(k, a) && !a.RequestPayout?
    ensures Perform(k, a).store.payouts.Keys == k.store.payouts.Keys
  {
    if a.Commit? {
      CommitPayoutKeys(k.store, k.calls[a.n], a.reference, a.ids);
    }
  }

  // What passing the balance check of payout creation means in terms of the tables.
  lemma BalanceCheckMeans(k: Config, m: string, c: string)
    requires Agrees(k) && RowsOk(k) && ClaimsOk(k.store)
    ensures HeldTotal(k.store, m, c) + Available(k.store, m, c) <= CapturedTotal(k.store, m, c)
  {
    assert AgreesAt(k, MerchantAvailable(m), c);
    AvailableSplit(k, m, c);
    RefundedAndDisputedNonNegative(k, m, c);
  }

  lemma RequestPayoutKeepsSolvent(k: Config, a: Action)
    requires Inv(k) && Solvent(k.store) && Enabled(k, a) && a.RequestPayout?
    ensures Solvent(Perform(k, a).store)
  {
    var made := NewPayout(a.merchant, a.currency, a.amount, a.ids.record);
    var s' := Perform(k, a).store;
    if s' != k.store {
      var p := made.value;
      forall m, c ensures SolventAt(s', m, c) {
        assert SolventAt(k.store, m, c);
        HeldAfterInsert(k.store, s', p, m, c);
        BalanceCheckMeans(k, m, c);
      }
    }
  }

  lemma {:induction false} RunSolvent(r: seq<Config>, i: nat)
    requires Run(r) && i < |r|
    ensures Solvent(r[i].store)
    decreases i
  {
    if i == 0 {
      forall m, c ensures SolventAt(r[0].store, m, c) {}
    } else {
      RunSolvent(r, i - 1);
      RunInv(r, i - 1);
      assert Next(r[i - 1], r[i - 1 + 1]);
      var a :| Enabled(r[i - 1], a) && r[i] == Perform(r[i - 1], a);
      StepKeepsInv(r[i - 1], a);
      if a.RequestPayout? {
        RequestPayoutKeepsSolvent(r[i - 1], a);
      } else {
        StepPayoutKeys(r[i - 1], a);
        SolventPersists(r[i - 1], r[i]);
      }
    }
  }

  /** Payouts reserved or paid never exceed captures; available never falls below what refunds and
      disputes can explain; every other account but customer-pending is never negative. */
  lemma BalanceBounds(r: seq<Config>, i: nat, m: string, a: Account, c: string)
    requires Run(r) && i < |r|
    ensures HeldTotal(r[i].store, m, c) <= CapturedTotal(r[i].store, m, c)
    ensures Available(r[i].store, m, c) >= -(RefundedTotal(r[i].store, m, c) + DisputedTotal(r[i].store, m, c))
    ensures !a.MerchantAvailable? && !a.CustomerPending? ==> Balance(r[i].store.ledger, Name(a), c) >= 0.0
  {
    RunInv(r, i);
    RunSolvent(r, i);
    assert SolventAt(r[i].store, m, c);
    LedgerAgreesWithRecords(r, i, MerchantAvailable(m), c);
    AvailableSplit(r[i], m, c);
    if !a.MerchantAvailable? && !a.CustomerPending? {
      RecordedNonNegative(r[i], a, c);
      LedgerAgreesWithRecords(r, i, a, c);
    }
  }

  /** A payout that is granted leaves the available balance at zero or more. */
  lemma GrantedPayoutLeavesBalance(s: State, merchant: string, currency: string, amount: real, ids: Ids)
    requires PayoutCall(s, merchant, currency, amount, ids).1.Ok?
    ensures var s' := PayoutCall(s, merchant, currency, amount, ids).0;
            && Available(s', merchant, ToUpper(currency)) == Available(s, merchant, ToUpper(currency)) - amount
            && Available(s', merchant, ToUpper(currency)) >= 0.0
  {
    var p := NewPayout(merchant, currency, amount, ids.record).value;
    PairBalance(s.ledger, "", MerchantAvailable(merchant), MerchantPayoutPending(merchant), p.currency, amount, ids,
                MerchantAvailable(merchant), p.currency);
  }

  // ---------- ledger and outbox ----------

  lemma PairBalancesPerCurrency(l: seq<LedgerEntry>, x: Posting, c: string)
    requires Explained(x) && CurrencyDebits(l, c) == CurrencyCredits(l, c)
    ensures CurrencyDebits(l + [x.debit, x.credit], c) == CurrencyCredits(l + [x.debit, x.credit], c)
  {
    var longer := l + [x.debit];
    assert (l + [x.debit, x.credit])[..|l| + 1] == longer && longer[..|l|] == l;
  }

  // The first `n` pairs of the ledger, and the one after them.
  lemma NextPair(k: Config, n: nat)
    requires JournalOk(k) && n < |k.journal|
    ensures Explained(k.journal[n])
    ensures k.store.ledger[..2 * (n + 1)] == k.store.ledger[..2 * n] + [k.journal[n].debit, k.journal[n].credit]
  {
    var l, x := k.store.ledger, k.journal[n];
    assert Explained(x) && l[2 * n] == x.debit && l[2 * n + 1] == x.credit;
  }

  lemma {:induction false} PairsBalancePerCurrency(k: Config, n: nat, c: string)
    requires JournalOk(k) && n <= |k.journal|
    ensures CurrencyDebits(k.store.ledger[..2 * n], c) == CurrencyCredits(k.store.ledger[..2 * n], c)
  {
    if n > 0 {
      PairsBalancePerCurrency(k, n - 1, c);
      NextPair(k, n - 1);
      PairBalancesPerCurrency(k.store.ledger[..2 * (n - 1)], k.journal[n - 1], c);
    }
  }

  /** Debits equal credits separately in every currency. */
  lemma CurrencyConserved(r: seq<Config>, i: nat, c: string)
    requires Run(r) && i < |r|
    ensures CurrencyDebits(r[i].store.ledger, c) == CurrencyCredits(r[i].store.ledger, c)
  {
    RunInv(r, i);
    PairsBalancePerCurrency(r[i], |r[i].journal|, c);
    assert r[i].store.ledger[..2 * |r[i].journal|] == r[i].store.ledger;
  }

  // `order` lists the outbox in the order of the ledger's pairs.
  ghost predicate Mirrors(s: State, order: seq<string>) {
    && |order| == |s.outbox|
    && |s.ledger| == 2 * |order|
    && (forall id :: id in order <==> id in s.outbox)
    && (forall n :: 0 <= n < |order| ==>
          Explained(Posting(s.outbox[order[n]].(published := false), s.ledger[2 * n], s.ledger[2 * n + 1])))
  }

  lemma JournalMirrors(k: Config)
    requires JournalOk(k)
    ensures exists order :: Mirrors(k.store, order)
  {
    var order := seq(|k.journal|, n requires 0 <= n < |k.journal| => k.journal[n].event.id);
    DistinctCovers(order, k.store.outbox.Keys);
    forall n | 0 <= n < |order|
      ensures var e := k.store.outbox[order[n]].(published := false);
              Explained(Posting(e, k.store.ledger[2 * n], k.store.ledger[2 * n + 1]))
    {
      assert Explained(k.journal[n]);
      assert k.journal[n].event == k.store.outbox[order[n]].(published := false);
    }
    assert Mirrors(k.store, order);
  }

  /** The ledger is a sequence of balanced pairs in one-to-one correspondence with the outbox:
      each event names the accounts and the currency of its pair and its amount, which a capture or
      refund event, carrying a running total, only bounds. */
  lemma LedgerMirrorsOutbox(r: seq<Config>, i: nat)
    requires Run(r) && i < |r|
    ensures exists order :: Mirrors(r[i].store, order)
  {
    RunInv(r, i);
    JournalMirrors(r[i]);
  }

  // Distinct members of a set, as many as the set has, are all of it.
  lemma {:induction false} DistinctCovers(order: seq<string>, keys: set<string>)
    requires forall n, m :: 0 <= n < m < |order| ==> order[n] != order[m]
    requires forall n :: 0 <= n < |order| ==> order[n] in keys
    requires |order| == |keys|
    ensures forall id :: id in keys <==> id in order
  {
    if order != [] {
      var last := order[|order| - 1];
      DistinctCovers(order[..|order| - 1], keys - {last});
      forall id | id in keys ensures id in order {
        if id != last {
          assert id in keys - {last};
          assert id in order[..|order| - 1];
        }
      }
    }
  }

  /** The newest event about a payout or dispute always shows its current row, even when calls
      interleave: a completion that succeeds must have read the row it replaces. */
  lemma ClaimEventsShowCurrentRows(r: seq<Config>, i: nat, id: string)
    requires Run(r) && i < |r|
    ensures id in r[i].store.payouts ==>
              Latest(r[i].journal, PayoutKey(id)) == Some(OfPayout(r[i].store.payouts[id]))
    ensures id in r[i].store.disputes ==>
              Latest(r[i].journal, DisputeKey(id)) == Some(OfDispute(r[i].store.disputes[id]))
  {
    RunInv(r, i);
  }

  // One pair and one event were appended, and the event is yet to be published.
  ghost predicate PostsOnce(k: Config, k': Config) {
    && |k'.journal| == |k.journal| + 1 && k.journal <= k'.journal
    && |k'.store.ledger| == |k.store.ledger| + 2 && k.store.ledger <= k'.store.ledger
    && |k'.store.outbox| == |k.store.outbox| + 1
    && (forall e :: e in k.store.outbox ==> e in k'.store.outbox && k'.store.outbox[e] == k.store.outbox[e])
    && |Unpublished(k'.store.outbox)| == |Unpublished(k.store.outbox)| + 1
  }

  // All that a step can change if it moves no money: a creation adds one payment under one new key,
  // a failing call fails the one payment it read, if that could still fail; else flags change.
  ghost predicate MovesNothing(k: Config, a: Action, k': Config) {
    && k'.journal == k.journal
    && match a
       case Create(_, key, ids) =>
         || k'.store == k.store
         || (&& key !in k.store.keys && ids.record in k'.store.payments
             && k'.store == k.store.(payments := k.store.payments[ids.record := k'.store.payments[ids.record]],
                                     keys := k.store.keys[key := ids.record]))
       case Fail(n, reason) =>
         || k'.store == k.store
         || (&& n in k.calls && k.calls[n].id in k.store.payments
             && k.store.payments[k.calls[n].id].status in {Created, Authorized}
             && k'.store == WithFailed(k.store, k.calls[n].id, reason))
       case Register(webhook) => k'.store == k.store.(webhooks := k.store.webhooks + {webhook})
       case Publish(_) => k'.store == k.store.(outbox := k'.store.outbox) && k'.store.outbox.Keys == k.store.outbox.Keys
       case _ => k'.store == k.store
  }

  // The step ends in a store command that the store accepts.
  predicate Succeeds(k: Config, a: Action)
    requires Enabled(k, a)
  {
    match a
    case RequestPayout(merchant, currency, amount, ids) => PayoutCall(k.store, merchant, currency, amount, ids).1.Ok?
    case Commit(n, reference, ids) => Commits(k.store, k.calls[n], reference, ids)
    case _ => false
  }

  lemma CommitAppends(s: State, call: Call, reference: string, ids: Ids)
    ensures var s' := CommitCall(s, call, reference, ids);
            if Commits(s, call, reference, ids) then
              && |s'.ledger| == |s.ledger| + 2 && s.ledger <= s'.ledger
              && ids.event in s'.outbox && s'.outbox == s.outbox[ids.event := s'.outbox[ids.event]]
              && !s'.outbox[ids.event].published
            else s' == s
  {
  }

  // The call commits exactly when its command changes the store.
  lemma CommitsIff(s: State, call: Call, reference: string, ids: Ids)
    ensures Commits(s, call, reference, ids) <==> CommitCall(s, call, reference, ids) != s
  {
    CommitAppends(s, call, reference, ids);
  }

  lemma AfterAppending(k: Config, s': State, event: string)
    requires event !in k.store.outbox
    requires |s'.ledger| == |k.store.ledger| + 2 && k.store.ledger <= s'.ledger
    requires event in s'.outbox && s'.outbox == k.store.outbox[event := s'.outbox[event]] && !s'.outbox[event].published
    ensures PostsOnce(k, After(k, s', event))
  {
    assert Unpublished(s'.outbox) == Unpublished(k.store.outbox) + {event};
  }

  lemma QuietStepMovesNothing(k: Config, a: Action)
    requires RowsOk(k) && Enabled(k, a) && !a.Commit? && !a.RequestPayout?
    ensures MovesNothing(k, a, Perform(k, a))
  {
  }

  /** A step posts exactly one pair with one event when the store accepts its command; otherwise it
      leaves the ledger, the events, the payouts and the disputes alone, and of the payments it
      changes at most the one it creates or the one it fails. */
  lemma StepPostsIffItSucceeds(k: Config, a: Action)
    requires RowsOk(k) && Enabled(k, a)
    ensures if Succeeds(k, a) then PostsOnce(k, Perform(k, a)) else MovesNothing(k, a, Perform(k, a))
  {
    if a.Commit? {
      var s' := CommitCall(k.store, k.calls[a.n], a.reference, a.ids);
      CommitAppends(k.store, k.calls[a.n], a.reference, a.ids);
      if Succeeds(k, a) {
        AfterAppending(EndCall(k, a.n), s', a.ids.event);
      }
    } else if a.RequestPayout? {
      var s' := PayoutCall(k.store, a.merchant, a.currency, a.amount, a.ids).0;
      if Succeeds(k, a) {
        AfterAppending(k, s', a.ids.event);
      }
    } else {
      QuietStepMovesNothing(k, a);
    }
  }

  // One balanced pair and one unpublished event, under the drawn ids, were written and nothing of either
  // lost.
  ghost predicate WritesOnce(s: State, s': State, ids: Ids) {
    && |s'.ledger| == |s.ledger| + 2 && s.ledger <= s'.ledger && Balanced(s'.ledger[|s.ledger|..])
    && s'.ledger[|s.ledger|].id == ids.debit && s'.ledger[|s.ledger| + 1].id == ids.credit
    && ids.event in s'.outbox && s'.outbox == s.outbox[ids.event := s'.outbox[ids.event]]
    && s'.outbox[ids.event].id == ids.event && !s'.outbox[ids.event].published
  }

  ghost predicate FailedInstead(s: State, id: string, s': State) {
    && id in s.payments && s.payments[id].status in {Created, Authorized}
    && (s' == WithFailed(s, id, "risk_blocked") || s' == WithFailed(s, id, "provider_error"))
  }

  // What a whole call wrote, by its answer.
  ghost predicate WroteByAnswer(s: State, q: Request, s': State, ok: bool) {
    if ok then WritesOnce(s, s', q.ids) && s'.keys == s.keys && s'.payments.Keys == s.payments.Keys
    else s' == s || (q.AuthorizeRequest? && FailedInstead(s, q.id, s'))
  }

  lemma CommandWrites(s: State, cmd: PaymentCommand)
    requires cmd.paymentId in s.payments && s.payments[cmd.paymentId].id == cmd.paymentId
    ensures var (s', r) := CommitPaymentCommand(s, cmd);
            if r.Err? then s' == s
            else && s'.ledger == s.ledger + cmd.ledger && Balanced(cmd.ledger)
                 && s'.outbox == s.outbox[cmd.event.id := cmd.event.(aggregateId := cmd.paymentId)]
                 && s'.keys == s.keys && s'.payments.Keys == s.payments.Keys
  {
  }

  lemma PairAppended(s: State, s': State, pair: seq<LedgerEntry>, ids: Ids)
    requires |pair| == 2 && Balanced(pair) && s'.ledger == s.ledger + pair
    requires pair[0].id == ids.debit && pair[1].id == ids.credit
    requires ids.event in s'.outbox && s'.outbox == s.outbox[ids.event := s'.outbox[ids.event]]
    requires s'.outbox[ids.event].id == ids.event && !s'.outbox[ids.event].published
    ensures WritesOnce(s, s', ids)
  {
    assert s'.ledger[|s.ledger|..] == pair;
  }

  lemma AuthorizeWrites(k: Config, q: Request)
    requires RowsOk(k) && q.AuthorizeRequest?
    ensures WroteByAnswer(k.store, q, Serve(k.store, q).0, Serve(k.store, q).1)
  {
    var s := k.store;
    var (s', ok) := Serve(s, q);
    if q.id in s.payments {
      assert RowOk(q.id, s.payments[q.id], q.id in k.authorized);
      if q.answer.Some? {
        var cmd := AuthorizeCommand(q.id, s.payments[q.id], q.answer.value, q.ids);
        CommandWrites(s, cmd);
        if ok { PairAppended(s, s', cmd.ledger, q.ids); }
      }
      if !ok && s' != s {
        assert s' == WithFailed(s, q.id, if q.risk.Blocked? then "risk_blocked" else "provider_error");
      }
    }
  }

  lemma CaptureOrRefundWrites(k: Config, q: Request)
    requires RowsOk(k) && (q.CaptureRequest? || q.RefundRequest?)
    ensures WroteByAnswer(k.store, q, Serve(k.store, q).0, Serve(k.store, q).1)
  {
    var s := k.store;
    var (s', ok) := Serve(s, q);
    if q.id in s.payments {
      assert RowOk(q.id, s.payments[q.id], q.id in k.authorized);
      var cmd := if q.CaptureRequest? then CaptureCommand(q.id, s.payments[q.id], q.amount, q.ids)
                 else RefundCommand(q.id, s.payments[q.id], q.amount, q.ids);
      CommandWrites(s, cmd);
      if ok { PairAppended(s, s', cmd.ledger, q.ids); }
    }
  }

  lemma ClaimCallWrites(s: State, q: Request)
    requires q.PayoutRequest? || q.CompleteRequest? || q.OpenRequest? || q.ResolveRequest?
    ensures WroteByAnswer(s, q, Serve(s, q).0, Serve(s, q).1)
  {
    var (s', ok) := Serve(s, q);
    if ok {
      var pair := match q
        case PayoutRequest(merchant, currency, amount, ids) =>
          PayoutEntries(NewPayout(merchant, currency, amount, ids.record).value, ids)
        case CompleteRequest(id, _, success, ids) => CompleteEntries(s.payouts[id], success, ids)
        case OpenRequest(id, _, amount, ids) => OpenEntries(id, s.payments[id], amount, ids)
        case ResolveRequest(id, merchantWins, ids) => ResolveEntries(s.disputes[id], merchantWins, ids);
      PairAppended(s, s', pair, q.ids);
    }
  }

  /** A whole service call that answers without an error has written exactly one balanced pair and one
      event that is yet to be published. One that answers with an error has written nothing at all,
      except that an authorization may have failed the payment it was for, if that could still fail. */
  lemma CallWritesIffItSucceeds(k: Config, q: Request)
    requires RowsOk(k) && !q.CreateRequest?
    ensures var s := k.store;
            var (s', ok) := Serve(s, q);
            && (ok ==> WritesOnce(s, s', q.ids) && s'.keys == s.keys && s'.payments.Keys == s.payments.Keys)
            && (!ok ==> s' == s || (q.AuthorizeRequest? && FailedInstead(s, q.id, s')))
  {
    if q.AuthorizeRequest? {
      AuthorizeWrites(k, q);
    } else if q.CaptureRequest? || q.RefundRequest? {
      CaptureOrRefundWrites(k, q);
    } else {
      ClaimCallWrites(k.store, q);
    }
  }

  /** A creation never touches the ledger or the outbox. It adds at most one payment, under a key that
      was not in use. */
  lemma CreationAddsOnePayment(s: State, q: Request)
    requires q.CreateRequest?
    ensures var (s', ok) := Serve(s, q);
            || s' == s
            || (&& ok && q.key != "" && q.key !in s.keys && q.ids.record in s'.payments
                && s' == s.(payments := s.payments[q.ids.record := s'.payments[q.ids.record]],
                            keys := s.keys[q.key := q.ids.record]))
  {
  }

  // The merchant and the currency a record belongs to.
  function OwnerOf(x: Payload): string {
    match x case OfPayment(p) => p.merchantId case OfPayout(p) => p.merchantId case OfDispute(d) => d.merchantId
  }

  function CurrencyOf(x: Payload): string {
    match x case OfPayment(p) => p.currency case OfPayout(p) => p.currency case OfDispute(d) => d.currency
  }

  // An event moves money between shared accounts and those of its own merchant, in its own currency.
  lemma RouteIsOwn(e: OutboxEvent)
    requires RouteOf(e).Some?
    ensures var route := RouteOf(e).value;
            && route.currency == CurrencyOf(e.payload)
            && (PerMerchant(route.from) ==> route.from.merchant == OwnerOf(e.payload))
            && (PerMerchant(route.to) ==> route.to.merchant == OwnerOf(e.payload))
  {
  }

  lemma PostingIsolated(x: Posting, a: Account, c: string)
    requires Explained(x) && PerMerchant(a)
    requires OwnerOf(x.event.payload) != a.merchant || CurrencyOf(x.event.payload) != c
    ensures Delta(x.debit, Name(a), c) == 0.0 && Delta(x.credit, Name(a), c) == 0.0
  {
    var route := RouteOf(x.event).value;
    RouteIsOwn(x.event);
    HalfDelta(x.debit, route.from, a, c);
    HalfDelta(x.credit, route.to, a, c);
  }

  lemma LastPair(k: Config, k': Config)
    requires JournalOk(k) && JournalOk(k') && PostsOnce(k, k')
    ensures var x := k'.journal[|k.journal|];
            Explained(x) && k'.store.ledger == k.store.ledger + [x.debit, x.credit]
  {
    var n := |k.journal|;
    assert k'.store.ledger[2 * n] == k'.journal[n].debit && k'.store.ledger[2 * n + 1] == k'.journal[n].credit;
  }

  lemma PostingMovesOwner(k: Config, k': Config, a: Account, c: string)
    requires JournalOk(k) && JournalOk(k') && PostsOnce(k, k') && PerMerchant(a)
    requires Balance(k'.store.ledger, Name(a), c) != Balance(k.store.ledger, Name(a), c)
    ensures var x := k'.journal[|k.journal|].event.payload; OwnerOf(x) == a.merchant && CurrencyOf(x) == c
  {
    var x := k'.journal[|k.journal|];
    LastPair(k, k');
    TwoAppended(k.store.ledger, x.debit, x.credit, Name(a), c);
    if OwnerOf(x.event.payload) != a.merchant || CurrencyOf(x.event.payload) != c {
      PostingIsolated(x, a, c);
    }
  }

  lemma NextPostsOnceOrNotAtAll(k: Config, k': Config)
    requires RowsOk(k) && Next(k, k')
    ensures PostsOnce(k, k') || k'.store.ledger == k.store.ledger
  {
    var a :| Enabled(k, a) && k' == Perform(k, a);
    StepPostsIffItSucceeds(k, a);
  }

  /** If a step changes a merchant's balance in a currency, the step posted an event about a record
      of that same merchant in that same currency. */
  lemma MerchantsIsolated(r: seq<Config>, i: nat, a: Account, c: string)
    requires Run(r) && i + 1 < |r| && PerMerchant(a)
    requires Balance(r[i + 1].store.ledger, Name(a), c) != Balance(r[i].store.ledger, Name(a), c)
    ensures |r[i + 1].journal| == |r[i].journal| + 1
    ensures var x := r[i + 1].journal[|r[i].journal|].event.payload; OwnerOf(x) == a.merchant && CurrencyOf(x) == c
  {
    assert JournalOk(r[i]) by { RunInv(r, i); }
    assert JournalOk(r[i + 1]) by { RunInv(r, i + 1); }
    RunRows(r, i);
    NextPostsOnceOrNotAtAll(r[i], r[i + 1]);
    PostingMovesOwner(r[i], r[i + 1], a, c);
  }

  // ---------- idempotent creation ----------

  /** Once a key has been used, every later create with it, whatever its input, is a replay that
      returns the payment the key was first used for; and every payment has exactly one key. */
  lemma CreateIsIdempotent(r: seq<Config>, i: nat, j: nat, key: string, p: Payment)
    requires Run(r) && i <= j < |r|
    ensures KeysOk(r[j].store)
    ensures key in r[i].store.keys ==>
              var (s', answer, replay) := StoreSpec.CreatePayment(r[j].store, p, key);
              && replay && s' == r[j].store && answer.id == r[i].store.keys[key]
              && answer.id in r[j].store.payments && answer == r[j].store.payments[answer.id]
    ensures key !in r[i].store.keys && p.id !in r[i].store.payments ==>
              var (s', answer, replay) := StoreSpec.CreatePayment(r[i].store, p, key);
              !replay && answer == p && s'.keys == r[i].store.keys[key := p.id] && s'.payments[p.id] == p
  {
    RunInv(r, j);
    RunEvolves(r, i, j);
    if key in r[i].store.keys {
      var id := r[j].store.keys[key];
      assert RowOk(id, r[j].store.payments[id], id in r[j].authorized);
    }
  }
}
