/** Runs on rounding columns that show what the exact conditions exclude. */
module RoundedWitnesses {
  import opened Domain
  import opened Accounts
  import opened StoreSpec
  import opened ServiceSpec
  import opened Machine
  import opened Postgres
  import opened Snapshots
  import opened Rounding
  import opened RoundedRuns
  import opened RoundedEvents
  import opened Witnesses
  import opened ProtocolWitnesses
  import opened ExactRuns

  // ---------- the witnesses of the exact machine ----------

  /** `PayoutOverdraws` on rounding columns, for every column amount and every lock hash. */
  lemma RoundedPayoutOverdraws(hash: string -> int, amount: real)
    requires amount > 0.0 && Column(amount)
    ensures exists k, t, ids ::
              && RoundReached(hash, k) && RoundEnabled(hash, k, CommitPayout(t, ids))
              && k.payouts[t] == PayoutTx("m", "EUR", amount, Read(amount))
              && Available(RoundPerform(hash, k, CommitPayout(t, ids)).core.store, "m", "EUR") == -amount
  {
    PayoutOverdraws(hash, Column, amount);
    var k, t, ids :| PgReachedWith(hash, Column, k) && PgReached(hash, k) && WillOverdraw(hash, k, t, ids, amount);
    ExactReachedRounds(hash, k);
    ExactStep(hash, k, CommitPayout(t, ids));
  }

  /** `FailedWithCapturedMoney` on rounding columns, for every column amount and every lock hash. */
  lemma RoundedFailedWithCapturedMoney(hash: string -> int, amount: real)
    requires amount > 0.0 && Column(amount)
    ensures exists k, id :: && RoundReached(hash, k) && id in k.core.store.payments
                            && k.core.store.payments[id].status.Failed? && k.core.store.payments[id].captured == amount
  {
    FailedWithCapturedMoney(hash, Column, amount);
    var k, id :| && PgReachedWith(hash, Column, k) && PgReached(hash, k) && id in k.core.store.payments
                 && k.core.store.payments[id].status.Failed? && k.core.store.payments[id].captured == amount;
    ExactReachedRounds(hash, k);
  }

  // ---------- an amount that is rounded up ----------

  const FIVE := 5.0
  const SLIVER := 0.0000006
  const MILLIONTH := 0.000001

  lemma Amounts()
    ensures Column(FIVE) && Stored(FIVE) == FIVE && Stored(0.0) == 0.0
    ensures Stored(SLIVER) == MILLIONTH && AmountAdmitted(SLIVER) && !Exact(SLIVER)
  {
    assert FIVE * SCALE + 0.5 == 5000000.5 && (5000000.5).Floor == 5000000;
    assert SLIVER * SCALE + 0.5 == 1.1 && (1.1).Floor == 1;
    assert (0.0 * SCALE + 0.5).Floor == 0;
  }

  lemma CaptureStores(s: State, n: nat, id: string)
    requires StoredTables(s) && Sale(s, id, FIVE, 0.0, Authorized)
    ensures var call := Capturing(id, s.payments[id], SLIVER);
            Reads(s, call) && StoredCall(call) && StoredCommit(s, call, "", Drawn(n)).1
  {
    Amounts();
    PairBalanced(id, MerchantPending("m"), MerchantAvailable("m"), "EUR", SLIVER, Drawn(n));
    PairAdmitted(id, MerchantPending("m"), MerchantAvailable("m"), "EUR", SLIVER, Drawn(n));
  }

  // What the store writes and answers when the sliver is captured.
  ghost predicate StoresMillionth(s: State, call: Call, ids: Ids) {
    && call.Capturing? && call.amount == SLIVER
    && var s' := StoredCommit(s, call, "", ids).0;
       && call.id in s'.payments && s'.payments[call.id].captured == MILLIONTH
       && AnswerOf(s, call, ids).Ok? && AnswerOf(s, call, ids).value.captured == SLIVER
  }

  // The event announces less than the pair moves.
  predicate Understates(x: Posting, id: string) {
    && x.debit.debit == x.credit.credit == MILLIONTH
    && x.event.payload.OfPayment? && x.event.payload.payment.id == id && x.event.payload.payment.captured == SLIVER
    && !Explained(x)
  }

  // The capture call `n` of a sliver of payment `id` is about to commit: then the row and the pair hold a
  // millionth, while the event and the answer speak of the sliver, and the event no longer covers its pair.
  ghost predicate WillUnderstate(hash: string -> int, k: Pg, n: nat, ids: Ids, id: string) {
    && n in k.core.calls && k.core.calls[n].id == id && StoresMillionth(k.core.store, k.core.calls[n], ids)
    && RoundEnabled(hash, k, Core(Commit(n, "", ids)))
    && var k' := RoundPerform(hash, k, Core(Commit(n, "", ids))).core;
       && k'.store == StoredCommit(k.core.store, k.core.calls[n], "", ids).0
       && |k'.journal| == |k.core.journal| + 1 && Understates(k'.journal[|k.core.journal|], id)
  }

  lemma SliverStored(s: State, n: nat, id: string)
    requires StoredTables(s) && Sale(s, id, FIVE, 0.0, Authorized)
    ensures StoresMillionth(s, Capturing(id, s.payments[id], SLIVER), Drawn(n))
  {
    var call := Capturing(id, s.payments[id], SLIVER);
    Amounts();
    CaptureStores(s, n, id);
    CaptureWritesRow(s, call, "", Drawn(n));
  }

  lemma SliverPosting(p: Payment, ids: Ids)
    requires StoredCall(Capturing(p.id, p, SLIVER)) && p.captured == 0.0
    ensures Understates(CallPosting(Capturing(p.id, p, SLIVER), "", ids), p.id)
  {
    Amounts();
    CallAmountAnnounced(Capturing(p.id, p, SLIVER), "", ids);
  }

  // What an accepted commit does to the store and the journal.
  lemma AcceptedCommit(hash: string -> int, k: Pg, n: nat, ids: Ids)
    requires Held(k) && n in k.core.calls && Fresh(k.core.store, ids)
    requires StoredCommit(k.core.store, k.core.calls[n], "", ids).1
    ensures RoundEnabled(hash, k, Core(Commit(n, "", ids)))
    ensures var k' := RoundPerform(hash, k, Core(Commit(n, "", ids))).core;
            && k'.store == StoredCommit(k.core.store, k.core.calls[n], "", ids).0
            && k'.journal == k.core.journal + [CallPosting(k.core.calls[n], "", ids)]
  {
    CommitPosts(hash, k, n, "", ids);
  }

  lemma WillUnderstateIf(hash: string -> int, k: Pg, n: nat, ids: Ids, id: string)
    requires Held(k) && n in k.core.calls && Fresh(k.core.store, ids) && k.core.calls[n].id == id
    requires StoredCommit(k.core.store, k.core.calls[n], "", ids).1
    requires StoresMillionth(k.core.store, k.core.calls[n], ids)
    requires Understates(CallPosting(k.core.calls[n], "", ids), id)
    ensures WillUnderstate(hash, k, n, ids, id)
  {
    AcceptedCommit(hash, k, n, ids);
  }

  lemma SliverUnderstates(hash: string -> int, k: Pg, id: string)
    requires Held(k) && Sale(k.core.store, id, FIVE, 0.0, Authorized) && Young(k.core.store, 2)
    requires k.core.calls == map[0 := Capturing(id, k.core.store.payments[id], SLIVER)]
    ensures WillUnderstate(hash, k, 0, Drawn(2), id)
  {
    DrawnFresh(k.core.store, 2);
    CaptureStores(k.core.store, 2, id);
    SliverStored(k.core.store, 2, id);
    SliverPosting(k.core.store.payments[id], Drawn(2));
    WillUnderstateIf(hash, k, 0, Drawn(2), id);
  }

  /** Six tenths of a millionth captured of five: the row and the pair move a whole millionth, while the
      event and the answer announce six tenths of one. */
  lemma EventMayUnderstatePair(hash: string -> int)
    ensures exists k, n, ids, id :: RoundReached(hash, k) && WillUnderstate(hash, k, n, ids, id)
  {
    Amounts();
    var k, id := AuthorizedSale(Column, FIVE);
    MemoryRunsAreProtocolRuns(hash, Column, k);
    ExactReachedRounds(hash, Quiet(k));
    var begun := SliverBegun(hash, k, id);
    RoundReachedHeld(hash, begun);
    SliverUnderstates(hash, begun, id);
  }

  lemma SliverBegun(hash: string -> int, k: Config, id: string) returns (begun: Pg)
    requires RoundReached(hash, Quiet(k)) && k.calls == map[] && Sale(k.store, id, FIVE, 0.0, Authorized)
    ensures RoundReached(hash, begun)
    ensures begun.core == k.(calls := map[0 := Capturing(id, k.store.payments[id], SLIVER)])
  {
    var call := Capturing(id, k.store.payments[id], SLIVER);
    RoundReachedStep(hash, Quiet(k), Core(Begin(0, call)));
    begun := RoundPerform(hash, Quiet(k), Core(Begin(0, call)));
  }

  // ---------- a payout whose event is not its row ----------

  lemma SliverLocked(hash: string -> int, k: Config) returns (end: Pg)
    requires RoundReached(hash, Quiet(k))
    ensures RoundReached(hash, end) && end.core == k
    ensures end.payouts == map[0 := PayoutTx("m", "EUR", SLIVER, Locked)]
  {
    assert ToUpper("EUR") == "EUR";
    var x := StartPayout(0, "m", "EUR", SLIVER);
    RoundReachedStep(hash, Quiet(k), x);
    var k1 := RoundPerform(hash, Quiet(k), x);
    RoundReachedStep(hash, k1, TakeLock(0));
    end := RoundPerform(hash, k1, TakeLock(0));
  }

  lemma SliverRead(hash: string -> int, k: Config) returns (end: Pg)
    requires RoundReached(hash, Quiet(k)) && Available(k.store, "m", "EUR") == FIVE
    ensures RoundReached(hash, end) && end.core == k
    ensures end.payouts == map[0 := PayoutTx("m", "EUR", SLIVER, Read(FIVE))]
  {
    var locked := SliverLocked(hash, k);
    RoundReachedStep(hash, locked, ReadBalance(0));
    end := RoundPerform(hash, locked, ReadBalance(0));
  }

  // Payout `id` is stored as a millionth, and its newest event shows it with the sliver.
  ghost predicate Misstated(k: Pg, id: string) {
    && id in k.core.store.payouts && k.core.store.payouts[id].amount == MILLIONTH
    && Latest(k.core.journal, PayoutKey(id)) == Some(OfPayout(k.core.store.payouts[id].(amount := SLIVER)))
  }

  /** A payout of six tenths of a millionth is stored as a whole one; its newest event differs from its
      row in that. */
  lemma PayoutEventMayMisstateRow(hash: string -> int)
    ensures exists k, id :: RoundReached(hash, k) && Misstated(k, id)
  {
    Amounts();
    var k, id := CapturedSale(Column, FIVE);
    SaleBalance(Column, k, id, FIVE, FIVE, Captured);
    MemoryRunsAreProtocolRuns(hash, Column, k);
    ExactReachedRounds(hash, Quiet(k));
    var read := SliverRead(hash, k);
    SliverPaid(hash, read);
  }

  lemma SliverPaid(hash: string -> int, k: Pg)
    requires RoundReached(hash, k) && Young(k.core.store, 3)
    requires k.payouts == map[0 := PayoutTx("m", "EUR", SLIVER, Read(FIVE))]
    ensures exists k', id :: RoundReached(hash, k') && Misstated(k', id)
  {
    var pay, ids := CommitPayout(0, Drawn(3)), Drawn(3);
    Amounts();
    DrawnFresh(k.core.store, 3);
    RoundReachedStep(hash, k, pay);
    RoundedEvents.PayoutPosts(hash, k, pay);
    var k' := RoundPerform(hash, k, pay);
    LatestAppend(k.core.journal, StepPosting(hash, k, pay).value, PayoutKey(ids.record));
    assert Misstated(k', ids.record);
  }
}
