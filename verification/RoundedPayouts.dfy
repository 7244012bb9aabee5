/** The exact conditions of `Interleavings` on rounding columns: there the same steps move the rounded
    amounts, and rounding touches no status. */
module RoundedPayouts {
  import opened Accounts
  import opened StoreSpec
  import opened ServiceSpec
  import opened Machine
  import opened Theorems
  import opened Stepwise
  import opened Postgres
  import opened Interleavings
  import opened Rounding
  import opened RoundedRuns
  import opened RoundedEvents

  // ---------- the balance a payout leaves ----------

  // What a step takes from the available balance of `m` in `c`, as stored.
  function StoredDrain(k: Pg, x: PgAction, m: string, c: string): real {
    if x.Core? && x.a.Commit? && x.a.n in k.core.calls
       && StoredCommit(k.core.store, k.core.calls[x.a.n], x.a.reference, x.a.ids).1
    then CallDrain(RoundedCall(k.core.calls[x.a.n]), m, c)
    else 0.0
  }

  function NetStoredDrain(r: seq<Pg>, xs: seq<PgAction>, i: nat, j: nat, m: string, c: string): real
    requires i <= j <= |xs| < |r|
  {
    if i == j then 0.0 else NetStoredDrain(r, xs, i, j - 1, m, c) + StoredDrain(r[j - 1], xs[j - 1], m, c)
  }

  // The stored pair of a call moves what `CallDrain` says.
  lemma StoredPairDrains(call: Call, m: string, c: string)
    requires StoredCall(call)
    ensures var (_, from, to, currency, amount) := CallPair(call);
            Moved(from, to, currency, Stored(amount), MerchantAvailable(m), c) == -CallDrain(RoundedCall(call), m, c)
  {
  }

  lemma PostedPairDrains(s: State, s': State, call: Call, reference: string, ids: Ids, m: string, c: string)
    requires StoredCall(call) && Writes(s, s', CallPosting(call, reference, ids))
    ensures Available(s', m, c) == Available(s, m, c) - CallDrain(RoundedCall(call), m, c)
  {
    var (id, from, to, currency, amount) := CallPair(call);
    PairBalance(s.ledger, id, from, to, currency, Stored(amount), ids, MerchantAvailable(m), c);
    StoredPairDrains(call, m, c);
  }

  lemma CallDrainsStored(s: State, call: Call, reference: string, ids: Ids, m: string, c: string)
    requires StoredTables(s) && StoredCall(call)
    ensures var (s', ok) := StoredCommit(s, call, reference, ids);
            Available(s', m, c) == Available(s, m, c) - if ok then CallDrain(RoundedCall(call), m, c) else 0.0
  {
    var (s', ok) := StoredCommit(s, call, reference, ids);
    CallWrites(s, call, reference, ids);
    if ok {
      PostedPairDrains(s, s', call, reference, ids, m, c);
    }
  }

  lemma PayoutTakesStored(hash: string -> int, k: Pg, x: PgAction, m: string, c: string)
    requires RoundEnabled(hash, k, x) && x.CommitPayout?
    ensures var tx := k.payouts[x.t];
            Available(RoundPerform(hash, k, x).core.store, m, c)
            == Available(k.core.store, m, c) - if tx.merchant == m && tx.currency == c then Stored(tx.amount) else 0.0
  {
    var p := PayoutOf(k.payouts[x.t], x.ids);
    StoredPair("", MerchantAvailable(p.merchantId), MerchantPayoutPending(p.merchantId), p.currency, p.amount, x.ids);
    PairBalance(k.core.store.ledger, "", MerchantAvailable(p.merchantId), MerchantPayoutPending(p.merchantId),
                p.currency, Stored(p.amount), x.ids, MerchantAvailable(m), c);
  }

  lemma OtherKeepsLedger(hash: string -> int, k: Pg, x: PgAction)
    requires RoundEnabled(hash, k, x) && !x.CommitPayout? && !x.Core?
    ensures RoundPerform(hash, k, x).core.store.ledger == k.core.store.ledger
  {
  }

  lemma CoreKeepsLedger(hash: string -> int, k: Pg, a: Action)
    requires RoundEnabled(hash, k, Core(a)) && !a.Commit?
    ensures RoundPerform(hash, k, Core(a)).core.store.ledger == k.core.store.ledger
  {
  }

  lemma StepDrainsStored(hash: string -> int, k: Pg, x: PgAction, m: string, c: string)
    requires Held(k) && RoundEnabled(hash, k, x)
    requires x.CommitPayout? ==> k.payouts[x.t].merchant != m || k.payouts[x.t].currency != c
    ensures Available(RoundPerform(hash, k, x).core.store, m, c)
            == Available(k.core.store, m, c) - StoredDrain(k, x, m, c)
  {
    if x.CommitPayout? {
      PayoutTakesStored(hash, k, x, m, c);
    } else if !x.Core? {
      OtherKeepsLedger(hash, k, x);
    } else if !x.a.Commit? {
      CoreKeepsLedger(hash, k, x.a);
    } else {
      CallDrainsStored(k.core.store, k.core.calls[x.a.n], x.a.reference, x.a.ids, m, c);
    }
  }

  // The transaction has read its balance, and its amount will not round away.
  predicate OpenRead(k: Pg, t: nat, tx: PayoutTx) {
    t in k.payouts && k.payouts[t] == tx && tx.stage.Read? && Stored(tx.amount) > 0.0
  }

  lemma OpenTransactionKept(hash: string -> int, k: Pg, x: PgAction, t: nat, tx: PayoutTx)
    requires RoundEnabled(hash, k, x) && OpenRead(k, t, tx) && !((x.CommitPayout? || x.RollbackPayout?) && x.t == t)
    ensures OpenRead(RoundPerform(hash, k, x), t, tx)
  {
  }

  // Its lock keeps every other payout of its merchant in its currency out.
  lemma OthersKeptOut(hash: string -> int, k: Pg, x: PgAction, t: nat, tx: PayoutTx)
    requires PgReached(hash, Shadow(k)) && RoundEnabled(hash, k, x) && x.CommitPayout? && x.t != t && OpenRead(k, t, tx)
    ensures k.payouts[x.t].merchant != tx.merchant || k.payouts[x.t].currency != tx.currency
  {
    var shadow := Shadow(k);
    assert LocksExclusive(hash, shadow) by { PgReachedInv(hash, shadow); }
    assert t in shadow.payouts && HoldsLock(shadow.payouts[t]);
    assert x.t in shadow.payouts && HoldsLock(shadow.payouts[x.t]);
    assert LockKey(shadow.payouts[t]) != LockKey(shadow.payouts[x.t]);
  }

  // Transaction `t` reads its balance at step `i` and is still open before step `j`.
  ghost predicate RoundReadOpen(hash: string -> int, r: seq<Pg>, xs: seq<PgAction>, i: nat, j: nat, t: nat) {
    && RoundTrace(hash, r, xs) && i < j <= |xs| && xs[i] == ReadBalance(t)
    && forall l :: i < l < j ==> !((xs[l].CommitPayout? || xs[l].RollbackPayout?) && xs[l].t == t)
  }

  lemma RoundBalanceRead(hash: string -> int, r: seq<Pg>, xs: seq<PgAction>, i: nat, t: nat)
    requires RoundTrace(hash, r, xs) && i < |xs| && xs[i] == ReadBalance(t)
    ensures t in r[i + 1].payouts && r[i + 1].core == r[i].core
    ensures var tx := r[i + 1].payouts[t]; tx.stage == Read(Available(r[i].core.store, tx.merchant, tx.currency))
  {
    assert RoundEnabled(hash, r[i], xs[i]) && r[i + 1] == RoundPerform(hash, r[i], xs[i]);
  }

  // The balance read less what was taken since is the balance now.
  ghost predicate SpentSince(r: seq<Pg>, xs: seq<PgAction>, i: nat, j: nat, t: nat, tx: PayoutTx) {
    && i <= j <= |xs| < |r| && OpenRead(r[j], t, tx)
    && Available(r[j].core.store, tx.merchant, tx.currency)
       == tx.stage.balance - NetStoredDrain(r, xs, i, j, tx.merchant, tx.currency)
  }

  // The step keeps an open transaction and drains its balance by what `StoredDrain` says.
  ghost predicate StoredDrains(k: Pg, x: PgAction, k': Pg, t: nat, tx: PayoutTx) {
    OpenRead(k, t, tx) ==>
      && OpenRead(k', t, tx)
      && Available(k'.core.store, tx.merchant, tx.currency)
         == Available(k.core.store, tx.merchant, tx.currency) - StoredDrain(k, x, tx.merchant, tx.currency)
  }

  lemma TraceDrainsStored(hash: string -> int, r: seq<Pg>, xs: seq<PgAction>, j: nat, t: nat, tx: PayoutTx)
    requires RoundTrace(hash, r, xs) && j < |xs|
    requires !((xs[j].CommitPayout? || xs[j].RollbackPayout?) && xs[j].t == t)
    ensures StoredDrains(r[j], xs[j], r[j + 1], t, tx)
  {
    if OpenRead(r[j], t, tx) {
      assert Held(r[j]) && PgReached(hash, Shadow(r[j])) by { RoundedRunsRefine(hash, r, xs, j); }
      OpenTransactionKept(hash, r[j], xs[j], t, tx);
      if xs[j].CommitPayout? {
        OthersKeptOut(hash, r[j], xs[j], t, tx);
      }
      StepDrainsStored(hash, r[j], xs[j], tx.merchant, tx.currency);
    }
  }

  lemma SpentFirst(hash: string -> int, r: seq<Pg>, xs: seq<PgAction>, i: nat, t: nat, tx: PayoutTx)
    requires RoundTrace(hash, r, xs) && i < |xs| && xs[i] == ReadBalance(t) && OpenRead(r[i + 1], t, tx)
    ensures tx.stage.balance == Available(r[i].core.store, tx.merchant, tx.currency)
    ensures SpentSince(r, xs, i + 1, i + 1, t, tx)
  {
    RoundBalanceRead(hash, r, xs, i, t);
  }

  lemma {:induction false} SpentAlong(r: seq<Pg>, xs: seq<PgAction>, i: nat, j: nat, t: nat, tx: PayoutTx)
    requires i <= j <= |xs| < |r| && SpentSince(r, xs, i, i, t, tx)
    requires forall l :: i <= l < j ==> StoredDrains(r[l], xs[l], r[l + 1], t, tx)
    ensures SpentSince(r, xs, i, j, t, tx)
    decreases j
  {
    if i < j {
      SpentAlong(r, xs, i, j - 1, t, tx);
      assert StoredDrains(r[j - 1], xs[j - 1], r[j - 1 + 1], t, tx);
    }
  }

  lemma SpentUntil(hash: string -> int, r: seq<Pg>, xs: seq<PgAction>, i: nat, j: nat, t: nat, tx: PayoutTx)
    requires RoundReadOpen(hash, r, xs, i, j, t) && OpenRead(r[i + 1], t, tx)
    ensures tx.stage.balance == Available(r[i].core.store, tx.merchant, tx.currency)
    ensures SpentSince(r, xs, i + 1, j, t, tx)
  {
    SpentFirst(hash, r, xs, i, t, tx);
    forall l | i + 1 <= l < j ensures StoredDrains(r[l], xs[l], r[l + 1], t, tx) {
      TraceDrainsStored(hash, r, xs, l, t, tx);
    }
    SpentAlong(r, xs, i + 1, j, t, tx);
  }

  lemma TransactionStays(hash: string -> int, r: seq<Pg>, xs: seq<PgAction>, i: nat, j: nat, t: nat)
    requires RoundReadOpen(hash, r, xs, i, j, t)
    ensures t in r[j].payouts && t in r[i + 1].payouts && r[j].payouts[t] == r[i + 1].payouts[t]
  {
    RoundBalanceRead(hash, r, xs, i, t);
    var tx := r[i + 1].payouts[t];
    var good := (l: nat) => l < |r| && t in r[l].payouts && r[l].payouts[t] == tx;
    forall l: nat | i + 1 <= l < j && good(l) ensures good(l + 1) {
      ReadTransactionKept(hash, r[l], xs[l], t);
    }
    Persists(i + 1, j, good);
  }

  lemma ReadTransactionKept(hash: string -> int, k: Pg, x: PgAction, t: nat)
    requires RoundEnabled(hash, k, x) && t in k.payouts && k.payouts[t].stage.Read?
    requires !((x.CommitPayout? || x.RollbackPayout?) && x.t == t)
    ensures t in RoundPerform(hash, k, x).payouts && RoundPerform(hash, k, x).payouts[t] == k.payouts[t]
  {
  }

  /** `PayoutLeavesBalanceIff` on rounding columns: what counts is the rounded amount of the payout and of
      everything that committed since its read. */
  lemma RoundedPayoutLeavesBalanceIff(hash: string -> int, r: seq<Pg>, xs: seq<PgAction>, i: nat, j: nat, t: nat,
                                      ids: Ids)
    requires RoundReadOpen(hash, r, xs, i, j, t) && j < |xs| && xs[j] == CommitPayout(t, ids)
    ensures t in r[j].payouts && r[j].payouts[t].stage.Read?
    ensures var tx := r[j].payouts[t];
            var drain := NetStoredDrain(r, xs, i + 1, j, tx.merchant, tx.currency);
            var left := Available(r[j + 1].core.store, tx.merchant, tx.currency);
            && tx.stage.balance == Available(r[i].core.store, tx.merchant, tx.currency)
            && left == tx.stage.balance - Stored(tx.amount) - drain
            && (left >= 0.0 <==> drain <= tx.stage.balance - Stored(tx.amount))
  {
    TransactionStays(hash, r, xs, i, j, t);
    RoundBalanceRead(hash, r, xs, i, t);
    var tx := r[j].payouts[t];
    assert RoundEnabled(hash, r[j], xs[j]) && r[j + 1] == RoundPerform(hash, r[j], xs[j]);
    SpentUntil(hash, r, xs, i, j, t, tx);
    PayoutTakesStored(hash, r[j], xs[j], tx.merchant, tx.currency);
  }

  // ---------- the unlocked Transition ----------

  lemma ShadowFailsSettled(k: Pg, x: PgAction)
    ensures var y := ShadowAction(k, x); FailsSettled(k, x) <==> y.Some? && FailsSettled(Shadow(k), y.value)
  {
  }

  lemma StatusesFrame(s: State, s': State)
    requires s'.payments == s.payments
    ensures StatusesOk(s') <==> StatusesOk(s)
  {
  }

  lemma RoundStepStatuses(hash: string -> int, k: Pg, x: PgAction)
    requires Held(k) && PgReached(hash, Shadow(k)) && RoundEnabled(hash, k, x) && StatusesOk(k.core.store)
    ensures StatusesOk(RoundPerform(hash, k, x).core.store) <==> !FailsSettled(k, x)
  {
    var shadow, k', y := Shadow(k), RoundPerform(hash, k, x), ShadowAction(k, x);
    assert RowsOk(shadow.core) && CallsOk(shadow.core) by { PgReachedInv(hash, shadow); }
    assert Follows(hash, k, x) by {
      PgReachedInv(hash, shadow);
      ShadowRows(k);
      StepFollows(hash, k, x);
    }
    ShadowFailsSettled(k, x);
    StatusesFrame(k.core.store, shadow.core.store);
    StatusesFrame(k'.core.store, Shadow(k').core.store);
    if y.Some? {
      StepStatuses(hash, shadow, y.value);
    }
  }

  lemma RoundTraceStatuses(hash: string -> int, r: seq<Pg>, xs: seq<PgAction>, i: nat)
    requires RoundTrace(hash, r, xs) && i < |xs| && StatusesOk(r[i].core.store)
    ensures StatusesOk(r[i + 1].core.store) <==> !FailsSettled(r[i], xs[i])
  {
    assert Held(r[i]) && PgReached(hash, Shadow(r[i])) by { RoundedRunsRefine(hash, r, xs, i); }
    RoundStepStatuses(hash, r[i], xs[i]);
  }

  /** `StatusesOkIff` on rounding columns. */
  lemma RoundedStatusesOkIff(hash: string -> int, r: seq<Pg>, xs: seq<PgAction>)
    requires RoundTrace(hash, r, xs)
    ensures (forall i :: 0 <= i < |r| ==> StatusesOk(r[i].core.store))
       <==> (forall i :: 0 <= i < |xs| ==> !FailsSettled(r[i], xs[i]))
  {
    var good := (i: nat) => i < |r| && StatusesOk(r[i].core.store);
    var step := (i: nat) => i < |xs| && !FailsSettled(r[i], xs[i]);
    forall i: nat | i < |xs| && good(i) ensures good(i + 1) <==> step(i) {
      RoundTraceStatuses(hash, r, xs, i);
    }
    AtEveryPointIff(|xs|, good, step);
    forall i | 0 <= i < |r| ensures good(i) <==> StatusesOk(r[i].core.store) {}
    forall i | 0 <= i < |xs| ensures step(i) <==> !FailsSettled(r[i], xs[i]) {}
  }
}
