/** Exact conditions over runs of the PostgreSQL machine: when a payout leaves the balance covered, when
    the unlocked Transition does no harm; what a replayed key answers, and the theorems about in-memory
    runs that hold here as well. */
module Interleavings {
  import opened Domain
  import opened Accounts
  import opened StoreSpec
  import opened ServiceSpec
  import opened Machine
  import opened Steps
  import opened Bounds
  import opened Theorems
  import opened Postgres
  import opened Stepwise

  lemma PgTraceIsRun(hash: string -> int, r: seq<Pg>, xs: seq<PgAction>)
    requires PgTrace(hash, r, xs)
    ensures PgRun(hash, r)
  {
    forall i | 0 <= i < |r| - 1 ensures PgNext(hash, r[i], r[i + 1]) {
      assert PgEnabled(hash, r[i], xs[i]) && r[i + 1] == PgPerform(hash, r[i], xs[i]);
    }
  }

  lemma PgTraceInv(hash: string -> int, r: seq<Pg>, xs: seq<PgAction>, i: nat)
    requires PgTrace(hash, r, xs) && i < |r|
    ensures PgInv(hash, r[i])
  {
    PgTraceIsRun(hash, r, xs);
    PgRunInv(hash, r, i);
  }

  // ---------- the balance a payout leaves ----------

  // What a committed call takes from the available balance of `m` in `c`: refunds and disputes take,
  // captures, failed payouts and won disputes give back.
  function CallDrain(call: Call, m: string, c: string): real {
    match call
    case Authorizing(_, _) => 0.0
    case Capturing(_, p, amount) => if p.merchantId == m && p.currency == c then -amount else 0.0
    case Refunding(_, p, amount) => if p.merchantId == m && p.currency == c then amount else 0.0
    case Completing(_, p, _, success) => if !success && p.merchantId == m && p.currency == c then -p.amount else 0.0
    case Opening(_, p, _, amount) => if p.merchantId == m && p.currency == c then amount else 0.0
    case Resolving(_, d, merchantWins) =>
      if merchantWins && d.merchantId == m && d.currency == c then -d.amount else 0.0
  }

  function StepDrain(k: Pg, x: PgAction, m: string, c: string): real {
    if x.Core? && x.a.Commit? && x.a.n in k.core.calls
       && Commits(k.core.store, k.core.calls[x.a.n], x.a.reference, x.a.ids)
    then CallDrain(k.core.calls[x.a.n], m, c)
    else 0.0
  }

  // What the steps from `i` up to `j` took, less what they gave back.
  function NetDrain(r: seq<Pg>, xs: seq<PgAction>, i: nat, j: nat, m: string, c: string): real
    requires i <= j <= |xs| < |r|
  {
    if i == j then 0.0 else NetDrain(r, xs, i, j - 1, m, c) + StepDrain(r[j - 1], xs[j - 1], m, c)
  }

  // The accounts, currency and amount of the pair a call writes.
  function CallPair(call: Call): (string, Account, Account, string, real) {
    match call
    case Authorizing(id, p) => (id, CustomerPending, MerchantPending(p.merchantId), p.currency, p.amount)
    case Capturing(id, p, amount) =>
      (id, MerchantPending(p.merchantId), MerchantAvailable(p.merchantId), p.currency, amount)
    case Refunding(id, p, amount) => (id, MerchantAvailable(p.merchantId), CustomerRefunded, p.currency, amount)
    case Completing(_, p, _, success) =>
      ("", MerchantPayoutPending(p.merchantId),
       if success then ProviderPayoutSettled else MerchantAvailable(p.merchantId), p.currency, p.amount)
    case Opening(id, p, _, amount) =>
      (id, MerchantAvailable(p.merchantId), MerchantDisputeFrozen(p.merchantId), p.currency, amount)
    case Resolving(_, d, merchantWins) =>
      (d.paymentId, MerchantDisputeFrozen(d.merchantId),
       if merchantWins then MerchantAvailable(d.merchantId) else CustomerChargeback, d.currency, d.amount)
  }

  lemma CommitWritesPair(s: State, call: Call, reference: string, ids: Ids)
    ensures var (id, from, to, currency, amount) := CallPair(call);
            CommitCall(s, call, reference, ids).ledger
            == s.ledger + if Commits(s, call, reference, ids) then Pair(id, from, to, currency, amount, ids) else []
  {
  }

  lemma CommitDrains(s: State, call: Call, reference: string, ids: Ids, m: string, c: string)
    ensures Available(CommitCall(s, call, reference, ids), m, c)
         == Available(s, m, c) - if Commits(s, call, reference, ids) then CallDrain(call, m, c) else 0.0
  {
    CommitWritesPair(s, call, reference, ids);
    if Commits(s, call, reference, ids) {
      var (id, from, to, currency, amount) := CallPair(call);
      PairBalance(s.ledger, id, from, to, currency, amount, ids, MerchantAvailable(m), c);
    }
  }

  lemma CoreStepDrains(k: Pg, a: Action, m: string, c: string)
    requires Enabled(k.core, a) && !a.Create? && !a.RequestPayout? && !a.Fail?
    ensures Available(Perform(k.core, a).store, m, c) == Available(k.core.store, m, c) - StepDrain(k, Core(a), m, c)
  {
    if a.Commit? {
      CommitDrains(k.core.store, k.core.calls[a.n], a.reference, a.ids, m, c);
    }
  }

  // Every step but a payout of this merchant in this currency.
  lemma StepDrains(hash: string -> int, k: Pg, x: PgAction, m: string, c: string)
    requires PgEnabled(hash, k, x)
    requires x.CommitPayout? ==> k.payouts[x.t].merchant != m || k.payouts[x.t].currency != c
    ensures Available(PgPerform(hash, k, x).core.store, m, c) == Available(k.core.store, m, c) - StepDrain(k, x, m, c)
  {
    if x.Core? {
      CoreStepDrains(k, x.a, m, c);
    } else if x.CommitPayout? {
      PayoutTakes(hash, k, x, m, c);
    }
  }

  lemma PayoutTakes(hash: string -> int, k: Pg, x: PgAction, m: string, c: string)
    requires PgEnabled(hash, k, x) && x.CommitPayout?
    ensures var tx := k.payouts[x.t];
            Available(PgPerform(hash, k, x).core.store, m, c)
            == Available(k.core.store, m, c) - if tx.merchant == m && tx.currency == c then tx.amount else 0.0
  {
    var p := PayoutOf(k.payouts[x.t], x.ids);
    PairBalance(k.core.store.ledger, "", MerchantAvailable(p.merchantId), MerchantPayoutPending(p.merchantId),
                p.currency, p.amount, x.ids, MerchantAvailable(m), c);
  }

  // Transaction `t` reads its balance at step `i` and is still open before step `j`.
  ghost predicate ReadOpen(hash: string -> int, r: seq<Pg>, xs: seq<PgAction>, i: nat, j: nat, t: nat) {
    && PgTrace(hash, r, xs) && i < j <= |xs| && xs[i] == ReadBalance(t)
    && forall l :: i < l < j ==> !((xs[l].CommitPayout? || xs[l].RollbackPayout?) && xs[l].t == t)
  }

  // A step of another transaction leaves a transaction that has read its balance alone, and while that
  // holds its lock no payout of its merchant in its currency commits.
  lemma OpenReadKept(hash: string -> int, k: Pg, x: PgAction, t: nat)
    requires LocksExclusive(hash, k) && PgEnabled(hash, k, x) && t in k.payouts && k.payouts[t].stage.Read?
    requires !((x.CommitPayout? || x.RollbackPayout?) && x.t == t)
    ensures t in PgPerform(hash, k, x).payouts && PgPerform(hash, k, x).payouts[t] == k.payouts[t]
    ensures x.CommitPayout? ==>
              var tx, other := k.payouts[t], k.payouts[x.t];
              other.merchant != tx.merchant || other.currency != tx.currency
  {
    if x.CommitPayout? {
      assert HoldsLock(k.payouts[t]) && HoldsLock(k.payouts[x.t]);
      assert LockKey(k.payouts[t]) != LockKey(k.payouts[x.t]);
    }
  }

  // The step keeps an open transaction and drains its balance by what `StepDrain` says.
  ghost predicate Drains(k: Pg, x: PgAction, k': Pg, t: nat) {
    t in k.payouts && k.payouts[t].stage.Read? ==>
      && t in k'.payouts && k'.payouts[t] == k.payouts[t]
      && var tx := k.payouts[t];
         Available(k'.core.store, tx.merchant, tx.currency)
         == Available(k.core.store, tx.merchant, tx.currency) - StepDrain(k, x, tx.merchant, tx.currency)
  }

  lemma OpenReadDrains(hash: string -> int, r: seq<Pg>, xs: seq<PgAction>, j: nat, t: nat)
    requires PgTrace(hash, r, xs) && j < |xs|
    requires !((xs[j].CommitPayout? || xs[j].RollbackPayout?) && xs[j].t == t)
    ensures Drains(r[j], xs[j], r[j + 1], t)
  {
    if t in r[j].payouts && r[j].payouts[t].stage.Read? {
      assert LocksExclusive(hash, r[j]) by { PgTraceInv(hash, r, xs, j); }
      OpenReadKept(hash, r[j], xs[j], t);
      StepDrains(hash, r[j], xs[j], r[j].payouts[t].merchant, r[j].payouts[t].currency);
    }
  }

  lemma BalanceRead(hash: string -> int, r: seq<Pg>, xs: seq<PgAction>, i: nat, t: nat)
    requires PgTrace(hash, r, xs) && i < |xs| && xs[i] == ReadBalance(t)
    ensures t in r[i + 1].payouts
    ensures var tx := r[i + 1].payouts[t];
            && tx.stage == Read(Available(r[i].core.store, tx.merchant, tx.currency))
            && r[i + 1].core == r[i].core
  {
    assert PgEnabled(hash, r[i], xs[i]) && r[i + 1] == PgPerform(hash, r[i], xs[i]);
  }

  // The balance a transaction read, less the drain since then, is the balance now.
  ghost predicate DrainedTo(r: seq<Pg>, xs: seq<PgAction>, i: nat, j: nat, t: nat, tx: PayoutTx) {
    && i <= j <= |xs| < |r|
    && t in r[j].payouts && r[j].payouts[t] == tx && tx.stage.Read?
    && Available(r[j].core.store, tx.merchant, tx.currency)
       == tx.stage.balance - NetDrain(r, xs, i, j, tx.merchant, tx.currency)
  }

  lemma {:induction false} DrainAccumulates(r: seq<Pg>, xs: seq<PgAction>, i: nat, j: nat, t: nat, tx: PayoutTx)
    requires i <= j <= |xs| < |r| && DrainedTo(r, xs, i, i, t, tx)
    requires forall l :: i <= l < j ==> Drains(r[l], xs[l], r[l + 1], t)
    ensures DrainedTo(r, xs, i, j, t, tx)
    decreases j
  {
    if i < j {
      DrainAccumulates(r, xs, i, j - 1, t, tx);
      assert Drains(r[j - 1], xs[j - 1], r[j - 1 + 1], t);
    }
  }

  lemma DrainedSinceRead(hash: string -> int, r: seq<Pg>, xs: seq<PgAction>, i: nat, j: nat, t: nat)
    requires ReadOpen(hash, r, xs, i, j, t)
    ensures t in r[j].payouts && DrainedTo(r, xs, i + 1, j, t, r[j].payouts[t])
    ensures var tx := r[j].payouts[t]; tx.stage == Read(Available(r[i].core.store, tx.merchant, tx.currency))
  {
    BalanceRead(hash, r, xs, i, t);
    forall l | i + 1 <= l < j ensures Drains(r[l], xs[l], r[l + 1], t) {
      OpenReadDrains(hash, r, xs, l, t);
    }
    DrainAccumulates(r, xs, i + 1, j, t, r[i + 1].payouts[t]);
  }

  /** A payout transaction checks the balance it read, not the one it commits on. Over every run and
      every lock hash, its commit leaves the available balance at zero or more exactly when what
      committed since its read, refunds and disputes less captures, failed payouts and won disputes
      of that merchant in that currency, took no more than the read balance had to spare. */
  lemma PayoutLeavesBalanceIff(hash: string -> int, r: seq<Pg>, xs: seq<PgAction>, i: nat, j: nat, t: nat, ids: Ids)
    requires ReadOpen(hash, r, xs, i, j, t) && j < |xs| && xs[j] == CommitPayout(t, ids)
    ensures t in r[j].payouts && r[j].payouts[t].stage.Read?
    ensures var tx := r[j].payouts[t];
            var drain := NetDrain(r, xs, i + 1, j, tx.merchant, tx.currency);
            var left := Available(r[j + 1].core.store, tx.merchant, tx.currency);
            && tx.stage.balance == Available(r[i].core.store, tx.merchant, tx.currency)
            && left == tx.stage.balance - tx.amount - drain
            && (left >= 0.0 <==> drain <= tx.stage.balance - tx.amount)
  {
    DrainedSinceRead(hash, r, xs, i, j, t);
    PayoutTakes(hash, r[j], xs[j], r[j].payouts[t].merchant, r[j].payouts[t].currency);
  }

  // ---------- the unlocked Transition ----------

  // The update to failed lands on a row that money has been captured on meanwhile.
  predicate FailsSettled(k: Pg, x: PgAction) {
    && x.WriteFailed? && x.n in k.fails && k.fails[x.n].id in k.core.store.payments
    && k.core.store.payments[k.fails[x.n].id].status in {Captured, Refunded}
  }

  lemma BlindFailStatus(s: State, id: string, reason: string)
    requires StatusesOk(s) && id in s.payments
    requires forall x :: x in s.payments ==> 0.0 <= s.payments[x].refunded <= s.payments[x].captured
    ensures StatusesOk(WithFailed(s, id, reason)) <==> s.payments[id].status !in {Captured, Refunded}
  {
    assert StatusOk(s.payments[id]);
    assert WithFailed(s, id, reason).payments[id].captured == s.payments[id].captured;
  }

  lemma StepStatuses(hash: string -> int, k: Pg, x: PgAction)
    requires RowsOk(k.core) && CallsOk(k.core) && StatusesOk(k.core.store) && PgEnabled(hash, k, x)
    ensures StatusesOk(PgPerform(hash, k, x).core.store) <==> !FailsSettled(k, x)
  {
    match x
    case Core(a) =>
      assert Next(k.core, Perform(k.core, a));
      NextKeepsStatuses(k.core, Perform(k.core, a));
    case WriteFailed(n) =>
      assert forall id :: id in k.core.store.payments ==> RowOk(id, k.core.store.payments[id], id in k.core.authorized);
      BlindFailStatus(k.core.store, k.fails[n].id, k.fails[n].reason);
    case _ =>
  }

  lemma TraceStatuses(hash: string -> int, r: seq<Pg>, xs: seq<PgAction>, i: nat)
    requires PgTrace(hash, r, xs) && i < |xs| && StatusesOk(r[i].core.store)
    ensures StatusesOk(r[i + 1].core.store) <==> !FailsSettled(r[i], xs[i])
  {
    assert RowsOk(r[i].core) && CallsOk(r[i].core) by { PgTraceInv(hash, r, xs, i); }
    StepStatuses(hash, r[i], xs[i]);
  }

  /** Over every run: at every point every status agrees with the captured and refunded amounts of its
      row, exactly when no update to failed lands on a row that is captured or refunded by then. A
      status guard on the update would exclude just those steps. */
  lemma StatusesOkIff(hash: string -> int, r: seq<Pg>, xs: seq<PgAction>)
    requires PgTrace(hash, r, xs)
    ensures (forall i :: 0 <= i < |r| ==> StatusesOk(r[i].core.store))
       <==> (forall i :: 0 <= i < |xs| ==> !FailsSettled(r[i], xs[i]))
  {
    var good := (i: nat) => i < |r| && StatusesOk(r[i].core.store);
    var step := (i: nat) => i < |xs| && !FailsSettled(r[i], xs[i]);
    forall i: nat | i < |xs| && good(i) ensures good(i + 1) <==> step(i) {
      TraceStatuses(hash, r, xs, i);
    }
    AtEveryPointIff(|xs|, good, step);
    forall i | 0 <= i < |r| ensures good(i) <==> StatusesOk(r[i].core.store) {}
    forall i | 0 <= i < |xs| ensures step(i) <==> !FailsSettled(r[i], xs[i]) {}
  }

  // The step commits a capture of payment `id`.
  predicate PgCaptures(k: Pg, x: PgAction, id: string) {
    && x.Core? && x.a.Commit? && x.a.n in k.core.calls
    && k.core.calls[x.a.n].Capturing? && k.core.calls[x.a.n].id == id
    && Commits(k.core.store, k.core.calls[x.a.n], x.a.reference, x.a.ids)
  }

  lemma OnlyCapturesCapture(s: State, call: Call, reference: string, ids: Ids, id: string)
    requires id in s.payments && forall x :: x in s.payments ==> s.payments[x].id == x
    requires !(call.Capturing? && call.id == id && Commits(s, call, reference, ids))
    requires call.Capturing? ==> call.payment.id == call.id
    ensures var payments := CommitCall(s, call, reference, ids).payments;
            id in payments && payments[id].captured == s.payments[id].captured
  {
  }

  lemma CoreStepCapturesNothing(k: Config, a: Action, id: string)
    requires Enabled(k, a) && (a.Begin? || a.Abort? || a.Register? || a.Publish?)
    ensures Perform(k, a).store.payments == k.store.payments
  {
  }

  lemma OtherStepCapturesNothing(hash: string -> int, k: Pg, x: PgAction, id: string)
    requires PgEnabled(hash, k, x) && !x.Core? && id in k.core.store.payments
    ensures var payments := PgPerform(hash, k, x).core.store.payments;
            id in payments && payments[id].captured == k.core.store.payments[id].captured
  {
  }

  lemma StepCapturesNothing(hash: string -> int, k: Pg, x: PgAction, id: string)
    requires RowsOk(k.core) && CallsOk(k.core) && PgEnabled(hash, k, x) && id in k.core.store.payments
    requires !PgCaptures(k, x, id)
    ensures var payments := PgPerform(hash, k, x).core.store.payments;
            id in payments && payments[id].captured == k.core.store.payments[id].captured
  {
    if x.Core? && x.a.Commit? {
      var s, call := k.core.store, k.core.calls[x.a.n];
      assert CallOk(s, call);
      forall y | y in s.payments ensures s.payments[y].id == y {
        assert RowOk(y, s.payments[y], y in k.core.authorized);
      }
      OnlyCapturesCapture(s, call, x.a.reference, x.a.ids, id);
    } else if x.Core? {
      CoreStepCapturesNothing(k.core, x.a, id);
    } else {
      OtherStepCapturesNothing(hash, k, x, id);
    }
  }

  lemma TraceCapturesNothing(hash: string -> int, r: seq<Pg>, xs: seq<PgAction>, i: nat, id: string)
    requires PgTrace(hash, r, xs) && i < |xs| && id in r[i].core.store.payments && !PgCaptures(r[i], xs[i], id)
    ensures id in r[i + 1].core.store.payments
    ensures r[i + 1].core.store.payments[id].captured == r[i].core.store.payments[id].captured
  {
    assert RowsOk(r[i].core) && CallsOk(r[i].core) by { PgTraceInv(hash, r, xs, i); }
    StepCapturesNothing(hash, r[i], xs[i], id);
  }

  lemma {:induction false} CapturedStays(r: seq<Pg>, i: nat, j: nat, id: string)
    requires i <= j < |r| && id in r[i].core.store.payments
    requires forall l :: i <= l < j && id in r[l].core.store.payments ==>
               && id in r[l + 1].core.store.payments
               && r[l + 1].core.store.payments[id].captured == r[l].core.store.payments[id].captured
    ensures id in r[j].core.store.payments
    ensures r[j].core.store.payments[id].captured == r[i].core.store.payments[id].captured
    decreases j
  {
    if i < j {
      CapturedStays(r, i, j - 1, id);
      assert id in r[j - 1 + 1].core.store.payments;
    }
  }

  // The step is the unlocked read of a Transition to failed, of a payment that may still fail.
  predicate ReadsToFail(k: Pg, x: PgAction, n: nat, id: string) {
    && x.ReadStatus? && x.n == n && n in k.core.calls && k.core.calls[n].id == id
    && id in k.core.store.payments && k.core.store.payments[id].status in {Created, Authorized}
  }

  lemma FailBegins(hash: string -> int, k: Pg, x: PgAction, n: nat)
    requires PgEnabled(hash, k, x) && n in PgPerform(hash, k, x).fails
    ensures var fails := PgPerform(hash, k, x).fails;
            (n in k.fails && fails[n] == k.fails[n]) || ReadsToFail(k, x, n, fails[n].id)
  {
  }

  lemma {:induction false} FailWasRead(hash: string -> int, r: seq<Pg>, xs: seq<PgAction>, j: nat, n: nat)
    returns (i: nat)
    requires PgTrace(hash, r, xs) && j < |r| && n in r[j].fails
    ensures i < j && ReadsToFail(r[i], xs[i], n, r[j].fails[n].id)
    decreases j
  {
    assert j > 0;
    FailBegins(hash, r[j - 1], xs[j - 1], n);
    if ReadsToFail(r[j - 1], xs[j - 1], n, r[j].fails[n].id) {
      i := j - 1;
    } else {
      i := FailWasRead(hash, r, xs, j - 1, n);
    }
  }

  // What a row that may still fail, or that is settled, has captured.
  lemma CapturedByStatus(hash: string -> int, r: seq<Pg>, xs: seq<PgAction>, i: nat, id: string)
    requires PgTrace(hash, r, xs) && i < |r| && id in r[i].core.store.payments
    ensures var p := r[i].core.store.payments[id];
            && (p.status in {Created, Authorized} ==> p.captured == 0.0)
            && (p.status in {Captured, Refunded} ==> p.captured > 0.0)
  {
    assert RowsOk(r[i].core) by { PgTraceInv(hash, r, xs, i); }
    assert RowOk(id, r[i].core.store.payments[id], id in r[i].core.authorized);
  }

  /** How an update to failed can land on a settled payment: its Transition read the payment while it could
      still fail, and between that read and the update a capture of the payment committed. */
  lemma SettledFailureHasCause(hash: string -> int, r: seq<Pg>, xs: seq<PgAction>, j: nat)
    requires PgTrace(hash, r, xs) && j < |xs| && FailsSettled(r[j], xs[j])
    ensures var n, id := xs[j].n, r[j].fails[xs[j].n].id;
            exists i, l :: && 0 <= i < l < j && ReadsToFail(r[i], xs[i], n, id) && PgCaptures(r[l], xs[l], id)
  {
    var n, id := xs[j].n, r[j].fails[xs[j].n].id;
    var i := FailWasRead(hash, r, xs, j, n);
    CapturedByStatus(hash, r, xs, i, id);
    CapturedByStatus(hash, r, xs, j, id);
    var l := CaptureBetween(hash, r, xs, i, j, id);
    assert l != i;
  }

  lemma CaptureBetween(hash: string -> int, r: seq<Pg>, xs: seq<PgAction>, i: nat, j: nat, id: string) returns (l: nat)
    requires PgTrace(hash, r, xs) && i <= j < |r|
    requires id in r[i].core.store.payments && id in r[j].core.store.payments
    requires r[i].core.store.payments[id].captured != r[j].core.store.payments[id].captured
    ensures i <= l < j && PgCaptures(r[l], xs[l], id)
  {
    if forall l :: i <= l < j ==> !PgCaptures(r[l], xs[l], id) {
      forall l | i <= l < j && id in r[l].core.store.payments
        ensures id in r[l + 1].core.store.payments
        ensures r[l + 1].core.store.payments[id].captured == r[l].core.store.payments[id].captured
      {
        TraceCapturesNothing(hash, r, xs, l, id);
      }
      CapturedStays(r, i, j, id);
      assert false;
    }
    l :| i <= l < j && PgCaptures(r[l], xs[l], id);
  }

  // ---------- replayed keys ----------

  // The row that the select of CreatePayment joins to a key.
  function Replay(s: State, key: string): Option<Payment> {
    if key in s.keys && s.keys[key] in s.payments then Some(s.payments[s.keys[key]]) else None
  }

  lemma CreateBegins(hash: string -> int, k: Pg, x: PgAction, t: nat)
    requires PgEnabled(hash, k, x) && t in PgPerform(hash, k, x).creates
    ensures var tx := PgPerform(hash, k, x).creates[t];
            || (t in k.creates && tx == k.creates[t])
            || (x == SelectKey(t, tx.input, tx.key) && tx.key != "" && tx.key !in k.core.store.keys)
  {
  }

  /** A creation gets as far as its inserts only if its select found the key unused; else it replays. */
  lemma {:induction false} InsertsOnlyUnusedKeys(hash: string -> int, r: seq<Pg>, xs: seq<PgAction>, j: nat, t: nat)
    returns (i: nat)
    requires PgTrace(hash, r, xs) && j < |r| && t in r[j].creates
    ensures var tx := r[j].creates[t];
            i < j && xs[i] == SelectKey(t, tx.input, tx.key) && tx.key != "" && tx.key !in r[i].core.store.keys
    decreases j
  {
    assert j > 0;
    CreateBegins(hash, r[j - 1], xs[j - 1], t);
    var tx := r[j].creates[t];
    if xs[j - 1] == SelectKey(t, tx.input, tx.key) && tx.key != "" && tx.key !in r[j - 1].core.store.keys {
      i := j - 1;
    } else {
      i := InsertsOnlyUnusedKeys(hash, r, xs, j - 1, t);
    }
  }

  lemma StepEvolves(hash: string -> int, k: Pg, x: PgAction)
    requires PgInv(hash, k) && PgEnabled(hash, k, x)
    ensures StoreEvolves(k.core.store, PgPerform(hash, k, x).core.store)
  {
    if x.CommitPayout? {
      PayoutCore(k.core, k.payouts[x.t], x.ids);
    } else {
      OtherCore(hash, k, x);
    }
  }

  predicate SameIdentity(p: Payment, q: Payment) {
    && q.id == p.id && q.merchantId == p.merchantId && q.customerId == p.customerId
    && q.currency == p.currency && q.amount == p.amount
  }

  lemma NextEvolves(hash: string -> int, k: Pg, k': Pg)
    requires PgInv(hash, k) && PgNext(hash, k, k')
    ensures StoreEvolves(k.core.store, k'.core.store)
  {
    var x :| PgEnabled(hash, k, x) && k' == PgPerform(hash, k, x);
    StepEvolves(hash, k, x);
  }

  lemma RunNextEvolves(hash: string -> int, r: seq<Pg>, i: nat)
    requires PgRun(hash, r) && i + 1 < |r|
    ensures StoreEvolves(r[i].core.store, r[i + 1].core.store)
  {
    PgRunInv(hash, r, i);
    NextEvolves(hash, r[i], r[i + 1]);
  }

  lemma {:induction false} EvolvesAlong(r: seq<Pg>, i: nat, j: nat)
    requires i <= j < |r| && forall l :: i <= l < j ==> StoreEvolves(r[l].core.store, r[l + 1].core.store)
    ensures StoreEvolves(r[i].core.store, r[j].core.store)
    decreases j
  {
    if i < j {
      EvolvesAlong(r, i, j - 1);
      assert StoreEvolves(r[j - 1].core.store, r[j - 1 + 1].core.store);
      StoreEvolvesTransitive(r[i].core.store, r[j - 1].core.store, r[j].core.store);
    }
  }

  /** Between any two points of a run of the PostgreSQL machine, records change only forwards and keys,
      entries and events are never lost. */
  lemma PgRunEvolves(hash: string -> int, r: seq<Pg>, i: nat, j: nat)
    requires PgRun(hash, r) && i <= j < |r|
    ensures StoreEvolves(r[i].core.store, r[j].core.store)
  {
    forall l | i <= l < j ensures StoreEvolves(r[l].core.store, r[l + 1].core.store) {
      RunNextEvolves(hash, r, l);
    }
    EvolvesAlong(r, i, j);
  }

  // The key leads to a row under its own id.
  lemma KeyLeadsToRow(k: Config, key: string)
    requires RowsOk(k) && KeysOk(k.store) && key in k.store.keys
    ensures var p := Replay(k.store, key); p.Some? && p.value.id == k.store.keys[key]
  {
    assert RowOk(k.store.keys[key], k.store.payments[k.store.keys[key]], k.store.keys[key] in k.authorized);
  }

  /** Once a key is taken, every later select finds it, and finds the payment it was first used for. */
  lemma PostgresReplays(hash: string -> int, r: seq<Pg>, i: nat, j: nat, key: string)
    requires PgRun(hash, r) && i <= j < |r| && key in r[i].core.store.keys
    ensures key in r[j].core.store.keys
    ensures var first, later := Replay(r[i].core.store, key), Replay(r[j].core.store, key);
            && first.Some? && later.Some? && SameIdentity(first.value, later.value)
            && later.value.id == r[i].core.store.keys[key] == r[j].core.store.keys[key]
  {
    assert RowsOk(r[i].core) && KeysOk(r[i].core.store) by { PgRunInv(hash, r, i); }
    KeyLeadsToRow(r[i].core, key);
    PgRunEvolves(hash, r, i, j);
    var id := r[i].core.store.keys[key];
    assert PaymentEvolves(r[i].core.store.payments[id], r[j].core.store.payments[id]);
  }

  // ---------- the other theorems about runs ----------

  /** What `PaymentsStayValid` says of amounts and authorizations holds in PostgreSQL too. */
  lemma PostgresRowsStayValid(hash: string -> int, r: seq<Pg>, i: nat, id: string)
    requires PgRun(hash, r) && i < |r|
    ensures var k := r[i].core;
            && (id in k.store.payments ==>
                  var p := k.store.payments[id]; p.id == id && 0.0 <= p.refunded <= p.captured <= p.amount)
            && Authorizations(k.store.ledger, id) == if id in k.authorized then 1 else 0
  {
    PgRunInv(hash, r, i);
    if id in r[i].core.store.payments {
      assert RowOk(id, r[i].core.store.payments[id], id in r[i].core.authorized);
    }
  }

  /** Every account but the available and the customer-pending ones is never negative. */
  lemma PostgresAccountsNonNegative(hash: string -> int, r: seq<Pg>, i: nat, a: Account, c: string)
    requires PgRun(hash, r) && i < |r| && !a.MerchantAvailable? && !a.CustomerPending?
    ensures Balance(r[i].core.store.ledger, Name(a), c) >= 0.0
  {
    var k := r[i].core;
    assert RowsOk(k) && ClaimsOk(k.store) && AgreesAt(k, a, c) by { PgRunInv(hash, r, i); }
    RecordedNonNegative(k, a, c);
  }

  /** The ledger is balanced pairs in one-to-one correspondence with the events, debits equal credits in
      every currency, and the newest event of a payout or dispute shows its row. */
  lemma PostgresLedgerMirrorsOutbox(hash: string -> int, r: seq<Pg>, i: nat, c: string)
    requires PgRun(hash, r) && i < |r|
    ensures exists order :: Mirrors(r[i].core.store, order)
    ensures CurrencyDebits(r[i].core.store.ledger, c) == CurrencyCredits(r[i].core.store.ledger, c)
    ensures EventsCurrent(r[i].core)
  {
    var k := r[i].core;
    assert JournalOk(k) && EventsCurrent(k) by { PgRunInv(hash, r, i); }
    JournalMirrors(k);
    PairsBalancePerCurrency(k, |k.journal|, c);
    assert k.store.ledger[..2 * |k.journal|] == k.store.ledger;
  }

  /** A resolved payout or dispute keeps its row for ever, with exactly one opening and one resolution
      posted. */
  lemma PostgresResolvedOnce(hash: string -> int, r: seq<Pg>, i: nat, j: nat, id: string)
    requires PgRun(hash, r) && i <= j < |r|
    ensures var s, t := r[i].core.store, r[j].core.store;
            && (id in s.payouts && !s.payouts[id].status.PayoutPending? ==>
                  && id in t.payouts && t.payouts[id] == s.payouts[id]
                  && TimesPosted(r[j].core.journal, PayoutKey(id)) == 2)
            && (id in s.disputes && !s.disputes[id].status.DisputeOpen? ==>
                  && id in t.disputes && t.disputes[id] == s.disputes[id]
                  && TimesPosted(r[j].core.journal, DisputeKey(id)) == 2)
  {
    PgRunEvolves(hash, r, i, j);
    assert StagesPosted(r[j].core) by { PgRunInv(hash, r, j); }
    StagesAt(r[j].core, PayoutKey(id));
    StagesAt(r[j].core, DisputeKey(id));
    var s, t := r[i].core.store, r[j].core.store;
    if id in s.payouts { assert PayoutEvolves(s.payouts[id], t.payouts[id]); }
    if id in s.disputes { assert DisputeEvolves(s.disputes[id], t.disputes[id]); }
  }

  /** No dispute is ever larger than what its payment has captured. */
  lemma PostgresDisputeWithinCaptured(hash: string -> int, r: seq<Pg>, i: nat, j: nat, id: string)
    requires PgRun(hash, r) && i <= j < |r| && id in r[i].core.store.disputes
    ensures var d := r[i].core.store.disputes[id];
            d.paymentId in r[j].core.store.payments && 0.0 < d.amount <= r[j].core.store.payments[d.paymentId].captured
  {
    PgRunEvolves(hash, r, i, j);
    assert ClaimsOk(r[j].core.store) by { PgRunInv(hash, r, j); }
    assert DisputeEvolves(r[i].core.store.disputes[id], r[j].core.store.disputes[id]);
    assert DisputeOk(r[j].core.store, id, r[j].core.store.disputes[id]);
  }
}
