/** Runs of the PostgreSQL machine. Every run of the in-memory machine is also one of this machine, with
    the same amounts, so what is reached in the first is reached in the second. */
module ProtocolWitnesses {
  import opened Domain
  import opened Accounts
  import opened StoreSpec
  import opened ServiceSpec
  import opened Machine
  import opened Steps
  import opened Runs
  import opened Theorems
  import opened Postgres
  import opened Interleavings
  import opened Witnesses

  // ---------- what runs reach ----------

  predicate PgAmountsOk(ok: real -> bool, x: PgAction) {
    match x
    case Core(a) => AmountsOk(ok, a)
    case StartPayout(_, _, _, amount) => ok(amount)
    case SelectKey(_, input, _) => ok(input.amount)
    case _ => true
  }

  ghost predicate PgStepOk(hash: string -> int, ok: real -> bool, k: Pg, x: PgAction, k': Pg) {
    PgEnabled(hash, k, x) && k' == PgPerform(hash, k, x) && PgAmountsOk(ok, x)
  }

  ghost predicate PgTraceOk(hash: string -> int, ok: real -> bool, r: seq<Pg>, xs: seq<PgAction>) {
    && |r| == |xs| + 1 && r[0] == PG_INIT
    && forall i :: 0 <= i < |xs| ==> PgStepOk(hash, ok, r[i], xs[i], r[i + 1])
  }

  // A run whose requests carry only amounts in `ok` ends in `k`.
  ghost predicate PgReachedWith(hash: string -> int, ok: real -> bool, k: Pg) {
    exists r, xs :: PgTraceOk(hash, ok, r, xs) && r[|r| - 1] == k
  }

  lemma PgTraceOkIsTrace(hash: string -> int, ok: real -> bool, r: seq<Pg>, xs: seq<PgAction>)
    requires PgTraceOk(hash, ok, r, xs)
    ensures PgTrace(hash, r, xs)
  {
    forall i | 0 <= i < |xs| ensures PgEnabled(hash, r[i], xs[i]) && r[i + 1] == PgPerform(hash, r[i], xs[i]) {
      assert PgStepOk(hash, ok, r[i], xs[i], r[i + 1]);
    }
  }

  lemma PgInitWith(hash: string -> int, ok: real -> bool)
    ensures PgReachedWith(hash, ok, PG_INIT)
  {
    var r, xs: seq<PgAction> := [PG_INIT], [];
    assert PgTraceOk(hash, ok, r, xs) && r[|r| - 1] == PG_INIT;
  }

  lemma PgStep(hash: string -> int, ok: real -> bool, k: Pg, x: PgAction)
    requires PgReachedWith(hash, ok, k) && PgEnabled(hash, k, x) && PgAmountsOk(ok, x)
    ensures PgReachedWith(hash, ok, PgPerform(hash, k, x))
  {
    var r, xs :| PgTraceOk(hash, ok, r, xs) && r[|r| - 1] == k;
    var r', xs' := r + [PgPerform(hash, k, x)], xs + [x];
    assert PgStepOk(hash, ok, k, x, PgPerform(hash, k, x));
    assert PgTraceOk(hash, ok, r', xs') && r'[|r'| - 1] == PgPerform(hash, k, x);
  }

  // Whatever the amounts, it is a run.
  lemma ReachedWithIsReached(hash: string -> int, ok: real -> bool, k: Pg)
    requires PgReachedWith(hash, ok, k)
    ensures PgReached(hash, k)
  {
    var r, xs :| PgTraceOk(hash, ok, r, xs) && r[|r| - 1] == k;
    PgTraceOkIsTrace(hash, ok, r, xs);
    PgTraceIsRun(hash, r, xs);
  }

  // ---------- in-memory runs as protocol runs ----------

  // The configuration with no transaction in progress.
  function Quiet(k: Config): Pg {
    Pg(k, map[], map[], map[])
  }

  lemma CreateProtocol(hash: string -> int, ok: real -> bool, k: Config, a: Action)
    requires RowsOk(k) && PgReachedWith(hash, ok, Quiet(k)) && Enabled(k, a) && a.Create? && AmountsOk(ok, a)
    ensures PgReachedWith(hash, ok, Quiet(Perform(k, a)))
  {
    AfterNothing(k, a.ids.event);
    var made := NewPayment(a.input, a.ids.record);
    if made.Ok? && a.key !in k.store.keys {
      var k0 := Quiet(k);
      PgStep(hash, ok, k0, SelectKey(0, a.input, a.key));
      var k1 := PgPerform(hash, k0, SelectKey(0, a.input, a.key));
      PgStep(hash, ok, k1, CommitCreate(0, a.ids));
      var k2 := PgPerform(hash, k1, CommitCreate(0, a.ids));
      assert k1.creates - {0} == map[];
      SeenAfterUpdate(k, k2.core.store, made.value.id, made.value);
      assert k2 == Quiet(Perform(k, a));
    }
  }

  lemma ReadProtocol(hash: string -> int, ok: real -> bool, k: Config, merchant: string, currency: string, amount: real)
    returns (end: Pg)
    requires PgReachedWith(hash, ok, Quiet(k)) && NewPayout(merchant, currency, amount, "").Ok? && ok(amount)
    ensures PgReachedWith(hash, ok, end) && end.core == k && end.creates == map[] && end.fails == map[]
    ensures end.payouts == map[0 := PayoutTx(merchant, ToUpper(currency), amount,
                                             Read(Available(k.store, merchant, ToUpper(currency))))]
  {
    var x := StartPayout(0, merchant, currency, amount);
    PgStep(hash, ok, Quiet(k), x);
    var k1 := PgPerform(hash, Quiet(k), x);
    PgStep(hash, ok, k1, TakeLock(0));
    var k2 := PgPerform(hash, k1, TakeLock(0));
    PgStep(hash, ok, k2, ReadBalance(0));
    end := PgPerform(hash, k2, ReadBalance(0));
  }

  lemma PayoutProtocol(hash: string -> int, ok: real -> bool, k: Config, a: Action)
    requires RowsOk(k) && PgReachedWith(hash, ok, Quiet(k)) && Enabled(k, a) && a.RequestPayout? && AmountsOk(ok, a)
    ensures PgReachedWith(hash, ok, Quiet(Perform(k, a)))
  {
    if PayoutCall(k.store, a.merchant, a.currency, a.amount, a.ids).1.Ok? {
      var read := ReadProtocol(hash, ok, k, a.merchant, a.currency, a.amount);
      PgStep(hash, ok, read, CommitPayout(0, a.ids));
      assert read.payouts - {0} == map[];
    } else {
      AfterNothing(k, a.ids.event);
    }
  }

  lemma FailProtocol(hash: string -> int, ok: real -> bool, k: Config, a: Action)
    requires RowsOk(k) && CallsOk(k) && PgReachedWith(hash, ok, Quiet(k)) && Enabled(k, a) && a.Fail?
    ensures PgReachedWith(hash, ok, Quiet(Perform(k, a)))
  {
    var k0, id := Quiet(k), k.calls[a.n].id;
    assert CallOk(k.store, k.calls[a.n]);
    FailingShape(EndCall(k, a.n), id, a.reason);
    if CanTransition(k.store.payments[id].status, Failed) {
      PgStep(hash, ok, k0, ReadStatus(a.n, a.reason));
      var k1 := PgPerform(hash, k0, ReadStatus(a.n, a.reason));
      PgStep(hash, ok, k1, WriteFailed(a.n));
      assert k1.fails - {a.n} == map[];
      assert PgPerform(hash, k1, WriteFailed(a.n)) == Quiet(Perform(k, a));
    } else {
      PgStep(hash, ok, k0, Core(Abort(a.n)));
      assert PgPerform(hash, k0, Core(Abort(a.n))) == Quiet(Perform(k, a));
    }
  }

  lemma StepProtocol(hash: string -> int, ok: real -> bool, k: Config, a: Action)
    requires RowsOk(k) && CallsOk(k) && PgReachedWith(hash, ok, Quiet(k)) && Enabled(k, a) && AmountsOk(ok, a)
    ensures PgReachedWith(hash, ok, Quiet(Perform(k, a)))
  {
    if a.Create? {
      CreateProtocol(hash, ok, k, a);
    } else if a.RequestPayout? {
      PayoutProtocol(hash, ok, k, a);
    } else if a.Fail? {
      FailProtocol(hash, ok, k, a);
    } else {
      PgStep(hash, ok, Quiet(k), Core(a));
    }
  }

  lemma TraceProtocol(hash: string -> int, ok: real -> bool, r: seq<Config>, xs: seq<Action>, i: nat)
    requires TraceOk(ok, r, xs) && i < |xs| && PgReachedWith(hash, ok, Quiet(r[i]))
    ensures PgReachedWith(hash, ok, Quiet(r[i + 1]))
  {
    TraceOkIsTrace(ok, r, xs);
    assert RowsOk(r[i]) && CallsOk(r[i]) by { TraceStep(r, xs, i); }
    assert StepOk(ok, r[i], xs[i], r[i + 1]);
    StepProtocol(hash, ok, r[i], xs[i]);
  }

  lemma {:induction false} RunIsProtocolRun(hash: string -> int, ok: real -> bool, r: seq<Config>, xs: seq<Action>,
                                            i: nat)
    requires TraceOk(ok, r, xs) && i < |r|
    ensures PgReachedWith(hash, ok, Quiet(r[i]))
    decreases i
  {
    if i == 0 {
      PgInitWith(hash, ok);
    } else {
      RunIsProtocolRun(hash, ok, r, xs, i - 1);
      TraceProtocol(hash, ok, r, xs, i - 1);
    }
  }

  /** Every configuration that a run over the in-memory store reaches, the PostgreSQL machine reaches
      too, with no transaction left in progress: its locks and split operations lose no behaviour. */
  lemma MemoryRunsAreProtocolRuns(hash: string -> int, ok: real -> bool, k: Config)
    requires Reached(ok, k)
    ensures PgReachedWith(hash, ok, Quiet(k))
  {
    var r, xs :| TraceOk(ok, r, xs) && r[|r| - 1] == k;
    RunIsProtocolRun(hash, ok, r, xs, |r| - 1);
  }

  // ---------- a payout on a balance that is gone ----------

  lemma RefundServed(k: Config, n: nat, id: string, amount: real)
    requires RowsOk(k) && Young(k.store, n) && Sale(k.store, id, amount, amount, Captured)
    ensures var call := Refunding(id, k.store.payments[id], amount);
            var s' := CommitCall(k.store, call, "", Drawn(n));
            && Reads(k.store, call) && Commits(k.store, call, "", Drawn(n)) && Young(s', n + 1)
            && s'.ledger == k.store.ledger + Pair(id, MerchantAvailable("m"), CustomerRefunded, "EUR", amount, Drawn(n))
  {
    var p := k.store.payments[id];
    assert RowOk(id, p, id in k.authorized);
    PairBalanced(id, MerchantAvailable("m"), CustomerRefunded, "EUR", amount, Drawn(n));
    CommandWrites(k.store, RefundCommand(id, p, amount, Drawn(n)));
  }

  // The refund commits while the payout transaction holds the balance it read.
  lemma RefundMeanwhile(hash: string -> int, ok: real -> bool, k: Pg, id: string, amount: real) returns (end: Pg)
    requires PgReachedWith(hash, ok, k) && RowsOk(k.core) && k.core.calls == map[] && Young(k.core.store, 3)
    requires ok(amount)
    requires Sale(k.core.store, id, amount, amount, Captured)
    ensures PgReachedWith(hash, ok, end) && end.payouts == k.payouts && Young(end.core.store, 4)
    ensures Available(end.core.store, "m", "EUR") == Available(k.core.store, "m", "EUR") - amount
  {
    var call := Refunding(id, k.core.store.payments[id], amount);
    RefundServed(k.core, 3, id, amount);
    DrawnFresh(k.core.store, 3);
    PgStep(hash, ok, k, Core(Begin(0, call)));
    var k1 := PgPerform(hash, k, Core(Begin(0, call)));
    PgStep(hash, ok, k1, Core(Commit(0, "", Drawn(3))));
    end := PgPerform(hash, k1, Core(Commit(0, "", Drawn(3))));
    PairBalance(k.core.store.ledger, id, MerchantAvailable("m"), CustomerRefunded, "EUR", amount, Drawn(3),
                MerchantAvailable("m"), "EUR");
  }

  // The payout transaction `t` has read that the merchant has `amount` available and is about to commit a
  // payout of all of it, which will leave the balance at minus that amount.
  ghost predicate WillOverdraw(hash: string -> int, k: Pg, t: nat, ids: Ids, amount: real) {
    && PgEnabled(hash, k, CommitPayout(t, ids))
    && k.payouts[t] == PayoutTx("m", "EUR", amount, Read(amount))
    && Available(PgPerform(hash, k, CommitPayout(t, ids)).core.store, "m", "EUR") == -amount
  }

  /** For every amount and every lock hash there is a run in which a payout transaction has read a balance
      that covers it, a refund has taken that balance since, and committing the payout is still enabled
      and leaves the available balance at minus its amount. */
  lemma PayoutOverdraws(hash: string -> int, ok: real -> bool, amount: real)
    requires amount > 0.0 && ok(amount)
    ensures exists k, t, ids ::
              PgReachedWith(hash, ok, k) && PgReached(hash, k) && WillOverdraw(hash, k, t, ids, amount)
  {
    var k, id := CapturedSale(ok, amount);
    SaleBalance(ok, k, id, amount, amount, Captured);
    MemoryRunsAreProtocolRuns(hash, ok, k);
    assert RowsOk(k) by { ReachedInv(ok, k); }
    assert ToUpper("EUR") == "EUR";
    var k1 := ReadProtocol(hash, ok, k, "m", "EUR", amount);
    var k2 := RefundMeanwhile(hash, ok, k1, id, amount);
    DrawnFresh(k2.core.store, 4);
    PayoutTakes(hash, k2, CommitPayout(0, Drawn(4)), "m", "EUR");
    ReachedWithIsReached(hash, ok, k2);
    assert WillOverdraw(hash, k2, 0, Drawn(4), amount);
  }

  // ---------- a failed payment with captured money ----------

  lemma BothRead(hash: string -> int, ok: real -> bool, k: Config, id: string, amount: real) returns (end: Pg)
    requires PgReachedWith(hash, ok, Quiet(k)) && k.calls == map[] && Sale(k.store, id, amount, 0.0, Authorized)
    requires amount > 0.0 && ok(amount)
    ensures PgReachedWith(hash, ok, end) && end.fails == map[0 := FailTx(id, "provider_error")]
    ensures end.core == k.(calls := map[1 := Capturing(id, k.store.payments[id], amount)])
  {
    var p := k.store.payments[id];
    var x1, x2 := Core(Begin(0, Authorizing(id, p))), Core(Begin(1, Capturing(id, p, amount)));
    var x3 := ReadStatus(0, "provider_error");
    PgStep(hash, ok, Quiet(k), x1);
    var k1 := PgPerform(hash, Quiet(k), x1);
    PgStep(hash, ok, k1, x2);
    var k2 := PgPerform(hash, k1, x2);
    PgStep(hash, ok, k2, x3);
    end := PgPerform(hash, k2, x3);
    assert end.core.calls == map[1 := Capturing(id, p, amount)];
  }

  lemma CaptureCommits(k: Config, n: nat, id: string, amount: real)
    requires RowsOk(k) && Sale(k.store, id, amount, 0.0, Authorized)
    ensures var call := Capturing(id, k.store.payments[id], amount);
            var s' := CommitCall(k.store, call, "", Drawn(n));
            Commits(k.store, call, "", Drawn(n)) && id in s'.payments && s'.payments[id].captured == amount
  {
    var p := k.store.payments[id];
    assert RowOk(id, p, id in k.authorized);
    PairBalanced(id, MerchantPending("m"), MerchantAvailable("m"), "EUR", amount, Drawn(n));
  }

  /** For every amount and every lock hash there is a run of the PostgreSQL machine that ends with a
      failed payment holding captured money: a repeated Authorize reads the authorized payment, a
      capture commits, and then the update lands. */
  lemma FailedWithCapturedMoney(hash: string -> int, ok: real -> bool, amount: real)
    requires amount > 0.0 && ok(amount)
    ensures exists k, id :: && PgReachedWith(hash, ok, k) && PgReached(hash, k) && id in k.core.store.payments
                            && k.core.store.payments[id].status.Failed? && k.core.store.payments[id].captured == amount
  {
    var k, id := AuthorizedSale(ok, amount);
    MemoryRunsAreProtocolRuns(hash, ok, k);
    assert RowsOk(k) by { ReachedInv(ok, k); }
    CaptureCommits(k, 2, id, amount);
    DrawnFresh(k.store, 2);
    var k1 := BothRead(hash, ok, k, id, amount);
    PgStep(hash, ok, k1, Core(Commit(1, "", Drawn(2))));
    var k2 := PgPerform(hash, k1, Core(Commit(1, "", Drawn(2))));
    assert id in k2.core.store.payments && k2.core.store.payments[id].captured == amount;
    PgStep(hash, ok, k2, WriteFailed(0));
    var k3 := PgPerform(hash, k2, WriteFailed(0));
    ReachedWithIsReached(hash, ok, k3);
    assert k3.core.store.payments[id].status.Failed? && k3.core.store.payments[id].captured == amount;
  }
}
