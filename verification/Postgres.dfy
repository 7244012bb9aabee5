/** internal/store/postgres.go: the places where one store operation is several interleavable steps.
    Payout creation takes an advisory lock on a hash, reads the balance and commits; payment
    creation selects the key and then inserts; Transition reads the row and then updates it without
    a lock. Everything else commits under a row lock and is one step of the machine. */
module Postgres {
  import opened Domain
  import opened Accounts
  import opened StoreSpec
  import opened ServiceSpec
  import opened Machine
  import opened Steps
  import opened ClaimSteps
  import opened Runs
  import opened Bounds
  import opened Theorems

  datatype PayoutStage = Started | Locked | Read(balance: real)

  // A payout transaction in progress. Its currency is already upper-cased.
  datatype PayoutTx = PayoutTx(merchant: string, currency: string, amount: real, stage: PayoutStage)

  // A payment creation whose select found no row for `key`.
  datatype CreateTx = CreateTx(input: CreatePayment, key: string)

  // A Transition to failed that has read the row and not yet updated it.
  datatype FailTx = FailTx(id: string, reason: string)

  datatype Pg = Pg(core: Config, payouts: map<nat, PayoutTx>, creates: map<nat, CreateTx>, fails: map<nat, FailTx>)

  const PG_INIT := Pg(INIT, map[], map[], map[])

  datatype PgAction =
    | Core(a: Action)
    | StartPayout(t: nat, merchant: string, currency: string, amount: real)
    | TakeLock(t: nat)
    | ReadBalance(t: nat)
    | CommitPayout(t: nat, ids: Ids)
    | RollbackPayout(t: nat)
    | SelectKey(t: nat, input: CreatePayment, key: string)
    | CommitCreate(t: nat, ids: Ids)
    | RollbackCreate(t: nat)
    | ReadStatus(n: nat, reason: string)
    | WriteFailed(n: nat)

  function LockKey(tx: PayoutTx): string {
    "payout:" + tx.merchant + ":" + tx.currency
  }

  /** Two transactions lock one key exactly when they are about the same merchant and the same currency,
      even for merchant ids that hold colons: a currency has three characters. */
  lemma LockKeysIff(tx: PayoutTx, other: PayoutTx)
    requires |tx.currency| == |other.currency| == 3
    ensures LockKey(tx) == LockKey(other) <==> tx.merchant == other.merchant && tx.currency == other.currency
  {
    var a, b := LockKey(tx), LockKey(other);
    assert a[7..|a| - 4] == tx.merchant && a[|a| - 3..] == tx.currency;
    assert b[7..|b| - 4] == other.merchant && b[|b| - 3..] == other.currency;
  }

  predicate HoldsLock(tx: PayoutTx) {
    tx.stage.Locked? || tx.stage.Read?
  }

  function PayoutOf(tx: PayoutTx, ids: Ids): Payout {
    Payout(ids.record, tx.merchant, tx.currency, tx.amount, "", PayoutPending)
  }

  ghost predicate PgEnabled(hash: string -> int, k: Pg, x: PgAction) {
    match x
    case Core(a) => Enabled(k.core, a) && !a.Create? && !a.RequestPayout? && !a.Fail?
    case StartPayout(t, merchant, currency, amount) =>
      t !in k.payouts && NewPayout(merchant, currency, amount, "").Ok?
    case TakeLock(t) =>
      && t in k.payouts && k.payouts[t].stage.Started?
      && forall u :: u in k.payouts && HoldsLock(k.payouts[u]) ==>
           hash(LockKey(k.payouts[u])) != hash(LockKey(k.payouts[t]))
    case ReadBalance(t) => t in k.payouts && k.payouts[t].stage.Locked?
    case CommitPayout(t, ids) =>
      && t in k.payouts && k.payouts[t].stage.Read? && !(k.payouts[t].stage.balance < k.payouts[t].amount)
      && Fresh(k.core.store, ids)
    case RollbackPayout(t) => t in k.payouts
    case SelectKey(t, input, key) =>
      t !in k.creates && key != "" && key !in k.core.store.keys && NewPayment(input, "").Ok?
    // The primary key on idempotency_keys refuses a second row for the key.
    case CommitCreate(t, ids) =>
      && t in k.creates && k.creates[t].key !in k.core.store.keys && Fresh(k.core.store, ids)
      && NewPayment(k.creates[t].input, ids.record).Ok?
    case RollbackCreate(t) => t in k.creates
    case ReadStatus(n, reason) =>
      && n in k.core.calls && k.core.calls[n].Authorizing? && n !in k.fails
      && k.core.calls[n].id in k.core.store.payments
      && CanTransition(k.core.store.payments[k.core.calls[n].id].status, Failed)
    case WriteFailed(n) => n in k.fails && k.fails[n].id in k.core.store.payments
  }

  ghost function PgPerform(hash: string -> int, k: Pg, x: PgAction): Pg
    requires PgEnabled(hash, k, x)
  {
    match x
    case Core(a) => k.(core := Perform(k.core, a))
    case StartPayout(t, merchant, currency, amount) =>
      k.(payouts := k.payouts[t := PayoutTx(merchant, ToUpper(currency), amount, Started)])
    case TakeLock(t) => k.(payouts := k.payouts[t := k.payouts[t].(stage := Locked)])
    case ReadBalance(t) =>
      var tx := k.payouts[t];
      k.(payouts := k.payouts[t := tx.(stage := Read(Available(k.core.store, tx.merchant, tx.currency)))])
    case CommitPayout(t, ids) =>
      var p := PayoutOf(k.payouts[t], ids);
      k.(core := After(k.core, InsertPayout(k.core.store, p, PayoutEntries(p, ids), PayoutEvent(p, ids)), ids.event),
         payouts := k.payouts - {t})
    case RollbackPayout(t) => k.(payouts := k.payouts - {t})
    case SelectKey(t, input, key) => k.(creates := k.creates[t := CreateTx(input, key)])
    case CommitCreate(t, ids) =>
      k.(core := Inserted(k.core, NewPayment(k.creates[t].input, ids.record).value, k.creates[t].key),
         creates := k.creates - {t})
    case RollbackCreate(t) => k.(creates := k.creates - {t})
    case ReadStatus(n, reason) =>
      k.(core := EndCall(k.core, n), fails := k.fails[n := FailTx(k.core.calls[n].id, reason)])
    // UPDATE payments SET status='failed', whatever the status has become.
    case WriteFailed(n) =>
      k.(core := k.core.(store := WithFailed(k.core.store, k.fails[n].id, k.fails[n].reason)), fails := k.fails - {n})
  }

  ghost predicate PgNext(hash: string -> int, k: Pg, k': Pg) {
    exists x :: PgEnabled(hash, k, x) && k' == PgPerform(hash, k, x)
  }

  ghost predicate PgRun(hash: string -> int, r: seq<Pg>) {
    && |r| > 0
    && r[0] == PG_INIT
    && forall i :: 0 <= i < |r| - 1 ==> PgNext(hash, r[i], r[i + 1])
  }

  // A run together with the actions it took.
  ghost predicate PgTrace(hash: string -> int, r: seq<Pg>, xs: seq<PgAction>) {
    && |r| == |xs| + 1
    && r[0] == PG_INIT
    && forall i :: 0 <= i < |xs| ==> PgEnabled(hash, r[i], xs[i]) && r[i + 1] == PgPerform(hash, r[i], xs[i])
  }

  // ---------- what runs reach ----------

  ghost predicate PgReached(hash: string -> int, k: Pg) {
    exists r :: PgRun(hash, r) && r[|r| - 1] == k
  }

  lemma PgReachedInit(hash: string -> int)
    ensures PgReached(hash, PG_INIT)
  {
    var r := [PG_INIT];
    assert PgRun(hash, r) && r[|r| - 1] == PG_INIT;
  }

  lemma PgReachedStep(hash: string -> int, k: Pg, x: PgAction)
    requires PgReached(hash, k) && PgEnabled(hash, k, x)
    ensures PgReached(hash, PgPerform(hash, k, x))
  {
    var r :| PgRun(hash, r) && r[|r| - 1] == k;
    var r' := r + [PgPerform(hash, k, x)];
    forall i | 0 <= i < |r'| - 1 ensures PgNext(hash, r'[i], r'[i + 1]) {
      if i < |r| - 1 {
        assert PgNext(hash, r[i], r[i + 1]);
      }
    }
    assert PgRun(hash, r') && r'[|r'| - 1] == PgPerform(hash, k, x);
  }

  // ---------- the invariant ----------

  // No two transactions hold locks on one hash.
  ghost predicate LocksExclusive(hash: string -> int, k: Pg) {
    forall t, u :: t in k.payouts && u in k.payouts && t != u && HoldsLock(k.payouts[t]) && HoldsLock(k.payouts[u])
      ==> hash(LockKey(k.payouts[t])) != hash(LockKey(k.payouts[u]))
  }

  // A balance that was read may be out of date, but it is still covered by captures.
  ghost predicate ReadCovered(s: State, tx: PayoutTx) {
    tx.stage.Read? ==>
      HeldTotal(s, tx.merchant, tx.currency) + tx.stage.balance <= CapturedTotal(s, tx.merchant, tx.currency)
  }

  ghost predicate ReadsCovered(k: Pg) {
    forall t :: t in k.payouts ==> k.payouts[t].amount > 0.0 && ReadCovered(k.core.store, k.payouts[t])
  }

  ghost predicate PendingOk(k: Pg) {
    && (forall t :: t in k.creates ==> k.creates[t].key != "" && NewPayment(k.creates[t].input, "").Ok?)
    && (forall n :: n in k.fails ==> k.fails[n].id in k.core.store.payments)
  }

  ghost predicate PgInv(hash: string -> int, k: Pg) {
    Inv(k.core) && Solvent(k.core.store) && LocksExclusive(hash, k) && ReadsCovered(k) && PendingOk(k)
  }

  // ---------- the core of each step ----------

  lemma CreateCore(k: Config, tx: CreateTx, ids: Ids)
    requires Inv(k) && tx.key != "" && tx.key !in k.store.keys && NewPayment(tx.input, "").Ok? && Fresh(k.store, ids)
    ensures var k' := Inserted(k, NewPayment(tx.input, ids.record).value, tx.key); Inv(k') && Evolves(k, k')
  {
    var p := NewPayment(tx.input, ids.record).value;
    assert p.id !in k.authorized;
    InsertPaymentStep(k, Inserted(k, p, tx.key), p, tx.key);
  }

  lemma PayoutCore(k: Config, tx: PayoutTx, ids: Ids)
    requires Inv(k) && Fresh(k.store, ids) && tx.amount > 0.0
    ensures var p := PayoutOf(tx, ids);
            var k' := After(k, InsertPayout(k.store, p, PayoutEntries(p, ids), PayoutEvent(p, ids)), ids.event);
            Inv(k') && Evolves(k, k')
  {
    var p := PayoutOf(tx, ids);
    var s' := InsertPayout(k.store, p, PayoutEntries(p, ids), PayoutEvent(p, ids));
    InsertPayoutStep(k, After(k, s', ids.event), p, ids);
  }

  // Steps that insert no payout.
  lemma OtherCore(hash: string -> int, k: Pg, x: PgAction)
    requires Inv(k.core) && PendingOk(k) && PgEnabled(hash, k, x) && !x.CommitPayout?
    ensures Inv(PgPerform(hash, k, x).core) && StoreEvolves(k.core.store, PgPerform(hash, k, x).core.store)
  {
    match x
    case Core(a) => StepKeepsInv(k.core, a);
    case CommitCreate(t, ids) => CreateCore(k.core, k.creates[t], ids);
    case ReadStatus(n, _) => CallEnded(k.core, n);
    case WriteFailed(n) => FailStep(k.core, PgPerform(hash, k, x).core, k.fails[n].id, k.fails[n].reason);
    case _ => AfterNothing(k.core, "");
  }

  lemma OtherPayoutKeys(hash: string -> int, k: Pg, x: PgAction)
    requires PgEnabled(hash, k, x) && !x.CommitPayout?
    ensures PgPerform(hash, k, x).core.store.payouts.Keys == k.core.store.payouts.Keys
  {
    if x.Core? {
      StepPayoutKeys(k.core, x.a);
    }
  }

  lemma CreatesKept(hash: string -> int, k: Pg, x: PgAction, t: nat)
    requires PgEnabled(hash, k, x) && t in PgPerform(hash, k, x).creates
    ensures var tx := PgPerform(hash, k, x).creates[t];
            (t in k.creates && tx == k.creates[t]) || (tx.key != "" && NewPayment(tx.input, "").Ok?)
  {
  }

  lemma FailsKept(hash: string -> int, k: Pg, x: PgAction, n: nat)
    requires PgEnabled(hash, k, x) && n in PgPerform(hash, k, x).fails
    ensures var tx := PgPerform(hash, k, x).fails[n];
            (n in k.fails && tx == k.fails[n]) || tx.id in k.core.store.payments
  {
  }

  lemma PendingKept(hash: string -> int, k: Pg, x: PgAction)
    requires PendingOk(k) && PgEnabled(hash, k, x)
    requires StoreEvolves(k.core.store, PgPerform(hash, k, x).core.store)
    ensures PendingOk(PgPerform(hash, k, x))
  {
    var k' := PgPerform(hash, k, x);
    forall t | t in k'.creates ensures k'.creates[t].key != "" && NewPayment(k'.creates[t].input, "").Ok? {
      CreatesKept(hash, k, x, t);
    }
    forall n | n in k'.fails ensures k'.fails[n].id in k'.core.store.payments {
      FailsKept(hash, k, x, n);
    }
  }

  lemma LocksKept(hash: string -> int, k: Pg, x: PgAction)
    requires LocksExclusive(hash, k) && PgEnabled(hash, k, x)
    ensures LocksExclusive(hash, PgPerform(hash, k, x))
  {
  }

  /** A payout transaction that ends, either way, gives its lock back: whoever waited for it alone can take
      it. */
  lemma EndedTransactionFreesLock(hash: string -> int, k: Pg, x: PgAction, u: nat)
    requires PgEnabled(hash, k, x) && (x.CommitPayout? || x.RollbackPayout?) && x.t != u
    requires u in k.payouts && k.payouts[u].stage.Started?
    requires forall v :: v in k.payouts && v != x.t && HoldsLock(k.payouts[v]) ==>
               hash(LockKey(k.payouts[v])) != hash(LockKey(k.payouts[u]))
    ensures x.t !in PgPerform(hash, k, x).payouts && PgEnabled(hash, PgPerform(hash, k, x), TakeLock(u))
  {
  }

  // ---------- covered reads ----------

  lemma CoverPersists(k: Config, k': Config, tx: PayoutTx)
    requires ReadCovered(k.store, tx) && StoreEvolves(k.store, k'.store) && ClaimsOk(k.store) && RowsOk(k')
    requires k'.store.payouts.Keys == k.store.payouts.Keys
    ensures ReadCovered(k'.store, tx)
  {
    CapturedGrows(k, k', tx.merchant, tx.currency);
    HeldShrinks(k.store, k'.store, tx.merchant, tx.currency);
  }

  // A step touches a transaction only by starting it, locking for it or reading its balance.
  lemma OtherTransactions(hash: string -> int, k: Pg, x: PgAction, t: nat)
    requires PgEnabled(hash, k, x) && !x.CommitPayout? && t in PgPerform(hash, k, x).payouts
    ensures var tx := PgPerform(hash, k, x).payouts[t];
            || (t in k.payouts && tx == k.payouts[t])
            || (tx.amount > 0.0 && !tx.stage.Read?)
            || (t in k.payouts && x == ReadBalance(t)
                && tx == k.payouts[t].(stage := Read(Available(k.core.store, tx.merchant, tx.currency))))
            || (t in k.payouts && x == TakeLock(t) && tx == k.payouts[t].(stage := Locked))
  {
  }

  lemma OtherReadsCovered(hash: string -> int, k: Pg, x: PgAction)
    requires Inv(k.core) && ReadsCovered(k) && PgEnabled(hash, k, x) && !x.CommitPayout?
    requires var k' := PgPerform(hash, k, x); Inv(k'.core) && StoreEvolves(k.core.store, k'.core.store)
    ensures ReadsCovered(PgPerform(hash, k, x))
  {
    var k' := PgPerform(hash, k, x);
    OtherPayoutKeys(hash, k, x);
    forall t | t in k'.payouts ensures k'.payouts[t].amount > 0.0 && ReadCovered(k'.core.store, k'.payouts[t]) {
      OtherTransactions(hash, k, x, t);
      if t in k.payouts && k'.payouts[t] == k.payouts[t] {
        CoverPersists(k.core, k'.core, k.payouts[t]);
      } else if x == ReadBalance(t) {
        BalanceCheckMeans(k.core, k.payouts[t].merchant, k.payouts[t].currency);
      }
    }
  }

  /** Committing a payout uses the balance that was read, however stale: the lock kept every other
      payout of that merchant and currency out, and captures never shrink. */
  lemma CommitPayoutCovered(hash: string -> int, k: Pg, x: PgAction)
    requires ReadsCovered(k) && Solvent(k.core.store) && LocksExclusive(hash, k) && PgEnabled(hash, k, x)
    requires x.CommitPayout?
    ensures var k' := PgPerform(hash, k, x); Solvent(k'.core.store) && ReadsCovered(k')
  {
    var k' := PgPerform(hash, k, x);
    var s, s' := k.core.store, k'.core.store;
    var tx := k.payouts[x.t];
    var p := PayoutOf(tx, x.ids);
    forall m, c ensures SolventAt(s', m, c) {
      assert SolventAt(s, m, c);
      HeldAfterInsert(s, s', p, m, c);
    }
    forall u | u in k'.payouts ensures k'.payouts[u].amount > 0.0 && ReadCovered(s', k'.payouts[u]) {
      HeldAfterInsert(s, s', p, k.payouts[u].merchant, k.payouts[u].currency);
      assert ReadCovered(s, k.payouts[u]);
    }
  }

  lemma CommitPayoutInv(hash: string -> int, k: Pg, x: PgAction)
    requires Inv(k.core) && ReadsCovered(k) && PendingOk(k) && PgEnabled(hash, k, x) && x.CommitPayout?
    ensures var k' := PgPerform(hash, k, x); Inv(k'.core) && PendingOk(k')
  {
    PayoutCore(k.core, k.payouts[x.t], x.ids);
    PendingKept(hash, k, x);
  }

  lemma PgStepKeepsInv(hash: string -> int, k: Pg, x: PgAction)
    requires PgInv(hash, k) && PgEnabled(hash, k, x)
    ensures PgInv(hash, PgPerform(hash, k, x))
  {
    var k' := PgPerform(hash, k, x);
    LocksKept(hash, k, x);
    if x.CommitPayout? {
      CommitPayoutInv(hash, k, x);
      CommitPayoutCovered(hash, k, x);
    } else {
      OtherCore(hash, k, x);
      OtherPayoutKeys(hash, k, x);
      PendingKept(hash, k, x);
      OtherReadsCovered(hash, k, x);
      SolventPersists(k.core, k'.core);
    }
  }

  lemma {:induction false} PgRunInv(hash: string -> int, r: seq<Pg>, i: nat)
    requires PgRun(hash, r) && i < |r|
    ensures PgInv(hash, r[i])
    decreases i
  {
    if i == 0 {
      InitInv();
      forall m, c ensures SolventAt(PG_INIT.core.store, m, c) {}
    } else {
      PgRunInv(hash, r, i - 1);
      assert PgNext(hash, r[i - 1], r[i - 1 + 1]);
      var x :| PgEnabled(hash, r[i - 1], x) && r[i] == PgPerform(hash, r[i - 1], x);
      PgStepKeepsInv(hash, r[i - 1], x);
    }
  }

  // ---------- theorems ----------

  /** For every interleaving and every lock hash, colliding or not: what a merchant has reserved or
      been paid in a currency never exceeds what it captured, the ledger agrees with the tables on
      every account, and the available balance is never below what refunds and disputes explain. */
  lemma PostgresPayoutsCovered(hash: string -> int, r: seq<Pg>, i: nat, m: string, c: string, a: Account)
    requires PgRun(hash, r) && i < |r|
    ensures var s := r[i].core.store;
            && HeldTotal(s, m, c) <= CapturedTotal(s, m, c)
            && Balance(s.ledger, Name(a), c) == Recorded(r[i].core, a, c)
            && Available(s, m, c) >= -(RefundedTotal(s, m, c) + DisputedTotal(s, m, c))
  {
    PgRunInv(hash, r, i);
    var k := r[i].core;
    assert SolventAt(k.store, m, c);
    assert AgreesAt(k, a, c);
    assert AgreesAt(k, MerchantAvailable(m), c);
    AvailableSplit(k, m, c);
  }

  /** Under select-then-insert there is still one payment per key and one key per payment, and no
      payment is ever without one. */
  lemma PostgresKeysUnique(hash: string -> int, r: seq<Pg>, i: nat)
    requires PgRun(hash, r) && i < |r|
    ensures KeysOk(r[i].core.store)
  {
    PgRunInv(hash, r, i);
  }
}
