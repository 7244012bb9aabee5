/** Where every requested amount has six decimals and fits, rounding columns change nothing: every run of
    the exact machine is then a run on rounding columns. */
module ExactRuns {
  import opened Domain
  import opened Accounts
  import opened StoreSpec
  import opened ServiceSpec
  import opened Machine
  import opened Postgres
  import opened Interleavings
  import opened Rounding
  import opened RoundedRuns
  import opened ProtocolWitnesses

  // The column holds the amount as it is.
  predicate Column(x: real) {
    Exact(x) && Fits(x)
  }

  predicate CallColumn(call: Call) {
    call.Capturing? || call.Refunding? || call.Opening? ==> Column(call.amount)
  }

  ghost predicate InFlightColumn(k: Pg) {
    && (forall n :: n in k.core.calls ==> CallColumn(k.core.calls[n]))
    && (forall t :: t in k.payouts ==> Column(k.payouts[t].amount))
    && (forall t :: t in k.creates ==> Column(k.creates[t].input.amount))
  }

  // ---------- one command ----------

  lemma ExactPair(paymentId: string, from: Account, to: Account, currency: string, amount: real, ids: Ids)
    requires Exact(amount)
    ensures StoredEntries(Pair(paymentId, from, to, currency, amount, ids))
            == Pair(paymentId, from, to, currency, amount, ids)
  {
    StoredPair(paymentId, from, to, currency, amount, ids);
  }

  lemma ExactCommand(s: State, cmd: PaymentCommand)
    requires PgCommit(s, cmd).1.Ok? && StoredEntries(cmd.ledger) == cmd.ledger
    requires var row := CommandRow(s.payments[cmd.paymentId], cmd).value; StoredRow(row) == row
    ensures PgCommit(s, cmd).0 == CommitPaymentCommand(s, cmd).0
  {
  }

  lemma ExactAuthorize(s: State, call: Call, reference: string, ids: Ids)
    requires StoredTables(s) && StoredCall(call) && call.Authorizing? && StoredCommit(s, call, reference, ids).1
    ensures StoredCommit(s, call, reference, ids).0 == CommitCall(s, call, reference, ids)
  {
    var p := call.payment;
    ExactPair(call.id, CustomerPending, MerchantPending(p.merchantId), p.currency, p.amount, ids);
    ExactCommand(s, AuthorizeCommand(call.id, p, reference, ids));
  }

  lemma ExactCapture(s: State, call: Call, reference: string, ids: Ids)
    requires StoredTables(s) && call.Capturing? && Column(call.amount) && StoredCommit(s, call, reference, ids).1
    requires call.payment.id == call.id
    ensures StoredCommit(s, call, reference, ids).0 == CommitCall(s, call, reference, ids)
  {
    var p := call.payment;
    ExactPair(call.id, MerchantPending(p.merchantId), MerchantAvailable(p.merchantId), p.currency, call.amount, ids);
    CaptureRounded(s.payments[call.id], call.amount);
    ExactCommand(s, CaptureCommand(call.id, p, call.amount, ids));
  }

  lemma ExactRefund(s: State, call: Call, reference: string, ids: Ids)
    requires StoredTables(s) && call.Refunding? && Column(call.amount) && StoredCommit(s, call, reference, ids).1
    requires call.payment.id == call.id
    ensures StoredCommit(s, call, reference, ids).0 == CommitCall(s, call, reference, ids)
  {
    var p := call.payment;
    ExactPair(call.id, MerchantAvailable(p.merchantId), CustomerRefunded, p.currency, call.amount, ids);
    RefundRounded(s.payments[call.id], call.amount);
    ExactCommand(s, RefundCommand(call.id, p, call.amount, ids));
  }

  lemma ExactClaimCommit(s: State, call: Call, reference: string, ids: Ids)
    requires StoredCall(call) && CallColumn(call)
    requires (call.Completing? || call.Opening? || call.Resolving?) && StoredCommit(s, call, reference, ids).1
    ensures StoredCommit(s, call, reference, ids).0 == CommitCall(s, call, reference, ids)
  {
    match call
    case Completing(_, p, _, success) =>
      ExactPair("", MerchantPayoutPending(p.merchantId),
                if success then ProviderPayoutSettled else MerchantAvailable(p.merchantId), p.currency, p.amount, ids);
    case Opening(id, p, _, amount) =>
      ExactPair(id, MerchantAvailable(p.merchantId), MerchantDisputeFrozen(p.merchantId), p.currency, amount, ids);
    case Resolving(_, d, merchantWins) =>
      ExactPair(d.paymentId, MerchantDisputeFrozen(d.merchantId),
                if merchantWins then MerchantAvailable(d.merchantId) else CustomerChargeback,
                d.currency, d.amount, ids);
  }

  lemma RefusedKeeps(s: State, call: Call, reference: string, ids: Ids)
    requires !Commits(s, call, reference, ids)
    ensures CommitCall(s, call, reference, ids) == s
  {
  }

  lemma ExactSurvives(call: Call)
    requires StoredCall(call) && CallColumn(call)
    ensures Survives(call)
  {
  }

  // With a column amount the rounding command is the exact one, whether it commits or not.
  lemma ExactCommit(s: State, call: Call, reference: string, ids: Ids)
    requires StoredTables(s) && StoredCall(call) && CallColumn(call)
    ensures StoredCommit(s, call, reference, ids).0 == CommitCall(s, call, reference, ids)
  {
    ExactSurvives(call);
    StoredCommitsIff(s, call, reference, ids);
    CommitRefines(s, call, reference, ids);
    if !StoredCommit(s, call, reference, ids).1 {
      RefusedKeeps(s, call, reference, ids);
    } else if call.Authorizing? {
      ExactAuthorize(s, call, reference, ids);
    } else if call.Capturing? {
      ExactCapture(s, call, reference, ids);
    } else if call.Refunding? {
      ExactRefund(s, call, reference, ids);
    } else {
      ExactClaimCommit(s, call, reference, ids);
    }
  }

  // ---------- one step ----------

  lemma ExactPayoutStep(hash: string -> int, k: Pg, x: PgAction)
    requires Held(k) && InFlightColumn(k) && PgEnabled(hash, k, x) && x.CommitPayout?
    ensures RoundEnabled(hash, k, x) && RoundPerform(hash, k, x) == PgPerform(hash, k, x)
  {
    var p := PayoutOf(k.payouts[x.t], x.ids);
    ExactPair("", MerchantAvailable(p.merchantId), MerchantPayoutPending(p.merchantId), p.currency, p.amount, x.ids);
  }

  lemma ExactCreateStep(hash: string -> int, k: Pg, x: PgAction)
    requires InFlightColumn(k) && PgEnabled(hash, k, x) && x.CommitCreate?
    ensures RoundEnabled(hash, k, x) && RoundPerform(hash, k, x) == PgPerform(hash, k, x)
  {
  }

  lemma ExactCommitStep(hash: string -> int, k: Pg, n: nat, reference: string, ids: Ids)
    requires Held(k) && InFlightColumn(k) && PgEnabled(hash, k, Core(Commit(n, reference, ids)))
    ensures var x := Core(Commit(n, reference, ids));
            RoundEnabled(hash, k, x) && RoundPerform(hash, k, x) == PgPerform(hash, k, x)
  {
    ExactCommit(k.core.store, k.core.calls[n], reference, ids);
  }

  lemma ExactStep(hash: string -> int, k: Pg, x: PgAction)
    requires Held(k) && InFlightColumn(k) && PgEnabled(hash, k, x)
    ensures RoundEnabled(hash, k, x) && RoundPerform(hash, k, x) == PgPerform(hash, k, x)
  {
    if x.CommitPayout? {
      ExactPayoutStep(hash, k, x);
    } else if x.CommitCreate? {
      ExactCreateStep(hash, k, x);
    } else if x.Core? && x.a.Commit? {
      ExactCommitStep(hash, k, x.a.n, x.a.reference, x.a.ids);
    }
  }

  lemma CallsStayColumn(hash: string -> int, k: Pg, x: PgAction, n: nat)
    requires PgEnabled(hash, k, x) && PgAmountsOk(Column, x) && n in PgPerform(hash, k, x).core.calls
    ensures (n in k.core.calls && PgPerform(hash, k, x).core.calls[n] == k.core.calls[n])
         || CallColumn(PgPerform(hash, k, x).core.calls[n])
  {
  }

  lemma PayoutsStayColumn(hash: string -> int, k: Pg, x: PgAction, t: nat)
    requires PgEnabled(hash, k, x) && PgAmountsOk(Column, x) && t in PgPerform(hash, k, x).payouts
    ensures (t in k.payouts && PgPerform(hash, k, x).payouts[t].amount == k.payouts[t].amount)
         || Column(PgPerform(hash, k, x).payouts[t].amount)
  {
  }

  lemma CreatesStayColumn(hash: string -> int, k: Pg, x: PgAction, t: nat)
    requires PgEnabled(hash, k, x) && PgAmountsOk(Column, x) && t in PgPerform(hash, k, x).creates
    ensures (t in k.creates && PgPerform(hash, k, x).creates[t] == k.creates[t])
         || Column(PgPerform(hash, k, x).creates[t].input.amount)
  {
  }

  lemma InFlightStaysColumn(hash: string -> int, k: Pg, x: PgAction)
    requires InFlightColumn(k) && PgEnabled(hash, k, x) && PgAmountsOk(Column, x)
    ensures InFlightColumn(PgPerform(hash, k, x))
  {
    var k' := PgPerform(hash, k, x);
    forall n | n in k'.core.calls ensures CallColumn(k'.core.calls[n]) { CallsStayColumn(hash, k, x, n); }
    forall t | t in k'.payouts ensures Column(k'.payouts[t].amount) { PayoutsStayColumn(hash, k, x, t); }
    forall t | t in k'.creates ensures Column(k'.creates[t].input.amount) { CreatesStayColumn(hash, k, x, t); }
  }

  // ---------- whole runs ----------

  ghost predicate SameStep(hash: string -> int, k: Pg, x: PgAction, k': Pg) {
    RoundEnabled(hash, k, x) && k' == RoundPerform(hash, k, x)
  }

  lemma StepOfTrace(hash: string -> int, r: seq<Pg>, xs: seq<PgAction>, i: nat)
    requires PgTraceOk(hash, Column, r, xs) && i < |xs| && Held(r[i]) && InFlightColumn(r[i])
    ensures SameStep(hash, r[i], xs[i], r[i + 1]) && Held(r[i + 1]) && InFlightColumn(r[i + 1])
  {
    assert PgStepOk(hash, Column, r[i], xs[i], r[i + 1]);
    ExactStep(hash, r[i], xs[i]);
    InFlightStaysColumn(hash, r[i], xs[i]);
    assert RowsOk(r[i].core) by {
      PgTraceOkIsTrace(hash, Column, r, xs);
      PgTraceInv(hash, r, xs, i);
    }
    StepFollows(hash, r[i], xs[i]);
  }

  lemma InitHeld()
    ensures Held(PG_INIT) && InFlightColumn(PG_INIT)
  {
  }

  lemma {:induction false} HeldAlong(hash: string -> int, r: seq<Pg>, xs: seq<PgAction>, i: nat)
    requires PgTraceOk(hash, Column, r, xs) && i < |r|
    ensures Held(r[i]) && InFlightColumn(r[i])
    decreases i
  {
    if i == 0 {
      InitHeld();
    } else {
      HeldAlong(hash, r, xs, i - 1);
      StepOfTrace(hash, r, xs, i - 1);
    }
  }

  lemma TraceOfSteps(hash: string -> int, r: seq<Pg>, xs: seq<PgAction>)
    requires |r| == |xs| + 1 && r[0] == PG_INIT
    requires forall i :: 0 <= i < |xs| ==> SameStep(hash, r[i], xs[i], r[i + 1])
    ensures RoundTrace(hash, r, xs)
  {
    forall i | 0 <= i < |xs| ensures RoundEnabled(hash, r[i], xs[i]) && r[i + 1] == RoundPerform(hash, r[i], xs[i]) {
      assert SameStep(hash, r[i], xs[i], r[i + 1]);
    }
  }

  /** A run of the exact machine all of whose requests carry column amounts is, step for step and state
      for state, a run on rounding columns. */
  lemma ExactRunsRound(hash: string -> int, r: seq<Pg>, xs: seq<PgAction>)
    requires PgTraceOk(hash, Column, r, xs)
    ensures RoundTrace(hash, r, xs)
  {
    forall i | 0 <= i < |xs| ensures SameStep(hash, r[i], xs[i], r[i + 1]) {
      HeldAlong(hash, r, xs, i);
      StepOfTrace(hash, r, xs, i);
    }
    TraceOfSteps(hash, r, xs);
  }

  // ---------- what runs on rounding columns reach ----------

  ghost predicate RoundReached(hash: string -> int, k: Pg) {
    exists r, xs :: RoundTrace(hash, r, xs) && r[|r| - 1] == k
  }

  lemma StepsFromTrace(hash: string -> int, r: seq<Pg>, xs: seq<PgAction>, i: nat)
    requires RoundTrace(hash, r, xs) && i < |xs|
    ensures SameStep(hash, r[i], xs[i], r[i + 1])
  {
  }

  lemma RoundReachedStep(hash: string -> int, k: Pg, x: PgAction)
    requires RoundReached(hash, k) && RoundEnabled(hash, k, x)
    ensures RoundReached(hash, RoundPerform(hash, k, x))
  {
    var r, xs :| RoundTrace(hash, r, xs) && r[|r| - 1] == k;
    var k' := RoundPerform(hash, k, x);
    assert SameStep(hash, k, x, k');
    forall i | 0 <= i < |xs| ensures SameStep(hash, r[i], xs[i], r[i + 1]) {
      StepsFromTrace(hash, r, xs, i);
    }
    TraceOfSteps(hash, r + [k'], xs + [x]);
  }

  lemma RoundReachedHeld(hash: string -> int, k: Pg)
    requires RoundReached(hash, k)
    ensures Held(k)
  {
    var r, xs :| RoundTrace(hash, r, xs) && r[|r| - 1] == k;
    RoundedRunsRefine(hash, r, xs, |r| - 1);
  }

  /** What the exact machine reaches with column amounts is reached on rounding columns, and there the
      next step with such amounts is the same too. */
  lemma ExactReachedRounds(hash: string -> int, k: Pg)
    requires PgReachedWith(hash, Column, k)
    ensures RoundReached(hash, k) && Held(k) && InFlightColumn(k)
  {
    var r, xs :| PgTraceOk(hash, Column, r, xs) && r[|r| - 1] == k;
    ExactRunsRound(hash, r, xs);
    HeldAlong(hash, r, xs, |r| - 1);
  }
}
