/** Runs of the PostgreSQL machine whose amount columns round. Rounding every amount that such a
    configuration carries outside the tables, in its events, calls and transactions, gives a
    configuration of the exact machine, and every step of the one is a step of the other or none. */
module RoundedRuns {
  import opened Domain
  import opened Accounts
  import opened StoreSpec
  import opened ServiceSpec
  import opened Machine
  import opened Runs
  import opened Bounds
  import opened Postgres
  import opened Rounding

  // ---------- the machine ----------

  // The constraints on the amount columns refuse what rounds to zero or does not fit.
  ghost predicate RoundEnabled(hash: string -> int, k: Pg, x: PgAction) {
    && PgEnabled(hash, k, x)
    && match x
       case CommitPayout(t, _) => AmountAdmitted(k.payouts[t].amount)
       case CommitCreate(t, _) => AmountAdmitted(k.creates[t].input.amount)
       case _ => true
  }

  function RoundedInsert(p: Payment): Payment {
    p.(amount := Stored(p.amount))
  }

  ghost function RoundPerform(hash: string -> int, k: Pg, x: PgAction): Pg
    requires RoundEnabled(hash, k, x)
  {
    match x
    case Core(Commit(n, reference, ids)) =>
      k.(core := After(EndCall(k.core, n), StoredCommit(k.core.store, k.core.calls[n], reference, ids).0, ids.event))
    case CommitPayout(t, ids) =>
      var p := PayoutOf(k.payouts[t], ids);
      k.(core := After(k.core, PgInsertPayout(k.core.store, p, PayoutEntries(p, ids), PayoutEvent(p, ids)), ids.event),
         payouts := k.payouts - {t})
    case CommitCreate(t, ids) =>
      k.(core := Inserted(k.core, RoundedInsert(NewPayment(k.creates[t].input, ids.record).value), k.creates[t].key),
         creates := k.creates - {t})
    case _ => PgPerform(hash, k, x)
  }

  ghost predicate RoundTrace(hash: string -> int, r: seq<Pg>, xs: seq<PgAction>) {
    && |r| == |xs| + 1
    && r[0] == PG_INIT
    && forall i :: 0 <= i < |xs| ==> RoundEnabled(hash, r[i], xs[i]) && r[i + 1] == RoundPerform(hash, r[i], xs[i])
  }

  // ---------- the shadow ----------

  function RoundedPayload(x: Payload): Payload {
    match x
    case OfPayment(p) =>
      OfPayment(p.(amount := Stored(p.amount), captured := Stored(p.captured), refunded := Stored(p.refunded)))
    case OfPayout(p) => OfPayout(p.(amount := Stored(p.amount)))
    case OfDispute(d) => OfDispute(d.(amount := Stored(d.amount)))
  }

  function RoundedEvent(e: OutboxEvent): OutboxEvent {
    e.(payload := RoundedPayload(e.payload))
  }

  function ShadowOutbox(outbox: map<string, OutboxEvent>): map<string, OutboxEvent> {
    map id | id in outbox :: RoundedEvent(outbox[id])
  }

  function ShadowStore(s: State): State {
    s.(outbox := ShadowOutbox(s.outbox))
  }

  function ShadowJournal(journal: seq<Posting>): seq<Posting> {
    seq(|journal|, i requires 0 <= i < |journal| => journal[i].(event := RoundedEvent(journal[i].event)))
  }

  // A call whose amount rounds to zero can only be refused.
  predicate Survives(call: Call) {
    call.Capturing? || call.Refunding? || call.Opening? ==> Stored(call.amount) > 0.0
  }

  function RoundedCall(call: Call): Call {
    if call.Capturing? || call.Refunding? || call.Opening? then call.(amount := Stored(call.amount)) else call
  }

  function ShadowCalls(calls: map<nat, Call>): map<nat, Call> {
    map n | n in calls && Survives(calls[n]) :: RoundedCall(calls[n])
  }

  // A payout whose amount rounds to zero can only be rolled back.
  predicate Payable(tx: PayoutTx) {
    Stored(tx.amount) > 0.0
  }

  function RoundedTx(tx: PayoutTx): PayoutTx {
    tx.(amount := Stored(tx.amount))
  }

  // The values that are kept, each rounded.
  function Kept<V>(m: map<nat, V>, keep: V -> bool, round: V -> V): map<nat, V> {
    map t | t in m && keep(m[t]) :: round(m[t])
  }

  lemma KeptWrite<V>(m: map<nat, V>, keep: V -> bool, round: V -> V, t: nat, v: V)
    requires keep(v) || t !in m || !keep(m[t])
    ensures Kept(m[t := v], keep, round)
         == if keep(v) then Kept(m, keep, round)[t := round(v)] else Kept(m, keep, round)
  {
  }

  lemma KeptRemove<V>(m: map<nat, V>, keep: V -> bool, round: V -> V, t: nat)
    ensures Kept(m - {t}, keep, round) == Kept(m, keep, round) - {t}
  {
  }

  function ShadowPayouts(payouts: map<nat, PayoutTx>): map<nat, PayoutTx> {
    Kept(payouts, Payable, RoundedTx)
  }

  function RoundedInput(input: CreatePayment): CreatePayment {
    input.(amount := Stored(input.amount))
  }

  function ShadowCreates(creates: map<nat, CreateTx>): map<nat, CreateTx> {
    map t | t in creates && Stored(creates[t].input.amount) > 0.0 ::
      creates[t].(input := RoundedInput(creates[t].input))
  }

  function ShadowConfig(k: Config): Config {
    Config(ShadowStore(k.store), ShadowCalls(k.calls), k.authorized, ShadowJournal(k.journal))
  }

  function Shadow(k: Pg): Pg {
    Pg(ShadowConfig(k.core), ShadowPayouts(k.payouts), ShadowCreates(k.creates), k.fails)
  }

  // The action of the shadow; none where only something that cannot commit is concerned.
  ghost function ShadowAction(k: Pg, x: PgAction): Option<PgAction> {
    match x
    case Core(Begin(n, call)) => if Survives(call) then Some(Core(Begin(n, RoundedCall(call)))) else None
    case Core(Abort(n)) => if n in ShadowCalls(k.core.calls) then Some(x) else None
    case Core(Commit(n, reference, ids)) =>
      if n !in ShadowCalls(k.core.calls) then None
      else if StoredCommit(k.core.store, k.core.calls[n], reference, ids).1 then Some(x)
      else Some(Core(Abort(n)))
    case StartPayout(t, merchant, currency, amount) =>
      if Stored(amount) > 0.0 then Some(StartPayout(t, merchant, currency, Stored(amount))) else None
    case TakeLock(t) => if t in ShadowPayouts(k.payouts) then Some(x) else None
    case ReadBalance(t) => if t in ShadowPayouts(k.payouts) then Some(x) else None
    case RollbackPayout(t) => if t in ShadowPayouts(k.payouts) then Some(x) else None
    case SelectKey(t, input, key) =>
      if Stored(input.amount) > 0.0 then Some(SelectKey(t, RoundedInput(input), key)) else None
    case RollbackCreate(t) => if t in ShadowCreates(k.creates) then Some(x) else None
    case _ => Some(x)
  }

  // ---------- what rounded configurations keep ----------

  ghost predicate Held(k: Pg) {
    && StoredTables(k.core.store)
    && (forall n :: n in k.core.calls ==> StoredCall(k.core.calls[n]))
    && (forall t :: t in k.payouts ==>
          k.payouts[t].amount > 0.0 && (k.payouts[t].stage.Read? ==> Exact(k.payouts[t].stage.balance)))
  }

  // ---------- how the shadow follows writes ----------

  lemma ShadowOutboxWrite(outbox: map<string, OutboxEvent>, id: string, e: OutboxEvent)
    ensures ShadowOutbox(outbox[id := e]) == ShadowOutbox(outbox)[id := RoundedEvent(e)]
  {
  }

  lemma ShadowJournalAppend(journal: seq<Posting>, x: Posting)
    ensures ShadowJournal(journal + [x]) == ShadowJournal(journal) + [x.(event := RoundedEvent(x.event))]
  {
  }

  // The journal after a store change, with the event recorded if it was written.
  function JournalAfter(journal: seq<Posting>, s: State, s': State, event: string): seq<Posting> {
    if event in s'.outbox && event !in s.outbox && |s'.ledger| >= 2
    then journal + [Posting(s'.outbox[event], s'.ledger[|s'.ledger| - 2], s'.ledger[|s'.ledger| - 1])]
    else journal
  }

  lemma ShadowJournalAfter(journal: seq<Posting>, s: State, s': State, event: string)
    ensures ShadowJournal(JournalAfter(journal, s, s', event))
         == JournalAfter(ShadowJournal(journal), ShadowStore(s), ShadowStore(s'), event)
  {
    if event in s'.outbox && event !in s.outbox && |s'.ledger| >= 2 {
      ShadowJournalAppend(journal, Posting(s'.outbox[event], s'.ledger[|s'.ledger| - 2], s'.ledger[|s'.ledger| - 1]));
    }
  }

  lemma ShadowAfter(c: Config, s': State, event: string)
    ensures ShadowConfig(After(c, s', event)) == After(ShadowConfig(c), ShadowStore(s'), event)
  {
    ShadowJournalAfter(c.journal, c.store, s', event);
    assert SeenAuthorized(s') == SeenAuthorized(ShadowStore(s'));
  }

  lemma ShadowEndCall(c: Config, n: nat)
    ensures ShadowConfig(EndCall(c, n)) == EndCall(ShadowConfig(c), n)
  {
    assert ShadowCalls(c.calls - {n}) == ShadowCalls(c.calls) - {n};
  }

  // ---------- each command ----------

  // The written state is the rounded command's, and the tables again hold what columns can hold.
  ghost predicate Refines(s: State, call: Call, reference: string, ids: Ids) {
    var (s', ok) := StoredCommit(s, call, reference, ids);
    ok ==>
      && Survives(call) && Commits(ShadowStore(s), RoundedCall(call), reference, ids)
      && ShadowStore(s') == CommitCall(ShadowStore(s), RoundedCall(call), reference, ids)
      && StoredTables(s')
  }

  lemma ExactPayload(p: Payment)
    requires Exact(p.amount) && Exact(p.captured) && Exact(p.refunded)
    ensures RoundedPayload(OfPayment(p)) == OfPayment(p)
  {
  }

  lemma TablesAfterPayment(s: State, s': State, p: Payment, pair: seq<LedgerEntry>)
    requires StoredTables(s) && StoredPayment(p) && ExactEntries(pair)
    requires s' == s.(payments := s.payments[p.id := p], ledger := s.ledger + pair, outbox := s'.outbox)
    ensures StoredTables(s')
  {
    ExactAppend(s.ledger, pair);
  }

  lemma AuthorizeRefines(s: State, call: Call, reference: string, ids: Ids)
    requires StoredTables(s) && StoredCall(call) && call.Authorizing?
    ensures Refines(s, call, reference, ids)
  {
    var p := call.payment;
    var cmd := AuthorizeCommand(call.id, p, reference, ids);
    var (s', r) := PgCommit(s, cmd);
    if r.Ok? {
      StoredPair(call.id, CustomerPending, MerchantPending(p.merchantId), p.currency, p.amount, ids);
      PairExact(call.id, CustomerPending, MerchantPending(p.merchantId), p.currency, p.amount, ids);
      ExactPayload(Expected(p, Authorized, 0.0, reference));
      ShadowOutboxWrite(s.outbox, ids.event, cmd.event);
      TablesAfterPayment(s, s', r.value, cmd.ledger);
    }
  }

  lemma CapturePayload(p: Payment, amount: real, reference: string)
    requires StoredPayment(p) && ValidCapture(p, amount)
    ensures RoundedPayload(OfPayment(Expected(p, Captured, amount, reference)))
         == OfPayment(Expected(p, Captured, Stored(amount), reference))
  {
    CaptureRounded(p, amount);
  }

  lemma RefundPayload(p: Payment, amount: real, reference: string)
    requires StoredPayment(p) && ValidRefund(p, amount)
    ensures RoundedPayload(OfPayment(Expected(p, Refunded, amount, reference)))
         == OfPayment(Expected(p, Refunded, Stored(amount), reference))
  {
    RefundRounded(p, amount);
  }

  // The command of the rounded call is the rounded command with a rounded event.
  lemma RoundedCallCommand(call: Call, ids: Ids)
    requires StoredCall(call) && (call.Capturing? || call.Refunding?)
    ensures call.Capturing? ==>
              var cmd := CaptureCommand(call.id, call.payment, call.amount, ids);
              CaptureCommand(call.id, call.payment, Stored(call.amount), ids)
              == RoundedCommand(cmd).(event := RoundedEvent(cmd.event))
    ensures call.Refunding? ==>
              var cmd := RefundCommand(call.id, call.payment, call.amount, ids);
              RefundCommand(call.id, call.payment, Stored(call.amount), ids)
              == RoundedCommand(cmd).(event := RoundedEvent(cmd.event))
  {
    var p := call.payment;
    if call.Capturing? {
      CapturePayload(p, call.amount, p.providerReference);
      StoredPair(call.id, MerchantPending(p.merchantId), MerchantAvailable(p.merchantId), p.currency, call.amount, ids);
    } else {
      RefundPayload(p, call.amount, p.providerReference);
      StoredPair(call.id, MerchantAvailable(p.merchantId), CustomerRefunded, p.currency, call.amount, ids);
    }
  }

  // A payment command on the shadow writes the shadow of what it writes.
  lemma ShadowCommand(s: State, cmd: PaymentCommand)
    requires CommitPaymentCommand(s, cmd).1.Ok?
    ensures var shadow := cmd.(event := RoundedEvent(cmd.event));
            && CommitPaymentCommand(ShadowStore(s), shadow).1 == CommitPaymentCommand(s, cmd).1
            && CommitPaymentCommand(ShadowStore(s), shadow).0 == ShadowStore(CommitPaymentCommand(s, cmd).0)
  {
    var p := CommandRow(s.payments[cmd.paymentId], cmd).value;
    ShadowOutboxWrite(s.outbox, cmd.event.id, cmd.event.(aggregateId := p.id));
  }

  lemma CaptureOrRefundRefines(s: State, call: Call, reference: string, ids: Ids)
    requires StoredTables(s) && StoredCall(call) && (call.Capturing? || call.Refunding?)
    ensures Refines(s, call, reference, ids)
  {
    var p := call.payment;
    var from := if call.Capturing? then MerchantPending(p.merchantId) else MerchantAvailable(p.merchantId);
    var to := if call.Capturing? then MerchantAvailable(p.merchantId) else CustomerRefunded;
    var cmd := if call.Capturing? then CaptureCommand(call.id, p, call.amount, ids)
               else RefundCommand(call.id, p, call.amount, ids);
    var (s', r) := PgCommit(s, cmd);
    if r.Ok? {
      PgCommitRefines(s, cmd, call.id, from, to, p.currency, ids);
      RoundedCallCommand(call, ids);
      ShadowCommand(s, RoundedCommand(cmd));
      StoredPair(call.id, from, to, p.currency, call.amount, ids);
      PairExact(call.id, from, to, p.currency, call.amount, ids);
      TablesAfterPayment(s, s', CommandRow(s.payments[call.id], RoundedCommand(cmd)).value, StoredEntries(cmd.ledger));
    }
  }

  lemma CompleteHolds(s: State, call: Call, reference: string, ids: Ids)
    requires StoredTables(s) && StoredCall(call) && call.Completing? && StoredCommit(s, call, reference, ids).1
    requires ExactEntries(StoredEntries(CompleteEntries(call.payout, call.success, ids)))
    ensures StoredTables(StoredCommit(s, call, reference, ids).0)
  {
    ExactAppend(s.ledger, StoredEntries(CompleteEntries(call.payout, call.success, ids)));
  }

  lemma CompleteRefines(s: State, call: Call, reference: string, ids: Ids)
    requires StoredTables(s) && StoredCall(call) && call.Completing?
    ensures Refines(s, call, reference, ids)
  {
    var p := call.payout;
    if StoredCommit(s, call, reference, ids).1 {
      var to := if call.success then ProviderPayoutSettled else MerchantAvailable(p.merchantId);
      StoredPair("", MerchantPayoutPending(p.merchantId), to, p.currency, p.amount, ids);
      PairExact("", MerchantPayoutPending(p.merchantId), to, p.currency, p.amount, ids);
      CompleteHolds(s, call, reference, ids);
      ShadowOutboxWrite(s.outbox, ids.event, CompleteEvent(call.id, p, call.reference, call.success, ids));
    }
  }

  lemma ResolveHolds(s: State, call: Call, reference: string, ids: Ids)
    requires StoredTables(s) && StoredCall(call) && call.Resolving? && StoredCommit(s, call, reference, ids).1
    requires ExactEntries(StoredEntries(ResolveEntries(call.dispute, call.merchantWins, ids)))
    ensures StoredTables(StoredCommit(s, call, reference, ids).0)
  {
    ExactAppend(s.ledger, StoredEntries(ResolveEntries(call.dispute, call.merchantWins, ids)));
  }

  lemma ResolveRefines(s: State, call: Call, reference: string, ids: Ids)
    requires StoredTables(s) && StoredCall(call) && call.Resolving?
    ensures Refines(s, call, reference, ids)
  {
    var d := call.dispute;
    if StoredCommit(s, call, reference, ids).1 {
      var to := if call.merchantWins then MerchantAvailable(d.merchantId) else CustomerChargeback;
      StoredPair(d.paymentId, MerchantDisputeFrozen(d.merchantId), to, d.currency, d.amount, ids);
      PairExact(d.paymentId, MerchantDisputeFrozen(d.merchantId), to, d.currency, d.amount, ids);
      ResolveHolds(s, call, reference, ids);
      ShadowOutboxWrite(s.outbox, ids.event, ResolveEvent(call.id, d, call.merchantWins, ids));
    }
  }

  lemma OpenHolds(s: State, call: Call, reference: string, ids: Ids)
    requires StoredTables(s) && call.Opening? && StoredCommit(s, call, reference, ids).1
    requires ExactEntries(StoredEntries(OpenEntries(call.id, call.payment, call.amount, ids)))
    ensures StoredTables(StoredCommit(s, call, reference, ids).0)
  {
    ExactAppend(s.ledger, StoredEntries(OpenEntries(call.id, call.payment, call.amount, ids)));
    StoredIsExact(call.amount);
    FitsStored(call.amount);
  }

  lemma OpenRefines(s: State, call: Call, reference: string, ids: Ids)
    requires StoredTables(s) && StoredCall(call) && call.Opening?
    ensures Refines(s, call, reference, ids)
  {
    var p, amount := call.payment, call.amount;
    if StoredCommit(s, call, reference, ids).1 {
      var d := NewDispute(call.id, p.merchantId, p.currency, call.reason, amount, ids.record).value;
      var available, frozen := MerchantAvailable(p.merchantId), MerchantDisputeFrozen(p.merchantId);
      StoredPair(call.id, available, frozen, p.currency, amount, ids);
      PairExact(call.id, available, frozen, p.currency, amount, ids);
      PairBalanced(call.id, available, frozen, p.currency, Stored(amount), ids);
      OpenHolds(s, call, reference, ids);
      ShadowOutboxWrite(s.outbox, ids.event, OpenEvent(d, ids));
    }
  }

  lemma FitsStored(x: real)
    requires Fits(x)
    ensures Fits(Stored(x))
  {
    StoredIsExact(x);
    assert Stored(x) * SCALE == Micros(x) as real;
    MicrosOfExact(Stored(x));
    assert Micros(Stored(x)) == Micros(x);
  }

  /** Whatever a call writes to the rounding columns is what the exact store writes for the rounded
      amount, but for the unrounded amounts in its event. */
  lemma CommitRefines(s: State, call: Call, reference: string, ids: Ids)
    requires StoredTables(s) && StoredCall(call)
    ensures Refines(s, call, reference, ids)
    ensures !StoredCommit(s, call, reference, ids).1 ==> StoredCommit(s, call, reference, ids).0 == s
  {
    match call
    case Authorizing(_, _) => AuthorizeRefines(s, call, reference, ids);
    case Completing(_, _, _, _) => CompleteRefines(s, call, reference, ids);
    case Opening(_, _, _, _) => OpenRefines(s, call, reference, ids);
    case Resolving(_, _, _) => ResolveRefines(s, call, reference, ids);
    case _ => CaptureOrRefundRefines(s, call, reference, ids);
  }

  // ---------- which commands commit ----------

  lemma PaymentCommitsIff(s: State, call: Call, reference: string, ids: Ids)
    requires StoredTables(s) && StoredCall(call) && (call.Authorizing? || call.Capturing? || call.Refunding?)
    ensures StoredCommit(s, call, reference, ids).1 <==> Commits(s, call, reference, ids) && Survives(call)
  {
    var p := call.payment;
    if call.Authorizing? {
      PairAdmitted(call.id, CustomerPending, MerchantPending(p.merchantId), p.currency, p.amount, ids);
    } else {
      var from := if call.Capturing? then MerchantPending(p.merchantId) else MerchantAvailable(p.merchantId);
      var to := if call.Capturing? then MerchantAvailable(p.merchantId) else CustomerRefunded;
      var cmd := if call.Capturing? then CaptureCommand(call.id, p, call.amount, ids)
                 else RefundCommand(call.id, p, call.amount, ids);
      if call.id in s.payments && CommandRow(s.payments[call.id], cmd).Ok? {
        CommitsIffNotRoundedAway(s, cmd, call.id, from, to, p.currency, ids);
      }
    }
  }

  lemma ResolutionCommitsIff(s: State, call: Call, reference: string, ids: Ids)
    requires StoredCall(call) && (call.Completing? || call.Resolving?)
    ensures StoredCommit(s, call, reference, ids).1 <==> Commits(s, call, reference, ids)
  {
    if call.Completing? {
      var p := call.payout;
      var to := if call.success then ProviderPayoutSettled else MerchantAvailable(p.merchantId);
      PairBalanced("", MerchantPayoutPending(p.merchantId), to, p.currency, p.amount, ids);
      if p.amount > 0.0 { PairAdmitted("", MerchantPayoutPending(p.merchantId), to, p.currency, p.amount, ids); }
    } else {
      var d := call.dispute;
      var to := if call.merchantWins then MerchantAvailable(d.merchantId) else CustomerChargeback;
      PairBalanced(d.paymentId, MerchantDisputeFrozen(d.merchantId), to, d.currency, d.amount, ids);
      if d.amount > 0.0 {
        PairAdmitted(d.paymentId, MerchantDisputeFrozen(d.merchantId), to, d.currency, d.amount, ids);
      }
    }
  }

  lemma OpeningCommitsIff(s: State, call: Call, reference: string, ids: Ids)
    requires StoredCall(call) && call.Opening?
    ensures StoredCommit(s, call, reference, ids).1 <==> Commits(s, call, reference, ids) && Survives(call)
  {
    var p := call.payment;
    FitsBelow(call.amount, p.amount);
    PairAdmitted(call.id, MerchantAvailable(p.merchantId), MerchantDisputeFrozen(p.merchantId), p.currency,
                 call.amount, ids);
  }

  /** On stored tables a command of any kind commits exactly when the exact store accepts it and its
      amount does not round to zero. */
  lemma StoredCommitsIff(s: State, call: Call, reference: string, ids: Ids)
    requires StoredTables(s) && StoredCall(call)
    ensures StoredCommit(s, call, reference, ids).1 <==> Commits(s, call, reference, ids) && Survives(call)
  {
    match call
    case Opening(_, _, _, _) => OpeningCommitsIff(s, call, reference, ids);
    case Completing(_, _, _, _) => ResolutionCommitsIff(s, call, reference, ids);
    case Resolving(_, _, _) => ResolutionCommitsIff(s, call, reference, ids);
    case _ => PaymentCommitsIff(s, call, reference, ids);
  }

  // ---------- each step ----------

  // The shadow steps to `l`, or stays where it is.
  ghost predicate ShadowSteps(hash: string -> int, k: Pg, y: Option<PgAction>, l: Pg) {
    if y.None? then l == k else PgEnabled(hash, k, y.value) && l == PgPerform(hash, k, y.value)
  }

  // The step keeps `Held`, and the shadow takes its own step or stays where it is.
  ghost predicate Follows(hash: string -> int, k: Pg, x: PgAction)
    requires RoundEnabled(hash, k, x)
  {
    && Held(RoundPerform(hash, k, x))
    && ShadowSteps(hash, Shadow(k), ShadowAction(k, x), Shadow(RoundPerform(hash, k, x)))
  }

  lemma SeenNothing(k: Config, event: string)
    requires RowsOk(k)
    ensures After(k, k.store, event) == k
  {
    AfterNothing(k, event);
  }

  lemma CommitHeld(hash: string -> int, k: Pg, n: nat, reference: string, ids: Ids)
    requires Held(k) && RoundEnabled(hash, k, Core(Commit(n, reference, ids)))
    ensures Held(RoundPerform(hash, k, Core(Commit(n, reference, ids))))
  {
    CommitRefines(k.core.store, k.core.calls[n], reference, ids);
  }

  lemma AcceptedFollows(hash: string -> int, k: Pg, n: nat, reference: string, ids: Ids)
    requires Held(k) && RoundEnabled(hash, k, Core(Commit(n, reference, ids)))
    requires StoredCommit(k.core.store, k.core.calls[n], reference, ids).1
    ensures Follows(hash, k, Core(Commit(n, reference, ids)))
  {
    CommitHeld(hash, k, n, reference, ids);
    CommitRefines(k.core.store, k.core.calls[n], reference, ids);
    ShadowEndCall(k.core, n);
    ShadowAfter(EndCall(k.core, n), StoredCommit(k.core.store, k.core.calls[n], reference, ids).0, ids.event);
  }

  // A refused command only ends its call.
  lemma RefusedAborts(hash: string -> int, k: Pg, n: nat, reference: string, ids: Ids)
    requires Held(k) && RowsOk(k.core) && RoundEnabled(hash, k, Core(Commit(n, reference, ids)))
    requires !StoredCommit(k.core.store, k.core.calls[n], reference, ids).1
    ensures RoundPerform(hash, k, Core(Commit(n, reference, ids))) == RoundPerform(hash, k, Core(Abort(n)))
    ensures ShadowAction(k, Core(Commit(n, reference, ids))) == ShadowAction(k, Core(Abort(n)))
  {
    CommitRefines(k.core.store, k.core.calls[n], reference, ids);
    SeenNothing(EndCall(k.core, n), ids.event);
  }

  lemma CommitFollows(hash: string -> int, k: Pg, n: nat, reference: string, ids: Ids)
    requires Held(k) && RowsOk(k.core) && RoundEnabled(hash, k, Core(Commit(n, reference, ids)))
    ensures Follows(hash, k, Core(Commit(n, reference, ids)))
  {
    if StoredCommit(k.core.store, k.core.calls[n], reference, ids).1 {
      AcceptedFollows(hash, k, n, reference, ids);
    } else {
      RefusedAborts(hash, k, n, reference, ids);
      AbortFollows(hash, k, n);
    }
  }

  lemma RoundedDispute(p: Payment, amount: real)
    requires StoredPayment(p) && Disputable(p, amount) && Stored(amount) > 0.0
    ensures Disputable(p, Stored(amount))
  {
    ExactSum(p.captured, p.refunded);
    StoredMonotone(amount, p.captured - p.refunded);
  }

  lemma ReadsRounded(s: State, call: Call)
    requires StoredTables(s) && Reads(s, call)
    ensures StoredCall(call)
    ensures Survives(call) ==> Reads(ShadowStore(s), RoundedCall(call))
  {
    if call.Capturing? {
      CaptureRounded(call.payment, call.amount);
    } else if call.Refunding? {
      RefundRounded(call.payment, call.amount);
    } else if call.Opening? && Survives(call) {
      RoundedDispute(call.payment, call.amount);
    }
  }

  lemma ShadowCallsWrite(calls: map<nat, Call>, n: nat, call: Call)
    requires n !in calls
    ensures ShadowCalls(calls[n := call])
         == if Survives(call) then ShadowCalls(calls)[n := RoundedCall(call)] else ShadowCalls(calls)
  {
  }

  lemma BeginHeld(hash: string -> int, k: Pg, n: nat, call: Call)
    requires Held(k) && StoredCall(call) && RoundEnabled(hash, k, Core(Begin(n, call)))
    ensures Held(RoundPerform(hash, k, Core(Begin(n, call))))
  {
  }

  lemma BeginFollows(hash: string -> int, k: Pg, n: nat, call: Call)
    requires Held(k) && RoundEnabled(hash, k, Core(Begin(n, call)))
    ensures Follows(hash, k, Core(Begin(n, call)))
  {
    ReadsRounded(k.core.store, call);
    BeginHeld(hash, k, n, call);
    ShadowCallsWrite(k.core.calls, n, call);
  }

  lemma AbortFollows(hash: string -> int, k: Pg, n: nat)
    requires Held(k) && RoundEnabled(hash, k, Core(Abort(n)))
    ensures Follows(hash, k, Core(Abort(n)))
  {
    CallsOnlyHeld(k, RoundPerform(hash, k, Core(Abort(n))));
    ShadowEndCall(k.core, n);
    if n !in ShadowCalls(k.core.calls) {
      assert ShadowCalls(k.core.calls) - {n} == ShadowCalls(k.core.calls);
    }
  }

  lemma CallsOnlyHeld(k: Pg, k': Pg)
    requires Held(k) && k'.core.store == k.core.store && k'.payouts == k.payouts
    requires forall n :: n in k'.core.calls ==> n in k.core.calls && k'.core.calls[n] == k.core.calls[n]
    ensures Held(k')
  {
  }

  lemma FlagHeld(hash: string -> int, k: Pg, a: Action)
    requires Held(k) && RoundEnabled(hash, k, Core(a)) && (a.Register? || a.Publish?)
    ensures Held(RoundPerform(hash, k, Core(a)))
  {
  }

  lemma RegisterFollows(hash: string -> int, k: Pg, webhook: string)
    requires Held(k) && RoundEnabled(hash, k, Core(Register(webhook)))
    ensures Follows(hash, k, Core(Register(webhook)))
  {
    FlagHeld(hash, k, Register(webhook));
  }

  lemma ShadowPublish(s: State, event: string)
    ensures ShadowStore(MarkPublished(s, event).0) == MarkPublished(ShadowStore(s), event).0
  {
    if event in s.outbox {
      ShadowOutboxWrite(s.outbox, event, s.outbox[event].(published := true));
    }
  }

  lemma PublishFollows(hash: string -> int, k: Pg, event: string)
    requires Held(k) && RoundEnabled(hash, k, Core(Publish(event)))
    ensures Follows(hash, k, Core(Publish(event)))
  {
    FlagHeld(hash, k, Publish(event));
    ShadowPublish(k.core.store, event);
  }

  lemma ShadowPayoutsRemove(payouts: map<nat, PayoutTx>, t: nat)
    ensures ShadowPayouts(payouts - {t}) == ShadowPayouts(payouts) - {t}
  {
    KeptRemove(payouts, Payable, RoundedTx, t);
  }

  lemma ShadowPayoutsWrite(payouts: map<nat, PayoutTx>, t: nat, tx: PayoutTx)
    requires Payable(tx) || t !in payouts || !Payable(payouts[t])
    ensures ShadowPayouts(payouts[t := tx])
         == if Payable(tx) then ShadowPayouts(payouts)[t := RoundedTx(tx)] else ShadowPayouts(payouts)
  {
    KeptWrite(payouts, Payable, RoundedTx, t, tx);
  }

  lemma PayoutStepHeld(hash: string -> int, k: Pg, x: PgAction)
    requires Held(k) && RoundEnabled(hash, k, x)
    requires x.StartPayout? || x.TakeLock? || x.ReadBalance? || x.RollbackPayout?
    ensures Held(RoundPerform(hash, k, x))
  {
    if x.ReadBalance? {
      BalanceIsExact(k.core.store.ledger, Name(MerchantAvailable(k.payouts[x.t].merchant)), k.payouts[x.t].currency);
    }
  }

  lemma StartEnabled(hash: string -> int, k: Pg, x: PgAction)
    requires RoundEnabled(hash, k, x) && x.StartPayout? && Stored(x.amount) > 0.0
    ensures PgEnabled(hash, Shadow(k), StartPayout(x.t, x.merchant, x.currency, Stored(x.amount)))
  {
  }

  lemma StartPayoutFollows(hash: string -> int, k: Pg, x: PgAction)
    requires Held(k) && RoundEnabled(hash, k, x) && x.StartPayout?
    ensures Follows(hash, k, x)
  {
    PayoutStepHeld(hash, k, x);
    ShadowPayoutsWrite(k.payouts, x.t, PayoutTx(x.merchant, ToUpper(x.currency), x.amount, Started));
    if Stored(x.amount) > 0.0 {
      StartEnabled(hash, k, x);
    }
  }

  lemma RollbackPayoutFollows(hash: string -> int, k: Pg, x: PgAction)
    requires Held(k) && RoundEnabled(hash, k, x) && x.RollbackPayout?
    ensures Follows(hash, k, x)
  {
    PayoutStepHeld(hash, k, x);
    ShadowPayoutsRemove(k.payouts, x.t);
    if x.t !in ShadowPayouts(k.payouts) {
      assert ShadowPayouts(k.payouts) - {x.t} == ShadowPayouts(k.payouts);
    }
  }

  // Fewer transactions hold locks in the shadow.
  lemma LockFree(hash: string -> int, k: Pg, t: nat)
    requires PgEnabled(hash, k, TakeLock(t)) && t in ShadowPayouts(k.payouts)
    ensures PgEnabled(hash, Shadow(k), TakeLock(t))
  {
    var shadow := Shadow(k);
    forall u | u in shadow.payouts && HoldsLock(shadow.payouts[u])
      ensures hash(LockKey(shadow.payouts[u])) != hash(LockKey(shadow.payouts[t]))
    {
      assert u in k.payouts && HoldsLock(k.payouts[u]);
      assert LockKey(shadow.payouts[u]) == LockKey(k.payouts[u]) && LockKey(shadow.payouts[t]) == LockKey(k.payouts[t]);
    }
  }

  lemma LockOrReadFollows(hash: string -> int, k: Pg, x: PgAction)
    requires Held(k) && RoundEnabled(hash, k, x) && (x.TakeLock? || x.ReadBalance?)
    ensures Follows(hash, k, x)
  {
    var tx := k.payouts[x.t];
    PayoutStepHeld(hash, k, x);
    var balance := Available(k.core.store, tx.merchant, tx.currency);
    ShadowPayoutsWrite(k.payouts, x.t, tx.(stage := if x.TakeLock? then Locked else Read(balance)));
    if x.TakeLock? && x.t in ShadowPayouts(k.payouts) {
      LockFree(hash, k, x.t);
    }
  }

  lemma PayoutWrites(s: State, p: Payout, ids: Ids)
    requires StoredTables(s) && AmountAdmitted(p.amount)
    ensures var s' := PgInsertPayout(s, p, PayoutEntries(p, ids), PayoutEvent(p, ids));
            var q := p.(amount := Stored(p.amount));
            && StoredTables(s')
            && ShadowStore(s') == InsertPayout(ShadowStore(s), q, PayoutEntries(q, ids), PayoutEvent(q, ids))
  {
    var available, pending := MerchantAvailable(p.merchantId), MerchantPayoutPending(p.merchantId);
    StoredPair("", available, pending, p.currency, p.amount, ids);
    PairExact("", available, pending, p.currency, p.amount, ids);
    ExactAppend(s.ledger, StoredEntries(PayoutEntries(p, ids)));
    ShadowOutboxWrite(s.outbox, ids.event, PayoutEvent(p, ids));
    StoredIsExact(p.amount);
    FitsStored(p.amount);
  }

  lemma CommitPayoutEnabled(hash: string -> int, k: Pg, x: PgAction)
    requires Held(k) && RoundEnabled(hash, k, x) && x.CommitPayout?
    ensures PgEnabled(hash, Shadow(k), x)
    ensures Shadow(k).payouts[x.t] == k.payouts[x.t].(amount := Stored(k.payouts[x.t].amount))
  {
    StoredMonotone(k.payouts[x.t].amount, k.payouts[x.t].stage.balance);
  }

  lemma CommitPayoutHeld(hash: string -> int, k: Pg, x: PgAction)
    requires Held(k) && RoundEnabled(hash, k, x) && x.CommitPayout?
    ensures Held(RoundPerform(hash, k, x))
  {
    PayoutWrites(k.core.store, PayoutOf(k.payouts[x.t], x.ids), x.ids);
  }

  lemma CommitPayoutFollows(hash: string -> int, k: Pg, x: PgAction)
    requires Held(k) && RoundEnabled(hash, k, x) && x.CommitPayout?
    ensures Follows(hash, k, x)
  {
    var p := PayoutOf(k.payouts[x.t], x.ids);
    CommitPayoutHeld(hash, k, x);
    CommitPayoutEnabled(hash, k, x);
    PayoutWrites(k.core.store, p, x.ids);
    ShadowAfter(k.core, PgInsertPayout(k.core.store, p, PayoutEntries(p, x.ids), PayoutEvent(p, x.ids)), x.ids.event);
    ShadowPayoutsRemove(k.payouts, x.t);
  }

  lemma ShadowCreatesWrite(creates: map<nat, CreateTx>, t: nat, tx: CreateTx)
    requires t !in creates
    ensures ShadowCreates(creates[t := tx])
         == if Stored(tx.input.amount) > 0.0 then ShadowCreates(creates)[t := tx.(input := RoundedInput(tx.input))]
            else ShadowCreates(creates)
  {
  }

  lemma ShadowCreatesRemove(creates: map<nat, CreateTx>, t: nat)
    ensures ShadowCreates(creates - {t}) == ShadowCreates(creates) - {t}
  {
  }

  lemma SelectEnabled(hash: string -> int, k: Pg, x: PgAction)
    requires RoundEnabled(hash, k, x) && x.SelectKey? && Stored(x.input.amount) > 0.0
    ensures PgEnabled(hash, Shadow(k), SelectKey(x.t, RoundedInput(x.input), x.key))
  {
  }

  lemma SelectFollows(hash: string -> int, k: Pg, x: PgAction)
    requires Held(k) && RoundEnabled(hash, k, x) && x.SelectKey?
    ensures Follows(hash, k, x)
  {
    CallsOnlyHeld(k, RoundPerform(hash, k, x));
    ShadowCreatesWrite(k.creates, x.t, CreateTx(x.input, x.key));
    if Stored(x.input.amount) > 0.0 {
      SelectEnabled(hash, k, x);
    }
  }

  lemma RollbackCreateFollows(hash: string -> int, k: Pg, x: PgAction)
    requires Held(k) && RoundEnabled(hash, k, x) && x.RollbackCreate?
    ensures Follows(hash, k, x)
  {
    CallsOnlyHeld(k, RoundPerform(hash, k, x));
    ShadowCreatesRemove(k.creates, x.t);
    if x.t !in ShadowCreates(k.creates) {
      assert ShadowCreates(k.creates) - {x.t} == ShadowCreates(k.creates);
    }
  }

  lemma InsertedHeld(k: Pg, k': Pg, p: Payment, key: string)
    requires Held(k) && StoredPayment(p)
    requires k'.core == Inserted(k.core, p, key) && k'.payouts == k.payouts
    ensures Held(k')
  {
  }

  lemma RoundedNewPayment(input: CreatePayment, id: string)
    requires NewPayment(input, id).Ok? && AmountAdmitted(input.amount)
    ensures NewPayment(RoundedInput(input), id) == Ok(RoundedInsert(NewPayment(input, id).value))
    ensures StoredPayment(RoundedInsert(NewPayment(input, id).value))
  {
    StoredIsExact(input.amount);
    FitsStored(input.amount);
    assert Micros(0.0) == 0;
  }

  lemma CommitCreateFollows(hash: string -> int, k: Pg, x: PgAction)
    requires Held(k) && RoundEnabled(hash, k, x) && x.CommitCreate?
    ensures Follows(hash, k, x)
  {
    var tx := k.creates[x.t];
    RoundedNewPayment(tx.input, x.ids.record);
    InsertedHeld(k, RoundPerform(hash, k, x), RoundedInsert(NewPayment(tx.input, x.ids.record).value), tx.key);
    ShadowCreatesRemove(k.creates, x.t);
  }

  lemma ReadStatusEnabled(hash: string -> int, k: Pg, x: PgAction)
    requires RoundEnabled(hash, k, x) && x.ReadStatus?
    ensures PgEnabled(hash, Shadow(k), x) && Shadow(k).core.calls[x.n] == k.core.calls[x.n]
  {
  }

  lemma ReadStatusFollows(hash: string -> int, k: Pg, x: PgAction)
    requires Held(k) && RoundEnabled(hash, k, x) && x.ReadStatus?
    ensures Follows(hash, k, x)
  {
    CallsOnlyHeld(k, RoundPerform(hash, k, x));
    ReadStatusEnabled(hash, k, x);
    ShadowEndCall(k.core, x.n);
  }

  lemma WriteFailedHeld(hash: string -> int, k: Pg, x: PgAction)
    requires Held(k) && RoundEnabled(hash, k, x) && x.WriteFailed?
    ensures Held(RoundPerform(hash, k, x))
  {
  }

  lemma WriteFailedFollows(hash: string -> int, k: Pg, x: PgAction)
    requires Held(k) && RoundEnabled(hash, k, x) && x.WriteFailed?
    ensures Follows(hash, k, x)
  {
    WriteFailedHeld(hash, k, x);
  }

  /** Every step on rounding columns is, seen through the shadow, a step of the exact machine or no
      step at all. */
  lemma StepFollows(hash: string -> int, k: Pg, x: PgAction)
    requires Held(k) && RowsOk(k.core) && RoundEnabled(hash, k, x)
    ensures Follows(hash, k, x)
  {
    match x
    case Core(Commit(n, reference, ids)) => CommitFollows(hash, k, n, reference, ids);
    case Core(Begin(n, call)) => BeginFollows(hash, k, n, call);
    case Core(Abort(n)) => AbortFollows(hash, k, n);
    case Core(Register(webhook)) => RegisterFollows(hash, k, webhook);
    case Core(Publish(event)) => PublishFollows(hash, k, event);
    case Core(a) =>
    case CommitPayout(_, _) => CommitPayoutFollows(hash, k, x);
    case CommitCreate(_, _) => CommitCreateFollows(hash, k, x);
    case SelectKey(_, _, _) => SelectFollows(hash, k, x);
    case RollbackCreate(_) => RollbackCreateFollows(hash, k, x);
    case ReadStatus(_, _) => ReadStatusFollows(hash, k, x);
    case WriteFailed(_) => WriteFailedFollows(hash, k, x);
    case StartPayout(_, _, _, _) => StartPayoutFollows(hash, k, x);
    case RollbackPayout(_) => RollbackPayoutFollows(hash, k, x);
    case _ => LockOrReadFollows(hash, k, x);
  }

  // ---------- whole runs ----------

  lemma ShadowRows(k: Pg)
    requires Inv(Shadow(k).core)
    ensures RowsOk(k.core)
  {
    forall id | id in k.core.store.payments ensures RowOk(id, k.core.store.payments[id], id in k.core.authorized) {
      assert id in Shadow(k).core.store.payments;
    }
  }

  lemma PgReachedInv(hash: string -> int, k: Pg)
    requires PgReached(hash, k)
    ensures PgInv(hash, k)
  {
    var r :| PgRun(hash, r) && r[|r| - 1] == k;
    PgRunInv(hash, r, |r| - 1);
  }

  lemma ShadowReachedStep(hash: string -> int, k: Pg, x: PgAction)
    requires Held(k) && PgReached(hash, Shadow(k)) && RoundEnabled(hash, k, x)
    ensures Held(RoundPerform(hash, k, x)) && PgReached(hash, Shadow(RoundPerform(hash, k, x)))
  {
    assert RowsOk(k.core) by {
      PgReachedInv(hash, Shadow(k));
      ShadowRows(k);
    }
    StepFollows(hash, k, x);
    var y := ShadowAction(k, x);
    if y.Some? {
      PgReachedStep(hash, Shadow(k), y.value);
    }
  }

  /** At every point of every run on rounding columns, the tables and the ledger hold exact column
      values, and the shadow is a configuration that the exact machine reaches: every theorem about
      what the exact machine reaches holds of the shadow. */
  lemma {:induction false} RoundedRunsRefine(hash: string -> int, r: seq<Pg>, xs: seq<PgAction>, i: nat)
    requires RoundTrace(hash, r, xs) && i < |r|
    ensures Held(r[i]) && PgReached(hash, Shadow(r[i]))
    decreases i
  {
    if i == 0 {
      ShadowInit(hash);
    } else {
      RoundedRunsRefine(hash, r, xs, i - 1);
      ShadowReachedStep(hash, r[i - 1], xs[i - 1]);
    }
  }

  lemma ShadowInit(hash: string -> int)
    ensures Held(PG_INIT) && PgReached(hash, Shadow(PG_INIT))
  {
    ShadowOfInit();
    PgReachedInit(hash);
  }

  lemma ShadowOfInit()
    ensures Shadow(PG_INIT) == PG_INIT
  {
  }

  /** Rounding loses nothing: in every run on rounding columns, for every interleaving and lock hash,
      every account folded from the rounded entries equals the sum of the rounded records, payouts
      stay within captures, available is bounded below by refunds and disputes, every payment row
      keeps its bounds and its six decimals, and keys and payments correspond one to one. */
  lemma RoundedBooksAgree(hash: string -> int, r: seq<Pg>, xs: seq<PgAction>, i: nat, a: Account, m: string, c: string,
                          id: string)
    requires RoundTrace(hash, r, xs) && i < |r|
    ensures Balance(r[i].core.store.ledger, Name(a), c) == Recorded(r[i].core, a, c)
    ensures HeldTotal(r[i].core.store, m, c) <= CapturedTotal(r[i].core.store, m, c)
    ensures var s := r[i].core.store; Available(s, m, c) >= -(RefundedTotal(s, m, c) + DisputedTotal(s, m, c))
    ensures id in r[i].core.store.payments ==> StoredPayment(r[i].core.store.payments[id])
    ensures KeysOk(r[i].core.store)
  {
    var k := r[i];
    assert Held(k) && PgReached(hash, Shadow(k)) by { RoundedRunsRefine(hash, r, xs, i); }
    ShadowAgrees(hash, k, a, m, c);
    ShadowAgrees(hash, k, MerchantAvailable(m), m, c);
    AvailableSplit(k.core, m, c);
  }

  lemma KeysFrame(s: State, s': State)
    requires KeysOk(s) && s'.keys == s.keys && s'.payments == s.payments
    ensures KeysOk(s')
  {
  }

  lemma ShadowAgrees(hash: string -> int, k: Pg, a: Account, m: string, c: string)
    requires PgReached(hash, Shadow(k))
    ensures Balance(k.core.store.ledger, Name(a), c) == Recorded(k.core, a, c)
    ensures HeldTotal(k.core.store, m, c) <= CapturedTotal(k.core.store, m, c)
    ensures KeysOk(k.core.store)
  {
    var shadow := Shadow(k);
    assert AgreesAt(shadow.core, a, c) && SolventAt(shadow.core.store, m, c) && KeysOk(shadow.core.store) by {
      PgReachedInv(hash, shadow);
    }
    KeysFrame(shadow.core.store, k.core.store);
  }
}
