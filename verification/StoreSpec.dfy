/** What each operation of the store does to its contents, as functions from state to state.
    `MemoryStore` is proved against them, and the state machines run on them. */
module StoreSpec {
  import opened Domain
  import opened Accounts
  import opened Stepwise

  datatype State = State(
    payments: map<string, Payment>,
    keys: map<string, string>,
    outbox: map<string, OutboxEvent>,
    ledger: seq<LedgerEntry>,
    webhooks: set<string>,
    payouts: map<string, Payout>,
    disputes: map<string, Dispute>)

  const EMPTY := State(map[], map[], map[], [], {}, map[], map[])

  function Lookup(payments: map<string, Payment>, id: string): Payment {
    if id in payments then payments[id] else ZERO_PAYMENT
  }

  function CreatePayment(s: State, p: Payment, key: string): (State, Payment, bool) {
    if key in s.keys then (s, Lookup(s.payments, s.keys[key]), true)
    else (s.(payments := s.payments[p.id := p], keys := s.keys[key := p.id]), p, false)
  }

  function Transition(s: State, id: string, to: PaymentStatus, reference: string): (State, Result<Payment>) {
    if id !in s.payments then (s, Err(NotFound))
    else if !CanTransition(s.payments[id].status, to) then (s, Err(InvalidTransition))
    else
      var p := s.payments[id].(status := to, providerReference := reference);
      (s.(payments := s.payments[id := p]), Ok(p))
  }

  // The store with payment `id` failed for `reason`, whatever its status was.
  function WithFailed(s: State, id: string, reason: string): State
    requires id in s.payments
  {
    s.(payments := s.payments[id := s.payments[id].(status := Failed, providerReference := reason)])
  }

  function AppendLedger(s: State, entries: seq<LedgerEntry>): (State, Result<()>) {
    if !Balanced(entries) then (s, Err(BalanceError(entries)))
    else (s.(ledger := s.ledger + entries), Ok(()))
  }

  // The row a command writes, or why the current row refuses it.
  function CommandRow(p: Payment, cmd: PaymentCommand): Result<Payment> {
    if !CanTransition(p.status, cmd.status) then Err(InvalidTransition)
    else if cmd.status.Captured? && !ValidCapture(p, cmd.amount) then Err(CaptureExceedsAuthorized)
    else if cmd.status.Refunded? && !ValidRefund(p, cmd.amount) then Err(RefundExceedsCaptured)
    else if !Balanced(cmd.ledger) then Err(BalanceError(cmd.ledger))
    else Ok(p.(captured := if cmd.status.Captured? then p.captured + cmd.amount else p.captured,
               refunded := if cmd.status.Refunded? then p.refunded + cmd.amount else p.refunded,
               status := cmd.status,
               providerReference := if cmd.providerReference != "" then cmd.providerReference
                                    else p.providerReference))
  }

  function CommitPaymentCommand(s: State, cmd: PaymentCommand): (State, Result<Payment>) {
    if cmd.paymentId !in s.payments then (s, Err(NotFound))
    else
      var row := CommandRow(s.payments[cmd.paymentId], cmd);
      if row.Err? then (s, row)
      else
        var p := row.value;
        (s.(payments := s.payments[p.id := p],
            ledger := s.ledger + cmd.ledger,
            outbox := s.outbox[cmd.event.id := cmd.event.(aggregateId := p.id)]), row)
  }

  function Available(s: State, merchant: string, currency: string): real {
    Balance(s.ledger, Name(MerchantAvailable(merchant)), currency)
  }

  // The write half of CreatePayout, shared with the PostgreSQL transaction.
  function InsertPayout(s: State, p: Payout, entries: seq<LedgerEntry>, event: OutboxEvent): State {
    s.(payouts := s.payouts[p.id := p],
       ledger := s.ledger + entries,
       outbox := s.outbox[event.id := event])
  }

  function CreatePayout(s: State, p: Payout, entries: seq<LedgerEntry>, event: OutboxEvent): (State, Result<Payout>) {
    if Available(s, p.merchantId, p.currency) < p.amount then (s, Err(InsufficientBalance))
    else if !Balanced(entries) then (s, Err(BalanceError(entries)))
    else (InsertPayout(s, p, entries, event), Ok(p))
  }

  function TransitionPayout(s: State, id: string, status: PayoutStatus, reference: string,
                            entries: seq<LedgerEntry>, event: OutboxEvent): (State, Result<Payout>) {
    if id !in s.payouts then (s, Err(NotFound))
    else if !s.payouts[id].status.PayoutPending? then (s, Err(PayoutResolved))
    else if status.PayoutPending? then (s, Err(InvalidPayoutStatus))
    else if !Balanced(entries) then (s, Err(BalanceError(entries)))
    else
      var p := s.payouts[id].(status := status, providerReference := reference);
      (s.(payouts := s.payouts[id := p],
          ledger := s.ledger + entries,
          outbox := s.outbox[event.id := event]), Ok(p))
  }

  function CreateDispute(s: State, d: Dispute, entries: seq<LedgerEntry>,
                         event: OutboxEvent): (State, Result<Dispute>) {
    if d.id in s.disputes then (s, Err(DisputeExists))
    else if !Balanced(entries) then (s, Err(BalanceError(entries)))
    else (s.(disputes := s.disputes[d.id := d],
             ledger := s.ledger + entries,
             outbox := s.outbox[event.id := event]), Ok(d))
  }

  function ResolveDispute(s: State, id: string, status: DisputeStatus,
                          entries: seq<LedgerEntry>, event: OutboxEvent): (State, Result<Dispute>) {
    if id !in s.disputes then (s, Err(NotFound))
    else if !s.disputes[id].status.DisputeOpen? then (s, Err(DisputeResolved))
    else if status.DisputeOpen? then (s, Err(InvalidDisputeStatus))
    else if !Balanced(entries) then (s, Err(BalanceError(entries)))
    else
      var d := s.disputes[id].(status := status);
      (s.(disputes := s.disputes[id := d],
          ledger := s.ledger + entries,
          outbox := s.outbox[event.id := event]), Ok(d))
  }

  function MarkPublished(s: State, id: string): (State, Result<()>) {
    if id !in s.outbox then (s, Err(NotFound))
    else (s.(outbox := s.outbox[id := s.outbox[id].(published := true)]), Ok(()))
  }

  function RegisterWebhook(s: State, id: string): (State, bool) {
    if id in s.webhooks then (s, false)
    else (s.(webhooks := s.webhooks + {id}), true)
  }

  // The events still to be delivered.
  function Unpublished(outbox: map<string, OutboxEvent>): set<string> {
    set e | e in outbox && !outbox[e].published
  }

  // ---------- raw store histories: any arguments, not only those the services build ----------

  datatype Operation =
    | DoCreatePayment(payment: Payment, key: string)
    | DoTransition(id: string, to: PaymentStatus, reference: string)
    | DoAppendLedger(entries: seq<LedgerEntry>)
    | DoCommit(cmd: PaymentCommand)
    | DoCreatePayout(payout: Payout, entries: seq<LedgerEntry>, event: OutboxEvent)
    | DoTransitionPayout(id: string, payoutStatus: PayoutStatus, reference: string, entries: seq<LedgerEntry>,
                         event: OutboxEvent)
    | DoCreateDispute(dispute: Dispute, entries: seq<LedgerEntry>, event: OutboxEvent)
    | DoResolveDispute(id: string, disputeStatus: DisputeStatus, entries: seq<LedgerEntry>, event: OutboxEvent)
    | DoMarkPublished(id: string)
    | DoRegisterWebhook(id: string)

  function Execute(s: State, op: Operation): State {
    match op
    case DoCreatePayment(p, key) => CreatePayment(s, p, key).0
    case DoTransition(id, to, reference) => Transition(s, id, to, reference).0
    case DoAppendLedger(entries) => AppendLedger(s, entries).0
    case DoCommit(cmd) => CommitPaymentCommand(s, cmd).0
    case DoCreatePayout(p, entries, event) => CreatePayout(s, p, entries, event).0
    case DoTransitionPayout(id, status, reference, entries, event) =>
      TransitionPayout(s, id, status, reference, entries, event).0
    case DoCreateDispute(d, entries, event) => CreateDispute(s, d, entries, event).0
    case DoResolveDispute(id, status, entries, event) => ResolveDispute(s, id, status, entries, event).0
    case DoMarkPublished(id) => MarkPublished(s, id).0
    case DoRegisterWebhook(id) => RegisterWebhook(s, id).0
  }

  function ExecuteAll(ops: seq<Operation>): State {
    if ops == [] then EMPTY
    else Execute(ExecuteAll(ops[..|ops| - 1]), ops[|ops| - 1])
  }

  // The ledger entries handed over with an operation.
  function Handed(op: Operation): seq<LedgerEntry> {
    match op
    case DoAppendLedger(entries) => entries
    case DoCommit(cmd) => cmd.ledger
    case DoCreatePayout(_, entries, _) => entries
    case DoTransitionPayout(_, _, _, entries, _) => entries
    case DoCreateDispute(_, entries, _) => entries
    case DoResolveDispute(_, _, entries, _) => entries
    case _ => []
  }

  // The store accepts the entries of the operation.
  predicate Accepts(s: State, op: Operation) {
    Execute(s, op).ledger != s.ledger
  }

  // Entries that get in are the ones handed over, and they are balanced.
  lemma ExecuteAppends(s: State, op: Operation)
    ensures Accepts(s, op) ==> Balanced(Handed(op)) && Execute(s, op).ledger == s.ledger + Handed(op)
  {
  }

  /** Whatever is handed to the store, including raw ledger appends, the ledger as a whole has
      equal debits and credits: unbalanced entries never get in. */
  lemma {:induction false} GrandTotalConserved(ops: seq<Operation>)
    ensures Debits(ExecuteAll(ops).ledger) == Credits(ExecuteAll(ops).ledger)
  {
    if ops != [] {
      var before, after := ExecuteAll(ops[..|ops| - 1]), ExecuteAll(ops);
      GrandTotalConserved(ops[..|ops| - 1]);
      ExecuteAppends(before, ops[|ops| - 1]);
      if after.ledger != before.ledger {
        DebitsCreditsAppend(before.ledger, Handed(ops[|ops| - 1]));
      }
    }
  }

  /** The validator compares grand totals only: a raw append can move ten units of one currency
      into ten of another, so per-currency conservation needs the services' own entries. */
  lemma RawAppendBreaksCurrencies()
    ensures exists ops: seq<Operation> ::
              var ledger := ExecuteAll(ops).ledger;
              CurrencyDebits(ledger, "USD") != CurrencyCredits(ledger, "USD")
  {
    var d := LedgerEntry("1", "", "a", "USD", 10.0, 0.0);
    var c := LedgerEntry("2", "", "b", "EUR", 0.0, 10.0);
    var entries := [d, c];
    DebitsCreditsAppend([d], [c]);
    assert entries == [d] + [c];
    assert forall e: LedgerEntry :: Debits([e]) == e.debit && Credits([e]) == e.credit;
    assert Balanced(entries);
    var ops := [DoAppendLedger(entries)];
    assert ops[..0] == [] && ExecuteAll(ops[..0]) == EMPTY;
    assert ExecuteAll(ops).ledger == entries;
    assert entries[..1] == [d] && [d][..0] == [];
    assert d.currency[0] == 'U' && c.currency[0] == 'E';
    assert CurrencyDebits([d], "USD") == 10.0;
    assert CurrencyDebits(entries, "USD") == 10.0;
    assert CurrencyCredits([d], "USD") == 0.0;
    assert CurrencyCredits(entries, "USD") == 0.0;
  }

  // Debits equal credits in each currency by itself.
  ghost predicate PerCurrency(entries: seq<LedgerEntry>) {
    forall c :: CurrencyDebits(entries, c) == CurrencyCredits(entries, c)
  }

  lemma {:induction false} CurrencyTotalsAppend(l: seq<LedgerEntry>, m: seq<LedgerEntry>, c: string)
    ensures CurrencyDebits(l + m, c) == CurrencyDebits(l, c) + CurrencyDebits(m, c)
    ensures CurrencyCredits(l + m, c) == CurrencyCredits(l, c) + CurrencyCredits(m, c)
  {
    if m == [] {
      assert l + m == l;
    } else {
      var n := |m| - 1;
      CurrencyTotalsAppend(l, m[..n], c);
      assert (l + m)[..|l + m| - 1] == l + m[..n];
    }
  }

  lemma PerCurrencyAppend(l: seq<LedgerEntry>, m: seq<LedgerEntry>)
    requires PerCurrency(l)
    ensures PerCurrency(l + m) <==> PerCurrency(m)
  {
    forall c
      ensures CurrencyDebits(l + m, c) == CurrencyCredits(l + m, c) <==> CurrencyDebits(m, c) == CurrencyCredits(m, c)
    {
      CurrencyTotalsAppend(l, m, c);
    }
  }

  lemma NextPerCurrency(s: State, op: Operation)
    requires PerCurrency(s.ledger)
    ensures PerCurrency(Execute(s, op).ledger) <==> (Accepts(s, op) ==> PerCurrency(Handed(op)))
  {
    ExecuteAppends(s, op);
    PerCurrencyAppend(s.ledger, Handed(op));
  }

  // The ledger after the first `n` operations.
  function LedgerAt(ops: seq<Operation>, n: nat): seq<LedgerEntry>
    requires n <= |ops|
  {
    ExecuteAll(ops[..n]).ledger
  }

  // What the store accepts from operation `n` is balanced in each currency.
  ghost predicate BatchPerCurrency(ops: seq<Operation>, n: nat)
    requires n < |ops|
  {
    Accepts(ExecuteAll(ops[..n]), ops[n]) ==> PerCurrency(Handed(ops[n]))
  }

  lemma NextPoint(ops: seq<Operation>, n: nat)
    requires n < |ops| && PerCurrency(LedgerAt(ops, n))
    ensures PerCurrency(LedgerAt(ops, n + 1)) <==> BatchPerCurrency(ops, n)
  {
    var before := ops[..n];
    assert ops[..n + 1][..n] == before && ops[..n + 1][n] == ops[n];
    assert ExecuteAll(ops[..n + 1]) == Execute(ExecuteAll(before), ops[n]);
    NextPerCurrency(ExecuteAll(before), ops[n]);
  }

  /** Over any history with any arguments, each currency is conserved at every point exactly when
      every accepted batch is balanced in each currency. */
  lemma CurrenciesConservedIff(ops: seq<Operation>)
    ensures (forall n: nat :: n <= |ops| ==> PerCurrency(LedgerAt(ops, n)))
       <==> (forall n: nat :: n < |ops| ==> BatchPerCurrency(ops, n))
  {
    var good := (n: nat) => n <= |ops| && PerCurrency(LedgerAt(ops, n));
    var step := (n: nat) => n < |ops| && BatchPerCurrency(ops, n);
    forall n: nat | n < |ops| && good(n) ensures good(n + 1) <==> step(n) {
      NextPoint(ops, n);
    }
    AtEveryPointIff(|ops|, good, step);
    forall n: nat | n <= |ops| ensures good(n) <==> PerCurrency(LedgerAt(ops, n)) {}
    forall n: nat | n < |ops| ensures step(n) <==> BatchPerCurrency(ops, n) {}
  }

  /** A balanced pair is balanced in each currency exactly when its two entries share one. */
  lemma PairPerCurrencyIff(d: LedgerEntry, e: LedgerEntry)
    requires Balanced([d, e])
    ensures PerCurrency([d, e]) <==> d.currency == e.currency
  {
    DebitsCreditsAppend([d], [e]);
    assert [d, e] == [d] + [e] && OneSided([d, e][0]) && OneSided([d, e][1]);
    assert forall x: LedgerEntry :: Debits([x]) == x.debit && Credits([x]) == x.credit;
    forall c
      ensures CurrencyDebits([d, e], c)
              == (if d.currency == c then d.debit else 0.0) + (if e.currency == c then e.debit else 0.0)
      ensures CurrencyCredits([d, e], c)
              == (if d.currency == c then d.credit else 0.0) + (if e.currency == c then e.credit else 0.0)
    {
      CurrencyTotalsAppend([d], [e], c);
    }
    if PerCurrency([d, e]) {
      assert CurrencyDebits([d, e], d.currency) == CurrencyCredits([d, e], d.currency);
    }
  }
}
