/** Amounts written to PostgreSQL columns of type numeric(20, 6) are rounded half away from zero to
    six decimals. The services validate, build entries and announce events with the unrounded amount;
    only what is written to the amount columns is rounded, and the constraints on those columns apply
    to the rounded values. `RoundedRuns` runs the PostgreSQL machine on these operations. */
module Rounding {
  import opened Domain
  import opened Accounts
  import opened StoreSpec
  import opened ServiceSpec

  const SCALE := 1000000.0
  // numeric(20, 6) holds fewer than 10^20 millionths.
  const LIMIT := 100000000000000000000

  function Micros(x: real): int {
    if x >= 0.0 then (x * SCALE + 0.5).Floor else -((-x * SCALE + 0.5).Floor)
  }

  function Stored(x: real): real {
    Micros(x) as real / SCALE
  }

  // The column holds `x` as it is.
  predicate Exact(x: real) {
    Stored(x) == x
  }

  predicate Fits(x: real) {
    -LIMIT < Micros(x) < LIMIT
  }

  // ---------- the arithmetic of rounding ----------

  lemma MicrosOfExact(x: real)
    requires Exact(x)
    ensures x * SCALE == Micros(x) as real
  {
  }

  lemma StoredIsExact(x: real)
    ensures Exact(Stored(x))
  {
    var n := Micros(x);
    assert Stored(x) * SCALE == n as real;
    assert (n as real + 0.5).Floor == n && ((-n) as real + 0.5).Floor == -n;
  }

  lemma MicrosMonotone(x: real, y: real)
    requires x <= y
    ensures Micros(x) <= Micros(y)
  {
  }

  lemma StoredMonotone(x: real, y: real)
    requires x <= y
    ensures Stored(x) <= Stored(y)
  {
    MicrosMonotone(x, y);
  }

  /** Rounding the running total is adding the rounded amount. */
  lemma StoredShift(total: real, amount: real)
    requires Exact(total) && total >= 0.0 && amount >= 0.0
    ensures Stored(total + amount) == total + Stored(amount)
  {
    MicrosOfExact(total);
    var n := Micros(total);
    assert (total + amount) * SCALE + 0.5 == n as real + (amount * SCALE + 0.5);
    assert (n as real + (amount * SCALE + 0.5)).Floor == n + (amount * SCALE + 0.5).Floor;
  }

  lemma ExactSum(x: real, y: real)
    requires Exact(x) && Exact(y)
    ensures Exact(x + y) && Exact(x - y)
  {
    MicrosOfExact(x);
    MicrosOfExact(y);
    var m, n := Micros(x), Micros(y);
    assert x + y == (m + n) as real / SCALE && x - y == (m - n) as real / SCALE;
    ExactFraction(m + n);
    ExactFraction(m - n);
  }

  lemma ExactFraction(n: int)
    ensures Exact(n as real / SCALE)
  {
    assert (n as real / SCALE) * SCALE == n as real;
    assert (n as real + 0.5).Floor == n && ((-n) as real + 0.5).Floor == -n;
  }

  function Distance(x: real, y: real): real {
    if x <= y then y - x else x - y
  }

  /** The column holds the multiple of a millionth nearest to `x`; of two equally near ones, the one
      farther from zero. */
  lemma StoredIsNearest(x: real, n: int)
    ensures Stored(x) == Micros(x) as real / 1000000.0
    ensures var y := n as real / 1000000.0;
            && Distance(x, Stored(x)) <= Distance(x, y)
            && (Distance(x, Stored(x)) == Distance(x, y) && y != Stored(x) ==>
                  Distance(0.0, y) < Distance(0.0, Stored(x)))
  {
    var m, y := Micros(x), n as real / 1000000.0;
    assert Stored(x) == m as real / 1000000.0;
    assert y * SCALE == n as real && Stored(x) * SCALE == m as real;
    if x >= 0.0 {
      assert m as real <= x * SCALE + 0.5 < m as real + 1.0;
      if n > m { assert n as real >= m as real + 1.0; }
      if n < m { assert n as real <= m as real - 1.0; }
    } else {
      assert -(m as real) <= -x * SCALE + 0.5 < -(m as real) + 1.0;
      if n > m { assert n as real >= m as real + 1.0; }
      if n < m { assert n as real <= m as real - 1.0; }
    }
  }

  /** A numeric(20, 6) column takes exactly what rounds to fewer than fifteen digits before the point. */
  lemma FitsIff(x: real)
    ensures Fits(x) <==> -100000000000000.0 < Stored(x) < 100000000000000.0
  {
    assert Stored(x) * SCALE == Micros(x) as real;
    assert 100000000000000.0 * SCALE == LIMIT as real;
  }

  lemma StoredNearby(x: real)
    requires x >= 0.0
    ensures 2.0 * SCALE * Stored(x) <= 2.0 * SCALE * x + 1.0
    ensures Stored(x) >= 0.0
  {
    assert Stored(x) * SCALE == Micros(x) as real;
    assert Micros(x) as real <= x * SCALE + 0.5;
    MicrosMonotone(0.0, x);
  }

  lemma ExactPositive(x: real)
    requires Exact(x) && x > 0.0
    ensures x * SCALE >= 1.0
  {
    MicrosOfExact(x);
    assert Micros(x) as real > 0.0;
  }

  // ---------- what a transaction writes ----------

  function StoredEntry(e: LedgerEntry): LedgerEntry {
    e.(debit := Stored(e.debit), credit := Stored(e.credit))
  }

  function StoredEntries(entries: seq<LedgerEntry>): seq<LedgerEntry> {
    seq(|entries|, i requires 0 <= i < |entries| => StoredEntry(entries[i]))
  }

  // The CHECK constraints and the column width on each row of ledger_entries.
  predicate EntriesAdmitted(entries: seq<LedgerEntry>) {
    forall i :: 0 <= i < |entries| ==>
      OneSided(StoredEntry(entries[i])) && Fits(entries[i].debit) && Fits(entries[i].credit)
  }

  // The CHECK (amount > 0) and the column width of payments, payouts and disputes.
  predicate AmountAdmitted(x: real) {
    Stored(x) > 0.0 && Fits(x)
  }

  function StoredRow(p: Payment): Payment {
    p.(captured := Stored(p.captured), refunded := Stored(p.refunded))
  }

  // payment_amount_invariants.
  predicate RowAdmitted(p: Payment) {
    0.0 <= p.refunded <= p.captured <= p.amount
  }

  // CommitPaymentCommand of the PostgreSQL store: all or nothing. The answer is the unrounded row.
  function PgCommit(s: State, cmd: PaymentCommand): (State, Result<Payment>) {
    if cmd.paymentId !in s.payments then (s, Err(NotFound))
    else
      var row := CommandRow(s.payments[cmd.paymentId], cmd);
      if row.Err? then (s, row)
      else
        var p := StoredRow(row.value);
        if !RowAdmitted(p) || !EntriesAdmitted(cmd.ledger) then (s, Err(ConstraintViolation))
        else (s.(payments := s.payments[p.id := p],
                 ledger := s.ledger + StoredEntries(cmd.ledger),
                 outbox := s.outbox[cmd.event.id := cmd.event.(aggregateId := p.id)]), row)
  }

  // The write half of CreatePayout.
  function PgInsertPayout(s: State, p: Payout, entries: seq<LedgerEntry>, event: OutboxEvent): State {
    InsertPayout(s, p.(amount := Stored(p.amount)), StoredEntries(entries), event)
  }

  function PgTransitionPayout(s: State, id: string, status: PayoutStatus, reference: string,
                              entries: seq<LedgerEntry>, event: OutboxEvent): (State, Result<Payout>) {
    var (s', r) := TransitionPayout(s, id, status, reference, entries, event);
    if r.Err? then (s, r)
    else if !EntriesAdmitted(entries) then (s, Err(ConstraintViolation))
    else (s'.(ledger := s.ledger + StoredEntries(entries)), r)
  }

  function PgCreateDispute(s: State, d: Dispute, entries: seq<LedgerEntry>,
                           event: OutboxEvent): (State, Result<Dispute>) {
    var (s', r) := StoreSpec.CreateDispute(s, d, entries, event);
    if r.Err? then (s, r)
    else if !AmountAdmitted(d.amount) || !EntriesAdmitted(entries) then (s, Err(ConstraintViolation))
    else (s'.(disputes := s.disputes[d.id := d.(amount := Stored(d.amount))],
              ledger := s.ledger + StoredEntries(entries)), r)
  }

  function PgResolveDispute(s: State, id: string, status: DisputeStatus,
                            entries: seq<LedgerEntry>, event: OutboxEvent): (State, Result<Dispute>) {
    var (s', r) := ResolveDispute(s, id, status, entries, event);
    if r.Err? then (s, r)
    else if !EntriesAdmitted(entries) then (s, Err(ConstraintViolation))
    else (s'.(ledger := s.ledger + StoredEntries(entries)), r)
  }

  // The store command a call ends with, and whether it commits.
  function StoredCommit(s: State, call: Call, reference: string, ids: Ids): (State, bool) {
    match call
    case Authorizing(id, p) => var (s', r) := PgCommit(s, AuthorizeCommand(id, p, reference, ids)); (s', r.Ok?)
    case Capturing(id, p, amount) => var (s', r) := PgCommit(s, CaptureCommand(id, p, amount, ids)); (s', r.Ok?)
    case Refunding(id, p, amount) => var (s', r) := PgCommit(s, RefundCommand(id, p, amount, ids)); (s', r.Ok?)
    case Completing(id, p, ref, success) =>
      var (s', r) := PgTransitionPayout(s, id, CompletedStatus(success), ref, CompleteEntries(p, success, ids),
                                        CompleteEvent(id, p, ref, success, ids));
      (s', r.Ok?)
    case Opening(id, p, reason, amount) =>
      var d := NewDispute(id, p.merchantId, p.currency, reason, amount, ids.record);
      if d.Err? then (s, false)
      else
        var (s', r) := PgCreateDispute(s, d.value, OpenEntries(id, p, amount, ids), OpenEvent(d.value, ids));
        (s', r.Ok?)
    case Resolving(id, d, merchantWins) =>
      var (s', r) := PgResolveDispute(s, id, ResolvedStatus(merchantWins), ResolveEntries(d, merchantWins, ids),
                                      ResolveEvent(id, d, merchantWins, ids));
      (s', r.Ok?)
  }

  // ---------- what the tables hold ----------

  // A row as the database holds it.
  predicate StoredPayment(p: Payment) {
    && Exact(p.amount) && Exact(p.captured) && Exact(p.refunded)
    && 0.0 <= p.refunded <= p.captured <= p.amount && p.amount > 0.0 && Fits(p.amount)
  }

  predicate ExactEntries(entries: seq<LedgerEntry>) {
    forall i :: 0 <= i < |entries| ==> Exact(entries[i].debit) && Exact(entries[i].credit)
  }

  ghost predicate StoredTables(s: State) {
    && (forall id :: id in s.payments ==> s.payments[id].id == id && StoredPayment(s.payments[id]))
    && (forall id :: id in s.payouts ==>
          s.payouts[id].id == id && Exact(s.payouts[id].amount) && Fits(s.payouts[id].amount))
    && (forall id :: id in s.disputes ==>
          s.disputes[id].id == id && Exact(s.disputes[id].amount) && Fits(s.disputes[id].amount))
    && ExactEntries(s.ledger)
  }

  // A call that read such a row and passed the checks of its service.
  predicate StoredCall(call: Call) {
    match call
    case Authorizing(id, p) => p.id == id && StoredPayment(p)
    case Capturing(id, p, amount) => p.id == id && StoredPayment(p) && ValidCapture(p, amount)
    case Refunding(id, p, amount) => p.id == id && StoredPayment(p) && ValidRefund(p, amount)
    case Completing(id, p, _, _) => p.id == id && Exact(p.amount) && Fits(p.amount)
    case Opening(_, p, _, amount) => StoredPayment(p) && Disputable(p, amount)
    case Resolving(id, d, _) => d.id == id && Exact(d.amount) && Fits(d.amount)
  }

  lemma StoredPair(paymentId: string, from: Account, to: Account, currency: string, amount: real, ids: Ids)
    ensures StoredEntries(Pair(paymentId, from, to, currency, amount, ids))
         == Pair(paymentId, from, to, currency, Stored(amount), ids)
  {
    var pair := Pair(paymentId, from, to, currency, amount, ids);
    assert Micros(0.0) == 0 && Stored(0.0) == 0.0;
    assert StoredEntries(pair)[0] == StoredEntry(pair[0]) && StoredEntries(pair)[1] == StoredEntry(pair[1]);
  }

  lemma PairAdmitted(paymentId: string, from: Account, to: Account, currency: string, amount: real, ids: Ids)
    requires amount >= 0.0
    ensures EntriesAdmitted(Pair(paymentId, from, to, currency, amount, ids)) <==> AmountAdmitted(amount)
  {
    var pair := Pair(paymentId, from, to, currency, amount, ids);
    assert Micros(0.0) == 0 && Stored(0.0) == 0.0 && Fits(0.0);
    MicrosMonotone(0.0, amount);
    if EntriesAdmitted(pair) {
      assert OneSided(StoredEntry(pair[0])) && Fits(pair[0].debit);
    }
  }

  lemma PairExact(paymentId: string, from: Account, to: Account, currency: string, amount: real, ids: Ids)
    ensures ExactEntries(Pair(paymentId, from, to, currency, Stored(amount), ids))
  {
    StoredIsExact(amount);
    assert Micros(0.0) == 0;
  }

  lemma ExactAppend(l: seq<LedgerEntry>, m: seq<LedgerEntry>)
    requires ExactEntries(l) && ExactEntries(m)
    ensures ExactEntries(l + m)
  {
  }

  lemma {:induction false} BalanceIsExact(ledger: seq<LedgerEntry>, account: string, currency: string)
    requires ExactEntries(ledger)
    ensures Exact(Balance(ledger, account, currency))
  {
    if ledger == [] {
      assert Micros(0.0) == 0;
    } else {
      var e := ledger[|ledger| - 1];
      BalanceIsExact(ledger[..|ledger| - 1], account, currency);
      ExactSum(e.credit, e.debit);
      ExactSum(Balance(ledger[..|ledger| - 1], account, currency), e.credit - e.debit);
    }
  }

  // An amount that fits into what is left of a stored total still does when rounded.
  lemma RoundedFits(total: real, amount: real, limit: real)
    requires Exact(total) && Exact(limit) && Fits(limit) && 0.0 <= total && 0.0 < amount && total + amount <= limit
    ensures Stored(total + amount) == total + Stored(amount) <= limit
    ensures Stored(amount) >= 0.0 && Fits(amount)
  {
    StoredShift(total, amount);
    StoredMonotone(total + amount, limit);
    MicrosMonotone(0.0, amount);
    MicrosMonotone(amount, limit);
  }

  lemma FitsBelow(x: real, limit: real)
    requires 0.0 <= x <= limit && Fits(limit)
    ensures Fits(x)
  {
    MicrosMonotone(0.0, x);
    MicrosMonotone(x, limit);
  }

  // ---------- captures and refunds ----------

  // A capture or refund as the service builds it from a row it read.
  predicate BuiltBy(cmd: PaymentCommand, paymentId: string, from: Account, to: Account, currency: string, ids: Ids) {
    && (cmd.status.Captured? || cmd.status.Refunded?)
    && cmd.ledger == Pair(paymentId, from, to, currency, cmd.amount, ids)
  }

  function RoundedCommand(cmd: PaymentCommand): PaymentCommand {
    cmd.(amount := Stored(cmd.amount), ledger := StoredEntries(cmd.ledger))
  }

  lemma CaptureRounded(p: Payment, amount: real)
    requires StoredPayment(p) && ValidCapture(p, amount)
    ensures Stored(p.captured + amount) == p.captured + Stored(amount) <= p.amount
    ensures Stored(amount) >= 0.0 && Fits(amount) && Exact(p.captured + Stored(amount))
  {
    RoundedFits(p.captured, amount, p.amount);
    StoredIsExact(p.captured + amount);
  }

  lemma RefundRounded(p: Payment, amount: real)
    requires StoredPayment(p) && ValidRefund(p, amount)
    ensures Stored(p.refunded + amount) == p.refunded + Stored(amount) <= p.captured
    ensures Stored(amount) >= 0.0 && Fits(amount) && Exact(p.refunded + Stored(amount))
  {
    FitsBelow(p.captured, p.amount);
    RoundedFits(p.refunded, amount, p.captured);
    StoredIsExact(p.refunded + amount);
  }

  /** A capture or refund that the current row accepts commits exactly when its amount does not round
      to zero; otherwise nothing at all is written. */
  lemma CommitsIffNotRoundedAway(s: State, cmd: PaymentCommand, paymentId: string, from: Account, to: Account,
                                 currency: string, ids: Ids)
    requires BuiltBy(cmd, paymentId, from, to, currency, ids)
    requires cmd.paymentId in s.payments && StoredPayment(s.payments[cmd.paymentId])
    requires CommandRow(s.payments[cmd.paymentId], cmd).Ok?
    ensures PgCommit(s, cmd).1.Ok? <==> Stored(cmd.amount) > 0.0
    ensures PgCommit(s, cmd).1.Err? ==> PgCommit(s, cmd).0 == s
  {
    var p := s.payments[cmd.paymentId];
    if cmd.status.Captured? { CaptureRounded(p, cmd.amount); } else { RefundRounded(p, cmd.amount); }
    PairAdmitted(paymentId, from, to, currency, cmd.amount, ids);
  }

  lemma RoundedCapture(p: Payment, cmd: PaymentCommand)
    requires cmd.status.Captured? && StoredPayment(p) && CommandRow(p, cmd).Ok? && Stored(cmd.amount) > 0.0
    requires Balanced(StoredEntries(cmd.ledger))
    ensures CommandRow(p, RoundedCommand(cmd)) == Ok(StoredRow(CommandRow(p, cmd).value))
    ensures StoredPayment(StoredRow(CommandRow(p, cmd).value))
  {
    CaptureRounded(p, cmd.amount);
  }

  lemma RoundedRefund(p: Payment, cmd: PaymentCommand)
    requires cmd.status.Refunded? && StoredPayment(p) && CommandRow(p, cmd).Ok? && Stored(cmd.amount) > 0.0
    requires Balanced(StoredEntries(cmd.ledger))
    ensures CommandRow(p, RoundedCommand(cmd)) == Ok(StoredRow(CommandRow(p, cmd).value))
    ensures StoredPayment(StoredRow(CommandRow(p, cmd).value))
  {
    RefundRounded(p, cmd.amount);
  }

  // A capture or refund that commits writes what the in-memory store writes for the rounded amount.
  lemma PgCommitRefines(s: State, cmd: PaymentCommand, paymentId: string, from: Account, to: Account,
                        currency: string, ids: Ids)
    requires BuiltBy(cmd, paymentId, from, to, currency, ids)
    requires cmd.paymentId in s.payments && StoredPayment(s.payments[cmd.paymentId])
    requires PgCommit(s, cmd).1.Ok?
    ensures Stored(cmd.amount) > 0.0
    ensures CommitPaymentCommand(s, RoundedCommand(cmd)).1.Ok?
    ensures PgCommit(s, cmd).0 == CommitPaymentCommand(s, RoundedCommand(cmd)).0
    ensures StoredPayment(CommitPaymentCommand(s, RoundedCommand(cmd)).1.value)
  {
    var p := s.payments[cmd.paymentId];
    CommitsIffNotRoundedAway(s, cmd, paymentId, from, to, currency, ids);
    StoredPair(paymentId, from, to, currency, cmd.amount, ids);
    PairBalanced(paymentId, from, to, currency, Stored(cmd.amount), ids);
    if cmd.status.Captured? { RoundedCapture(p, cmd); } else { RoundedRefund(p, cmd); }
  }
}
