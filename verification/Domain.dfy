/** The records of internal/domain/payment.go and the checks they carry.
    Decimal amounts are reals: `decimal.Decimal` adds, subtracts and compares exactly, and
    every decimal is a real, so a law over all reals holds for all decimals. */
module Domain {

  datatype Option<+T> = None | Some(value: T)

  datatype Result<+T> = Ok(value: T) | Err(error: Error)

  datatype Error =
    | NotFound
    | MissingKey
    | InvalidPayment
    | InvalidTransition
    | CaptureExceedsAuthorized
    | RefundExceedsCaptured
    | TooFewEntries
    | EntryNotOneSided
    | Unbalanced
    | InsufficientBalance
    | InvalidPayout
    | PayoutResolved
    | InvalidPayoutStatus
    | InvalidDispute
    | DisputeExceedsSettled
    | DisputeExists
    | DisputeResolved
    | InvalidDisputeStatus
    | RiskBlocked
    | ProviderError
    | PublishFailed
    | ConstraintViolation

  datatype PaymentStatus = Created | Authorized | Captured | Refunded | Failed

  datatype Payment = Payment(
    id: string, merchantId: string, customerId: string, currency: string,
    amount: real, captured: real, refunded: real,
    status: PaymentStatus, providerReference: string)

  // The zero value Go's map lookup yields for a missing key.
  const ZERO_PAYMENT := Payment("", "", "", "", 0.0, 0.0, 0.0, Created, "")

  datatype CreatePayment = CreatePayment(
    merchantId: string, customerId: string, currency: string, amount: real)

  datatype LedgerEntry = LedgerEntry(
    id: string, paymentId: string, accountId: string, currency: string, debit: real, credit: real)

  datatype PayoutStatus = PayoutPending | PayoutPaid | PayoutFailed

  datatype Payout = Payout(
    id: string, merchantId: string, currency: string, amount: real,
    providerReference: string, status: PayoutStatus)

  datatype DisputeStatus = DisputeOpen | DisputeWon | DisputeLost

  datatype Dispute = Dispute(
    id: string, paymentId: string, merchantId: string, currency: string, reason: string,
    amount: real, status: DisputeStatus)

  datatype EventType =
    | PaymentAuthorizedEvent | PaymentCapturedEvent | PaymentRefundedEvent
    | PayoutCreatedEvent | PayoutPaidEvent | PayoutFailedEvent
    | DisputeOpenedEvent | DisputeWonEvent | DisputeLostEvent

  // The record that the services serialise into an event.
  datatype Payload =
    | OfPayment(payment: Payment)
    | OfPayout(payout: Payout)
    | OfDispute(dispute: Dispute)

  datatype OutboxEvent = OutboxEvent(
    id: string, aggregateId: string, eventType: EventType, payload: Payload, published: bool)

  datatype PaymentCommand = PaymentCommand(
    paymentId: string, providerReference: string, status: PaymentStatus, amount: real,
    ledger: seq<LedgerEntry>, event: OutboxEvent)

  // ---------- strings ----------

  predicate IsSpace(c: char) {
    || c in {'\t', '\n', '\U{B}', '\U{C}', '\r', ' ', '\U{85}', '\U{A0}', '\U{1680}'}
    || '\U{2000}' <= c <= '\U{200A}'
    || c in {'\U{2028}', '\U{2029}', '\U{202F}', '\U{205F}', '\U{3000}'}
  }

  // strings.TrimSpace(s) == ""
  predicate IsBlank(s: string) {
    forall i :: 0 <= i < |s| ==> IsSpace(s[i])
  }

  function UpperChar(c: char): char {
    if 'a' <= c <= 'z' then ((c as int) - 32) as char else c
  }

  function ToUpper(s: string): (r: string)
    ensures |r| == |s|
    ensures forall i :: 0 <= i < |s| ==> r[i] == UpperChar(s[i])
  {
    seq(|s|, i requires 0 <= i < |s| => UpperChar(s[i]))
  }

  /** The dispute record upper-cases a currency that was upper-cased once already, while the
      ledger entries of the same dispute do not. */
  lemma ToUpperIdempotent(s: string)
    ensures ToUpper(ToUpper(s)) == ToUpper(s)
  {
    var once := ToUpper(s);
    assert forall i :: 0 <= i < |s| ==> UpperChar(once[i]) == once[i];
    assert ToUpper(once) == once;
  }

  /** Upper-casing keeps the length, turns each small ASCII letter into the capital of the same place in
      the alphabet, leaves everything else alone, and so leaves no small letter. */
  lemma ToUpperMeans(s: string, i: nat)
    requires i < |s|
    ensures |ToUpper(s)| == |s|
    ensures 'a' <= s[i] <= 'z' ==>
              'A' <= ToUpper(s)[i] <= 'Z' && ToUpper(s)[i] as int - 'A' as int == s[i] as int - 'a' as int
    ensures !('a' <= s[i] <= 'z') ==> ToUpper(s)[i] == s[i]
    ensures !('a' <= ToUpper(s)[i] <= 'z')
  {
  }

  // ---------- constructors ----------

  function NewPayment(input: CreatePayment, id: string): (r: Result<Payment>)
    ensures r.Ok? ==> r.value.amount > 0.0 && r.value.captured == r.value.refunded == 0.0
    ensures r.Ok? ==> |r.value.currency| == 3 && ToUpper(r.value.currency) == r.value.currency
  {
    ToUpperIdempotent(input.currency);
    if IsBlank(input.merchantId) || IsBlank(input.customerId) then Err(InvalidPayment)
    else if |input.currency| != 3 then Err(InvalidPayment)
    else if !(input.amount > 0.0) then Err(InvalidPayment)
    else Ok(Payment(id, input.merchantId, input.customerId, ToUpper(input.currency),
                    input.amount, 0.0, 0.0, Created, ""))
  }

  function NewPayout(merchant: string, currency: string, amount: real, id: string): (r: Result<Payout>)
    ensures r.Ok? ==> r.value.amount > 0.0 && r.value.status == PayoutPending
  {
    if merchant == "" || |currency| != 3 || !(amount > 0.0) then Err(InvalidPayout)
    else Ok(Payout(id, merchant, ToUpper(currency), amount, "", PayoutPending))
  }

  function NewDispute(paymentId: string, merchant: string, currency: string, reason: string,
                      amount: real, id: string): (r: Result<Dispute>)
    ensures r.Ok? ==> r.value.amount > 0.0 && r.value.status == DisputeOpen
  {
    if paymentId == "" || merchant == "" || |currency| != 3 || reason == "" || !(amount > 0.0)
    then Err(InvalidDispute)
    else Ok(Dispute(id, paymentId, merchant, ToUpper(currency), reason, amount, DisputeOpen))
  }

  // ---------- the payment state machine ----------

  predicate CanTransition(from: PaymentStatus, to: PaymentStatus) {
    match from
    case Created => to.Authorized? || to.Failed?
    case Authorized => to.Captured? || to.Failed?
    case Captured => to.Captured? || to.Refunded?
    case Refunded => to.Refunded?
    case Failed => false
  }

  predicate ValidCapture(p: Payment, amount: real) {
    amount > 0.0 && p.captured + amount <= p.amount
  }

  predicate ValidRefund(p: Payment, amount: real) {
    amount > 0.0 && p.refunded + amount <= p.captured
  }

  // ---------- balanced ledger transactions ----------

  predicate OneSided(e: LedgerEntry) {
    e.debit >= 0.0 && e.credit >= 0.0 && (e.debit == 0.0) != (e.credit == 0.0)
  }

  function Debits(entries: seq<LedgerEntry>): real {
    if entries == [] then 0.0
    else Debits(entries[..|entries| - 1]) + entries[|entries| - 1].debit
  }

  function Credits(entries: seq<LedgerEntry>): real {
    if entries == [] then 0.0
    else Credits(entries[..|entries| - 1]) + entries[|entries| - 1].credit
  }

  predicate Balanced(entries: seq<LedgerEntry>) {
    && |entries| >= 2
    && (forall i :: 0 <= i < |entries| ==> OneSided(entries[i]))
    && Debits(entries) == Credits(entries)
  }

  function BalanceError(entries: seq<LedgerEntry>): Error {
    if |entries| < 2 then TooFewEntries
    else if exists i :: 0 <= i < |entries| && !OneSided(entries[i]) then EntryNotOneSided
    else Unbalanced
  }

  /** The loop of ValidateBalanced accepts exactly the balanced transactions. */
  method ValidateBalanced(entries: seq<LedgerEntry>) returns (error: Option<Error>)
    ensures error.None? <==> Balanced(entries)
    ensures error.Some? ==> error.value == BalanceError(entries)
    ensures error == Some(TooFewEntries) <==> |entries| < 2
    ensures error == Some(EntryNotOneSided)
       <==> |entries| >= 2 && exists i :: && 0 <= i < |entries|
                                          && (entries[i].debit < 0.0 || entries[i].credit < 0.0
                                              || (entries[i].debit == 0.0) == (entries[i].credit == 0.0))
    ensures error == Some(Unbalanced) ==> Debits(entries) != Credits(entries)
  {
    if |entries| < 2 {
      return Some(TooFewEntries);
    }
    var debit, credit := 0.0, 0.0;
    for i := 0 to |entries|
      invariant debit == Debits(entries[..i]) && credit == Credits(entries[..i])
      invariant forall j :: 0 <= j < i ==> OneSided(entries[j])
    {
      var entry := entries[i];
      if entry.debit < 0.0 || entry.credit < 0.0 || (entry.debit == 0.0) == (entry.credit == 0.0) {
        assert !OneSided(entries[i]);
        assert entries[i].debit < 0.0 || entries[i].credit < 0.0
            || (entries[i].debit == 0.0) == (entries[i].credit == 0.0);
        return Some(EntryNotOneSided);
      }
      assert entries[..i + 1][..i] == entries[..i];
      debit := debit + entry.debit;
      credit := credit + entry.credit;
    }
    assert entries[..|entries|] == entries;
    assert forall i :: 0 <= i < |entries| ==> OneSided(entries[i]);
    if debit != credit {
      return Some(Unbalanced);
    }
    return None;
  }

  lemma {:induction false} TotalsPositive(entries: seq<LedgerEntry>)
    requires forall i :: 0 <= i < |entries| ==> OneSided(entries[i])
    ensures Debits(entries) >= 0.0 && Credits(entries) >= 0.0
    ensures Debits(entries) > 0.0 <==> exists i :: 0 <= i < |entries| && entries[i].debit > 0.0
    ensures Credits(entries) > 0.0 <==> exists i :: 0 <= i < |entries| && entries[i].credit > 0.0
  {
    if entries != [] {
      var n := |entries| - 1;
      TotalsPositive(entries[..n]);
      assert forall i :: 0 <= i < n ==> entries[..n][i] == entries[i];
      assert entries[n].debit > 0.0 ==> exists i :: 0 <= i < |entries| && entries[i].debit > 0.0;
      assert entries[n].credit > 0.0 ==> exists i :: 0 <= i < |entries| && entries[i].credit > 0.0;
    }
  }

  /** What the validator lets through moves money from somewhere to somewhere: every entry has exactly one
      positive side and no negative one, and both sides occur. */
  lemma BalancedMeans(entries: seq<LedgerEntry>)
    requires Balanced(entries)
    ensures forall i :: 0 <= i < |entries| ==>
              || (entries[i].debit > 0.0 && entries[i].credit == 0.0)
              || (entries[i].debit == 0.0 && entries[i].credit > 0.0)
    ensures exists i, j :: && 0 <= i < |entries| && 0 <= j < |entries| && i != j
                           && entries[i].debit > 0.0 && entries[j].credit > 0.0
  {
    TotalsPositive(entries);
    var first := entries[0];
    assert OneSided(first);
    if first.debit > 0.0 {
      var j :| 0 <= j < |entries| && entries[j].credit > 0.0;
      assert OneSided(entries[j]) && j != 0;
    } else {
      var i :| 0 <= i < |entries| && entries[i].debit > 0.0;
      assert OneSided(entries[i]) && i != 0;
    }
  }

  lemma {:induction false} DebitsCreditsAppend(l: seq<LedgerEntry>, m: seq<LedgerEntry>)
    ensures Debits(l + m) == Debits(l) + Debits(m)
    ensures Credits(l + m) == Credits(l) + Credits(m)
  {
    if m == [] {
      assert l + m == l;
    } else {
      var n := |m| - 1;
      DebitsCreditsAppend(l, m[..n]);
      assert (l + m)[..|l + m| - 1] == l + m[..n];
    }
  }
}
