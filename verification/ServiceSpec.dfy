/** What the services of internal/service build from the record they read: the ledger pair, the
    event and the store command. `Ids` stands for the UUIDs drawn by one call. */
module ServiceSpec {
  import opened Domain
  import opened Accounts
  import opened StoreSpec

  // ---------- payments ----------

  // The snapshot that `commit` serialises into the event.
  function Expected(p: Payment, status: PaymentStatus, amount: real, reference: string): Payment {
    p.(status := status, providerReference := reference,
       captured := if status.Captured? then p.captured + amount else p.captured,
       refunded := if status.Refunded? then p.refunded + amount else p.refunded)
  }

  function CommandOf(p: Payment, status: PaymentStatus, amount: real, reference: string,
                     entries: seq<LedgerEntry>, eventType: EventType, ids: Ids): PaymentCommand
  {
    PaymentCommand(p.id, reference, status, amount, entries,
                   OutboxEvent(ids.event, p.id, eventType, OfPayment(Expected(p, status, amount, reference)), false))
  }

  function AuthorizeCommand(id: string, p: Payment, reference: string, ids: Ids): PaymentCommand {
    CommandOf(p, Authorized, 0.0, reference,
              Pair(id, CustomerPending, MerchantPending(p.merchantId), p.currency, p.amount, ids),
              PaymentAuthorizedEvent, ids)
  }

  function CaptureCommand(id: string, p: Payment, amount: real, ids: Ids): PaymentCommand {
    CommandOf(p, Captured, amount, p.providerReference,
              Pair(id, MerchantPending(p.merchantId), MerchantAvailable(p.merchantId), p.currency, amount, ids),
              PaymentCapturedEvent, ids)
  }

  function RefundCommand(id: string, p: Payment, amount: real, ids: Ids): PaymentCommand {
    CommandOf(p, Refunded, amount, p.providerReference,
              Pair(id, MerchantAvailable(p.merchantId), CustomerRefunded, p.currency, amount, ids),
              PaymentRefundedEvent, ids)
  }

  // ---------- payouts ----------

  function PayoutEntries(p: Payout, ids: Ids): seq<LedgerEntry> {
    Pair("", MerchantAvailable(p.merchantId), MerchantPayoutPending(p.merchantId), p.currency, p.amount, ids)
  }

  function PayoutEvent(p: Payout, ids: Ids): OutboxEvent {
    OutboxEvent(ids.event, p.id, PayoutCreatedEvent, OfPayout(p), false)
  }

  function CompletedStatus(success: bool): PayoutStatus {
    if success then PayoutPaid else PayoutFailed
  }

  function CompleteEntries(p: Payout, success: bool, ids: Ids): seq<LedgerEntry> {
    Pair("", MerchantPayoutPending(p.merchantId),
         if success then ProviderPayoutSettled else MerchantAvailable(p.merchantId), p.currency, p.amount, ids)
  }

  function CompleteEvent(id: string, p: Payout, reference: string, success: bool, ids: Ids): OutboxEvent {
    OutboxEvent(ids.event, id, if success then PayoutPaidEvent else PayoutFailedEvent,
                OfPayout(p.(status := CompletedStatus(success), providerReference := reference)), false)
  }

  // ---------- disputes ----------

  predicate Disputable(p: Payment, amount: real) {
    amount > 0.0 && amount <= p.captured - p.refunded
  }

  function OpenEntries(id: string, p: Payment, amount: real, ids: Ids): seq<LedgerEntry> {
    Pair(id, MerchantAvailable(p.merchantId), MerchantDisputeFrozen(p.merchantId), p.currency, amount, ids)
  }

  function OpenEvent(d: Dispute, ids: Ids): OutboxEvent {
    OutboxEvent(ids.event, d.id, DisputeOpenedEvent, OfDispute(d), false)
  }

  function ResolvedStatus(merchantWins: bool): DisputeStatus {
    if merchantWins then DisputeWon else DisputeLost
  }

  function ResolveEntries(d: Dispute, merchantWins: bool, ids: Ids): seq<LedgerEntry> {
    Pair(d.paymentId, MerchantDisputeFrozen(d.merchantId),
         if merchantWins then MerchantAvailable(d.merchantId) else CustomerChargeback, d.currency, d.amount, ids)
  }

  function ResolveEvent(id: string, d: Dispute, merchantWins: bool, ids: Ids): OutboxEvent {
    OutboxEvent(ids.event, id, if merchantWins then DisputeWonEvent else DisputeLostEvent,
                OfDispute(d.(status := ResolvedStatus(merchantWins))), false)
  }

  // ---------- calls in flight ----------

  // A service call between its unlocked read and its store command: it holds what it read.
  datatype Call =
    | Authorizing(id: string, payment: Payment)
    | Capturing(id: string, payment: Payment, amount: real)
    | Refunding(id: string, payment: Payment, amount: real)
    | Completing(id: string, payout: Payout, reference: string, success: bool)
    | Opening(id: string, payment: Payment, reason: string, amount: real)
    | Resolving(id: string, dispute: Dispute, merchantWins: bool)

  // The store command a call ends with. `reference` is what the provider answered to Authorize.
  function CommitCall(s: State, call: Call, reference: string, ids: Ids): State {
    match call
    case Authorizing(id, p) => CommitPaymentCommand(s, AuthorizeCommand(id, p, reference, ids)).0
    case Capturing(id, p, amount) => CommitPaymentCommand(s, CaptureCommand(id, p, amount, ids)).0
    case Refunding(id, p, amount) => CommitPaymentCommand(s, RefundCommand(id, p, amount, ids)).0
    case Completing(id, p, ref, success) =>
      TransitionPayout(s, id, CompletedStatus(success), ref, CompleteEntries(p, success, ids),
                       CompleteEvent(id, p, ref, success, ids)).0
    case Opening(id, p, reason, amount) =>
      var d := NewDispute(id, p.merchantId, p.currency, reason, amount, ids.record);
      if d.Err? then s
      else CreateDispute(s, d.value, OpenEntries(id, p, amount, ids), OpenEvent(d.value, ids)).0
    case Resolving(id, d, merchantWins) =>
      ResolveDispute(s, id, ResolvedStatus(merchantWins), ResolveEntries(d, merchantWins, ids),
                     ResolveEvent(id, d, merchantWins, ids)).0
  }

  // The store accepts the command the call ends with.
  predicate Commits(s: State, call: Call, reference: string, ids: Ids) {
    match call
    case Authorizing(id, p) => CommitPaymentCommand(s, AuthorizeCommand(id, p, reference, ids)).1.Ok?
    case Capturing(id, p, amount) => CommitPaymentCommand(s, CaptureCommand(id, p, amount, ids)).1.Ok?
    case Refunding(id, p, amount) => CommitPaymentCommand(s, RefundCommand(id, p, amount, ids)).1.Ok?
    case Completing(id, p, ref, success) =>
      TransitionPayout(s, id, CompletedStatus(success), ref, CompleteEntries(p, success, ids),
                       CompleteEvent(id, p, ref, success, ids)).1.Ok?
    case Opening(id, p, reason, amount) =>
      var d := NewDispute(id, p.merchantId, p.currency, reason, amount, ids.record);
      d.Ok? && CreateDispute(s, d.value, OpenEntries(id, p, amount, ids), OpenEvent(d.value, ids)).1.Ok?
    case Resolving(id, d, merchantWins) =>
      ResolveDispute(s, id, ResolvedStatus(merchantWins), ResolveEntries(d, merchantWins, ids),
                     ResolveEvent(id, d, merchantWins, ids)).1.Ok?
  }

  // ---------- whole calls, read and command back to back ----------

  // What the risk engine says, if there is one.
  datatype Risk = NoEngine | EngineError | Blocked | Allowed

  function AuthorizeCall(s: State, id: string, risk: Risk, answer: Option<string>, ids: Ids): (State, Result<Payment>) {
    if id !in s.payments then (s, Err(NotFound))
    else if risk.EngineError? then (s, Err(ProviderError))
    else if risk.Blocked? then (Transition(s, id, Failed, "risk_blocked").0, Err(RiskBlocked))
    else if answer.None? then (Transition(s, id, Failed, "provider_error").0, Err(ProviderError))
    else CommitPaymentCommand(s, AuthorizeCommand(id, s.payments[id], answer.value, ids))
  }

  function CaptureCall(s: State, id: string, amount: real, providerOk: bool, ids: Ids): (State, Result<Payment>) {
    if id !in s.payments then (s, Err(NotFound))
    else if !ValidCapture(s.payments[id], amount) then (s, Err(CaptureExceedsAuthorized))
    else if !providerOk then (s, Err(ProviderError))
    else CommitPaymentCommand(s, CaptureCommand(id, s.payments[id], amount, ids))
  }

  function RefundCall(s: State, id: string, amount: real, providerOk: bool, ids: Ids): (State, Result<Payment>) {
    if id !in s.payments then (s, Err(NotFound))
    else if !ValidRefund(s.payments[id], amount) then (s, Err(RefundExceedsCaptured))
    else if !providerOk then (s, Err(ProviderError))
    else CommitPaymentCommand(s, RefundCommand(id, s.payments[id], amount, ids))
  }

  function PayoutCall(s: State, merchant: string, currency: string, amount: real, ids: Ids): (State, Result<Payout>) {
    var p := NewPayout(merchant, currency, amount, ids.record);
    if p.Err? then (s, p)
    else StoreSpec.CreatePayout(s, p.value, PayoutEntries(p.value, ids), PayoutEvent(p.value, ids))
  }

  function CompleteCall(s: State, id: string, reference: string, success: bool, ids: Ids): (State, Result<Payout>) {
    if id !in s.payouts then (s, Err(NotFound))
    else
      var p := s.payouts[id];
      TransitionPayout(s, id, CompletedStatus(success), reference, CompleteEntries(p, success, ids),
                       CompleteEvent(id, p, reference, success, ids))
  }

  function OpenCall(s: State, id: string, reason: string, amount: real, ids: Ids): (State, Result<Dispute>) {
    if id !in s.payments then (s, Err(NotFound))
    else
      var p := s.payments[id];
      if !Disputable(p, amount) then (s, Err(DisputeExceedsSettled))
      else
        var d := NewDispute(id, p.merchantId, p.currency, reason, amount, ids.record);
        if d.Err? then (s, d)
        else StoreSpec.CreateDispute(s, d.value, OpenEntries(id, p, amount, ids), OpenEvent(d.value, ids))
  }

  function ResolveCall(s: State, id: string, merchantWins: bool, ids: Ids): (State, Result<Dispute>) {
    if id !in s.disputes then (s, Err(NotFound))
    else
      var d := s.disputes[id];
      ResolveDispute(s, id, ResolvedStatus(merchantWins), ResolveEntries(d, merchantWins, ids),
                     ResolveEvent(id, d, merchantWins, ids))
  }

  // A request to one of the services, with the answers that the provider and the risk engine will
  // give and the identifiers that will be drawn.
  datatype Request =
    | CreateRequest(input: CreatePayment, key: string, ids: Ids)
    | AuthorizeRequest(id: string, risk: Risk, answer: Option<string>, ids: Ids)
    | CaptureRequest(id: string, amount: real, providerOk: bool, ids: Ids)
    | RefundRequest(id: string, amount: real, providerOk: bool, ids: Ids)
    | PayoutRequest(merchant: string, currency: string, amount: real, ids: Ids)
    | CompleteRequest(id: string, reference: string, success: bool, ids: Ids)
    | OpenRequest(id: string, reason: string, amount: real, ids: Ids)
    | ResolveRequest(id: string, merchantWins: bool, ids: Ids)

  // The store after the request, and whether the service answered without an error.
  function Serve(s: State, q: Request): (State, bool) {
    match q
    case CreateRequest(input, key, ids) =>
      var p := NewPayment(input, ids.record);
      if key == "" || p.Err? then (s, false) else (StoreSpec.CreatePayment(s, p.value, key).0, true)
    case AuthorizeRequest(id, risk, answer, ids) => var (s', r) := AuthorizeCall(s, id, risk, answer, ids); (s', r.Ok?)
    case CaptureRequest(id, amount, providerOk, ids) =>
      var (s', r) := CaptureCall(s, id, amount, providerOk, ids); (s', r.Ok?)
    case RefundRequest(id, amount, providerOk, ids) =>
      var (s', r) := RefundCall(s, id, amount, providerOk, ids); (s', r.Ok?)
    case PayoutRequest(merchant, currency, amount, ids) =>
      var (s', r) := PayoutCall(s, merchant, currency, amount, ids); (s', r.Ok?)
    case CompleteRequest(id, reference, success, ids) =>
      var (s', r) := CompleteCall(s, id, reference, success, ids); (s', r.Ok?)
    case OpenRequest(id, reason, amount, ids) => var (s', r) := OpenCall(s, id, reason, amount, ids); (s', r.Ok?)
    case ResolveRequest(id, merchantWins, ids) => var (s', r) := ResolveCall(s, id, merchantWins, ids); (s', r.Ok?)
  }
}
