/** Runs of the whole platform over the in-memory store: any number of service calls in flight,
    each holding the record it read, interleaved with creations, webhook registrations and
    outbox marks. */
module Machine {
  import opened Domain
  import opened Accounts
  import opened Sums
  import opened StoreSpec
  import opened ServiceSpec

  // One committed money movement, as history: the event and the two entries written with it.
  datatype Posting = Posting(event: OutboxEvent, debit: LedgerEntry, credit: LedgerEntry)

  // `authorized` and `journal` are history: the payments ever seen in status authorized, and the
  // postings in commit order.
  datatype Config = Config(store: State, calls: map<nat, Call>, authorized: set<string>, journal: seq<Posting>)

  const INIT := Config(EMPTY, map[], {}, [])

  datatype Action =
    | Create(input: CreatePayment, key: string, ids: Ids)
    | RequestPayout(merchant: string, currency: string, amount: real, ids: Ids)
    | Begin(n: nat, call: Call)
    | Abort(n: nat)
    | Fail(n: nat, reason: string)
    | Commit(n: nat, reference: string, ids: Ids)
    | Register(webhook: string)
    | Publish(event: string)

  // UUIDs never repeat.
  predicate Fresh(s: State, ids: Ids) {
    ids.record !in s.payments && ids.record !in s.payouts && ids.record !in s.disputes && ids.event !in s.outbox
  }

  // The call holds exactly what an unlocked read returns now, and passed the service's own check.
  predicate Reads(s: State, call: Call) {
    match call
    case Authorizing(id, p) => id in s.payments && p == s.payments[id]
    case Capturing(id, p, amount) => id in s.payments && p == s.payments[id] && ValidCapture(p, amount)
    case Refunding(id, p, amount) => id in s.payments && p == s.payments[id] && ValidRefund(p, amount)
    case Completing(id, p, _, _) => id in s.payouts && p == s.payouts[id]
    case Opening(id, p, _, amount) => id in s.payments && p == s.payments[id] && Disputable(p, amount)
    case Resolving(id, d, _) => id in s.disputes && d == s.disputes[id]
  }

  predicate Enabled(c: Config, a: Action) {
    match a
    case Create(_, key, ids) => key != "" && Fresh(c.store, ids)
    case RequestPayout(_, _, _, ids) => Fresh(c.store, ids)
    case Begin(n, call) => n !in c.calls && Reads(c.store, call)
    case Abort(n) => n in c.calls
    case Fail(n, reason) => n in c.calls && c.calls[n].Authorizing? && reason in {"risk_blocked", "provider_error"}
    case Commit(n, _, ids) => n in c.calls && Fresh(c.store, ids)
    case Register(_) => true
    case Publish(_) => true
  }

  ghost function SeenAuthorized(s: State): set<string> {
    set id | id in s.payments && s.payments[id].status.Authorized?
  }

  // The configuration once the store has become `s'`, with `event` recorded if it was written.
  ghost function After(c: Config, s': State, event: string): Config {
    Config(s', c.calls, c.authorized + SeenAuthorized(s'),
           if event in s'.outbox && event !in c.store.outbox && |s'.ledger| >= 2
           then c.journal + [Posting(s'.outbox[event], s'.ledger[|s'.ledger| - 2], s'.ledger[|s'.ledger| - 1])]
           else c.journal)
  }

  function EndCall(c: Config, n: nat): Config {
    c.(calls := c.calls - {n})
  }

  ghost function Perform(c: Config, a: Action): Config
    requires Enabled(c, a)
  {
    match a
    case Create(input, key, ids) =>
      var p := NewPayment(input, ids.record);
      if p.Err? then c else After(c, StoreSpec.CreatePayment(c.store, p.value, key).0, ids.event)
    case RequestPayout(merchant, currency, amount, ids) =>
      After(c, PayoutCall(c.store, merchant, currency, amount, ids).0, ids.event)
    case Begin(n, call) => c.(calls := c.calls[n := call])
    case Abort(n) => EndCall(c, n)
    case Fail(n, reason) =>
      var s' := Transition(c.store, c.calls[n].id, Failed, reason).0;
      EndCall(c, n).(store := s', authorized := c.authorized + SeenAuthorized(s'))
    case Commit(n, reference, ids) =>
      After(EndCall(c, n), CommitCall(c.store, c.calls[n], reference, ids), ids.event)
    case Register(webhook) => c.(store := RegisterWebhook(c.store, webhook).0)
    case Publish(event) => c.(store := MarkPublished(c.store, event).0)
  }

  ghost predicate Next(c: Config, c': Config) {
    exists a :: Enabled(c, a) && c' == Perform(c, a)
  }

  ghost predicate Run(r: seq<Config>) {
    && |r| > 0
    && r[0] == INIT
    && forall i :: 0 <= i < |r| - 1 ==> Next(r[i], r[i + 1])
  }

  // A run together with the actions it took.
  ghost predicate Trace(r: seq<Config>, xs: seq<Action>) {
    && |r| == |xs| + 1
    && r[0] == INIT
    && forall i :: 0 <= i < |xs| ==> Enabled(r[i], xs[i]) && r[i + 1] == Perform(r[i], xs[i])
  }

  // The configuration after some actions, if each is enabled in turn.
  ghost function Follow(k: Config, xs: seq<Action>): Option<Config>
    decreases |xs|
  {
    if xs == [] then Some(k)
    else if Enabled(k, xs[0]) then Follow(Perform(k, xs[0]), xs[1..])
    else None
  }

  // ---------- what each record is worth on each account ----------

  function PaymentShare(everAuthorized: bool, p: Payment, a: Account, c: string): real {
    if p.currency != c then 0.0
    else match a
      case CustomerPending => if everAuthorized then -p.amount else 0.0
      case CustomerRefunded => p.refunded
      case MerchantPending(m) => if m == p.merchantId && everAuthorized then p.amount - p.captured else 0.0
      case MerchantAvailable(m) => if m == p.merchantId then p.captured - p.refunded else 0.0
      case _ => 0.0
  }

  function PayoutShare(p: Payout, a: Account, c: string): real {
    if p.currency != c then 0.0
    else match a
      case MerchantAvailable(m) => if m == p.merchantId && !p.status.PayoutFailed? then -p.amount else 0.0
      case MerchantPayoutPending(m) => if m == p.merchantId && p.status.PayoutPending? then p.amount else 0.0
      case ProviderPayoutSettled => if p.status.PayoutPaid? then p.amount else 0.0
      case _ => 0.0
  }

  function DisputeShare(d: Dispute, a: Account, c: string): real {
    if d.currency != c then 0.0
    else match a
      case MerchantAvailable(m) => if m == d.merchantId && !d.status.DisputeWon? then -d.amount else 0.0
      case MerchantDisputeFrozen(m) => if m == d.merchantId && d.status.DisputeOpen? then d.amount else 0.0
      case CustomerChargeback => if d.status.DisputeLost? then d.amount else 0.0
      case _ => 0.0
  }

  ghost function PaymentTerm(authorized: set<string>, a: Account, c: string): (string, Payment) -> real {
    (id: string, p: Payment) => PaymentShare(id in authorized, p, a, c)
  }

  ghost function PayoutTerm(a: Account, c: string): (string, Payout) -> real {
    (id: string, p: Payout) => PayoutShare(p, a, c)
  }

  ghost function DisputeTerm(a: Account, c: string): (string, Dispute) -> real {
    (id: string, d: Dispute) => DisputeShare(d, a, c)
  }

  // What the three tables together say the account holds.
  ghost function Recorded(k: Config, a: Account, c: string): real {
    Sum(k.store.payments, PaymentTerm(k.authorized, a, c))
    + Sum(k.store.payouts, PayoutTerm(a, c))
    + Sum(k.store.disputes, DisputeTerm(a, c))
  }

  datatype RecordKey = PaymentKey(id: string) | PayoutKey(id: string) | DisputeKey(id: string)

  function KeyOf(x: Payload): RecordKey {
    match x
    case OfPayment(p) => PaymentKey(p.id)
    case OfPayout(p) => PayoutKey(p.id)
    case OfDispute(d) => DisputeKey(d.id)
  }

  // The share of one record; a record that does not exist is worth nothing.
  function Share(k: Config, key: RecordKey, a: Account, c: string): real {
    match key
    case PaymentKey(id) =>
      if id in k.store.payments then PaymentShare(id in k.authorized, k.store.payments[id], a, c) else 0.0
    case PayoutKey(id) => if id in k.store.payouts then PayoutShare(k.store.payouts[id], a, c) else 0.0
    case DisputeKey(id) => if id in k.store.disputes then DisputeShare(k.store.disputes[id], a, c) else 0.0
  }

  // What the ledger entries written on behalf of one record add up to on one account.
  function Attributed(journal: seq<Posting>, key: RecordKey, account: string, c: string): real {
    if journal == [] then 0.0
    else
      var x := journal[|journal| - 1];
      Attributed(journal[..|journal| - 1], key, account, c)
      + (if KeyOf(x.event.payload) == key then Delta(x.debit, account, c) + Delta(x.credit, account, c) else 0.0)
  }

  // The most recent event about a record.
  function Latest(journal: seq<Posting>, key: RecordKey): Option<Payload> {
    if journal == [] then None
    else
      var x := journal[|journal| - 1];
      if KeyOf(x.event.payload) == key then Some(x.event.payload) else Latest(journal[..|journal| - 1], key)
  }

  // How many postings concern a record.
  function TimesPosted(journal: seq<Posting>, key: RecordKey): nat {
    if journal == [] then 0
    else TimesPosted(journal[..|journal| - 1], key)
         + (if KeyOf(journal[|journal| - 1].event.payload) == key then 1 else 0)
  }

  // How far a payout or dispute has come: absent, open, resolved.
  function Stage(s: State, key: RecordKey): nat {
    match key
    case PaymentKey(_) => 0
    case PayoutKey(id) => if id !in s.payouts then 0 else if s.payouts[id].status.PayoutPending? then 1 else 2
    case DisputeKey(id) => if id !in s.disputes then 0 else if s.disputes[id].status.DisputeOpen? then 1 else 2
  }

  // How many authorization debits the ledger holds for a payment.
  function Authorizations(ledger: seq<LedgerEntry>, id: string): nat {
    if ledger == [] then 0
    else
      var e := ledger[|ledger| - 1];
      Authorizations(ledger[..|ledger| - 1], id)
      + (if e.accountId == Name(CustomerPending) && e.paymentId == id then 1 else 0)
  }

  // ---------- the route an event announces ----------

  datatype Route = Route(from: Account, to: Account, currency: string)

  function RouteOf(e: OutboxEvent): Option<Route> {
    match (e.eventType, e.payload)
    case (PaymentAuthorizedEvent, OfPayment(p)) =>
      Some(Route(CustomerPending, MerchantPending(p.merchantId), p.currency))
    case (PaymentCapturedEvent, OfPayment(p)) =>
      Some(Route(MerchantPending(p.merchantId), MerchantAvailable(p.merchantId), p.currency))
    case (PaymentRefundedEvent, OfPayment(p)) =>
      Some(Route(MerchantAvailable(p.merchantId), CustomerRefunded, p.currency))
    case (PayoutCreatedEvent, OfPayout(p)) =>
      Some(Route(MerchantAvailable(p.merchantId), MerchantPayoutPending(p.merchantId), p.currency))
    case (PayoutPaidEvent, OfPayout(p)) =>
      Some(Route(MerchantPayoutPending(p.merchantId), ProviderPayoutSettled, p.currency))
    case (PayoutFailedEvent, OfPayout(p)) =>
      Some(Route(MerchantPayoutPending(p.merchantId), MerchantAvailable(p.merchantId), p.currency))
    case (DisputeOpenedEvent, OfDispute(d)) =>
      Some(Route(MerchantAvailable(d.merchantId), MerchantDisputeFrozen(d.merchantId), d.currency))
    case (DisputeWonEvent, OfDispute(d)) =>
      Some(Route(MerchantDisputeFrozen(d.merchantId), MerchantAvailable(d.merchantId), d.currency))
    case (DisputeLostEvent, OfDispute(d)) =>
      Some(Route(MerchantDisputeFrozen(d.merchantId), CustomerChargeback, d.currency))
    case _ => None
  }

  // The amount an event announces: exact, except that a capture or refund event carries the
  // running total it believes in, which bounds the amount.
  predicate AmountAnnounced(e: OutboxEvent, amount: real) {
    match e.payload
    case OfPayment(p) =>
      (match e.eventType
       case PaymentAuthorizedEvent => amount == p.amount
       case PaymentCapturedEvent => amount <= p.captured <= p.amount
       case _ => amount <= p.refunded <= p.captured)
    case OfPayout(p) => amount == p.amount
    case OfDispute(d) => amount == d.amount
  }

  function AggregateOf(x: Payload): string {
    match x case OfPayment(p) => p.id case OfPayout(p) => p.id case OfDispute(d) => d.id
  }

  // The payment that entries written with such an event name, if any.
  function PaymentIdOf(x: Payload): string {
    match x case OfPayment(p) => p.id case OfPayout(_) => "" case OfDispute(d) => d.paymentId
  }

  // The two entries are the balanced pair that the event announces, and the event is yet to be
  // published.
  predicate Explained(x: Posting) {
    var route := RouteOf(x.event);
    && route.Some?
    && !x.event.published && x.event.aggregateId == AggregateOf(x.event.payload)
    && x.debit.paymentId == x.credit.paymentId == PaymentIdOf(x.event.payload)
    && x.debit.accountId == Name(route.value.from) && x.credit.accountId == Name(route.value.to)
    && x.debit.currency == x.credit.currency == route.value.currency
    && x.debit.debit == x.credit.credit > 0.0
    && x.debit.credit == x.credit.debit == 0.0
    && AmountAnnounced(x.event, x.debit.debit)
  }

  // ---------- the invariant ----------

  predicate StatusOk(p: Payment) {
    && (p.captured > 0.0 <==> p.status.Captured? || p.status.Refunded?)
    && (p.refunded > 0.0 <==> p.status.Refunded?)
  }

  predicate RowOk(id: string, p: Payment, everAuthorized: bool) {
    && p.id == id
    && p.amount > 0.0 && 0.0 <= p.refunded <= p.captured <= p.amount
    && |p.currency| == 3 && ToUpper(p.currency) == p.currency
    && (p.status.Created? ==> !everAuthorized && p.providerReference == "")
    && (p.status.Authorized? || p.status.Captured? || p.status.Refunded? ==> everAuthorized)
    && (p.captured > 0.0 ==> everAuthorized)
    && (p.status.Failed? || StatusOk(p))
  }

  ghost predicate RowsOk(k: Config) {
    && k.authorized <= k.store.payments.Keys
    && forall id :: id in k.store.payments ==> RowOk(id, k.store.payments[id], id in k.authorized)
  }

  predicate PayoutOk(id: string, p: Payout) {
    p.id == id && p.amount > 0.0
  }

  predicate DisputeOk(s: State, id: string, d: Dispute) {
    && d.id == id && d.amount > 0.0
    && d.paymentId in s.payments
    && var p := s.payments[d.paymentId];
       d.merchantId == p.merchantId && d.currency == p.currency && d.amount <= p.captured
  }

  ghost predicate ClaimsOk(s: State) {
    && (forall id :: id in s.payouts ==> PayoutOk(id, s.payouts[id]))
    && (forall id :: id in s.disputes ==> DisputeOk(s, id, s.disputes[id]))
  }

  // Keys and payments correspond one to one.
  ghost predicate KeysOk(s: State) {
    && (forall key :: key in s.keys ==> s.keys[key] in s.payments)
    && (forall key, other :: key in s.keys && other in s.keys && s.keys[key] == s.keys[other] ==> key == other)
    && (forall id :: id in s.payments ==> exists key :: key in s.keys && s.keys[key] == id)
    && "" !in s.keys
  }

  ghost predicate JournalOk(k: Config) {
    && |k.store.ledger| == 2 * |k.journal|
    && |k.store.outbox| == |k.journal|
    && (forall i :: 0 <= i < |k.journal| ==>
          && Explained(k.journal[i])
          && k.store.ledger[2 * i] == k.journal[i].debit
          && k.store.ledger[2 * i + 1] == k.journal[i].credit
          && k.journal[i].event.id in k.store.outbox
          && k.store.outbox[k.journal[i].event.id]
             == k.journal[i].event.(published := k.store.outbox[k.journal[i].event.id].published))
    && (forall i, j :: 0 <= i < j < |k.journal| ==> k.journal[i].event.id != k.journal[j].event.id)
  }

  ghost predicate AgreesAt(k: Config, a: Account, c: string) {
    Balance(k.store.ledger, Name(a), c) == Recorded(k, a, c)
  }

  ghost predicate Agrees(k: Config) {
    forall a, c :: AgreesAt(k, a, c)
  }

  ghost predicate AttributedAt(k: Config, key: RecordKey, a: Account, c: string) {
    Attributed(k.journal, key, Name(a), c) == Share(k, key, a, c)
  }

  ghost predicate AllAttributed(k: Config) {
    forall key, a, c :: AttributedAt(k, key, a, c)
  }

  ghost predicate AuthorizedOnce(k: Config) {
    forall id :: Authorizations(k.store.ledger, id) == if id in k.authorized then 1 else 0
  }

  // The latest payout and dispute events always show the current rows.
  ghost predicate EventsCurrent(k: Config) {
    && (forall id :: id in k.store.payouts ==> Latest(k.journal, PayoutKey(id)) == Some(OfPayout(k.store.payouts[id])))
    && (forall id :: id in k.store.disputes ==>
          Latest(k.journal, DisputeKey(id)) == Some(OfDispute(k.store.disputes[id])))
  }

  // Each stage of a payout or dispute was posted exactly once.
  ghost predicate StagesPosted(k: Config) {
    forall key: RecordKey :: !key.PaymentKey? ==> TimesPosted(k.journal, key) == Stage(k.store, key)
  }

  // ---------- how records may change over time ----------

  predicate PaymentEvolves(p: Payment, q: Payment) {
    && q == p.(captured := q.captured, refunded := q.refunded, status := q.status,
               providerReference := q.providerReference)
    && p.captured <= q.captured && p.refunded <= q.refunded
    && (p.status.Failed? ==> q.status.Failed?)
  }

  predicate PayoutEvolves(p: Payout, q: Payout) {
    || q == p
    || (p.status.PayoutPending? && !q.status.PayoutPending?
        && q == p.(status := q.status, providerReference := q.providerReference))
  }

  predicate DisputeEvolves(d: Dispute, e: Dispute) {
    e == d || (d.status.DisputeOpen? && !e.status.DisputeOpen? && e == d.(status := e.status))
  }

  predicate EventEvolves(e: OutboxEvent, f: OutboxEvent) {
    f == e.(published := f.published) && (e.published ==> f.published)
  }

  ghost predicate StoreEvolves(s: State, s': State) {
    && (forall id :: id in s.payments ==> id in s'.payments && PaymentEvolves(s.payments[id], s'.payments[id]))
    && (forall id :: id in s.payouts ==> id in s'.payouts && PayoutEvolves(s.payouts[id], s'.payouts[id]))
    && (forall id :: id in s.disputes ==> id in s'.disputes && DisputeEvolves(s.disputes[id], s'.disputes[id]))
    && (forall id :: id in s.outbox ==> id in s'.outbox && EventEvolves(s.outbox[id], s'.outbox[id]))
    && (forall key :: key in s.keys ==> key in s'.keys && s'.keys[key] == s.keys[key])
    && s.webhooks <= s'.webhooks
    && s.ledger <= s'.ledger
  }

  ghost predicate Evolves(k: Config, k': Config) {
    StoreEvolves(k.store, k'.store) && k.authorized <= k'.authorized && k.journal <= k'.journal
  }

  // A snapshot may be stale, but only in ways the record can change.
  predicate Snapshot(s: State, id: string, p: Payment) {
    && id in s.payments && p.id == id
    && PaymentEvolves(p, s.payments[id])
    && 0.0 <= p.refunded <= p.captured <= p.amount
  }

  predicate CallOk(s: State, call: Call) {
    match call
    case Authorizing(id, p) => Snapshot(s, id, p)
    case Capturing(id, p, amount) => Snapshot(s, id, p) && ValidCapture(p, amount)
    case Refunding(id, p, amount) => Snapshot(s, id, p) && ValidRefund(p, amount)
    case Completing(id, p, _, _) => id in s.payouts && p.id == id && PayoutEvolves(p, s.payouts[id])
    case Opening(id, p, _, amount) => Snapshot(s, id, p) && Disputable(p, amount)
    case Resolving(id, d, _) => id in s.disputes && d.id == id && DisputeEvolves(d, s.disputes[id])
  }

  ghost predicate CallsOk(k: Config) {
    forall n :: n in k.calls ==> CallOk(k.store, k.calls[n])
  }

  // The tables by themselves, and the ledger, outbox and journal against them.
  ghost predicate Tables(k: Config) {
    RowsOk(k) && ClaimsOk(k.store) && KeysOk(k.store) && CallsOk(k)
  }

  ghost predicate Books(k: Config) {
    JournalOk(k) && Agrees(k) && AllAttributed(k) && AuthorizedOnce(k) && EventsCurrent(k) && StagesPosted(k)
  }

  ghost predicate Inv(k: Config) {
    Tables(k) && Books(k)
  }
}
