/** Events carry the amounts the services worked with, not the ones the columns hold. Which of the
    theorems about events survive rounding, exactly. */
module RoundedEvents {
  import opened Domain
  import opened Accounts
  import opened StoreSpec
  import opened ServiceSpec
  import opened Machine
  import opened Steps
  import opened ClaimSteps
  import opened Snapshots
  import opened Stepwise
  import opened Postgres
  import opened Interleavings
  import opened Rounding
  import opened RoundedRuns

  // ---------- what a committed call posts ----------

  function CallEvent(call: Call, reference: string, ids: Ids): OutboxEvent {
    match call
    case Authorizing(id, p) => AuthorizeCommand(id, p, reference, ids).event
    case Capturing(id, p, amount) => CaptureCommand(id, p, amount, ids).event
    case Refunding(id, p, amount) => RefundCommand(id, p, amount, ids).event
    case Completing(id, p, ref, success) => CompleteEvent(id, p, ref, success, ids)
    case Opening(id, p, reason, amount) =>
      OpenEvent(Dispute(ids.record, id, p.merchantId, ToUpper(p.currency), reason, amount, DisputeOpen), ids)
    case Resolving(id, d, merchantWins) => ResolveEvent(id, d, merchantWins, ids)
  }

  // The posting of a call: its event as built, its pair as stored.
  function CallPosting(call: Call, reference: string, ids: Ids): Posting {
    var (id, from, to, currency, amount) := CallPair(call);
    var pair := Pair(id, from, to, currency, Stored(amount), ids);
    Posting(CallEvent(call, reference, ids), pair[0], pair[1])
  }

  ghost predicate Writes(s: State, s': State, x: Posting) {
    s'.ledger == s.ledger + [x.debit, x.credit] && s'.outbox == s.outbox[x.event.id := x.event]
  }

  lemma CommandWritesStored(s: State, cmd: PaymentCommand)
    requires PgCommit(s, cmd).1.Ok? && s.payments[cmd.paymentId].id == cmd.paymentId
    requires cmd.event.aggregateId == cmd.paymentId
    ensures var s' := PgCommit(s, cmd).0;
            s'.ledger == s.ledger + StoredEntries(cmd.ledger) && s'.outbox == s.outbox[cmd.event.id := cmd.event]
  {
  }

  lemma PaymentWrites(s: State, call: Call, reference: string, ids: Ids)
    requires StoredTables(s) && StoredCall(call) && PaymentCall(call) && StoredCommit(s, call, reference, ids).1
    ensures Writes(s, StoredCommit(s, call, reference, ids).0, CallPosting(call, reference, ids))
  {
    var (id, from, to, currency, amount) := CallPair(call);
    StoredPair(id, from, to, currency, amount, ids);
    match call
    case Authorizing(_, p) => CommandWritesStored(s, AuthorizeCommand(id, p, reference, ids));
    case Capturing(_, p, _) => CommandWritesStored(s, CaptureCommand(id, p, amount, ids));
    case Refunding(_, p, _) => CommandWritesStored(s, RefundCommand(id, p, amount, ids));
  }

  lemma ClaimWrites(s: State, call: Call, reference: string, ids: Ids)
    requires StoredTables(s) && StoredCall(call) && !PaymentCall(call) && StoredCommit(s, call, reference, ids).1
    ensures Writes(s, StoredCommit(s, call, reference, ids).0, CallPosting(call, reference, ids))
  {
    var (id, from, to, currency, amount) := CallPair(call);
    StoredPair(id, from, to, currency, amount, ids);
  }

  lemma AfterWrites(k: Config, s': State, x: Posting)
    requires Writes(k.store, s', x) && x.event.id !in k.store.outbox
    ensures After(k, s', x.event.id).journal == k.journal + [x]
  {
    AfterPosting(k, s', [x.debit, x.credit], x.event);
  }

  // The posting a step makes, if it makes one.
  ghost function StepPosting(hash: string -> int, k: Pg, x: PgAction): Option<Posting>
    requires RoundEnabled(hash, k, x)
  {
    match x
    case Core(Commit(n, reference, ids)) =>
      if StoredCommit(k.core.store, k.core.calls[n], reference, ids).1
      then Some(CallPosting(k.core.calls[n], reference, ids)) else None
    case CommitPayout(t, ids) => Some(PayoutPosting(PayoutOf(k.payouts[t], ids), ids))
    case _ => None
  }

  function PayoutPosting(p: Payout, ids: Ids): Posting {
    var pair := Pair("", MerchantAvailable(p.merchantId), MerchantPayoutPending(p.merchantId), p.currency,
                     Stored(p.amount), ids);
    Posting(PayoutEvent(p, ids), pair[0], pair[1])
  }

  lemma CallWrites(s: State, call: Call, reference: string, ids: Ids)
    requires StoredTables(s) && StoredCall(call)
    ensures var (s', ok) := StoredCommit(s, call, reference, ids);
            if ok then Writes(s, s', CallPosting(call, reference, ids)) else s' == s
  {
    CommitRefines(s, call, reference, ids);
    if StoredCommit(s, call, reference, ids).1 {
      if PaymentCall(call) { PaymentWrites(s, call, reference, ids); } else { ClaimWrites(s, call, reference, ids); }
    }
  }

  // The journal after a call's command was handed to the store.
  lemma CallPosts(k: Config, call: Call, reference: string, ids: Ids)
    requires StoredTables(k.store) && StoredCall(call) && ids.event !in k.store.outbox
    ensures var (s', ok) := StoredCommit(k.store, call, reference, ids);
            After(k, s', ids.event).journal == k.journal + if ok then [CallPosting(call, reference, ids)] else []
  {
    var (s', ok) := StoredCommit(k.store, call, reference, ids);
    CallWrites(k.store, call, reference, ids);
    if ok {
      EventUnderDrawnId(call, reference, ids);
      AfterWrites(k, s', CallPosting(call, reference, ids));
    }
  }

  lemma EventUnderDrawnId(call: Call, reference: string, ids: Ids)
    ensures CallPosting(call, reference, ids).event.id == ids.event
  {
  }

  lemma CommitPosts(hash: string -> int, k: Pg, n: nat, reference: string, ids: Ids)
    requires Held(k) && RoundEnabled(hash, k, Core(Commit(n, reference, ids)))
    ensures var x := Core(Commit(n, reference, ids));
            RoundPerform(hash, k, x).core.journal
            == k.core.journal + if StepPosting(hash, k, x).Some? then [StepPosting(hash, k, x).value] else []
  {
    CallPosts(EndCall(k.core, n), k.core.calls[n], reference, ids);
  }

  lemma PayoutPosts(hash: string -> int, k: Pg, x: PgAction)
    requires RoundEnabled(hash, k, x) && x.CommitPayout?
    ensures RoundPerform(hash, k, x).core.journal == k.core.journal + [StepPosting(hash, k, x).value]
  {
    var p := PayoutOf(k.payouts[x.t], x.ids);
    StoredPair("", MerchantAvailable(p.merchantId), MerchantPayoutPending(p.merchantId), p.currency, p.amount, x.ids);
    AfterWrites(k.core, PgInsertPayout(k.core.store, p, PayoutEntries(p, x.ids), PayoutEvent(p, x.ids)),
                PayoutPosting(p, x.ids));
  }

  lemma StepPosts(hash: string -> int, k: Pg, x: PgAction)
    requires Held(k) && RoundEnabled(hash, k, x)
    ensures RoundPerform(hash, k, x).core.journal
         == k.core.journal + if StepPosting(hash, k, x).Some? then [StepPosting(hash, k, x).value] else []
  {
    match x
    case Core(Commit(n, reference, ids)) => CommitPosts(hash, k, n, reference, ids);
    case CommitPayout(_, _) => PayoutPosts(hash, k, x);
    case _ =>
  }

  // ---------- events that announce their pair ----------

  ghost predicate AllExplained(journal: seq<Posting>) {
    forall i :: 0 <= i < |journal| ==> Explained(journal[i])
  }

  // The announced amount still covers the pair: a payout or dispute must not have been rounded at
  // all, and the first capture or refund of a payment must not have been rounded up.
  predicate CallAnnounced(call: Call) {
    match call
    case Capturing(_, p, amount) => p.captured > 0.0 || Stored(amount) <= amount
    case Refunding(_, p, amount) => p.refunded > 0.0 || Stored(amount) <= amount
    case Opening(_, _, _, amount) => Exact(amount)
    case _ => true
  }

  predicate StepAnnounced(k: Pg, x: PgAction) {
    match x
    case Core(Commit(n, reference, ids)) =>
      (n in k.core.calls && StoredCommit(k.core.store, k.core.calls[n], reference, ids).1) ==>
        CallAnnounced(k.core.calls[n])
    case CommitPayout(t, _) => t in k.payouts ==> Exact(k.payouts[t].amount)
    case _ => true
  }

  // Rounding touches the amounts in an event only.
  lemma ExplainedUpToAmount(x: Posting)
    requires Explained(x.(event := RoundedEvent(x.event)))
    ensures Explained(x) <==> AmountAnnounced(x.event, x.debit.debit)
  {
    assert RouteOf(RoundedEvent(x.event)) == RouteOf(x.event);
  }

  // A total that is not zero outweighs any rounding up.
  lemma RoundedUpCovered(total: real, amount: real)
    requires Exact(total) && total >= 0.0 && amount > 0.0
    ensures Stored(amount) <= total + amount <==> total > 0.0 || Stored(amount) <= amount
  {
    StoredNearby(amount);
    if total > 0.0 {
      ExactPositive(total);
    }
  }

  lemma CallAmountAnnounced(call: Call, reference: string, ids: Ids)
    requires StoredCall(call)
    ensures var x := CallPosting(call, reference, ids); AmountAnnounced(x.event, x.debit.debit) <==> CallAnnounced(call)
  {
    if call.Capturing? {
      RoundedUpCovered(call.payment.captured, call.amount);
    } else if call.Refunding? {
      RoundedUpCovered(call.payment.refunded, call.amount);
    }
  }

  lemma StepAmountAnnounced(hash: string -> int, k: Pg, x: PgAction)
    requires Held(k) && RoundEnabled(hash, k, x) && StepPosting(hash, k, x).Some?
    ensures var y := StepPosting(hash, k, x).value; AmountAnnounced(y.event, y.debit.debit) <==> StepAnnounced(k, x)
  {
    if x.Core? {
      CallAmountAnnounced(k.core.calls[x.a.n], x.a.reference, x.a.ids);
    }
  }

  lemma ShadowExplained(hash: string -> int, k: Pg, i: nat)
    requires PgReached(hash, Shadow(k)) && i < |k.core.journal|
    ensures Explained(k.core.journal[i].(event := RoundedEvent(k.core.journal[i].event)))
  {
    PgReachedInv(hash, Shadow(k));
    assert Explained(Shadow(k).core.journal[i]);
  }

  lemma ExplainedLast(journal: seq<Posting>, x: Posting)
    requires AllExplained(journal)
    ensures AllExplained(journal + [x]) <==> Explained(x)
  {
    assert (journal + [x])[|journal|] == x;
  }

  lemma StepExplained(hash: string -> int, k: Pg, x: PgAction)
    requires Held(k) && RoundEnabled(hash, k, x) && AllExplained(k.core.journal)
    requires PgReached(hash, Shadow(RoundPerform(hash, k, x)))
    ensures AllExplained(RoundPerform(hash, k, x).core.journal) <==> StepAnnounced(k, x)
  {
    StepPosts(hash, k, x);
    if StepPosting(hash, k, x).Some? {
      var y, k' := StepPosting(hash, k, x).value, RoundPerform(hash, k, x);
      assert k'.core.journal[|k.core.journal|] == y;
      ShadowExplained(hash, k', |k.core.journal|);
      ExplainedUpToAmount(y);
      StepAmountAnnounced(hash, k, x);
      ExplainedLast(k.core.journal, y);
    } else {
      assert k.core.journal + [] == k.core.journal;
    }
  }

  lemma TraceExplained(hash: string -> int, r: seq<Pg>, xs: seq<PgAction>, i: nat)
    requires RoundTrace(hash, r, xs) && i < |xs| && AllExplained(r[i].core.journal)
    ensures AllExplained(r[i + 1].core.journal) <==> StepAnnounced(r[i], xs[i])
  {
    RoundedRunsRefine(hash, r, xs, i);
    RoundedRunsRefine(hash, r, xs, i + 1);
    StepExplained(hash, r[i], xs[i]);
  }

  /** In every run on rounding columns, every event names the accounts and the currency of its pair, and
      its amount or, for captures and refunds, a bound on it, at every point, exactly when every
      committed payout and dispute has six decimals and no capture or refund is rounded up that was
      built on a row with none before. Up to rounding the amounts in the event, every event always
      does. */
  lemma EventsAnnounceIff(hash: string -> int, r: seq<Pg>, xs: seq<PgAction>)
    requires RoundTrace(hash, r, xs)
    ensures (forall i :: 0 <= i < |r| ==> AllExplained(r[i].core.journal))
       <==> (forall i :: 0 <= i < |xs| ==> StepAnnounced(r[i], xs[i]))
    ensures forall i, j :: 0 <= i < |r| && 0 <= j < |r[i].core.journal| ==>
              Explained(r[i].core.journal[j].(event := RoundedEvent(r[i].core.journal[j].event)))
  {
    var good := (i: nat) => i < |r| && AllExplained(r[i].core.journal);
    var step := (i: nat) => i < |xs| && StepAnnounced(r[i], xs[i]);
    forall i: nat | i < |xs| && good(i) ensures good(i + 1) <==> step(i) {
      TraceExplained(hash, r, xs, i);
    }
    AtEveryPointIff(|xs|, good, step);
    forall i | 0 <= i < |r| ensures good(i) <==> AllExplained(r[i].core.journal) {}
    forall i | 0 <= i < |xs| ensures step(i) <==> StepAnnounced(r[i], xs[i]) {}
    forall i, j | 0 <= i < |r| && 0 <= j < |r[i].core.journal|
      ensures Explained(r[i].core.journal[j].(event := RoundedEvent(r[i].core.journal[j].event)))
    {
      RoundedRunsRefine(hash, r, xs, i);
      ShadowExplained(hash, r[i], j);
    }
  }

  // ---------- the newest event of a payout or dispute ----------

  lemma {:induction false} ShadowLatest(journal: seq<Posting>, key: RecordKey)
    ensures Latest(ShadowJournal(journal), key)
         == if Latest(journal, key).None? then None else Some(RoundedPayload(Latest(journal, key).value))
  {
    if journal != [] {
      var n := |journal| - 1;
      ShadowLatest(journal[..n], key);
      assert ShadowJournal(journal)[..n] == ShadowJournal(journal[..n]);
    }
  }

  // With its amount rounded, the newest event always shows the row.
  lemma LatestUpToRounding(hash: string -> int, k: Pg, key: RecordKey)
    requires PgReached(hash, Shadow(k)) && !key.PaymentKey? && Stage(k.core.store, key) > 0
    ensures Latest(k.core.journal, key).Some?
    ensures RowPayload(k.core.store, key) == Some(RoundedPayload(Latest(k.core.journal, key).value))
  {
    assert EventsCurrent(Shadow(k).core) by { PgReachedInv(hash, Shadow(k)); }
    ShadowLatest(k.core.journal, key);
    assert RowPayload(Shadow(k).core.store, key) == RowPayload(k.core.store, key);
  }

  // The step brings the payout or dispute `key` into being, for the requested amount.
  ghost predicate CreatesClaim(k: Pg, x: PgAction, key: RecordKey, amount: real) {
    match x
    case CommitPayout(t, ids) => key == PayoutKey(ids.record) && t in k.payouts && amount == k.payouts[t].amount
    case Core(Commit(n, reference, ids)) =>
      && key == DisputeKey(ids.record) && n in k.core.calls && k.core.calls[n].Opening?
      && StoredCommit(k.core.store, k.core.calls[n], reference, ids).1 && amount == k.core.calls[n].amount
    case _ => false
  }

  // The newest event of a claim still carries the requested amount, or the claim is resolved and the
  // event was built from a stored row.
  ghost predicate ClaimTold(k: Pg, key: RecordKey, amount: real) {
    var latest := Latest(k.core.journal, key);
    && latest.Some? && !latest.value.OfPayment?
    && (if Stage(k.core.store, key) == 2 then Exact(PayloadAmount(latest.value))
        else Stage(k.core.store, key) == 1 && PayloadAmount(latest.value) == amount)
  }

  function PayloadAmount(x: Payload): real {
    match x case OfPayment(p) => p.amount case OfPayout(p) => p.amount case OfDispute(d) => d.amount
  }

  lemma PayoutCreationTold(hash: string -> int, k: Pg, t: nat, ids: Ids)
    requires RoundEnabled(hash, k, CommitPayout(t, ids))
    ensures ClaimTold(RoundPerform(hash, k, CommitPayout(t, ids)), PayoutKey(ids.record), k.payouts[t].amount)
  {
    var x := CommitPayout(t, ids);
    PayoutPosts(hash, k, x);
    LatestAppend(k.core.journal, StepPosting(hash, k, x).value, PayoutKey(ids.record));
  }

  lemma OpeningStage(s: State, call: Call, reference: string, ids: Ids)
    requires call.Opening? && StoredCommit(s, call, reference, ids).1
    ensures Stage(StoredCommit(s, call, reference, ids).0, DisputeKey(ids.record)) == 1
  {
  }

  lemma DisputeCreationTold(hash: string -> int, k: Pg, n: nat, reference: string, ids: Ids)
    requires Held(k) && RoundEnabled(hash, k, Core(Commit(n, reference, ids))) && k.core.calls[n].Opening?
    requires StoredCommit(k.core.store, k.core.calls[n], reference, ids).1
    ensures ClaimTold(RoundPerform(hash, k, Core(Commit(n, reference, ids))), DisputeKey(ids.record),
                      k.core.calls[n].amount)
  {
    CommitPosts(hash, k, n, reference, ids);
    OpeningStage(k.core.store, k.core.calls[n], reference, ids);
    LatestAppend(k.core.journal, CallPosting(k.core.calls[n], reference, ids), DisputeKey(ids.record));
  }

  lemma CreationTold(hash: string -> int, k: Pg, x: PgAction, key: RecordKey, amount: real)
    requires Held(k) && RoundEnabled(hash, k, x) && CreatesClaim(k, x, key, amount)
    ensures ClaimTold(RoundPerform(hash, k, x), key, amount)
  {
    if x.CommitPayout? {
      PayoutCreationTold(hash, k, x.t, x.ids);
    } else {
      DisputeCreationTold(hash, k, x.a.n, x.a.reference, x.a.ids);
    }
  }

  // A committed call about this claim resolves it, from the stored row it read.
  ghost predicate ResolvesOrKeeps(s: State, s': State, payload: Payload, key: RecordKey) {
    if KeyOf(payload) == key then Stage(s', key) == 2 && !payload.OfPayment? && Exact(PayloadAmount(payload))
    else Stage(s', key) == Stage(s, key)
  }

  lemma PaymentKeepsClaims(s: State, call: Call, reference: string, ids: Ids, key: RecordKey)
    requires PaymentCall(call) && !key.PaymentKey?
    ensures ResolvesOrKeeps(s, StoredCommit(s, call, reference, ids).0, CallEvent(call, reference, ids).payload, key)
  {
    var s' := StoredCommit(s, call, reference, ids).0;
    assert s'.payouts == s.payouts && s'.disputes == s.disputes;
  }

  lemma CompletionTold(s: State, call: Call, reference: string, ids: Ids, key: RecordKey)
    requires StoredCall(call) && StoredCommit(s, call, reference, ids).1 && call.Completing?
    requires !key.PaymentKey? && Stage(s, key) > 0
    ensures ResolvesOrKeeps(s, StoredCommit(s, call, reference, ids).0, CallEvent(call, reference, ids).payload, key)
  {
  }

  lemma ResolutionTold(s: State, call: Call, reference: string, ids: Ids, key: RecordKey)
    requires StoredCall(call) && StoredCommit(s, call, reference, ids).1 && call.Resolving?
    requires !key.PaymentKey? && Stage(s, key) > 0
    ensures ResolvesOrKeeps(s, StoredCommit(s, call, reference, ids).0, CallEvent(call, reference, ids).payload, key)
  {
  }

  lemma OpeningTold(s: State, call: Call, reference: string, ids: Ids, key: RecordKey)
    requires StoredCommit(s, call, reference, ids).1 && call.Opening? && ids.record !in s.disputes
    requires !key.PaymentKey? && Stage(s, key) > 0
    ensures ResolvesOrKeeps(s, StoredCommit(s, call, reference, ids).0, CallEvent(call, reference, ids).payload, key)
  {
  }

  lemma CallTold(s: State, call: Call, reference: string, ids: Ids, key: RecordKey)
    requires StoredCall(call) && StoredCommit(s, call, reference, ids).1 && Fresh(s, ids)
    requires !key.PaymentKey? && Stage(s, key) > 0
    ensures ResolvesOrKeeps(s, StoredCommit(s, call, reference, ids).0, CallEvent(call, reference, ids).payload, key)
  {
    match call
    case Completing(_, _, _, _) => CompletionTold(s, call, reference, ids, key);
    case Resolving(_, _, _) => ResolutionTold(s, call, reference, ids, key);
    case Opening(_, _, _, _) => OpeningTold(s, call, reference, ids, key);
    case _ => PaymentKeepsClaims(s, call, reference, ids, key);
  }

  lemma CommitTold(hash: string -> int, k: Pg, n: nat, reference: string, ids: Ids, key: RecordKey, amount: real)
    requires Held(k) && RoundEnabled(hash, k, Core(Commit(n, reference, ids))) && !key.PaymentKey?
    requires ClaimTold(k, key, amount)
    ensures ClaimTold(RoundPerform(hash, k, Core(Commit(n, reference, ids))), key, amount)
  {
    var call, s := k.core.calls[n], k.core.store;
    CommitPosts(hash, k, n, reference, ids);
    if StoredCommit(s, call, reference, ids).1 {
      CallTold(s, call, reference, ids, key);
      LatestAppend(k.core.journal, CallPosting(call, reference, ids), key);
    } else {
      CommitRefines(s, call, reference, ids);
      assert k.core.journal + [] == k.core.journal;
    }
  }

  lemma PayoutTold(hash: string -> int, k: Pg, x: PgAction, key: RecordKey, amount: real)
    requires Held(k) && RoundEnabled(hash, k, x) && x.CommitPayout? && !key.PaymentKey? && ClaimTold(k, key, amount)
    ensures ClaimTold(RoundPerform(hash, k, x), key, amount)
  {
    PayoutPosts(hash, k, x);
    LatestAppend(k.core.journal, StepPosting(hash, k, x).value, key);
  }

  lemma CoreKeepsClaims(hash: string -> int, k: Pg, a: Action)
    requires RoundEnabled(hash, k, Core(a)) && !a.Commit?
    ensures var k' := RoundPerform(hash, k, Core(a)).core;
            && k'.journal == k.core.journal
            && k'.store.payouts == k.core.store.payouts && k'.store.disputes == k.core.store.disputes
  {
  }

  lemma OtherKeepsClaims(hash: string -> int, k: Pg, x: PgAction)
    requires RoundEnabled(hash, k, x) && !x.CommitPayout? && !x.Core?
    ensures var k' := RoundPerform(hash, k, x).core;
            && k'.journal == k.core.journal
            && k'.store.payouts == k.core.store.payouts && k'.store.disputes == k.core.store.disputes
  {
  }

  lemma UnchangedTold(k: Pg, k': Pg, key: RecordKey, amount: real)
    requires !key.PaymentKey? && ClaimTold(k, key, amount) && k'.core.journal == k.core.journal
    requires k'.core.store.payouts == k.core.store.payouts && k'.core.store.disputes == k.core.store.disputes
    ensures ClaimTold(k', key, amount)
  {
  }

  lemma StepTold(hash: string -> int, k: Pg, x: PgAction, key: RecordKey, amount: real)
    requires Held(k) && RoundEnabled(hash, k, x) && !key.PaymentKey? && ClaimTold(k, key, amount)
    ensures ClaimTold(RoundPerform(hash, k, x), key, amount)
  {
    if x.Core? && x.a.Commit? {
      CommitTold(hash, k, x.a.n, x.a.reference, x.a.ids, key, amount);
    } else if x.CommitPayout? {
      PayoutTold(hash, k, x, key, amount);
    } else {
      if x.Core? { CoreKeepsClaims(hash, k, x.a); } else { OtherKeepsClaims(hash, k, x); }
      UnchangedTold(k, RoundPerform(hash, k, x), key, amount);
    }
  }

  lemma TraceTold(hash: string -> int, r: seq<Pg>, xs: seq<PgAction>, i: nat, key: RecordKey, amount: real)
    requires RoundTrace(hash, r, xs) && i < |xs| && !key.PaymentKey?
    requires ClaimTold(r[i], key, amount) || CreatesClaim(r[i], xs[i], key, amount)
    ensures ClaimTold(r[i + 1], key, amount)
  {
    assert Held(r[i]) by { RoundedRunsRefine(hash, r, xs, i); }
    if CreatesClaim(r[i], xs[i], key, amount) {
      CreationTold(hash, r[i], xs[i], key, amount);
    } else {
      StepTold(hash, r[i], xs[i], key, amount);
    }
  }

  lemma ToldAlong(hash: string -> int, r: seq<Pg>, xs: seq<PgAction>, i: nat, j: nat, key: RecordKey, amount: real)
    requires RoundTrace(hash, r, xs) && i < j < |r| && CreatesClaim(r[i], xs[i], key, amount)
    ensures ClaimTold(r[j], key, amount)
  {
    var good := (l: nat) => l < |r| && ClaimTold(r[l], key, amount);
    TraceTold(hash, r, xs, i, key, amount);
    forall l: nat | i + 1 <= l < j && good(l) ensures good(l + 1) {
      TraceTold(hash, r, xs, l, key, amount);
    }
    Persists(i + 1, j, good);
  }

  lemma ToldShowsRowIff(k: Pg, key: RecordKey, amount: real)
    requires ClaimTold(k, key, amount) && !key.PaymentKey? && Latest(k.core.journal, key).Some?
    requires RowPayload(k.core.store, key) == Some(RoundedPayload(Latest(k.core.journal, key).value))
    ensures Latest(k.core.journal, key) == RowPayload(k.core.store, key)
       <==> Exact(amount) || Stage(k.core.store, key) == 2
  {
  }

  /** In every run on rounding columns, the newest event of a payout or dispute shows its current row
      exactly when the requested amount has six decimals or the payout or dispute is resolved. */
  lemma ClaimEventIsRowIff(hash: string -> int, r: seq<Pg>, xs: seq<PgAction>, i: nat, j: nat, key: RecordKey,
                           amount: real)
    requires RoundTrace(hash, r, xs) && i < j < |r| && CreatesClaim(r[i], xs[i], key, amount)
    ensures Stage(r[j].core.store, key) > 0
    ensures Latest(r[j].core.journal, key) == RowPayload(r[j].core.store, key)
       <==> Exact(amount) || Stage(r[j].core.store, key) == 2
  {
    ToldAlong(hash, r, xs, i, j, key, amount);
    assert PgReached(hash, Shadow(r[j])) by { RoundedRunsRefine(hash, r, xs, j); }
    LatestUpToRounding(hash, r[j], key);
    ToldShowsRowIff(r[j], key, amount);
  }

  // ---------- the event and the answer of a capture or refund ----------

  // The row as it was read, moved by an amount, is the stored row moved by the rounded amount.
  lemma MovedIsStoredIff(read: real, now: real, amount: real)
    requires Exact(read) && Exact(now)
    ensures read + amount == now + Stored(amount) <==> read == now && Exact(amount)
  {
    StoredIsExact(amount);
    if read + amount == now + Stored(amount) {
      ExactSum(now, Stored(amount));
      ExactSum(now + Stored(amount), read);
      assert amount == now + Stored(amount) - read;
    }
  }

  // The current row moved by the rounded amount of a capture or refund.
  function RowMovedBy(row: Payment, call: Call): Payment
    requires call.Capturing? || call.Refunding?
  {
    var p := row.(status := if call.Capturing? then Captured else Refunded,
                  providerReference := if call.payment.providerReference != "" then call.payment.providerReference
                                       else row.providerReference);
    if call.Capturing? then p.(captured := row.captured + Stored(call.amount))
    else p.(refunded := row.refunded + Stored(call.amount))
  }

  lemma CaptureWritesRow(s: State, call: Call, reference: string, ids: Ids)
    requires StoredTables(s) && call.Capturing? && call.payment.id == call.id
    requires call.id in s.payments && StoredCommit(s, call, reference, ids).1
    ensures var s' := StoredCommit(s, call, reference, ids).0;
            call.id in s'.payments && s'.payments[call.id] == RowMovedBy(s.payments[call.id], call)
  {
    CaptureRounded(s.payments[call.id], call.amount);
  }

  lemma RefundWritesRow(s: State, call: Call, reference: string, ids: Ids)
    requires StoredTables(s) && call.Refunding? && call.payment.id == call.id
    requires call.id in s.payments && StoredCommit(s, call, reference, ids).1
    ensures var s' := StoredCommit(s, call, reference, ids).0;
            call.id in s'.payments && s'.payments[call.id] == RowMovedBy(s.payments[call.id], call)
  {
    RefundRounded(s.payments[call.id], call.amount);
  }

  lemma EventMovedIff(row: Payment, call: Call, reference: string, ids: Ids)
    requires (call.Capturing? || call.Refunding?) && StoredCall(call) && StoredPayment(row)
    requires PaymentEvolves(call.payment, row)
    ensures CallEvent(call, reference, ids).payload == OfPayment(RowMovedBy(row, call))
       <==> StillCurrent(call.payment, row) && Exact(call.amount)
  {
    MovedIsStoredIff(call.payment.captured, row.captured, call.amount);
    MovedIsStoredIff(call.payment.refunded, row.refunded, call.amount);
  }

  // The answer of the store to the command of a capture or refund.
  function AnswerOf(s: State, call: Call, ids: Ids): Result<Payment>
    requires call.Capturing? || call.Refunding?
  {
    PgCommit(s, if call.Capturing? then CaptureCommand(call.id, call.payment, call.amount, ids)
                else RefundCommand(call.id, call.payment, call.amount, ids)).1
  }

  lemma AnswerMovedIff(s: State, call: Call, reference: string, ids: Ids)
    requires StoredTables(s) && (call.Capturing? || call.Refunding?) && call.payment.id == call.id
    requires call.id in s.payments
    requires StoredCommit(s, call, reference, ids).1
    ensures AnswerOf(s, call, ids) == Ok(RowMovedBy(s.payments[call.id], call)) <==> Exact(call.amount)
  {
    var row := s.payments[call.id];
    MovedIsStoredIff(row.captured, row.captured, call.amount);
    MovedIsStoredIff(row.refunded, row.refunded, call.amount);
  }

  // What a call in flight read is still a legal snapshot, if its amount does not round away.
  lemma SnapshotHeld(hash: string -> int, k: Pg, n: nat)
    requires PgReached(hash, Shadow(k)) && n in k.core.calls && Survives(k.core.calls[n])
    requires k.core.calls[n].Capturing? || k.core.calls[n].Refunding?
    ensures var call := k.core.calls[n];
            call.id in k.core.store.payments && PaymentEvolves(call.payment, k.core.store.payments[call.id])
  {
    assert CallsOk(Shadow(k).core) by { PgReachedInv(hash, Shadow(k)); }
    assert n in Shadow(k).core.calls;
    assert CallOk(Shadow(k).core.store, Shadow(k).core.calls[n]);
  }

  // The event and the answer of a committed capture or refund, in terms of the row it read.
  lemma StoredEventIff(hash: string -> int, r: seq<Pg>, xs: seq<PgAction>, i: nat, n: nat, reference: string, ids: Ids)
    requires RoundTrace(hash, r, xs) && i < |xs| && xs[i] == Core(Commit(n, reference, ids)) && n in r[i].core.calls
    requires var call := r[i].core.calls[n]; call.Capturing? || call.Refunding?
    requires StoredCommit(r[i].core.store, r[i].core.calls[n], reference, ids).1
    ensures var call, s, s' := r[i].core.calls[n], r[i].core.store, r[i + 1].core.store;
            && call.id in s.payments && call.id in s'.payments && ids.event in s'.outbox
            && !s.payments[call.id].status.Failed?
            && (s'.outbox[ids.event].payload == OfPayment(s'.payments[call.id])
                <==> StillCurrent(call.payment, s.payments[call.id]) && Exact(call.amount))
            && (AnswerOf(s, call, ids) == Ok(s'.payments[call.id]) <==> Exact(call.amount))
  {
    var k, call := r[i], r[i].core.calls[n];
    assert Held(k) && PgReached(hash, Shadow(k)) by { RoundedRunsRefine(hash, r, xs, i); }
    assert StoredCall(call);
    assert Survives(call) by { CommitRefines(k.core.store, call, reference, ids); }
    SnapshotHeld(hash, k, n);
    assert r[i + 1].core.store == StoredCommit(k.core.store, call, reference, ids).0;
    CommittedEventIff(k.core.store, call, reference, ids);
  }

  lemma CommittedEventIff(s: State, call: Call, reference: string, ids: Ids)
    requires StoredTables(s) && StoredCall(call) && (call.Capturing? || call.Refunding?)
    requires call.id in s.payments && PaymentEvolves(call.payment, s.payments[call.id])
    requires StoredCommit(s, call, reference, ids).1
    ensures var s' := StoredCommit(s, call, reference, ids).0;
            && call.id in s'.payments && ids.event in s'.outbox && !s.payments[call.id].status.Failed?
            && (s'.outbox[ids.event].payload == OfPayment(s'.payments[call.id])
                <==> StillCurrent(call.payment, s.payments[call.id]) && Exact(call.amount))
            && (AnswerOf(s, call, ids) == Ok(s'.payments[call.id]) <==> Exact(call.amount))
  {
    PaymentWrites(s, call, reference, ids);
    if call.Capturing? { CaptureWritesRow(s, call, reference, ids); } else { RefundWritesRow(s, call, reference, ids); }
    EventMovedIff(s.payments[call.id], call, reference, ids);
    AnswerMovedIff(s, call, reference, ids);
  }
}
