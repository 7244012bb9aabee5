/** Runs that show what the in-memory machine can reach. They say which amounts their requests carry, so
    that they can be replayed where columns round. */
module Witnesses {
  import opened Domain
  import opened Accounts
  import opened Sums
  import opened StoreSpec
  import opened ServiceSpec
  import opened Machine
  import opened Runs
  import opened Bounds
  import opened Acceptance
  import opened Snapshots
  import opened Disputes
  import R = Reconciliation

  // ---------- what runs reach ----------

  // The amounts that requests carry are all in `ok`.
  predicate AmountsOk(ok: real -> bool, a: Action) {
    match a
    case Create(input, _, _) => ok(input.amount)
    case RequestPayout(_, _, amount, _) => ok(amount)
    case Begin(_, call) => call.Capturing? || call.Refunding? || call.Opening? ==> ok(call.amount)
    case _ => true
  }

  ghost predicate StepOk(ok: real -> bool, k: Config, a: Action, k': Config) {
    Enabled(k, a) && k' == Perform(k, a) && AmountsOk(ok, a)
  }

  ghost predicate TraceOk(ok: real -> bool, r: seq<Config>, xs: seq<Action>) {
    && |r| == |xs| + 1 && r[0] == INIT
    && forall i :: 0 <= i < |xs| ==> StepOk(ok, r[i], xs[i], r[i + 1])
  }

  // A run whose requests carry only amounts in `ok` ends in `k`.
  ghost predicate Reached(ok: real -> bool, k: Config) {
    exists r, xs :: TraceOk(ok, r, xs) && r[|r| - 1] == k
  }

  lemma TraceOkIsTrace(ok: real -> bool, r: seq<Config>, xs: seq<Action>)
    requires TraceOk(ok, r, xs)
    ensures Trace(r, xs)
  {
    forall i | 0 <= i < |xs| ensures Enabled(r[i], xs[i]) && r[i + 1] == Perform(r[i], xs[i]) {
      assert StepOk(ok, r[i], xs[i], r[i + 1]);
    }
  }

  lemma ReachedInit(ok: real -> bool)
    ensures Reached(ok, INIT)
  {
    var r, xs: seq<Action> := [INIT], [];
    assert TraceOk(ok, r, xs) && r[|r| - 1] == INIT;
  }

  lemma ReachedStep(ok: real -> bool, k: Config, a: Action)
    requires Reached(ok, k) && Enabled(k, a) && AmountsOk(ok, a)
    ensures Reached(ok, Perform(k, a))
  {
    var r, xs :| TraceOk(ok, r, xs) && r[|r| - 1] == k;
    var r', xs' := r + [Perform(k, a)], xs + [a];
    assert StepOk(ok, k, a, Perform(k, a));
    assert TraceOk(ok, r', xs') && r'[|r'| - 1] == Perform(k, a);
  }

  lemma {:induction false} ReachedFollow(ok: real -> bool, k: Config, xs: seq<Action>)
    requires Reached(ok, k) && Follow(k, xs).Some? && forall i :: 0 <= i < |xs| ==> AmountsOk(ok, xs[i])
    ensures Reached(ok, Follow(k, xs).value)
    decreases |xs|
  {
    if xs != [] {
      ReachedStep(ok, k, xs[0]);
      ReachedFollow(ok, Perform(k, xs[0]), xs[1..]);
    }
  }

  lemma ReachedInv(ok: real -> bool, k: Config)
    requires Reached(ok, k)
    ensures Inv(k)
  {
    var r, xs :| TraceOk(ok, r, xs) && r[|r| - 1] == k;
    TraceOkIsTrace(ok, r, xs);
    TraceIsRun(r, xs);
    RunInv(r, |r| - 1);
  }

  // ---------- service calls one after the other ----------

  function Uuid(kind: char, n: nat): string {
    [kind] + seq(n, (i: nat) => 'x')
  }

  function Drawn(n: nat): Ids {
    Ids(Uuid('d', n), Uuid('c', n), Uuid('e', n), Uuid('r', n))
  }

  // No record or event has an id longer than `n`.
  ghost predicate Young(s: State, n: nat) {
    && (forall id :: id in s.payments ==> |id| <= n)
    && (forall id :: id in s.payouts ==> |id| <= n)
    && (forall id :: id in s.disputes ==> |id| <= n)
    && (forall id :: id in s.outbox ==> |id| <= n)
  }

  lemma DrawnFresh(s: State, n: nat)
    requires Young(s, n)
    ensures Fresh(s, Drawn(n)) && |Drawn(n).record| == |Drawn(n).event| == n + 1
  {
  }

  // A reachable configuration with no call in flight.
  ghost predicate Idle(ok: real -> bool, k: Config, n: nat) {
    Reached(ok, k) && k.calls == map[] && Young(k.store, n)
  }

  predicate RequestOk(ok: real -> bool, q: Request) {
    match q
    case CreateRequest(input, _, _) => ok(input.amount)
    case CaptureRequest(_, amount, _, _) => ok(amount)
    case RefundRequest(_, amount, _, _) => ok(amount)
    case PayoutRequest(_, _, amount, _) => ok(amount)
    case OpenRequest(_, _, amount, _) => ok(amount)
    case _ => true
  }

  lemma CallStepsOk(ok: real -> bool, s: State, n: nat, q: Request)
    requires RequestOk(ok, q)
    ensures var xs := CallSteps(s, n, q); forall i :: 0 <= i < |xs| ==> AmountsOk(ok, xs[i])
  {
  }

  lemma ServedReached(ok: real -> bool, k: Config, n: nat, q: Request) returns (k': Config)
    requires Idle(ok, k, n) && RequestOk(ok, q) && q.ids == Drawn(n) && Young(Serve(k.store, q).0, n + 1)
    ensures Idle(ok, k', n + 1) && k'.store == Serve(k.store, q).0
  {
    DrawnFresh(k.store, n);
    ServiceCallIsSteps(k, 0, q);
    CallStepsOk(ok, k.store, 0, q);
    ReachedFollow(ok, k, CallSteps(k.store, 0, q));
    k' := Follow(k, CallSteps(k.store, 0, q)).value;
  }

  // The store holds one payment, under the key "key", and nothing else. Once authorized it has the
  // provider reference "ref".
  ghost predicate Sale(s: State, id: string, amount: real, captured: real, status: PaymentStatus) {
    && id != "" && id in s.payments && s.payments == map[id := s.payments[id]]
    && s.payouts == map[] && s.disputes == map[] && s.keys == map["key" := id]
    && var p := s.payments[id];
       && p.id == id && p.merchantId == "m" && p.currency == "EUR" && p.status == status
       && p.amount == amount && p.captured == captured && p.refunded == 0.0
       && p.providerReference == (if status.Created? then "" else "ref")
  }

  lemma CreatedSale(ok: real -> bool, amount: real) returns (k: Config, id: string)
    requires amount > 0.0 && ok(amount)
    ensures Idle(ok, k, 1) && Sale(k.store, id, amount, 0.0, Created)
  {
    ReachedInit(ok);
    var q := CreateRequest(CreatePayment("m", "c", "EUR", amount), "key", Drawn(0));
    assert !IsSpace("m"[0]) && !IsSpace("c"[0]);
    assert ToUpper("EUR") == "EUR";
    assert Serve(EMPTY, q).1;
    id := Drawn(0).record;
    DrawnFresh(EMPTY, 0);
    k := ServedReached(ok, INIT, 0, q);
  }

  // One payment moved, with one more event under a drawn id.
  ghost predicate MovesPayment(s: State, s': State, n: nat, id: string, p: Payment) {
    && OnlyPayment(s, s', id, p) && s'.keys == s.keys && s'.outbox.Keys == s.outbox.Keys + {Drawn(n).event}
  }

  lemma YoungAfterMove(s: State, s': State, n: nat, id: string, p: Payment)
    requires Young(s, n) && id in s.payments && MovesPayment(s, s', n, id, p)
    ensures Young(s', n + 1)
  {
    forall e | e in s'.outbox ensures |e| <= n + 1 {
      assert e in s.outbox.Keys + {Drawn(n).event};
    }
  }

  lemma SaleMoves(s: State, s': State, n: nat, id: string, p: Payment)
    requires id in s.payments && s.payments == map[id := s.payments[id]] && MovesPayment(s, s', n, id, p)
    ensures s'.payments == map[id := p] && s'.payouts == s.payouts && s'.disputes == s.disputes && s'.keys == s.keys
  {
  }

  // An authorization of a created payment, answered with "ref".
  lemma AuthorizationServed(k: Config, n: nat, id: string)
    requires RowsOk(k) && Young(k.store, n) && id in k.store.payments && k.store.payments[id].status == Created
    ensures var s' := Serve(k.store, AuthorizeRequest(id, Allowed, Some("ref"), Drawn(n))).0;
            var p := k.store.payments[id].(status := Authorized, providerReference := "ref");
            MovesPayment(k.store, s', n, id, p) && Young(s', n + 1)
  {
    var s' := AuthorizeCall(k.store, id, Allowed, Some("ref"), Drawn(n)).0;
    AuthorizeSucceedsIff(k, id, Allowed, Some("ref"), Drawn(n));
    YoungAfterMove(k.store, s', n, id, k.store.payments[id].(status := Authorized, providerReference := "ref"));
  }

  lemma AuthorizeServed(k: Config, n: nat, id: string, amount: real)
    requires RowsOk(k) && Young(k.store, n) && Sale(k.store, id, amount, 0.0, Created)
    ensures var s' := Serve(k.store, AuthorizeRequest(id, Allowed, Some("ref"), Drawn(n))).0;
            Sale(s', id, amount, 0.0, Authorized) && Young(s', n + 1)
  {
    var s' := Serve(k.store, AuthorizeRequest(id, Allowed, Some("ref"), Drawn(n))).0;
    AuthorizationServed(k, n, id);
    SaleMoves(k.store, s', n, id, k.store.payments[id].(status := Authorized, providerReference := "ref"));
  }

  lemma CaptureMoves(k: Config, n: nat, id: string, amount: real)
    requires RowsOk(k) && Young(k.store, n) && Sale(k.store, id, amount, 0.0, Authorized)
    ensures var s' := Serve(k.store, CaptureRequest(id, amount, true, Drawn(n))).0;
            var p := k.store.payments[id].(status := Captured, captured := amount);
            MovesPayment(k.store, s', n, id, p) && Young(s', n + 1)
  {
    var s' := CaptureCall(k.store, id, amount, true, Drawn(n)).0;
    assert RowOk(id, k.store.payments[id], id in k.authorized);
    CaptureSucceedsIff(k, id, amount, true, Drawn(n));
    YoungAfterMove(k.store, s', n, id, k.store.payments[id].(status := Captured, captured := amount));
  }

  lemma CaptureServed(k: Config, n: nat, id: string, amount: real)
    requires RowsOk(k) && Young(k.store, n) && Sale(k.store, id, amount, 0.0, Authorized)
    ensures var s' := Serve(k.store, CaptureRequest(id, amount, true, Drawn(n))).0;
            Sale(s', id, amount, amount, Captured) && Young(s', n + 1)
  {
    var s' := Serve(k.store, CaptureRequest(id, amount, true, Drawn(n))).0;
    CaptureMoves(k, n, id, amount);
    SaleMoves(k.store, s', n, id, k.store.payments[id].(status := Captured, captured := amount));
  }

  lemma AuthorizedSale(ok: real -> bool, amount: real) returns (k: Config, id: string)
    requires amount > 0.0 && ok(amount)
    ensures Idle(ok, k, 2) && Sale(k.store, id, amount, 0.0, Authorized)
  {
    k, id := CreatedSale(ok, amount);
    assert RowsOk(k) by { ReachedInv(ok, k); }
    AuthorizeServed(k, 1, id, amount);
    k := ServedReached(ok, k, 1, AuthorizeRequest(id, Allowed, Some("ref"), Drawn(1)));
  }

  /** For every amount there is a run with one payment, captured in full. */
  lemma CapturedSale(ok: real -> bool, amount: real) returns (k: Config, id: string)
    requires amount > 0.0 && ok(amount)
    ensures Idle(ok, k, 3) && Sale(k.store, id, amount, amount, Captured)
  {
    k, id := AuthorizedSale(ok, amount);
    assert RowsOk(k) by { ReachedInv(ok, k); }
    CaptureServed(k, 2, id, amount);
    k := ServedReached(ok, k, 2, CaptureRequest(id, amount, true, Drawn(2)));
  }

  lemma SingleSum<V>(id: string, v: V, term: (string, V) -> real)
    ensures Sum(map[id := v], term) == term(id, v)
  {
    var none: map<string, V> := map[];
    SumUpdate(none, term, id, v);
    assert none[id := v] == map[id := v];
  }

  lemma SaleBalance(ok: real -> bool, k: Config, id: string, amount: real, captured: real, status: PaymentStatus)
    requires Reached(ok, k) && Sale(k.store, id, amount, captured, status)
    ensures Available(k.store, "m", "EUR") == captured
  {
    ReachedInv(ok, k);
    assert AgreesAt(k, MerchantAvailable("m"), "EUR");
    AvailableSplit(k, "m", "EUR");
    SingleSum(id, k.store.payments[id], CapturedTerm("m", "EUR"));
    SingleSum(id, k.store.payments[id], RefundedTerm("m", "EUR"));
  }

  // ---------- captures that overlap ----------

  lemma BothCapturing(ok: real -> bool, k: Config, id: string, amount: real) returns (k': Config)
    requires Reached(ok, k) && ok(amount) && k.calls == map[]
    requires id in k.store.payments && ValidCapture(k.store.payments[id], amount)
    ensures Reached(ok, k') && k' == k.(calls := map[0 := Capturing(id, k.store.payments[id], amount),
                                                     1 := Capturing(id, k.store.payments[id], amount)])
  {
    var call := Capturing(id, k.store.payments[id], amount);
    ReachedStep(ok, k, Begin(0, call));
    var k1 := Perform(k, Begin(0, call));
    ReachedStep(ok, k1, Begin(1, call));
    k' := Perform(k1, Begin(1, call));
  }

  // Two captures of `amount` have read the same row, and the first has committed.
  lemma OneCommitted(ok: real -> bool, k: Config, id: string, amount: real) returns (k': Config)
    requires Idle(ok, k, 2) && ok(amount)
    requires id in k.store.payments && k.store.payments[id].id == id && ValidCapture(k.store.payments[id], amount)
    ensures var call := Capturing(id, k.store.payments[id], amount);
            && Reached(ok, k') && k'.store == CommitCall(k.store, call, "", Drawn(2)) && Young(k'.store, 3)
            && k'.calls == map[1 := call]
  {
    var call := Capturing(id, k.store.payments[id], amount);
    var k1 := BothCapturing(ok, k, id, amount);
    DrawnFresh(k.store, 2);
    ReachedStep(ok, k1, Commit(0, "", Drawn(2)));
    k' := Perform(k1, Commit(0, "", Drawn(2)));
    YoungCapture(k.store, 2, call);
    assert k1.calls - {0} == map[1 := call];
  }

  // The capture call `n` of payment `id` is about to commit: then the row holds `held` captured, and the
  // event of this very commit announces `told`.
  ghost predicate WillMisstate(k: Config, n: nat, ids: Ids, id: string, held: real, told: real) {
    && n in k.calls && k.calls[n].Capturing? && k.calls[n].id == id && Enabled(k, Commit(n, "", ids))
    && Commits(k.store, k.calls[n], "", ids)
    && var s' := CommitCall(k.store, k.calls[n], "", ids);
       && id in s'.payments && s'.payments[id].captured == held
       && ids.event in s'.outbox && s'.outbox[ids.event].payload.OfPayment?
       && s'.outbox[ids.event].payload.payment.id == id
       && s'.outbox[ids.event].payload.payment.captured == told
  }

  lemma SecondCommitMisstates(s: State, id: string, half: real)
    requires id in s.payments && Sale(s, id, 2.0 * half, 0.0, Authorized) && half > 0.0
    ensures var call := Capturing(id, s.payments[id], half);
            var s1 := CommitCall(s, call, "", Drawn(2));
            var s2 := CommitCall(s1, call, "", Drawn(3));
            && Commits(s1, call, "", Drawn(3)) && id in s2.payments && s2.payments[id].captured == 2.0 * half
            && Drawn(3).event in s2.outbox
            && s2.outbox[Drawn(3).event].payload
                == OfPayment(Expected(s.payments[id], Captured, half, s.payments[id].providerReference))
  {
    var p := s.payments[id];
    PairBalanced(id, MerchantPending("m"), MerchantAvailable("m"), "EUR", half, Drawn(2));
    PairBalanced(id, MerchantPending("m"), MerchantAvailable("m"), "EUR", half, Drawn(3));
    var s1 := CommitCall(s, Capturing(id, p, half), "", Drawn(2));
    assert s1.payments[id] == p.(status := Captured, captured := half);
  }

  lemma OtherWillMisstate(s: State, k: Config, id: string, half: real)
    requires id in s.payments && Sale(s, id, 2.0 * half, 0.0, Authorized) && half > 0.0 && Young(k.store, 3)
    requires k.store == CommitCall(s, Capturing(id, s.payments[id], half), "", Drawn(2))
    requires k.calls == map[1 := Capturing(id, s.payments[id], half)]
    ensures WillMisstate(k, 1, Drawn(3), id, 2.0 * half, half)
  {
    SecondCommitMisstates(s, id, half);
    DrawnFresh(k.store, 3);
  }

  /** For every amount there is a run in which two captures of half of it have read the same row and one
      has committed: when the other commits too, the row holds the whole amount, and the event of that
      commit announces half of it. */
  lemma EventMayUnderstateRow(ok: real -> bool, amount: real)
    requires amount > 0.0 && ok(amount) && ok(amount / 2.0)
    ensures var half := amount / 2.0;
            exists k, n, ids, id :: Reached(ok, k) && WillMisstate(k, n, ids, id, amount, half)
  {
    var half := amount / 2.0;
    var k, id := AuthorizedSale(ok, amount);
    var k1 := OneCommitted(ok, k, id, half);
    OtherWillMisstate(k.store, k1, id, half);
    assert 2.0 * half == amount;
  }

  lemma YoungCapture(s: State, n: nat, call: Call)
    requires Young(s, n) && call.Capturing? && call.id in s.payments
    requires s.payments[call.id].id == call.id && call.payment.id == call.id
    ensures Young(CommitCall(s, call, "", Drawn(n)), n + 1)
  {
    DrawnFresh(s, n);
  }

  // ---------- disputes that overlap ----------

  // The payment has captured `amount` and refunded nothing.
  predicate FullyCaptured(s: State, id: string, amount: real) {
    && id != "" && id in s.payments && amount > 0.0
    && var p := s.payments[id];
       p.merchantId == "m" && p.currency == "EUR" && p.captured == amount && p.refunded == 0.0
  }

  lemma OpenServed(k: Config, n: nat, id: string, amount: real)
    requires RowsOk(k) && Young(k.store, n) && FullyCaptured(k.store, id, amount)
    ensures var (s', ok) := Serve(k.store, OpenRequest(id, "fraud", amount, Drawn(n)));
            var p := k.store.payments[id];
            && ok && s'.payments == k.store.payments && Young(s', n + 1)
            && s'.ledger == k.store.ledger + OpenEntries(id, p, amount, Drawn(n))
            && s'.disputes == k.store.disputes[Drawn(n).record :=
                                Dispute(Drawn(n).record, id, "m", "EUR", "fraud", amount, DisputeOpen)]
  {
    DrawnFresh(k.store, n);
    OpeningWrites(k, n, id, amount);
    YoungAfterOpening(k.store, OpenCall(k.store, id, "fraud", amount, Drawn(n)).0, n);
  }

  lemma OpeningWrites(k: Config, n: nat, id: string, amount: real)
    requires RowsOk(k) && Drawn(n).record !in k.store.disputes && FullyCaptured(k.store, id, amount)
    ensures var (s', r) := OpenCall(k.store, id, "fraud", amount, Drawn(n));
            && r.Ok? && s'.payments == k.store.payments && s'.payouts == k.store.payouts
            && s'.outbox.Keys == k.store.outbox.Keys + {Drawn(n).event}
            && s'.ledger == k.store.ledger + OpenEntries(id, k.store.payments[id], amount, Drawn(n))
            && s'.disputes == k.store.disputes[Drawn(n).record :=
                                Dispute(Drawn(n).record, id, "m", "EUR", "fraud", amount, DisputeOpen)]
  {
    OpenSucceedsIff(k, id, "fraud", amount, Drawn(n));
  }

  lemma YoungAfterOpening(s: State, s': State, n: nat)
    requires Young(s, n) && s'.payments == s.payments && s'.payouts == s.payouts
    requires s'.disputes.Keys == s.disputes.Keys + {Drawn(n).record}
    requires s'.outbox.Keys == s.outbox.Keys + {Drawn(n).event}
    ensures Young(s', n + 1)
  {
    forall e | e in s'.outbox ensures |e| <= n + 1 { assert e in s.outbox.Keys + {Drawn(n).event}; }
    forall d | d in s'.disputes ensures |d| <= n + 1 { assert d in s.disputes.Keys + {Drawn(n).record}; }
  }

  lemma OpenedSale(ok: real -> bool, k: Config, n: nat, id: string, amount: real) returns (k': Config)
    requires Idle(ok, k, n) && ok(amount) && FullyCaptured(k.store, id, amount)
    ensures Idle(ok, k', n + 1) && k'.store.payments == k.store.payments
    ensures DisputedOf(k'.store, id) == DisputedOf(k.store, id) + amount
    ensures Available(k'.store, "m", "EUR") == Available(k.store, "m", "EUR") - amount
  {
    var u := Drawn(n);
    assert RowsOk(k) by { ReachedInv(ok, k); }
    OpenServed(k, n, id, amount);
    DrawnFresh(k.store, n);
    k' := ServedReached(ok, k, n, OpenRequest(id, "fraud", amount, u));
    SumUpdate(k.store.disputes, DisputedOfTerm(id), u.record, k'.store.disputes[u.record]);
    PairBalance(k.store.ledger, id, MerchantAvailable("m"), MerchantDisputeFrozen("m"), "EUR", amount, u,
                MerchantAvailable("m"), "EUR");
  }

  /** For every amount there is a run in which a payment captured in full is disputed in full twice:
      its disputes exceed what it captured, and the available balance is below zero. */
  lemma DisputesMayOverlap(ok: real -> bool, amount: real)
    requires amount > 0.0 && ok(amount)
    ensures exists k, id :: && Reached(ok, k) && id in k.store.payments && k.store.payments[id].captured == amount
                            && DisputedOf(k.store, id) == 2.0 * amount && Available(k.store, "m", "EUR") == -amount
  {
    var k, id := CapturedSale(ok, amount);
    SaleBalance(ok, k, id, amount, amount, Captured);
    var k1 := OpenedSale(ok, k, 3, id, amount);
    var k2 := OpenedSale(ok, k1, 4, id, amount);
    assert Reached(ok, k2) && id in k2.store.payments;
  }

  // ---------- references that are not unique ----------

  lemma SecondCreated(s: State, n: nat, id: string, amount: real)
    requires Sale(s, id, amount, amount, Captured) && Young(s, n) && amount > 0.0
    ensures var s' := Serve(s, CreateRequest(CreatePayment("m", "c", "EUR", amount), "other", Drawn(n))).0;
            var second := Drawn(n).record;
            && Young(s', n + 1) && second != id && second in s'.payments && s'.payments[second].status == Created
            && s'.payments[second].captured == 0.0 && s'.payments == s.payments[second := s'.payments[second]]
  {
    DrawnFresh(s, n);
    assert !IsSpace("m"[0]) && !IsSpace("c"[0]);
    assert "other"[0] != "key"[0];
  }

  /** For every amount there is a run in which the provider answers two authorizations with the same
      reference and one of the payments is captured: what reconciling a line with that reference
      reports then depends on which row the lookup returns. */
  lemma ReferenceMayBeAmbiguous(ok: real -> bool, amount: real)
    requires amount > 0.0 && ok(amount)
    ensures exists k :: Reached(ok, k) && !R.Unambiguous(k.store.payments, "ref")
  {
    var k, id := CapturedSale(ok, amount);
    var second := Drawn(3).record;
    SecondCreated(k.store, 3, id, amount);
    var k1 := ServedReached(ok, k, 3, CreateRequest(CreatePayment("m", "c", "EUR", amount), "other", Drawn(3)));
    assert RowsOk(k1) by { ReachedInv(ok, k1); }
    AuthorizationServed(k1, 4, second);
    var k2 := ServedReached(ok, k1, 4, AuthorizeRequest(second, Allowed, Some("ref"), Drawn(4)));
    assert k2.store.payments[id].captured == amount && k2.store.payments[second].captured == 0.0;
    assert !R.Unambiguous(k2.store.payments, "ref");
  }
}
