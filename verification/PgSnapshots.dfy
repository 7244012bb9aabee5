/** `Snapshots.EventIsRowIff` for the PostgreSQL store, where calls really overlap, and on its rounding
    columns. */
module PgSnapshots {
  import opened Domain
  import opened Accounts
  import opened StoreSpec
  import opened ServiceSpec
  import opened Machine
  import opened Snapshots
  import opened Postgres
  import opened Interleavings
  import opened Rounding
  import opened RoundedRuns
  import opened RoundedEvents

  // ---------- one step of the exact machine ----------

  predicate PgInterferes(k: Pg, x: PgAction, id: string) {
    x.Core? && Enabled(k.core, x.a) && Interferes(k.core, x.a, id)
  }

  // How one step may change the row of a payment.
  predicate RowStep(row: Payment, row': Payment, interferes: bool) {
    && (row.status.Failed? ==> row'.status.Failed?)
    && ((row'.status.Failed? && !interferes) || RowMoved(row, row', interferes))
  }

  lemma CoreStepMovesRow(hash: string -> int, k: Pg, a: Action, id: string)
    requires RowsOk(k.core) && CallsOk(k.core) && PgEnabled(hash, k, Core(a)) && id in k.core.store.payments
    ensures var row' := PgPerform(hash, k, Core(a)).core.store.payments; id in row'
    ensures var row, row' := k.core.store.payments[id], PgPerform(hash, k, Core(a)).core.store.payments[id];
            (row'.status.Failed? && !PgInterferes(k, Core(a), id)) || RowMoved(row, row', PgInterferes(k, Core(a), id))
  {
    StepMovesRow(k.core, a, id);
  }

  lemma OtherStepKeepsRow(hash: string -> int, k: Pg, x: PgAction, id: string)
    requires PgEnabled(hash, k, x) && !x.Core? && id in k.core.store.payments
    ensures var payments := PgPerform(hash, k, x).core.store.payments;
            id in payments && (payments[id].status.Failed? || payments[id] == k.core.store.payments[id])
  {
  }

  lemma FailedStays(hash: string -> int, k: Pg, x: PgAction, id: string)
    requires PgInv(hash, k) && PgEnabled(hash, k, x) && id in k.core.store.payments
    ensures var payments := PgPerform(hash, k, x).core.store.payments;
            id in payments && (k.core.store.payments[id].status.Failed? ==> payments[id].status.Failed?)
  {
    StepEvolves(hash, k, x);
    assert PaymentEvolves(k.core.store.payments[id], PgPerform(hash, k, x).core.store.payments[id]);
  }

  lemma PgStepMovesRow(hash: string -> int, k: Pg, x: PgAction, id: string)
    requires PgInv(hash, k) && PgEnabled(hash, k, x) && id in k.core.store.payments
    ensures var payments := PgPerform(hash, k, x).core.store.payments;
            id in payments && RowStep(k.core.store.payments[id], payments[id], PgInterferes(k, x, id))
  {
    FailedStays(hash, k, x, id);
    if x.Core? {
      CoreStepMovesRow(hash, k, x.a, id);
    } else {
      OtherStepKeepsRow(hash, k, x, id);
    }
  }

  // The step ends call `n`.
  predicate PgEnds(x: PgAction, n: nat) {
    (x.Core? && Ends(x.a, n)) || (x.ReadStatus? && x.n == n)
  }

  lemma PgStepKeepsCall(hash: string -> int, k: Pg, x: PgAction, n: nat)
    requires PgEnabled(hash, k, x) && n in k.core.calls && !PgEnds(x, n)
    ensures var calls := PgPerform(hash, k, x).core.calls; n in calls && calls[n] == k.core.calls[n]
  {
    if x.Core? {
      StepKeepsCall(k.core, x.a, n);
    }
  }

  // ---------- runs of the exact machine ----------

  // Step `i` begins call `n` and no later step before `j` ends it.
  ghost predicate PgSpans(hash: string -> int, r: seq<Pg>, xs: seq<PgAction>, i: nat, j: nat, n: nat, call: Call) {
    && PgTrace(hash, r, xs) && i < j <= |xs| && xs[i] == Core(Begin(n, call))
    && forall l :: i < l < j ==> !PgEnds(xs[l], n)
  }

  // The call is in flight with what it read, which is current until a step interferes.
  ghost predicate InFlight(k: Pg, n: nat, call: Call, interfered: bool) {
    && PaymentCall(call) && n in k.core.calls && k.core.calls[n] == call
    && call.id in k.core.store.payments && Aged(call.payment, k.core.store.payments[call.id], interfered)
  }

  // A step that may interfere leaves the call in flight.
  ghost predicate Ages(k: Pg, interferes: bool, k': Pg, n: nat, call: Call) {
    && (InFlight(k, n, call, false) ==> InFlight(k', n, call, interferes))
    && (InFlight(k, n, call, true) ==> InFlight(k', n, call, true))
  }

  // Some step strictly between `i` and `j` is among the marked ones.
  ghost predicate Hit(hits: nat -> bool, i: nat, j: nat) {
    exists l: nat :: i < l < j && hits(l)
  }

  lemma {:induction false} AgesAlong(r: seq<Pg>, hits: nat -> bool, i: nat, j: nat, n: nat, call: Call)
    requires i < j < |r| && InFlight(r[i + 1], n, call, false)
    requires forall l: nat :: i < l < j ==> Ages(r[l], hits(l), r[l + 1], n, call)
    ensures InFlight(r[j], n, call, Hit(hits, i, j))
    decreases j
  {
    if i + 1 < j {
      AgesAlong(r, hits, i, j - 1, n, call);
      assert Ages(r[j - 1], hits(j - 1), r[j - 1 + 1], n, call);
      assert Hit(hits, i, j) <==> Hit(hits, i, j - 1) || hits(j - 1);
    }
  }

  lemma AgesIf(k: Pg, interferes: bool, k': Pg, n: nat, call: Call)
    requires PaymentCall(call) && n in k'.core.calls && n in k.core.calls && k'.core.calls[n] == k.core.calls[n]
    requires call.id in k.core.store.payments && call.id in k'.core.store.payments
    requires RowStep(k.core.store.payments[call.id], k'.core.store.payments[call.id], interferes)
    ensures Ages(k, interferes, k', n, call)
  {
    var p, row, row' := call.payment, k.core.store.payments[call.id], k'.core.store.payments[call.id];
    if InFlight(k, n, call, false) { AgedFurther(p, row, row', false, interferes); }
    if InFlight(k, n, call, true) { AgedFurther(p, row, row', true, interferes); }
  }

  lemma PgTraceMovesRow(hash: string -> int, r: seq<Pg>, xs: seq<PgAction>, j: nat, id: string)
    requires PgTrace(hash, r, xs) && j < |xs| && id in r[j].core.store.payments
    ensures id in r[j + 1].core.store.payments
    ensures RowStep(r[j].core.store.payments[id], r[j + 1].core.store.payments[id], PgInterferes(r[j], xs[j], id))
  {
    PgTraceInv(hash, r, xs, j);
    PgStepMovesRow(hash, r[j], xs[j], id);
  }

  lemma PgTraceAges(hash: string -> int, r: seq<Pg>, xs: seq<PgAction>, j: nat, n: nat, call: Call)
    requires PgTrace(hash, r, xs) && j < |xs| && !PgEnds(xs[j], n)
    ensures Ages(r[j], PgInterferes(r[j], xs[j], call.id), r[j + 1], n, call)
  {
    if PaymentCall(call) && n in r[j].core.calls && call.id in r[j].core.store.payments {
      PgStepKeepsCall(hash, r[j], xs[j], n);
      PgTraceMovesRow(hash, r, xs, j, call.id);
      AgesIf(r[j], PgInterferes(r[j], xs[j], call.id), r[j + 1], n, call);
    }
  }

  lemma PgBegun(hash: string -> int, r: seq<Pg>, xs: seq<PgAction>, i: nat, n: nat, call: Call)
    requires PgTrace(hash, r, xs) && i < |xs| && xs[i] == Core(Begin(n, call)) && PaymentCall(call)
    ensures InFlight(r[i + 1], n, call, false)
  {
    assert PgEnabled(hash, r[i], xs[i]) && r[i + 1] == PgPerform(hash, r[i], xs[i]);
  }

  ghost function PgHits(r: seq<Pg>, xs: seq<PgAction>, id: string): nat -> bool {
    (l: nat) => l < |xs| && l < |r| && PgInterferes(r[l], xs[l], id)
  }

  lemma PgCurrentUntilInterfered(hash: string -> int, r: seq<Pg>, xs: seq<PgAction>, i: nat, j: nat, n: nat, call: Call)
    requires PgSpans(hash, r, xs, i, j, n, call) && PaymentCall(call)
    ensures InFlight(r[j], n, call, Hit(PgHits(r, xs, call.id), i, j))
  {
    PgBegun(hash, r, xs, i, n, call);
    forall l: nat | i < l < j ensures Ages(r[l], PgHits(r, xs, call.id)(l), r[l + 1], n, call) {
      PgTraceAges(hash, r, xs, l, n, call);
    }
    AgesAlong(r, PgHits(r, xs, call.id), i, j, n, call);
  }

  /** Over every run of the PostgreSQL machine and every lock hash: the event of a committed
      authorization, capture or refund shows the row its commit wrote exactly when, between the read of
      the call and its commit, no capture or refund of the same payment committed, and no
      authorization of it that got a provider reference. */
  lemma PgEventIsRowIff(hash: string -> int, r: seq<Pg>, xs: seq<PgAction>, i: nat, j: nat, n: nat, call: Call,
                        reference: string, ids: Ids)
    requires PgSpans(hash, r, xs, i, j, n, call) && PaymentCall(call)
    requires j < |xs| && xs[j] == Core(Commit(n, reference, ids)) && Commits(r[j].core.store, call, reference, ids)
    ensures var s' := r[j + 1].core.store;
            && ids.event in s'.outbox && call.id in s'.payments
            && (s'.outbox[ids.event].payload == OfPayment(s'.payments[call.id])
                <==> forall l :: i < l < j ==> !PgInterferes(r[l], xs[l], call.id))
  {
    assert InFlight(r[j], n, call, Hit(PgHits(r, xs, call.id), i, j)) by {
      PgCurrentUntilInterfered(hash, r, xs, i, j, n, call);
    }
    PgCommitted(hash, r, xs, j, n, call, reference, ids);
    CurrentIff(r[j], n, call, Hit(PgHits(r, xs, call.id), i, j));
    PgNoneHit(r, xs, i, j, call.id);
  }

  // As long as the payment has not failed, the snapshot is current exactly when nothing interfered.
  lemma CurrentIff(k: Pg, n: nat, call: Call, interfered: bool)
    requires InFlight(k, n, call, interfered) && !k.core.store.payments[call.id].status.Failed?
    ensures StillCurrent(call.payment, k.core.store.payments[call.id]) <==> !interfered
  {
  }

  lemma PgNoneHit(r: seq<Pg>, xs: seq<PgAction>, i: nat, j: nat, id: string)
    requires j <= |xs| < |r|
    ensures !Hit(PgHits(r, xs, id), i, j) <==> forall l :: i < l < j ==> !PgInterferes(r[l], xs[l], id)
  {
    var hits := PgHits(r, xs, id);
    forall l: nat | i < l < j ensures hits(l) <==> PgInterferes(r[l], xs[l], id) {}
  }

  lemma PgCommitted(hash: string -> int, r: seq<Pg>, xs: seq<PgAction>, j: nat, n: nat, call: Call, reference: string,
                    ids: Ids)
    requires PgTrace(hash, r, xs) && j < |xs| && xs[j] == Core(Commit(n, reference, ids)) && PaymentCall(call)
    requires n in r[j].core.calls && r[j].core.calls[n] == call && Commits(r[j].core.store, call, reference, ids)
    ensures var s, s' := r[j].core.store, r[j + 1].core.store;
            && ids.event in s'.outbox && call.id in s'.payments && call.id in s.payments
            && !s.payments[call.id].status.Failed?
            && (s'.outbox[ids.event].payload == OfPayment(s'.payments[call.id])
                <==> StillCurrent(call.payment, s.payments[call.id]))
  {
    var k := r[j].core;
    assert RowsOk(k) && CallsOk(k) by { PgTraceInv(hash, r, xs, j); }
    assert CallOk(k.store, call);
    assert RowOk(call.id, k.store.payments[call.id], call.id in k.authorized);
    CommittedEvent(k.store, call, reference, ids, call.id in k.authorized);
    assert r[j + 1].core.store == CommitCall(k.store, call, reference, ids);
  }

  // ---------- one step on rounding columns ----------

  // The step stores a capture, a refund, or an authorization that got a provider reference.
  predicate RoundInterferes(k: Pg, x: PgAction, id: string) {
    && x.Core? && x.a.Commit? && x.a.n in k.core.calls && k.core.calls[x.a.n].id == id
    && StoredCommit(k.core.store, k.core.calls[x.a.n], x.a.reference, x.a.ids).1
    && var call := k.core.calls[x.a.n];
       call.Capturing? || call.Refunding? || (call.Authorizing? && x.a.reference != "")
  }

  lemma SurvivorCommits(s: State, call: Call, reference: string, ids: Ids)
    requires StoredTables(s) && StoredCall(call) && StoredCommit(s, call, reference, ids).1
    ensures Survives(call) && Commits(ShadowStore(s), RoundedCall(call), reference, ids)
  {
    CommitRefines(s, call, reference, ids);
  }

  // The kinds of call that can interfere with a snapshot of payment `id`.
  predicate Disturbs(call: Call, reference: string, id: string) {
    call.id == id && (call.Capturing? || call.Refunding? || (call.Authorizing? && reference != ""))
  }

  lemma CommitShadowInterferes(k: Pg, n: nat, reference: string, ids: Ids, id: string)
    requires Held(k) && n in k.core.calls && Fresh(k.core.store, ids)
    requires StoredCommit(k.core.store, k.core.calls[n], reference, ids).1
    ensures var x := Core(Commit(n, reference, ids)); RoundInterferes(k, x, id) <==> PgInterferes(Shadow(k), x, id)
  {
    var x, call, shadow := Core(Commit(n, reference, ids)), k.core.calls[n], Shadow(k).core;
    SurvivorCommits(k.core.store, call, reference, ids);
    assert n in shadow.calls && shadow.calls[n] == RoundedCall(call);
    assert Disturbs(call, reference, id) <==> Disturbs(RoundedCall(call), reference, id);
    assert RoundInterferes(k, x, id) <==> Disturbs(call, reference, id);
    assert Enabled(shadow, x.a);
    assert PgInterferes(Shadow(k), x, id) <==> Disturbs(shadow.calls[n], reference, id);
  }

  // Only a commit interferes, and the shadow only commits what was accepted.
  lemma QuietShadow(k: Pg, x: PgAction, id: string)
    requires !(x.Core? && x.a.Commit?)
    ensures !RoundInterferes(k, x, id)
    ensures var y := ShadowAction(k, x); y.Some? ==> !PgInterferes(Shadow(k), y.value, id)
  {
  }

  lemma RefusedShadow(k: Pg, n: nat, reference: string, ids: Ids, id: string)
    requires n in k.core.calls && !StoredCommit(k.core.store, k.core.calls[n], reference, ids).1
    ensures var x := Core(Commit(n, reference, ids));
            && !RoundInterferes(k, x, id)
            && var y := ShadowAction(k, x); y.Some? ==> !PgInterferes(Shadow(k), y.value, id)
  {
  }

  lemma AcceptedShadow(k: Pg, n: nat, reference: string, ids: Ids)
    requires Held(k) && n in k.core.calls && StoredCommit(k.core.store, k.core.calls[n], reference, ids).1
    ensures ShadowAction(k, Core(Commit(n, reference, ids))) == Some(Core(Commit(n, reference, ids)))
  {
    SurvivorCommits(k.core.store, k.core.calls[n], reference, ids);
  }

  lemma ShadowInterferes(hash: string -> int, k: Pg, x: PgAction, id: string)
    requires Held(k) && RoundEnabled(hash, k, x)
    ensures var y := ShadowAction(k, x); RoundInterferes(k, x, id) <==> y.Some? && PgInterferes(Shadow(k), y.value, id)
  {
    if !(x.Core? && x.a.Commit?) {
      QuietShadow(k, x, id);
    } else if StoredCommit(k.core.store, k.core.calls[x.a.n], x.a.reference, x.a.ids).1 {
      AcceptedShadow(k, x.a.n, x.a.reference, x.a.ids);
      CommitShadowInterferes(k, x.a.n, x.a.reference, x.a.ids, id);
    } else {
      RefusedShadow(k, x.a.n, x.a.reference, x.a.ids, id);
    }
  }

  lemma RoundStepMovesRow(hash: string -> int, k: Pg, x: PgAction, id: string)
    requires Held(k) && PgReached(hash, Shadow(k)) && RoundEnabled(hash, k, x) && id in k.core.store.payments
    ensures var payments := RoundPerform(hash, k, x).core.store.payments;
            id in payments && RowStep(k.core.store.payments[id], payments[id], RoundInterferes(k, x, id))
  {
    var shadow, y := Shadow(k), ShadowAction(k, x);
    assert Follows(hash, k, x) by {
      PgReachedInv(hash, shadow);
      ShadowRows(k);
      StepFollows(hash, k, x);
    }
    ShadowInterferes(hash, k, x, id);
    assert Shadow(RoundPerform(hash, k, x)).core.store.payments == RoundPerform(hash, k, x).core.store.payments;
    if y.Some? {
      PgReachedInv(hash, shadow);
      PgStepMovesRow(hash, shadow, y.value, id);
    }
  }

  lemma RoundStepKeepsCall(hash: string -> int, k: Pg, x: PgAction, n: nat)
    requires RoundEnabled(hash, k, x) && n in k.core.calls && !PgEnds(x, n)
    ensures var calls := RoundPerform(hash, k, x).core.calls; n in calls && calls[n] == k.core.calls[n]
  {
    if !x.CommitPayout? && !x.CommitCreate? && !(x.Core? && x.a.Commit?) {
      PgStepKeepsCall(hash, k, x, n);
    }
  }

  // ---------- runs on rounding columns ----------

  ghost predicate RoundSpans(hash: string -> int, r: seq<Pg>, xs: seq<PgAction>, i: nat, j: nat, n: nat, call: Call) {
    && RoundTrace(hash, r, xs) && i < j <= |xs| && xs[i] == Core(Begin(n, call))
    && forall l :: i < l < j ==> !PgEnds(xs[l], n)
  }

  ghost function RoundHits(r: seq<Pg>, xs: seq<PgAction>, id: string): nat -> bool {
    (l: nat) => l < |xs| && l < |r| && RoundInterferes(r[l], xs[l], id)
  }

  lemma RoundBegun(hash: string -> int, r: seq<Pg>, xs: seq<PgAction>, i: nat, n: nat, call: Call)
    requires RoundTrace(hash, r, xs) && i < |xs| && xs[i] == Core(Begin(n, call)) && PaymentCall(call)
    ensures InFlight(r[i + 1], n, call, false)
  {
    assert RoundEnabled(hash, r[i], xs[i]) && r[i + 1] == RoundPerform(hash, r[i], xs[i]);
  }

  lemma RoundTraceMovesRow(hash: string -> int, r: seq<Pg>, xs: seq<PgAction>, j: nat, id: string)
    requires RoundTrace(hash, r, xs) && j < |xs| && id in r[j].core.store.payments
    ensures id in r[j + 1].core.store.payments
    ensures RowStep(r[j].core.store.payments[id], r[j + 1].core.store.payments[id], RoundInterferes(r[j], xs[j], id))
  {
    assert Held(r[j]) && PgReached(hash, Shadow(r[j])) by { RoundedRunsRefine(hash, r, xs, j); }
    RoundStepMovesRow(hash, r[j], xs[j], id);
  }

  lemma RoundTraceAges(hash: string -> int, r: seq<Pg>, xs: seq<PgAction>, j: nat, n: nat, call: Call)
    requires RoundTrace(hash, r, xs) && j < |xs| && !PgEnds(xs[j], n)
    ensures Ages(r[j], RoundInterferes(r[j], xs[j], call.id), r[j + 1], n, call)
  {
    if PaymentCall(call) && n in r[j].core.calls && call.id in r[j].core.store.payments {
      RoundStepKeepsCall(hash, r[j], xs[j], n);
      RoundTraceMovesRow(hash, r, xs, j, call.id);
      AgesIf(r[j], RoundInterferes(r[j], xs[j], call.id), r[j + 1], n, call);
    }
  }

  lemma RoundCurrentUntilInterfered(hash: string -> int, r: seq<Pg>, xs: seq<PgAction>, i: nat, j: nat, n: nat,
                                    call: Call)
    requires RoundSpans(hash, r, xs, i, j, n, call) && PaymentCall(call)
    ensures InFlight(r[j], n, call, Hit(RoundHits(r, xs, call.id), i, j))
  {
    RoundBegun(hash, r, xs, i, n, call);
    forall l: nat | i < l < j ensures Ages(r[l], RoundHits(r, xs, call.id)(l), r[l + 1], n, call) {
      RoundTraceAges(hash, r, xs, l, n, call);
    }
    AgesAlong(r, RoundHits(r, xs, call.id), i, j, n, call);
  }

  /** On rounding columns, over every run and every lock hash: the event of a committed capture or refund
      shows the row it wrote exactly when no capture or refund of the same payment, and no
      authorization of it that got a provider reference, committed since the read of the call, and its
      amount has six decimals. The answer to the caller shows the row exactly when the amount has. */
  lemma RoundedEventIsRowIff(hash: string -> int, r: seq<Pg>, xs: seq<PgAction>, i: nat, j: nat, n: nat, call: Call,
                             reference: string, ids: Ids)
    requires RoundSpans(hash, r, xs, i, j, n, call) && (call.Capturing? || call.Refunding?)
    requires j < |xs| && xs[j] == Core(Commit(n, reference, ids))
    requires StoredCommit(r[j].core.store, call, reference, ids).1
    ensures var s, s' := r[j].core.store, r[j + 1].core.store;
            && ids.event in s'.outbox && call.id in s'.payments
            && (s'.outbox[ids.event].payload == OfPayment(s'.payments[call.id])
                <==> Exact(call.amount) && forall l :: i < l < j ==> !RoundInterferes(r[l], xs[l], call.id))
            && (AnswerOf(s, call, ids) == Ok(s'.payments[call.id]) <==> Exact(call.amount))
  {
    assert InFlight(r[j], n, call, Hit(RoundHits(r, xs, call.id), i, j)) by {
      RoundCurrentUntilInterfered(hash, r, xs, i, j, n, call);
    }
    StoredEventIff(hash, r, xs, j, n, reference, ids);
    CurrentIff(r[j], n, call, Hit(RoundHits(r, xs, call.id), i, j));
    RoundNoneHit(r, xs, i, j, call.id);
  }

  lemma RoundNoneHit(r: seq<Pg>, xs: seq<PgAction>, i: nat, j: nat, id: string)
    requires j <= |xs| < |r|
    ensures !Hit(RoundHits(r, xs, id), i, j) <==> forall l :: i < l < j ==> !RoundInterferes(r[l], xs[l], id)
  {
    var hits := RoundHits(r, xs, id);
    forall l: nat | i < l < j ensures hits(l) <==> RoundInterferes(r[l], xs[l], id) {}
  }

  /** The event of a committed authorization on rounding columns carries no amount that was rounded: it
      always shows the row it wrote. */
  lemma AuthorizedEventIsRow(hash: string -> int, r: seq<Pg>, xs: seq<PgAction>, j: nat, n: nat, reference: string,
                             ids: Ids)
    requires RoundTrace(hash, r, xs) && j < |xs| && xs[j] == Core(Commit(n, reference, ids)) && n in r[j].core.calls
    requires r[j].core.calls[n].Authorizing? && StoredCommit(r[j].core.store, r[j].core.calls[n], reference, ids).1
    ensures var s', id := r[j + 1].core.store, r[j].core.calls[n].id;
            ids.event in s'.outbox && id in s'.payments && s'.outbox[ids.event].payload == OfPayment(s'.payments[id])
  {
    var k, call := r[j], r[j].core.calls[n];
    assert Held(k) && PgReached(hash, Shadow(k)) by { RoundedRunsRefine(hash, r, xs, j); }
    AuthorizingSnapshot(hash, k, n);
    assert r[j + 1].core.store == StoredCommit(k.core.store, call, reference, ids).0;
    AuthorizedRow(k.core.store, call, reference, ids, call.id in k.core.authorized);
  }

  lemma AuthorizingSnapshot(hash: string -> int, k: Pg, n: nat)
    requires PgReached(hash, Shadow(k)) && n in k.core.calls && k.core.calls[n].Authorizing?
    ensures var call := k.core.calls[n];
            && call.id in k.core.store.payments && PaymentEvolves(call.payment, k.core.store.payments[call.id])
            && RowOk(call.id, k.core.store.payments[call.id], call.id in k.core.authorized)
            && 0.0 <= call.payment.refunded <= call.payment.captured
  {
    assert Inv(Shadow(k).core) by { PgReachedInv(hash, Shadow(k)); }
    assert n in Shadow(k).core.calls;
    assert CallOk(Shadow(k).core.store, Shadow(k).core.calls[n]);
    ShadowRows(k);
  }

  lemma AuthorizedRow(s: State, call: Call, reference: string, ids: Ids, everAuthorized: bool)
    requires StoredTables(s) && StoredCall(call) && call.Authorizing? && StoredCommit(s, call, reference, ids).1
    requires call.id in s.payments && PaymentEvolves(call.payment, s.payments[call.id])
    requires RowOk(call.id, s.payments[call.id], everAuthorized)
    requires 0.0 <= call.payment.refunded <= call.payment.captured
    ensures var s' := StoredCommit(s, call, reference, ids).0;
            && ids.event in s'.outbox && call.id in s'.payments
            && s'.outbox[ids.event].payload == OfPayment(s'.payments[call.id])
  {
    PaymentWrites(s, call, reference, ids);
    var row := s.payments[call.id];
    assert row.status.Created? && row.captured == 0.0 == row.refunded;
    assert call.payment.captured == 0.0 == call.payment.refunded;
  }
}
