/** What the snapshot inside a payment event is worth when calls overlap. A service call reads a row,
    builds its event from it and commits later; other calls may have changed the row in between. */
module Snapshots {
  import opened Domain
  import opened Accounts
  import opened StoreSpec
  import opened ServiceSpec
  import opened Machine
  import opened Steps
  import opened Runs
  import opened Theorems

  // ---------- service calls as steps ----------

  // What the service does between its read and its command decides how the call ends.
  ghost function CallSteps(s: State, n: nat, q: Request): seq<Action> {
    match q
    case CreateRequest(input, key, ids) => if key == "" then [] else [Create(input, key, ids)]
    case PayoutRequest(merchant, currency, amount, ids) => [RequestPayout(merchant, currency, amount, ids)]
    case AuthorizeRequest(id, risk, answer, ids) =>
      if id !in s.payments then []
      else [Begin(n, Authorizing(id, s.payments[id])),
            if risk.EngineError? then Abort(n)
            else if risk.Blocked? then Fail(n, "risk_blocked")
            else if answer.None? then Fail(n, "provider_error")
            else Commit(n, answer.value, ids)]
    case CaptureRequest(id, amount, providerOk, ids) =>
      if id !in s.payments || !ValidCapture(s.payments[id], amount) then []
      else [Begin(n, Capturing(id, s.payments[id], amount)), if providerOk then Commit(n, "", ids) else Abort(n)]
    case RefundRequest(id, amount, providerOk, ids) =>
      if id !in s.payments || !ValidRefund(s.payments[id], amount) then []
      else [Begin(n, Refunding(id, s.payments[id], amount)), if providerOk then Commit(n, "", ids) else Abort(n)]
    case CompleteRequest(id, reference, success, ids) =>
      if id !in s.payouts then []
      else [Begin(n, Completing(id, s.payouts[id], reference, success)), Commit(n, "", ids)]
    case OpenRequest(id, reason, amount, ids) =>
      if id !in s.payments || !Disputable(s.payments[id], amount) then []
      else [Begin(n, Opening(id, s.payments[id], reason, amount)), Commit(n, "", ids)]
    case ResolveRequest(id, merchantWins, ids) =>
      if id !in s.disputes then []
      else [Begin(n, Resolving(id, s.disputes[id], merchantWins)), Commit(n, "", ids)]
  }

  lemma FollowTwo(k: Config, x: Action, y: Action)
    requires Enabled(k, x) && Enabled(Perform(k, x), y)
    ensures Follow(k, [x, y]) == Some(Perform(Perform(k, x), y))
  {
    assert [x, y][1..] == [y] && [y][1..] == [];
    assert Follow(Perform(Perform(k, x), y), []) == Some(Perform(Perform(k, x), y));
  }

  lemma FollowOne(k: Config, x: Action)
    requires Enabled(k, x)
    ensures Follow(k, [x]) == Some(Perform(k, x))
  {
    assert [x][1..] == [];
  }

  predicate Finishes(s: State, n: nat, call: Call, y: Action) {
    match y
    case Commit(m, _, ids) => m == n && Fresh(s, ids)
    case Fail(m, reason) => m == n && call.Authorizing? && reason in {"risk_blocked", "provider_error"}
    case Abort(m) => m == n
    case _ => false
  }

  function Finished(s: State, call: Call, y: Action): State {
    match y
    case Commit(_, reference, ids) => CommitCall(s, call, reference, ids)
    case Fail(_, reason) => Transition(s, call.id, Failed, reason).0
    case _ => s
  }

  lemma BeginThen(k: Config, n: nat, call: Call, y: Action)
    requires n !in k.calls && Reads(k.store, call) && Finishes(k.store, n, call, y)
    ensures Follow(k, [Begin(n, call), y]).Some?
    ensures var end := Follow(k, [Begin(n, call), y]).value;
            end.calls == k.calls && end.store == Finished(k.store, call, y)
  {
    FollowTwo(k, Begin(n, call), y);
    assert (k.calls[n := call]) - {n} == k.calls;
  }

  // The call a request begins, how it ends, and what it leaves.
  lemma PaymentRequestSteps(s: State, n: nat, q: Request)
    requires q.AuthorizeRequest? || q.CaptureRequest? || q.RefundRequest?
    requires Fresh(s, q.ids)
    ensures var xs := CallSteps(s, n, q);
            if |xs| != 2 then xs == [] && Serve(s, q).0 == s
            else && xs[0].Begin? && xs[0].n == n && Reads(s, xs[0].call) && Finishes(s, n, xs[0].call, xs[1])
                 && Finished(s, xs[0].call, xs[1]) == Serve(s, q).0
  {
  }

  lemma ClaimRequestSteps(s: State, n: nat, q: Request)
    requires q.CompleteRequest? || q.OpenRequest? || q.ResolveRequest?
    requires Fresh(s, q.ids)
    ensures var xs := CallSteps(s, n, q);
            if |xs| != 2 then xs == [] && Serve(s, q).0 == s
            else && xs[0].Begin? && xs[0].n == n && Reads(s, xs[0].call) && Finishes(s, n, xs[0].call, xs[1])
                 && Finished(s, xs[0].call, xs[1]) == Serve(s, q).0
  {
  }

  lemma TwoSteps(k: Config, n: nat, q: Request)
    requires n !in k.calls && Fresh(k.store, q.ids) && !q.CreateRequest? && !q.PayoutRequest?
    ensures var end := Follow(k, CallSteps(k.store, n, q));
            end.Some? && end.value.store == Serve(k.store, q).0 && end.value.calls == k.calls
  {
    var xs := CallSteps(k.store, n, q);
    if q.CompleteRequest? || q.OpenRequest? || q.ResolveRequest? {
      ClaimRequestSteps(k.store, n, q);
    } else {
      PaymentRequestSteps(k.store, n, q);
    }
    if |xs| == 2 {
      BeginThen(k, n, xs[0].call, xs[1]);
      assert xs == [xs[0], xs[1]];
    }
  }

  /** Every service call, however it ends, is its unlocked read followed by one more step of the
      machine, or by none: those steps leave the very store that the service leaves. */
  lemma ServiceCallIsSteps(k: Config, n: nat, q: Request)
    requires n !in k.calls && Fresh(k.store, q.ids)
    ensures var end := Follow(k, CallSteps(k.store, n, q));
            end.Some? && end.value.store == Serve(k.store, q).0 && end.value.calls == k.calls
  {
    if q.CreateRequest? || q.PayoutRequest? {
      var xs := CallSteps(k.store, n, q);
      if xs != [] {
        FollowOne(k, xs[0]);
        assert xs == [xs[0]];
      }
    } else {
      TwoSteps(k, n, q);
    }
  }

  // ---------- when an event shows the row its commit writes ----------

  predicate PaymentCall(call: Call) {
    call.Authorizing? || call.Capturing? || call.Refunding?
  }

  // For any legal snapshot, in terms of the fields the command copies from it.
  lemma SnapshotIsRowIff(s: State, call: Call, reference: string, ids: Ids)
    requires PaymentCall(call) && CallOk(s, call)
    requires CommandRow(s.payments[call.id], PaymentCommandParts(call, reference, ids).0).Ok?
    ensures var cmd := PaymentCommandParts(call, reference, ids).0;
            var row := s.payments[call.id];
            cmd.event.payload == OfPayment(CommandRow(row, cmd).value)
            <==> && call.payment.captured == row.captured && call.payment.refunded == row.refunded
                 && (cmd.providerReference == "" ==> row.providerReference == "")
  {
  }

  // The row still has what a capture or refund event copies from the snapshot `p`.
  predicate StillCurrent(p: Payment, row: Payment) {
    && row.captured == p.captured && row.refunded == p.refunded
    && (p.providerReference == "" ==> row.providerReference == "")
  }

  // The step commits a capture, a refund, or an authorization that got a provider reference.
  predicate Interferes(k: Config, a: Action, id: string)
    requires Enabled(k, a)
  {
    && a.Commit? && k.calls[a.n].id == id && Commits(k.store, k.calls[a.n], a.reference, a.ids)
    && var call := k.calls[a.n];
       call.Capturing? || call.Refunding? || (call.Authorizing? && a.reference != "")
  }

  // How the row of a payment that does not fail may differ after a step.
  predicate RowMoved(row: Payment, row': Payment, interfered: bool) {
    && row.captured <= row'.captured && row.refunded <= row'.refunded
    && (row.providerReference != "" ==> row'.providerReference != "")
    && if interfered
       then || row.captured < row'.captured || row.refunded < row'.refunded
            || (row.providerReference == "" && row'.providerReference != "")
       else && row'.captured == row.captured && row'.refunded == row.refunded
            && row'.providerReference == row.providerReference
  }

  // Payout and dispute commands leave every payment alone.
  lemma ClaimCommitKeepsPayments(s: State, call: Call, reference: string, ids: Ids)
    requires !PaymentCall(call)
    ensures CommitCall(s, call, reference, ids).payments == s.payments
  {
  }

  lemma CommandMovesRow(s: State, call: Call, reference: string, ids: Ids, everAuthorized: bool)
    requires PaymentCall(call) && CallOk(s, call) && RowOk(call.id, s.payments[call.id], everAuthorized)
    requires CommitCall(s, call, reference, ids) != s
    ensures var s' := CommitCall(s, call, reference, ids);
            && call.id in s'.payments && s'.payments == s.payments[call.id := s'.payments[call.id]]
            && RowMoved(s.payments[call.id], s'.payments[call.id],
                        call.Capturing? || call.Refunding? || (call.Authorizing? && reference != ""))
  {
    PaymentCommandRow(s, call, reference, ids, everAuthorized);
  }

  lemma CommitMovesRow(k: Config, a: Action, id: string)
    requires RowsOk(k) && CallsOk(k) && Enabled(k, a) && a.Commit? && id in k.store.payments
    ensures var s' := CommitCall(k.store, k.calls[a.n], a.reference, a.ids);
            id in s'.payments && RowMoved(k.store.payments[id], s'.payments[id], Interferes(k, a, id))
  {
    var call := k.calls[a.n];
    CommitsIff(k.store, call, a.reference, a.ids);
    if !PaymentCall(call) {
      ClaimCommitKeepsPayments(k.store, call, a.reference, a.ids);
    } else if Commits(k.store, call, a.reference, a.ids) {
      assert CallOk(k.store, call);
      assert RowOk(call.id, k.store.payments[call.id], call.id in k.authorized);
      CommandMovesRow(k.store, call, a.reference, a.ids, call.id in k.authorized);
    }
  }

  lemma QuietMovesRow(k: Config, a: Action, k': Config, id: string)
    requires MovesNothing(k, a, k') && !a.Commit? && id in k.store.payments
    requires a.Create? ==> a.ids.record !in k.store.payments
    ensures id in k'.store.payments
    ensures k'.store.payments[id].status.Failed? || k'.store.payments[id] == k.store.payments[id]
  {
  }

  lemma PayoutKeepsPayments(k: Config, a: Action)
    requires Enabled(k, a) && a.RequestPayout?
    ensures Perform(k, a).store.payments == k.store.payments
  {
  }

  lemma StepMovesRow(k: Config, a: Action, id: string)
    requires RowsOk(k) && CallsOk(k) && Enabled(k, a) && id in k.store.payments
    ensures id in Perform(k, a).store.payments
    ensures var row, row' := k.store.payments[id], Perform(k, a).store.payments[id];
            (row'.status.Failed? && !Interferes(k, a, id)) || RowMoved(row, row', Interferes(k, a, id))
  {
    if a.Commit? {
      CommitMovesRow(k, a, id);
    } else if a.RequestPayout? {
      PayoutKeepsPayments(k, a);
    } else {
      QuietStepMovesNothing(k, a);
      QuietMovesRow(k, a, Perform(k, a), id);
    }
  }

  lemma TraceMovesRow(r: seq<Config>, xs: seq<Action>, i: nat, id: string)
    requires Trace(r, xs) && i < |xs| && id in r[i].store.payments
    ensures id in r[i + 1].store.payments
    ensures var row, row' := r[i].store.payments[id], r[i + 1].store.payments[id];
            && (row.status.Failed? ==> row'.status.Failed?)
            && ((row'.status.Failed? && !Interferes(r[i], xs[i], id))
                || RowMoved(row, row', Interferes(r[i], xs[i], id)))
  {
    TraceStep(r, xs, i);
    StepMovesRow(r[i], xs[i], id);
    assert PaymentEvolves(r[i].store.payments[id], r[i + 1].store.payments[id]);
  }

  lemma TraceBegins(r: seq<Config>, xs: seq<Action>, i: nat)
    requires Trace(r, xs) && i < |xs| && xs[i].Begin?
    ensures xs[i].n in r[i + 1].calls && r[i + 1].calls[xs[i].n] == xs[i].call
    ensures PaymentCall(xs[i].call) ==>
              xs[i].call.id in r[i + 1].store.payments && r[i + 1].store.payments[xs[i].call.id] == xs[i].call.payment
  {
    assert Enabled(r[i], xs[i]) && r[i + 1] == Perform(r[i], xs[i]);
  }

  lemma StepKeepsCall(k: Config, a: Action, n: nat)
    requires Enabled(k, a) && n in k.calls && !Ends(a, n)
    ensures n in Perform(k, a).calls && Perform(k, a).calls[n] == k.calls[n]
  {
  }

  // Step `i` begins call `n` and no later step before `j` ends it.
  ghost predicate Spans(r: seq<Config>, xs: seq<Action>, i: nat, j: nat, n: nat, call: Call) {
    && Trace(r, xs) && i < j <= |xs| && xs[i] == Begin(n, call)
    && forall l :: i < l < j ==> !Ends(xs[l], n)
  }

  predicate Ends(a: Action, n: nat) {
    (a.Abort? || a.Fail? || a.Commit?) && a.n == n
  }

  // Some step strictly between `i` and `j` interfered.
  ghost predicate Interfered(r: seq<Config>, xs: seq<Action>, i: nat, j: nat, id: string)
    requires Trace(r, xs) && j <= |xs|
  {
    exists l :: i < l < j && Interferes(r[l], xs[l], id)
  }

  lemma {:induction false} StillInFlight(r: seq<Config>, xs: seq<Action>, i: nat, j: nat, n: nat, call: Call)
    requires Spans(r, xs, i, j, n, call)
    ensures n in r[j].calls && r[j].calls[n] == call
    decreases j
  {
    if j == i + 1 {
      TraceBegins(r, xs, i);
    } else {
      StillInFlight(r, xs, i, j - 1, n, call);
      StepKeepsCall(r[j - 1], xs[j - 1], n);
    }
  }

  // How the row of a payment relates to a snapshot of it.
  predicate Aged(p: Payment, row: Payment, interfered: bool) {
    row.status.Failed? ||
    (&& p.captured <= row.captured && p.refunded <= row.refunded
     && (p.providerReference != "" ==> row.providerReference != "")
     && (StillCurrent(p, row) <==> !interfered))
  }

  lemma AgedFurther(p: Payment, row: Payment, row': Payment, before: bool, now: bool)
    requires Aged(p, row, before) && (row.status.Failed? ==> row'.status.Failed?)
    requires (row'.status.Failed? && !now) || RowMoved(row, row', now)
    ensures Aged(p, row', before || now)
  {
  }

  lemma InterferedLater(r: seq<Config>, xs: seq<Action>, i: nat, j: nat, id: string)
    requires Trace(r, xs) && i < j < |xs|
    ensures Interfered(r, xs, i, j + 1, id) <==> Interfered(r, xs, i, j, id) || Interferes(r[j], xs[j], id)
  {
  }

  // As long as the payment does not fail, the snapshot is current until a step interferes.
  lemma {:induction false} CurrentUntilInterfered(r: seq<Config>, xs: seq<Action>, i: nat, j: nat, n: nat, call: Call)
    requires Spans(r, xs, i, j, n, call) && PaymentCall(call)
    ensures call.id in r[j].store.payments
    ensures Aged(call.payment, r[j].store.payments[call.id], Interfered(r, xs, i, j, call.id))
    decreases j
  {
    if j == i + 1 {
      TraceBegins(r, xs, i);
    } else {
      CurrentUntilInterfered(r, xs, i, j - 1, n, call);
      InterferedLater(r, xs, i, j - 1, call.id);
      TraceMovesRow(r, xs, j - 1, call.id);
      AgedFurther(call.payment, r[j - 1].store.payments[call.id], r[j].store.payments[call.id],
                  Interfered(r, xs, i, j - 1, call.id), Interferes(r[j - 1], xs[j - 1], call.id));
    }
  }

  /** Over every run: the event of a committed authorization, capture or refund shows the row its
      commit wrote exactly when, between the read of the call and its commit, no capture or refund of
      the same payment committed, and no authorization of it that got a provider reference. */
  lemma EventIsRowIff(r: seq<Config>, xs: seq<Action>, i: nat, j: nat, n: nat, call: Call)
    requires Spans(r, xs, i, j, n, call) && PaymentCall(call) && j < |xs| && xs[j].Commit? && xs[j].n == n
    requires Commits(r[j].store, call, xs[j].reference, xs[j].ids)
    ensures var s' := r[j + 1].store;
            && xs[j].ids.event in s'.outbox && call.id in s'.payments
            && (s'.outbox[xs[j].ids.event].payload == OfPayment(s'.payments[call.id])
                <==> forall l :: i < l < j ==> !Interferes(r[l], xs[l], call.id))
  {
    var k := r[j];
    StillInFlight(r, xs, i, j, n, call);
    TraceStep(r, xs, j);
    assert CallOk(k.store, call);
    assert RowOk(call.id, k.store.payments[call.id], call.id in k.authorized);
    CommittedEvent(k.store, call, xs[j].reference, xs[j].ids, call.id in k.authorized);
    CurrentUntilInterfered(r, xs, i, j, n, call);
    assert !Interfered(r, xs, i, j, call.id) <==> forall l :: i < l < j ==> !Interferes(r[l], xs[l], call.id);
  }

  // The event a command writes is the row it writes exactly when its snapshot is current.
  lemma CommittedEvent(s: State, call: Call, reference: string, ids: Ids, everAuthorized: bool)
    requires PaymentCall(call) && CallOk(s, call) && RowOk(call.id, s.payments[call.id], everAuthorized)
    requires Commits(s, call, reference, ids)
    ensures var s' := CommitCall(s, call, reference, ids);
            && ids.event in s'.outbox && call.id in s'.payments && !s.payments[call.id].status.Failed?
            && (s'.outbox[ids.event].payload == OfPayment(s'.payments[call.id])
                <==> StillCurrent(call.payment, s.payments[call.id]))
  {
    CommitsIff(s, call, reference, ids);
    PaymentCommandRow(s, call, reference, ids, everAuthorized);
    SnapshotIsRowIff(s, call, reference, ids);
  }

  // ---------- the newest event ----------

  predicate Concerns(call: Call, id: string) {
    PaymentCall(call) && call.id == id
  }

  // No two authorizations, captures or refunds of payment `id` are ever in flight together. Calls on
  // other payments, payouts and disputes may overlap them freely.
  ghost predicate NeverOverlap(r: seq<Config>, xs: seq<Action>, id: string) {
    && Trace(r, xs)
    && forall i :: 0 <= i < |xs| ==> BeginsAlone(r[i], xs[i], id)
  }

  ghost predicate BeginsAlone(k: Config, a: Action, id: string) {
    a.Begin? && Concerns(a.call, id) ==> forall n :: n in k.calls ==> !Concerns(k.calls[n], id)
  }

  // At most one call on the payment is in flight, and what it read is still the row.
  ghost predicate Alone(k: Config, id: string) {
    forall n :: n in k.calls && Concerns(k.calls[n], id) ==>
      && id in k.store.payments && k.store.payments[id] == k.calls[n].payment
      && forall m :: m in k.calls && Concerns(k.calls[m], id) ==> m == n
  }

  ghost predicate EventShowsRow(k: Config, id: string) {
    var latest := Latest(k.journal, PaymentKey(id));
    if id !in k.store.payments || k.store.payments[id].status.Created? then latest == None
    else k.store.payments[id].status.Failed? || latest == Some(OfPayment(k.store.payments[id]))
  }

  lemma LatestAppend(journal: seq<Posting>, x: Posting, key: RecordKey)
    ensures Latest(journal + [x], key)
         == if KeyOf(x.event.payload) == key then Some(x.event.payload) else Latest(journal, key)
  {
    assert (journal + [x])[..|journal|] == journal;
  }

  // The step leaves payment `id` and its newest event alone and begins no call on it.
  ghost predicate Untouched(k: Config, k': Config, id: string) {
    && (id in k'.store.payments <==> id in k.store.payments)
    && (id in k.store.payments ==> k'.store.payments[id] == k.store.payments[id])
    && Latest(k'.journal, PaymentKey(id)) == Latest(k.journal, PaymentKey(id))
    && forall n :: n in k'.calls && Concerns(k'.calls[n], id) ==> n in k.calls && k'.calls[n] == k.calls[n]
  }

  lemma UntouchedShows(k: Config, k': Config, id: string)
    requires Untouched(k, k', id) && EventShowsRow(k, id) && Alone(k, id)
    ensures EventShowsRow(k', id) && Alone(k', id)
  {
  }

  // The step touches no payment and posts at most an event about a payout or dispute.
  ghost predicate PostsClaimAtMost(k: Config, k': Config) {
    && k'.store.payments == k.store.payments && k'.calls == k.calls
    && (k'.journal == k.journal
        || exists x: Posting :: k'.journal == k.journal + [x] && !x.event.payload.OfPayment?)
  }

  lemma ClaimUntouched(k: Config, k': Config, id: string)
    requires PostsClaimAtMost(k, k')
    ensures Untouched(k, k', id)
  {
    if k'.journal != k.journal {
      LatestAppend(k.journal, k'.journal[|k.journal|], PaymentKey(id));
    }
  }

  lemma ClaimCommitPosts(k: Config, call: Call, reference: string, ids: Ids)
    requires !PaymentCall(call) && ids.event !in k.store.outbox
    ensures PostsClaimAtMost(k, After(k, CommitCall(k.store, call, reference, ids), ids.event))
  {
  }

  lemma PayoutPosts(k: Config, a: Action)
    requires Enabled(k, a) && a.RequestPayout?
    ensures PostsClaimAtMost(k, Perform(k, a))
  {
  }

  // A command for another payment.
  lemma OtherPaymentCommit(k: Config, call: Call, reference: string, ids: Ids, id: string)
    requires RowsOk(k) && CallOk(k.store, call) && ids.event !in k.store.outbox && PaymentCall(call) && call.id != id
    requires CommitCall(k.store, call, reference, ids) != k.store
    ensures Untouched(k, After(k, CommitCall(k.store, call, reference, ids), ids.event), id)
  {
    var k' := After(k, CommitCall(k.store, call, reference, ids), ids.event);
    PaymentCommandPosts(k, k', call, reference, ids);
    LatestAppend(k.journal, k'.journal[|k.journal|], PaymentKey(id));
  }

  // A command for another record.
  lemma OtherCommit(k: Config, call: Call, reference: string, ids: Ids, id: string)
    requires RowsOk(k) && CallOk(k.store, call) && ids.event !in k.store.outbox && !Concerns(call, id)
    ensures Untouched(k, After(k, CommitCall(k.store, call, reference, ids), ids.event), id)
  {
    if !PaymentCall(call) {
      ClaimCommitPosts(k, call, reference, ids);
      ClaimUntouched(k, After(k, CommitCall(k.store, call, reference, ids), ids.event), id);
    } else if CommitCall(k.store, call, reference, ids) == k.store {
      AfterNothing(k, ids.event);
    } else {
      OtherPaymentCommit(k, call, reference, ids, id);
    }
  }

  // A command for this payment, built from its current row.
  lemma OwnCommit(k: Config, call: Call, reference: string, ids: Ids, id: string)
    requires RowsOk(k) && CallOk(k.store, call) && ids.event !in k.store.outbox && Concerns(call, id)
    requires id in k.store.payments && k.store.payments[id] == call.payment && EventShowsRow(k, id)
    ensures EventShowsRow(After(k, CommitCall(k.store, call, reference, ids), ids.event), id)
  {
    var k' := After(k, CommitCall(k.store, call, reference, ids), ids.event);
    CommitsIff(k.store, call, reference, ids);
    if !Commits(k.store, call, reference, ids) {
      AfterNothing(k, ids.event);
    } else {
      PaymentCommandShape(k, k', call, reference, ids);
      assert RowOk(id, call.payment, id in k.authorized);
      CommittedEvent(k.store, call, reference, ids, id in k.authorized);
      LatestAppend(k.journal, k'.journal[|k.journal|], PaymentKey(id));
    }
  }

  lemma CommitShows(k: Config, a: Action, id: string)
    requires RowsOk(k) && CallsOk(k) && EventShowsRow(k, id) && Alone(k, id) && Enabled(k, a) && a.Commit?
    ensures EventShowsRow(Perform(k, a), id) && Alone(Perform(k, a), id)
  {
    var call, ended := k.calls[a.n], EndCall(k, a.n);
    assert CallOk(k.store, call);
    if Concerns(call, id) {
      OwnCommit(ended, call, a.reference, a.ids, id);
    } else {
      OtherCommit(ended, call, a.reference, a.ids, id);
    }
  }

  lemma CreateShows(k: Config, a: Action, id: string)
    requires RowsOk(k) && CallsOk(k) && EventShowsRow(k, id) && Alone(k, id) && Enabled(k, a) && a.Create?
    ensures EventShowsRow(Perform(k, a), id) && Alone(Perform(k, a), id)
  {
    CreateShape(k, a.input, a.key, a.ids);
    forall n | n in k.calls && PaymentCall(k.calls[n]) ensures k.calls[n].id in k.store.payments {
      assert CallOk(k.store, k.calls[n]);
    }
  }

  lemma FailShows(k: Config, a: Action, id: string)
    requires RowsOk(k) && EventShowsRow(k, id) && Alone(k, id) && Enabled(k, a) && a.Fail?
    ensures EventShowsRow(Perform(k, a), id) && Alone(Perform(k, a), id)
  {
    FailingShape(EndCall(k, a.n), k.calls[a.n].id, a.reason);
  }

  lemma OtherStepShows(k: Config, a: Action, id: string)
    requires EventShowsRow(k, id) && Alone(k, id) && Enabled(k, a) && BeginsAlone(k, a, id)
    requires a.Begin? || a.Abort? || a.Register? || a.Publish?
    ensures EventShowsRow(Perform(k, a), id) && Alone(Perform(k, a), id)
  {
  }

  lemma StepShows(k: Config, a: Action, id: string)
    requires RowsOk(k) && CallsOk(k) && EventShowsRow(k, id) && Alone(k, id) && Enabled(k, a) && BeginsAlone(k, a, id)
    ensures EventShowsRow(Perform(k, a), id) && Alone(Perform(k, a), id)
  {
    match a
    case Commit(_, _, _) => CommitShows(k, a, id);
    case Create(_, _, _) => CreateShows(k, a, id);
    case Fail(_, _) => FailShows(k, a, id);
    case RequestPayout(_, _, _, _) =>
      PayoutPosts(k, a);
      ClaimUntouched(k, Perform(k, a), id);
      UntouchedShows(k, Perform(k, a), id);
    case _ => OtherStepShows(k, a, id);
  }

  lemma {:induction false} EventShowsRowAlong(r: seq<Config>, xs: seq<Action>, i: nat, id: string)
    requires NeverOverlap(r, xs, id) && i < |r|
    ensures EventShowsRow(r[i], id) && Alone(r[i], id)
    decreases i
  {
    if i > 0 {
      var k, a := r[i - 1], xs[i - 1];
      EventShowsRowAlong(r, xs, i - 1, id);
      assert RowsOk(k) && CallsOk(k) && Enabled(k, a) && r[i] == Perform(k, a) by { TraceStep(r, xs, i - 1); }
      assert BeginsAlone(k, a, id);
      StepShows(k, a, id);
    }
  }

  /** If the authorizations, captures and refunds of one payment never overlap, its newest event shows
      its current row exactly, from its authorization on and unless it fails. */
  lemma LatestPaymentEventIsRow(r: seq<Config>, xs: seq<Action>, i: nat, id: string)
    requires NeverOverlap(r, xs, id) && i < |r| && id in r[i].store.payments
    requires !r[i].store.payments[id].status.Created? && !r[i].store.payments[id].status.Failed?
    ensures Latest(r[i].journal, PaymentKey(id)) == Some(OfPayment(r[i].store.payments[id]))
  {
    EventShowsRowAlong(r, xs, i, id);
  }

  /** When two captures of one payment overlap, both commit, yet the second event is built from the
      row as it was before the first: it understates the captured total by exactly the first
      amount. This is why the theorem above needs calls that do not overlap. */
  lemma OverlappingCapturesMisstate(s: State, id: string, first: real, second: real, ids: Ids, ids': Ids)
    requires id in s.payments
    requires var p := s.payments[id];
             && p.id == id && (p.status.Authorized? || p.status.Captured?) && 0.0 <= p.captured
             && first > 0.0 && second > 0.0 && p.captured + first + second <= p.amount
    ensures var p := s.payments[id];
            var early, late := Capturing(id, p, first), Capturing(id, p, second);
            var s1 := CommitCall(s, early, "", ids);
            var s2 := CommitCall(s1, late, "", ids');
            && Reads(s, early) && Reads(s, late)
            && s2.payments[id].captured == p.captured + first + second
            && ids'.event in s2.outbox && s2.outbox[ids'.event].payload.OfPayment?
            && s2.outbox[ids'.event].payload.payment.captured == s2.payments[id].captured - first
  {
    var p := s.payments[id];
    PairBalanced(id, MerchantPending(p.merchantId), MerchantAvailable(p.merchantId), p.currency, first, ids);
    PairBalanced(id, MerchantPending(p.merchantId), MerchantAvailable(p.merchantId), p.currency, second, ids');
    var s1 := CommitCall(s, Capturing(id, p, first), "", ids);
    assert s1.payments[id].captured == p.captured + first;
  }
}
