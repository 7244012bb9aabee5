/** Theorems over every run and every interleaving of calls in flight. */
module Runs {
  import opened Domain
  import opened Accounts
  import opened StoreSpec
  import opened ServiceSpec
  import opened Machine
  import opened Steps
  import opened ClaimSteps

  // ---------- one step ----------

  lemma AfterNothing(k: Config, event: string)
    requires RowsOk(k)
    ensures After(k, k.store, event) == k && Evolves(k, k)
  {
    SeenSame(k, k.store);
    assert StoreEvolves(k.store, k.store);
  }

  // The configuration with payment `p` inserted under `key`.
  ghost function Inserted(k: Config, p: Payment, key: string): Config {
    k.(store := k.store.(payments := k.store.payments[p.id := p], keys := k.store.keys[key := p.id]))
  }

  lemma CreateShape(k: Config, input: CreatePayment, key: string, ids: Ids)
    requires RowsOk(k) && key != "" && Fresh(k.store, ids)
    ensures var k' := Perform(k, Create(input, key, ids));
            || (k' == k && Evolves(k, k))
            || (exists p :: k' == Inserted(k, p, key) && key !in k.store.keys && p.id !in k.store.payments
                         && RowOk(p.id, p, false) && p.status.Created?)
  {
    AfterNothing(k, ids.event);
    var made := NewPayment(input, ids.record);
    if made.Ok? && key !in k.store.keys {
      var k' := Inserted(k, made.value, key);
      SeenAfterUpdate(k, k'.store, made.value.id, made.value);
      assert Perform(k, Create(input, key, ids)) == k';
    }
  }

  lemma CreateStep(k: Config, input: CreatePayment, key: string, ids: Ids)
    requires Inv(k) && key != "" && Fresh(k.store, ids)
    ensures var k' := Perform(k, Create(input, key, ids)); Inv(k') && Evolves(k, k')
  {
    var k' := Perform(k, Create(input, key, ids));
    CreateShape(k, input, key, ids);
    if k' != k {
      var p :| k' == Inserted(k, p, key) && key !in k.store.keys && p.id !in k.store.payments
            && RowOk(p.id, p, false) && p.status.Created?;
      InsertPaymentStep(k, k', p, key);
    }
  }

  lemma RequestPayoutStep(k: Config, merchant: string, currency: string, amount: real, ids: Ids)
    requires Inv(k) && Fresh(k.store, ids)
    ensures var k' := Perform(k, RequestPayout(merchant, currency, amount, ids)); Inv(k') && Evolves(k, k')
  {
    var made := NewPayout(merchant, currency, amount, ids.record);
    var k' := Perform(k, RequestPayout(merchant, currency, amount, ids));
    if k'.store == k.store {
      AfterNothing(k, ids.event);
    } else {
      InsertPayoutStep(k, k', made.value, ids);
    }
  }

  lemma CallEnded(k: Config, n: nat)
    requires Inv(k) && n in k.calls
    ensures Inv(EndCall(k, n)) && Evolves(k, EndCall(k, n))
  {
    CallsOnly(k, EndCall(k, n));
  }

  lemma CommitStep(k: Config, call: Call, reference: string, ids: Ids)
    requires Inv(k) && CallOk(k.store, call) && Fresh(k.store, ids)
    ensures var k' := After(k, CommitCall(k.store, call, reference, ids), ids.event); Inv(k') && Evolves(k, k')
  {
    var k' := After(k, CommitCall(k.store, call, reference, ids), ids.event);
    if CommitCall(k.store, call, reference, ids) == k.store {
      AfterNothing(k, ids.event);
    } else if call.Completing? {
      CompletePayoutStep(k, k', call, reference, ids);
    } else if call.Opening? {
      OpenDisputeStep(k, k', call, reference, ids);
    } else if call.Resolving? {
      ResolveDisputeStep(k, k', call, reference, ids);
    } else {
      PaymentCommandStep(k, k', call, reference, ids);
    }
  }

  // Transition to failed, by itself.
  ghost function Failing(k: Config, id: string, reason: string): Config {
    var s' := Transition(k.store, id, Failed, reason).0;
    k.(store := s', authorized := k.authorized + SeenAuthorized(s'))
  }

  lemma FailingShape(k: Config, id: string, reason: string)
    requires RowsOk(k)
    ensures || Failing(k, id, reason) == k
            || (id in k.store.payments && Failing(k, id, reason) == k.(store := k.store.(payments :=
                  k.store.payments[id := k.store.payments[id].(status := Failed, providerReference := reason)])))
  {
    var s' := Transition(k.store, id, Failed, reason).0;
    if s' == k.store {
      SeenSame(k, s');
    } else {
      SeenAfterUpdate(k, s', id, s'.payments[id]);
    }
  }

  lemma FailCallStep(k: Config, n: nat, reason: string)
    requires Inv(k) && Enabled(k, Fail(n, reason))
    ensures var k' := Perform(k, Fail(n, reason)); Inv(k') && Evolves(k, k')
  {
    CallEnded(k, n);
    var ended, id := EndCall(k, n), k.calls[n].id;
    var k' := Failing(ended, id, reason);
    FailingShape(ended, id, reason);
    if k' != ended {
      FailStep(ended, k', id, reason);
      EvolvesTransitive(k, ended, k');
    }
  }

  // What was read just now is a legal snapshot.
  lemma ReadIsLegal(k: Config, call: Call)
    requires RowsOk(k) && ClaimsOk(k.store) && Reads(k.store, call)
    ensures CallOk(k.store, call)
  {
    match call
    case Completing(id, p, _, _) => assert PayoutOk(id, p);
    case Resolving(id, d, _) => assert DisputeOk(k.store, id, d);
    case _ => assert RowOk(call.id, k.store.payments[call.id], call.id in k.authorized);
  }

  lemma BeginCalls(k: Config, n: nat, call: Call)
    requires CallsOk(k) && CallOk(k.store, call)
    ensures CallsOk(k.(calls := k.calls[n := call]))
  {
  }

  lemma BeginStep(k: Config, n: nat, call: Call)
    requires Inv(k) && Enabled(k, Begin(n, call))
    ensures var k' := Perform(k, Begin(n, call)); Inv(k') && Evolves(k, k')
  {
    ReadIsLegal(k, call);
    BeginCalls(k, n, call);
    CallsOnly(k, k.(calls := k.calls[n := call]));
  }

  // Only flags differ.
  ghost predicate FlagsDiffer(s: State, s': State) {
    && s' == s.(outbox := s'.outbox, webhooks := s'.webhooks)
    && StoreEvolves(s, s') && s'.outbox.Keys == s.outbox.Keys
  }

  lemma RegisterFlags(s: State, webhook: string)
    ensures FlagsDiffer(s, RegisterWebhook(s, webhook).0)
  {
  }

  lemma PublishFlags(s: State, event: string)
    ensures FlagsDiffer(s, MarkPublished(s, event).0)
  {
  }

  lemma FlagStep(k: Config, s': State)
    requires Inv(k) && FlagsDiffer(k.store, s')
    ensures Inv(k.(store := s')) && Evolves(k, k.(store := s'))
  {
    FlagsOnly(k, k.(store := s'));
  }

  /** Every step keeps the invariant and lets records change only forwards. */
  lemma StepKeepsInv(k: Config, a: Action)
    requires Inv(k) && Enabled(k, a)
    ensures Inv(Perform(k, a)) && Evolves(k, Perform(k, a))
  {
    match a
    case Create(input, key, ids) => CreateStep(k, input, key, ids);
    case RequestPayout(merchant, currency, amount, ids) => RequestPayoutStep(k, merchant, currency, amount, ids);
    case Begin(n, call) => BeginStep(k, n, call);
    case Abort(n) => CallEnded(k, n);
    case Fail(n, reason) => FailCallStep(k, n, reason);
    case Commit(n, reference, ids) =>
      CallEnded(k, n);
      assert CallOk(k.store, k.calls[n]);
      CommitStep(EndCall(k, n), k.calls[n], reference, ids);
      EvolvesTransitive(k, EndCall(k, n), Perform(k, a));
    case Register(webhook) =>
      RegisterFlags(k.store, webhook);
      FlagStep(k, RegisterWebhook(k.store, webhook).0);
    case Publish(event) =>
      PublishFlags(k.store, event);
      FlagStep(k, MarkPublished(k.store, event).0);
  }

  // ---------- whole runs ----------

  lemma InitInv()
    ensures Inv(INIT)
  {
    forall a, c ensures AgreesAt(INIT, a, c) {}
    forall key, a, c ensures AttributedAt(INIT, key, a, c) {}
  }

  /** The invariant holds at every point of every run. */
  lemma {:induction false} RunInv(r: seq<Config>, i: nat)
    requires Run(r) && i < |r|
    ensures Inv(r[i])
    decreases i
  {
    if i == 0 {
      InitInv();
    } else {
      RunInv(r, i - 1);
      assert Next(r[i - 1], r[i - 1 + 1]);
      var a :| Enabled(r[i - 1], a) && r[i] == Perform(r[i - 1], a);
      StepKeepsInv(r[i - 1], a);
    }
  }

  lemma TraceIsRun(r: seq<Config>, xs: seq<Action>)
    requires Trace(r, xs)
    ensures Run(r)
  {
    forall i | 0 <= i < |r| - 1 ensures Next(r[i], r[i + 1]) {
      assert Enabled(r[i], xs[i]) && r[i + 1] == Perform(r[i], xs[i]);
    }
  }

  // What is known of a step of a trace.
  lemma TraceStep(r: seq<Config>, xs: seq<Action>, i: nat)
    requires Trace(r, xs) && i < |xs|
    ensures Enabled(r[i], xs[i]) && r[i + 1] == Perform(r[i], xs[i])
    ensures Inv(r[i]) && Evolves(r[i], r[i + 1])
  {
    TraceIsRun(r, xs);
    RunInv(r, i);
    StepKeepsInv(r[i], xs[i]);
  }
}
