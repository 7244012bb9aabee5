/** Events are written unpublished, and only a mark of their own publishes them: in the in-memory machine,
    in PostgreSQL and on rounding columns. */
module Publishing {
  import opened Domain
  import opened Accounts
  import opened StoreSpec
  import opened ServiceSpec
  import opened Machine
  import opened Theorems
  import opened Postgres
  import opened RoundedRuns

  predicate IsPublished(s: State, e: string) {
    e in s.outbox && s.outbox[e].published
  }

  // ---------- the in-memory machine ----------

  // The step marks an event that is there.
  predicate Marks(k: Config, a: Action, e: string) {
    a == Publish(e) && e in k.store.outbox
  }

  lemma CommitPublishesNothing(s: State, call: Call, reference: string, ids: Ids, e: string)
    requires ids.event !in s.outbox
    ensures IsPublished(CommitCall(s, call, reference, ids), e) <==> IsPublished(s, e)
  {
    CommitAppends(s, call, reference, ids);
  }

  lemma PayoutPublishesNothing(s: State, merchant: string, currency: string, amount: real, ids: Ids, e: string)
    requires ids.event !in s.outbox
    ensures IsPublished(PayoutCall(s, merchant, currency, amount, ids).0, e) <==> IsPublished(s, e)
  {
  }

  lemma StepPublishes(k: Config, a: Action, e: string)
    requires Enabled(k, a)
    ensures IsPublished(Perform(k, a).store, e) <==> IsPublished(k.store, e) || Marks(k, a, e)
  {
    match a
    case Commit(n, reference, ids) => CommitPublishesNothing(k.store, k.calls[n], reference, ids, e);
    case RequestPayout(merchant, currency, amount, ids) =>
      PayoutPublishesNothing(k.store, merchant, currency, amount, ids, e);
    case _ =>
  }

  lemma TracePublishes(r: seq<Config>, xs: seq<Action>, i: nat, e: string)
    requires Trace(r, xs) && i < |xs|
    ensures IsPublished(r[i + 1].store, e) <==> IsPublished(r[i].store, e) || Marks(r[i], xs[i], e)
  {
    StepPublishes(r[i], xs[i], e);
  }

  ghost predicate MarkedBefore(r: seq<Config>, xs: seq<Action>, j: nat, e: string)
    requires j <= |xs| < |r|
  {
    exists i :: 0 <= i < j && Marks(r[i], xs[i], e)
  }

  lemma {:induction false} PublishedSinceMark(r: seq<Config>, xs: seq<Action>, j: nat, e: string)
    requires j <= |xs| < |r| && !IsPublished(r[0].store, e)
    requires forall i :: 0 <= i < j ==>
               (IsPublished(r[i + 1].store, e) <==> IsPublished(r[i].store, e) || Marks(r[i], xs[i], e))
    ensures IsPublished(r[j].store, e) <==> MarkedBefore(r, xs, j, e)
    decreases j
  {
    if j > 0 {
      PublishedSinceMark(r, xs, j - 1, e);
      assert IsPublished(r[j - 1 + 1].store, e) <==> IsPublished(r[j - 1].store, e) || Marks(r[j - 1], xs[j - 1], e);
      assert MarkedBefore(r, xs, j, e) <==> MarkedBefore(r, xs, j - 1, e) || Marks(r[j - 1], xs[j - 1], e);
    }
  }

  /** Over every run an event is published exactly when a mark of it was made while it was there. */
  lemma PublishedIffMarked(r: seq<Config>, xs: seq<Action>, j: nat, e: string)
    requires Trace(r, xs) && j < |r|
    ensures IsPublished(r[j].store, e) <==> MarkedBefore(r, xs, j, e)
  {
    forall i | 0 <= i < j
      ensures IsPublished(r[i + 1].store, e) <==> IsPublished(r[i].store, e) || Marks(r[i], xs[i], e)
    {
      TracePublishes(r, xs, i, e);
    }
    PublishedSinceMark(r, xs, j, e);
  }

  // ---------- PostgreSQL ----------

  predicate PgMarks(k: Pg, x: PgAction, e: string) {
    x.Core? && Marks(k.core, x.a, e)
  }

  lemma PgStepPublishes(hash: string -> int, k: Pg, x: PgAction, e: string)
    requires PgEnabled(hash, k, x)
    ensures IsPublished(PgPerform(hash, k, x).core.store, e) <==> IsPublished(k.core.store, e) || PgMarks(k, x, e)
  {
    if x.Core? {
      StepPublishes(k.core, x.a, e);
    }
  }

  lemma PgTracePublishes(hash: string -> int, r: seq<Pg>, xs: seq<PgAction>, i: nat, e: string)
    requires PgTrace(hash, r, xs) && i < |xs|
    ensures IsPublished(r[i + 1].core.store, e) <==> IsPublished(r[i].core.store, e) || PgMarks(r[i], xs[i], e)
  {
    PgStepPublishes(hash, r[i], xs[i], e);
  }

  ghost predicate PgMarkedBefore(r: seq<Pg>, xs: seq<PgAction>, j: nat, e: string)
    requires j <= |xs| < |r|
  {
    exists i :: 0 <= i < j && PgMarks(r[i], xs[i], e)
  }

  lemma {:induction false} PgPublishedSinceMark(r: seq<Pg>, xs: seq<PgAction>, j: nat, e: string)
    requires j <= |xs| < |r| && !IsPublished(r[0].core.store, e)
    requires forall i :: 0 <= i < j ==>
               (IsPublished(r[i + 1].core.store, e) <==> IsPublished(r[i].core.store, e) || PgMarks(r[i], xs[i], e))
    ensures IsPublished(r[j].core.store, e) <==> PgMarkedBefore(r, xs, j, e)
    decreases j
  {
    if j > 0 {
      var k, k' := r[j - 1].core.store, r[j - 1 + 1].core.store;
      PgPublishedSinceMark(r, xs, j - 1, e);
      assert IsPublished(k', e) <==> IsPublished(k, e) || PgMarks(r[j - 1], xs[j - 1], e);
      assert PgMarkedBefore(r, xs, j, e) <==> PgMarkedBefore(r, xs, j - 1, e) || PgMarks(r[j - 1], xs[j - 1], e);
    }
  }

  /** The same over every run of the PostgreSQL machine. */
  lemma PgPublishedIffMarked(hash: string -> int, r: seq<Pg>, xs: seq<PgAction>, j: nat, e: string)
    requires PgTrace(hash, r, xs) && j < |r|
    ensures IsPublished(r[j].core.store, e) <==> PgMarkedBefore(r, xs, j, e)
  {
    forall i | 0 <= i < j
      ensures IsPublished(r[i + 1].core.store, e) <==> IsPublished(r[i].core.store, e) || PgMarks(r[i], xs[i], e)
    {
      PgTracePublishes(hash, r, xs, i, e);
    }
    PgPublishedSinceMark(r, xs, j, e);
  }

  // ---------- rounding columns ----------

  // Rounding amounts touches no flag.
  lemma ShadowPublished(k: Pg, e: string)
    ensures IsPublished(Shadow(k).core.store, e) <==> IsPublished(k.core.store, e)
  {
  }

  lemma ShadowMarks(k: Pg, x: PgAction, e: string)
    ensures var y := ShadowAction(k, x); PgMarks(k, x, e) <==> y.Some? && PgMarks(Shadow(k), y.value, e)
  {
    if x.Core? && x.a.Publish? {
      assert ShadowAction(k, x) == Some(x);
    } else {
      ShadowDoesNotPublish(k, x);
    }
  }

  lemma ShadowDoesNotPublish(k: Pg, x: PgAction)
    requires !(x.Core? && x.a.Publish?)
    ensures var y := ShadowAction(k, x); y.Some? ==> !(y.value.Core? && y.value.a.Publish?)
  {
  }

  lemma RoundStepPublishes(hash: string -> int, k: Pg, x: PgAction, e: string)
    requires Held(k) && PgReached(hash, Shadow(k)) && RoundEnabled(hash, k, x)
    ensures IsPublished(RoundPerform(hash, k, x).core.store, e) <==> IsPublished(k.core.store, e) || PgMarks(k, x, e)
  {
    var k', y := RoundPerform(hash, k, x), ShadowAction(k, x);
    assert Follows(hash, k, x) by {
      PgReachedInv(hash, Shadow(k));
      ShadowRows(k);
      StepFollows(hash, k, x);
    }
    ShadowPublished(k, e);
    ShadowPublished(k', e);
    ShadowMarks(k, x, e);
    if y.Some? {
      PgStepPublishes(hash, Shadow(k), y.value, e);
    }
  }

  lemma RoundTracePublishes(hash: string -> int, r: seq<Pg>, xs: seq<PgAction>, i: nat, e: string)
    requires RoundTrace(hash, r, xs) && i < |xs|
    ensures IsPublished(r[i + 1].core.store, e) <==> IsPublished(r[i].core.store, e) || PgMarks(r[i], xs[i], e)
  {
    assert Held(r[i]) && PgReached(hash, Shadow(r[i])) by { RoundedRunsRefine(hash, r, xs, i); }
    RoundStepPublishes(hash, r[i], xs[i], e);
  }

  /** The same over every run on rounding columns. */
  lemma RoundPublishedIffMarked(hash: string -> int, r: seq<Pg>, xs: seq<PgAction>, j: nat, e: string)
    requires RoundTrace(hash, r, xs) && j < |r|
    ensures IsPublished(r[j].core.store, e) <==> PgMarkedBefore(r, xs, j, e)
  {
    forall i | 0 <= i < j
      ensures IsPublished(r[i + 1].core.store, e) <==> IsPublished(r[i].core.store, e) || PgMarks(r[i], xs[i], e)
    {
      RoundTracePublishes(hash, r, xs, i, e);
    }
    PgPublishedSinceMark(r, xs, j, e);
  }
}
