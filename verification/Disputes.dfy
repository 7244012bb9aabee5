/** internal/service/dispute.go bounds each dispute by what its payment has settled, but not the
    disputes of one payment together. When they stay within what was captured, exactly. */
module Disputes {
  import opened Domain
  import opened Accounts
  import opened Sums
  import opened StoreSpec
  import opened ServiceSpec
  import opened Machine
  import opened Runs
  import opened Bounds
  import opened Stepwise

  ghost function DisputedOfTerm(id: string): (string, Dispute) -> real {
    (x: string, d: Dispute) => if d.paymentId == id && !d.status.DisputeWon? then d.amount else 0.0
  }

  // What is disputed of one payment: its open and lost disputes together.
  ghost function DisputedOf(s: State, id: string): real {
    Sum(s.disputes, DisputedOfTerm(id))
  }

  ghost predicate WithinCaptured(s: State, id: string) {
    DisputedOf(s, id) <= if id in s.payments then s.payments[id].captured else 0.0
  }

  // The step opens a dispute of payment `id`.
  predicate Opens(k: Config, a: Action, id: string)
    requires Enabled(k, a)
  {
    && a.Commit? && k.calls[a.n].Opening? && k.calls[a.n].id == id
    && Commits(k.store, k.calls[a.n], a.reference, a.ids)
  }

  // An opening fits beside the disputes already open or lost.
  ghost predicate OpeningFits(k: Config, a: Action, id: string)
    requires Enabled(k, a)
  {
    Opens(k, a, id) ==>
      id in k.store.payments && DisputedOf(k.store, id) + k.calls[a.n].amount <= k.store.payments[id].captured
  }

  lemma OpeningInserts(k: Config, a: Action, id: string)
    requires Enabled(k, a) && Opens(k, a, id)
    ensures var s' := Perform(k, a).store;
            && s'.payments == k.store.payments && a.ids.record !in k.store.disputes && a.ids.record in s'.disputes
            && s'.disputes == k.store.disputes[a.ids.record := s'.disputes[a.ids.record]]
            && var d := s'.disputes[a.ids.record];
               d.paymentId == id && d.amount == k.calls[a.n].amount && d.status.DisputeOpen?
  {
  }

  // A dispute table with the same disputes, some of them resolved since, disputes no more.
  lemma ResolvingShrinks(s: State, s': State, id: string)
    requires StoreEvolves(s, s') && ClaimsOk(s) && s'.disputes.Keys == s.disputes.Keys
    ensures DisputedOf(s', id) <= DisputedOf(s, id)
  {
    var term := DisputedOfTerm(id);
    var after := (x: string, d: Dispute) => if x in s'.disputes then term(x, s'.disputes[x]) else 0.0;
    forall x | x in s.disputes ensures after(x, s.disputes[x]) <= term(x, s.disputes[x]) {
      assert DisputeEvolves(s.disputes[x], s'.disputes[x]) && DisputeOk(s, x, s.disputes[x]);
    }
    SumAtMost(s.disputes, after, term);
    SameKeysSum(s'.disputes, s.disputes, term, after);
  }

  lemma CommitDisputeKeys(s: State, call: Call, reference: string, ids: Ids)
    requires !(call.Opening? && Commits(s, call, reference, ids))
    ensures CommitCall(s, call, reference, ids).disputes.Keys == s.disputes.Keys
  {
  }

  lemma OtherStepDisputeKeys(k: Config, a: Action)
    requires Enabled(k, a)
    requires !(a.Commit? && k.calls[a.n].Opening? && Commits(k.store, k.calls[a.n], a.reference, a.ids))
    ensures Perform(k, a).store.disputes.Keys == k.store.disputes.Keys
  {
    if a.Commit? {
      CommitDisputeKeys(k.store, k.calls[a.n], a.reference, a.ids);
    }
  }

  lemma OpeningAdds(k: Config, a: Action, id: string, target: string)
    requires Enabled(k, a) && Opens(k, a, target)
    ensures Perform(k, a).store.payments == k.store.payments
    ensures DisputedOf(Perform(k, a).store, id)
         == DisputedOf(k.store, id) + if target == id then k.calls[a.n].amount else 0.0
  {
    OpeningInserts(k, a, target);
    SumUpdate(k.store.disputes, DisputedOfTerm(id), a.ids.record, Perform(k, a).store.disputes[a.ids.record]);
  }

  // Only an opening adds to what is disputed of a payment, and captured amounts never shrink.
  lemma StepWithinCaptured(k: Config, a: Action, id: string)
    requires Inv(k) && Enabled(k, a) && WithinCaptured(k.store, id)
    ensures WithinCaptured(Perform(k, a).store, id) <==> OpeningFits(k, a, id)
  {
    StepKeepsInv(k, a);
    if a.Commit? && k.calls[a.n].Opening? && Commits(k.store, k.calls[a.n], a.reference, a.ids) {
      OpeningAdds(k, a, id, k.calls[a.n].id);
      assert CallOk(k.store, k.calls[a.n]);
    } else {
      OtherStepDisputeKeys(k, a);
      OtherStepWithin(k, Perform(k, a), id);
    }
  }

  lemma OtherStepWithin(k: Config, k': Config, id: string)
    requires WithinCaptured(k.store, id) && Inv(k) && Inv(k') && Evolves(k, k')
    requires k'.store.disputes.Keys == k.store.disputes.Keys
    ensures WithinCaptured(k'.store, id)
  {
    ResolvingShrinks(k.store, k'.store, id);
    if id in k.store.payments {
      assert PaymentEvolves(k.store.payments[id], k'.store.payments[id]);
    } else if id in k'.store.payments {
      assert RowOk(id, k'.store.payments[id], id in k'.authorized);
    }
  }

  lemma TraceWithinCaptured(r: seq<Config>, xs: seq<Action>, i: nat, id: string)
    requires Trace(r, xs) && i < |xs| && WithinCaptured(r[i].store, id)
    ensures WithinCaptured(r[i + 1].store, id) <==> OpeningFits(r[i], xs[i], id)
  {
    TraceStep(r, xs, i);
    StepWithinCaptured(r[i], xs[i], id);
  }

  /** Over every run and interleaving: the open and lost disputes of a payment together stay within
      what it captured, at every point, exactly when each opening fits beside those already open or
      lost. The service checks each opening against the settled amount alone. */
  lemma DisputesFitIff(r: seq<Config>, xs: seq<Action>, id: string)
    requires Trace(r, xs)
    ensures (forall i :: 0 <= i < |r| ==> WithinCaptured(r[i].store, id))
       <==> (forall i :: 0 <= i < |xs| ==> OpeningFits(r[i], xs[i], id))
  {
    var good := (i: nat) => i < |r| && WithinCaptured(r[i].store, id);
    var step := (i: nat) => i < |xs| && Enabled(r[i], xs[i]) && OpeningFits(r[i], xs[i], id);
    forall i: nat | i < |xs| && good(i) ensures good(i + 1) <==> step(i) {
      TraceWithinCaptured(r, xs, i, id);
    }
    AtEveryPointIff(|xs|, good, step);
    forall i | 0 <= i < |r| ensures good(i) <==> WithinCaptured(r[i].store, id) {}
    forall i | 0 <= i < |xs| ensures step(i) <==> OpeningFits(r[i], xs[i], id) {}
  }
}
