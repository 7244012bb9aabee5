/** Totals per merchant and currency, and what they bound. */
module Bounds {
  import opened Domain
  import opened Accounts
  import opened Sums
  import opened StoreSpec
  import opened Machine

  ghost function CapturedTerm(m: string, c: string): (string, Payment) -> real {
    (id: string, p: Payment) => if p.merchantId == m && p.currency == c then p.captured else 0.0
  }

  ghost function RefundedTerm(m: string, c: string): (string, Payment) -> real {
    (id: string, p: Payment) => if p.merchantId == m && p.currency == c then p.refunded else 0.0
  }

  // Payouts reserved or paid out; a failed payout gave its money back.
  ghost function HeldTerm(m: string, c: string): (string, Payout) -> real {
    (id: string, p: Payout) =>
      if p.merchantId == m && p.currency == c && !p.status.PayoutFailed? then p.amount else 0.0
  }

  // Disputes open or lost; a won dispute gave its money back.
  ghost function DisputedTerm(m: string, c: string): (string, Dispute) -> real {
    (id: string, d: Dispute) =>
      if d.merchantId == m && d.currency == c && !d.status.DisputeWon? then d.amount else 0.0
  }

  ghost function CapturedTotal(s: State, m: string, c: string): real { Sum(s.payments, CapturedTerm(m, c)) }
  ghost function RefundedTotal(s: State, m: string, c: string): real { Sum(s.payments, RefundedTerm(m, c)) }
  ghost function HeldTotal(s: State, m: string, c: string): real { Sum(s.payouts, HeldTerm(m, c)) }
  ghost function DisputedTotal(s: State, m: string, c: string): real { Sum(s.disputes, DisputedTerm(m, c)) }

  lemma SumZero<V>(table: map<string, V>, term: (string, V) -> real)
    requires forall k :: k in table ==> term(k, table[k]) == 0.0
    ensures Sum(table, term) == 0.0
  {
    SumSplit(table, term, term, term);
  }

  lemma SumOpposite<V>(table: map<string, V>, f: (string, V) -> real, g: (string, V) -> real)
    requires forall k :: k in table ==> f(k, table[k]) == -g(k, table[k])
    ensures Sum(table, f) == -Sum(table, g)
  {
    var zero := (k: string, v: V) => 0.0;
    SumSplit(table, zero, f, g);
    SumZero(table, zero);
  }

  /** The available balance the tables record is everything captured, less everything refunded,
      reserved or paid out, and frozen or charged back. */
  lemma AvailableSplit(k: Config, m: string, c: string)
    ensures Recorded(k, MerchantAvailable(m), c)
         == CapturedTotal(k.store, m, c) - RefundedTotal(k.store, m, c)
            - HeldTotal(k.store, m, c) - DisputedTotal(k.store, m, c)
  {
    var a := MerchantAvailable(m);
    SumSplit(k.store.payments, CapturedTerm(m, c), PaymentTerm(k.authorized, a, c), RefundedTerm(m, c));
    SumOpposite(k.store.payouts, PayoutTerm(a, c), HeldTerm(m, c));
    SumOpposite(k.store.disputes, DisputeTerm(a, c), DisputedTerm(m, c));
  }

  /** Every account but the available and the customer-pending ones is worth at least nothing. */
  lemma RecordedNonNegative(k: Config, a: Account, c: string)
    requires RowsOk(k) && ClaimsOk(k.store)
    requires !a.MerchantAvailable? && !a.CustomerPending?
    ensures Recorded(k, a, c) >= 0.0
  {
    forall id | id in k.store.payments
      ensures PaymentTerm(k.authorized, a, c)(id, k.store.payments[id]) >= 0.0
    {
      assert RowOk(id, k.store.payments[id], id in k.authorized);
    }
    SumNonNegative(k.store.payments, PaymentTerm(k.authorized, a, c));
    SumNonNegative(k.store.payouts, PayoutTerm(a, c));
    SumNonNegative(k.store.disputes, DisputeTerm(a, c));
  }

  lemma RefundedAndDisputedNonNegative(k: Config, m: string, c: string)
    requires RowsOk(k) && ClaimsOk(k.store)
    ensures RefundedTotal(k.store, m, c) >= 0.0 && DisputedTotal(k.store, m, c) >= 0.0
  {
    forall id | id in k.store.payments ensures RefundedTerm(m, c)(id, k.store.payments[id]) >= 0.0 {
      assert RowOk(id, k.store.payments[id], id in k.authorized);
    }
    SumNonNegative(k.store.payments, RefundedTerm(m, c));
    SumNonNegative(k.store.disputes, DisputedTerm(m, c));
  }

  // ---------- payouts never exceed captures ----------

  ghost predicate SolventAt(s: State, m: string, c: string) {
    HeldTotal(s, m, c) <= CapturedTotal(s, m, c)
  }

  ghost predicate Solvent(s: State) {
    forall m, c :: SolventAt(s, m, c)
  }

  // A total over a table that only grows, in rows and in each row's term, only grows.
  lemma {:induction false} SumGrows<V>(table: map<string, V>, later: map<string, V>, term: (string, V) -> real)
    requires forall k :: k in table ==> k in later && term(k, table[k]) <= term(k, later[k])
    requires forall k :: k in later ==> term(k, later[k]) >= 0.0
    ensures Sum(table, term) <= Sum(later, term)
    decreases |table|
  {
    if table == map[] {
      SumNonNegative(later, term);
    } else {
      var k :| k in table;
      SumRemove(table, term, k);
      SumRemove(later, term, k);
      SumGrows(table - {k}, later - {k}, term);
    }
  }

  lemma CapturedGrows(k: Config, k': Config, m: string, c: string)
    requires StoreEvolves(k.store, k'.store) && RowsOk(k')
    ensures CapturedTotal(k.store, m, c) <= CapturedTotal(k'.store, m, c)
  {
    forall id | id in k'.store.payments ensures CapturedTerm(m, c)(id, k'.store.payments[id]) >= 0.0 {
      assert RowOk(id, k'.store.payments[id], id in k'.authorized);
    }
    forall id | id in k.store.payments
      ensures CapturedTerm(m, c)(id, k.store.payments[id]) <= CapturedTerm(m, c)(id, k'.store.payments[id])
    {
      assert PaymentEvolves(k.store.payments[id], k'.store.payments[id]);
    }
    SumGrows(k.store.payments, k'.store.payments, CapturedTerm(m, c));
  }

  // Without a new payout, what is held can only shrink.
  lemma HeldShrinks(s: State, s': State, m: string, c: string)
    requires StoreEvolves(s, s') && ClaimsOk(s) && s'.payouts.Keys == s.payouts.Keys
    ensures HeldTotal(s', m, c) <= HeldTotal(s, m, c)
  {
    var after := (id: string, p: Payout) => if id in s'.payouts then HeldTerm(m, c)(id, s'.payouts[id]) else 0.0;
    forall id | id in s.payouts ensures after(id, s.payouts[id]) <= HeldTerm(m, c)(id, s.payouts[id]) {
      assert PayoutEvolves(s.payouts[id], s'.payouts[id]) && PayoutOk(id, s.payouts[id]);
    }
    SumAtMost(s.payouts, after, HeldTerm(m, c));
    SameKeysSum(s'.payouts, s.payouts, HeldTerm(m, c), after);
  }

  lemma {:induction false} SameKeysSum<V>(table: map<string, V>, other: map<string, V>,
                                          f: (string, V) -> real, g: (string, V) -> real)
    requires table.Keys == other.Keys
    requires forall k :: k in table ==> f(k, table[k]) == g(k, other[k])
    ensures Sum(table, f) == Sum(other, g)
    decreases |table|
  {
    if table == map[] {
      assert other.Keys == {};
      assert other == map[];
    } else {
      var k :| k in table;
      SumRemove(table, f, k);
      SumRemove(other, g, k);
      SameKeysSum(table - {k}, other - {k}, f, g);
    }
  }

  /** Whatever else happens, as long as no payout is inserted solvency persists. */
  lemma SolventPersists(k: Config, k': Config)
    requires Solvent(k.store) && StoreEvolves(k.store, k'.store) && ClaimsOk(k.store) && RowsOk(k')
    requires k'.store.payouts.Keys == k.store.payouts.Keys
    ensures Solvent(k'.store)
  {
    forall m, c ensures SolventAt(k'.store, m, c) {
      assert SolventAt(k.store, m, c);
      CapturedGrows(k, k', m, c);
      HeldShrinks(k.store, k'.store, m, c);
    }
  }

  /** Inserting a payout adds its amount to what its merchant holds in its currency. */
  lemma HeldAfterInsert(s: State, s': State, p: Payout, m: string, c: string)
    requires p.id !in s.payouts && s'.payouts == s.payouts[p.id := p] && p.status.PayoutPending?
    ensures HeldTotal(s', m, c)
         == HeldTotal(s, m, c) + if p.merchantId == m && p.currency == c then p.amount else 0.0
  {
    SumUpdate(s.payouts, HeldTerm(m, c), p.id, p);
  }
}
