/** Ledger accounts, the strings that name them, and the balance folded from the ledger. */
module Accounts {
  import opened Domain

  datatype Account =
    | CustomerPending
    | CustomerRefunded
    | CustomerChargeback
    | ProviderPayoutSettled
    | MerchantPending(merchant: string)
    | MerchantAvailable(merchant: string)
    | MerchantPayoutPending(merchant: string)
    | MerchantDisputeFrozen(merchant: string)

  predicate PerMerchant(a: Account) {
    a.MerchantPending? || a.MerchantAvailable? || a.MerchantPayoutPending? || a.MerchantDisputeFrozen?
  }

  function Name(a: Account): string {
    match a
    case CustomerPending => "customer:pending"
    case CustomerRefunded => "customer:refunded"
    case CustomerChargeback => "customer:chargeback"
    case ProviderPayoutSettled => "provider:payout_settled"
    case MerchantPending(m) => "merchant:" + m + ":pending"
    case MerchantAvailable(m) => "merchant:" + m + ":available"
    case MerchantPayoutPending(m) => "merchant:" + m + ":payout_pending"
    case MerchantDisputeFrozen(m) => "merchant:" + m + ":dispute_frozen"
  }

  // Reads a name back, looking only at its ends: the merchant id in the middle may hold anything.
  function Parse(name: string): Account
    requires |name| >= 16
  {
    var n := |name|;
    if name[0] == 'p' then ProviderPayoutSettled
    else if name[0] == 'c' then
      if name[9] == 'p' then CustomerPending
      else if name[9] == 'r' then CustomerRefunded
      else CustomerChargeback
    else if n < 24 || name[n - 1] == 'e' || name[n - 8] == ':' then
      if name[n - 1] == 'e' && n >= 19 then MerchantAvailable(name[9..n - 10])
      else if n >= 17 then MerchantPending(name[9..n - 8])
      else CustomerPending
    else if name[n - 1] == 'n' then MerchantDisputeFrozen(name[9..n - 15])
    else MerchantPayoutPending(name[9..n - 15])
  }

  lemma MerchantNameEnds(m: string)
    ensures var s := Name(MerchantPending(m));
            |s| == |m| + 17 && s[0] == 'm' && s[9..|s| - 8] == m && s[|s| - 1] == 'g' && s[|s| - 8] == ':'
    ensures var s := Name(MerchantAvailable(m));
            |s| == |m| + 19 && s[0] == 'm' && s[9..|s| - 10] == m && s[|s| - 1] == 'e'
    ensures var s := Name(MerchantPayoutPending(m));
            |s| == |m| + 24 && s[0] == 'm' && s[9..|s| - 15] == m && s[|s| - 1] == 'g' && s[|s| - 8] == '_'
    ensures var s := Name(MerchantDisputeFrozen(m));
            |s| == |m| + 24 && s[0] == 'm' && s[9..|s| - 15] == m && s[|s| - 1] == 'n' && s[|s| - 8] == 'e'
  {
  }

  /** Reading a name back gives the account, so names are injective and the per-merchant names
      never meet the shared ones, even for merchant ids that hold colons. */
  lemma NameRoundTrip(a: Account)
    ensures |Name(a)| >= 16 && Parse(Name(a)) == a
  {
    if PerMerchant(a) {
      MerchantNameEnds(a.merchant);
    }
  }

  lemma NameInjective(a: Account, b: Account)
    ensures Name(a) == Name(b) <==> a == b
  {
    NameRoundTrip(a);
    NameRoundTrip(b);
  }

  // What one entry adds to the balance of the account named `account` in `currency`.
  function Delta(e: LedgerEntry, account: string, currency: string): real {
    if e.accountId == account && e.currency == currency then e.credit - e.debit else 0.0
  }

  function Balance(ledger: seq<LedgerEntry>, account: string, currency: string): real {
    if ledger == [] then 0.0
    else Balance(ledger[..|ledger| - 1], account, currency) + Delta(ledger[|ledger| - 1], account, currency)
  }

  lemma BalanceAppend(ledger: seq<LedgerEntry>, e: LedgerEntry, account: string, currency: string)
    ensures Balance(ledger + [e], account, currency)
         == Balance(ledger, account, currency) + Delta(e, account, currency)
  {
    assert (ledger + [e])[..|ledger|] == ledger;
  }

  lemma TwoAppended(ledger: seq<LedgerEntry>, d: LedgerEntry, e: LedgerEntry, account: string, currency: string)
    ensures Balance(ledger + [d, e], account, currency)
         == Balance(ledger, account, currency) + Delta(d, account, currency) + Delta(e, account, currency)
  {
    BalanceAppend(ledger, d, account, currency);
    BalanceAppend(ledger + [d], e, account, currency);
    assert ledger + [d, e] == ledger + [d] + [e];
  }

  // Debit and credit totals of one currency.
  function CurrencyDebits(ledger: seq<LedgerEntry>, currency: string): real {
    if ledger == [] then 0.0
    else var e := ledger[|ledger| - 1];
         CurrencyDebits(ledger[..|ledger| - 1], currency) + (if e.currency == currency then e.debit else 0.0)
  }

  function CurrencyCredits(ledger: seq<LedgerEntry>, currency: string): real {
    if ledger == [] then 0.0
    else var e := ledger[|ledger| - 1];
         CurrencyCredits(ledger[..|ledger| - 1], currency) + (if e.currency == currency then e.credit else 0.0)
  }

  // The identifiers one service call draws: two ledger entries, one event, one new record.
  datatype Ids = Ids(debit: string, credit: string, event: string, record: string)

  // Every service moves `amount` from one account to another by a debit and a credit.
  function Pair(paymentId: string, from: Account, to: Account, currency: string, amount: real,
                ids: Ids): seq<LedgerEntry>
  {
    [LedgerEntry(ids.debit, paymentId, Name(from), currency, amount, 0.0),
     LedgerEntry(ids.credit, paymentId, Name(to), currency, 0.0, amount)]
  }

  // What such a movement does to the balance of account `a` in currency `c`.
  function Moved(from: Account, to: Account, currency: string, amount: real, a: Account, c: string): real {
    if c != currency then 0.0
    else (if a == to then amount else 0.0) - (if a == from then amount else 0.0)
  }

  // What one half of a movement does to the balance of account `a`.
  lemma HalfDelta(e: LedgerEntry, b: Account, a: Account, c: string)
    requires e.accountId == Name(b)
    ensures Delta(e, Name(a), c) == if a == b && e.currency == c then e.credit - e.debit else 0.0
  {
    NameInjective(a, b);
  }

  lemma PairBalance(ledger: seq<LedgerEntry>, paymentId: string, from: Account, to: Account,
                    currency: string, amount: real, ids: Ids, a: Account, c: string)
    ensures Balance(ledger + Pair(paymentId, from, to, currency, amount, ids), Name(a), c)
         == Balance(ledger, Name(a), c) + Moved(from, to, currency, amount, a, c)
  {
    var pair := Pair(paymentId, from, to, currency, amount, ids);
    assert pair == [pair[0], pair[1]];
    HalfDelta(pair[0], from, a, c);
    HalfDelta(pair[1], to, a, c);
    TwoAppended(ledger, pair[0], pair[1], Name(a), c);
  }

  lemma PairBalanced(paymentId: string, from: Account, to: Account, currency: string, amount: real, ids: Ids)
    ensures Balanced(Pair(paymentId, from, to, currency, amount, ids)) <==> amount > 0.0
  {
    var pair := Pair(paymentId, from, to, currency, amount, ids);
    DebitsCreditsAppend([pair[0]], [pair[1]]);
    assert pair == [pair[0]] + [pair[1]];
    assert forall e: LedgerEntry :: Debits([e]) == e.debit && Credits([e]) == e.credit;
    assert Debits(pair) == amount && Credits(pair) == amount;
    assert OneSided(pair[0]) <==> amount > 0.0;
  }
}
