/** Every step of the machine keeps the invariant and changes records only as `Evolves` allows. */
module Steps {
  import opened Domain
  import opened Accounts
  import opened StoreSpec
  import opened ServiceSpec
  import opened Machine
  import opened Postings

  // ---------- Evolves is a preorder under which snapshots stay legal ----------

  lemma StoreEvolvesTransitive(s: State, t: State, u: State)
    requires StoreEvolves(s, t) && StoreEvolves(t, u)
    ensures StoreEvolves(s, u)
  {
    forall id | id in s.payments ensures id in u.payments && PaymentEvolves(s.payments[id], u.payments[id]) {
      assert PaymentEvolves(t.payments[id], u.payments[id]);
    }
    forall id | id in s.outbox ensures id in u.outbox && EventEvolves(s.outbox[id], u.outbox[id]) {
      assert EventEvolves(t.outbox[id], u.outbox[id]);
    }
  }

  lemma EvolvesTransitive(k: Config, l: Config, m: Config)
    requires Evolves(k, l) && Evolves(l, m)
    ensures Evolves(k, m)
  {
    StoreEvolvesTransitive(k.store, l.store, m.store);
  }

  lemma EvolvesReflexive(k: Config, k': Config)
    requires k' == k.(calls := k'.calls)
    ensures Evolves(k, k')
  {
  }

  lemma CallStable(s: State, s': State, call: Call)
    requires StoreEvolves(s, s') && CallOk(s, call)
    ensures CallOk(s', call)
  {
    match call
    case Completing(id, p, _, _) => assert PayoutEvolves(s.payouts[id], s'.payouts[id]);
    case Resolving(id, d, _) => assert DisputeEvolves(s.disputes[id], s'.disputes[id]);
    case _ => assert PaymentEvolves(s.payments[call.id], s'.payments[call.id]);
  }

  lemma CallsStable(k: Config, k': Config)
    requires CallsOk(k) && StoreEvolves(k.store, k'.store) && k'.calls == k.calls
    ensures CallsOk(k')
  {
    forall n | n in k'.calls ensures CallOk(k'.store, k'.calls[n]) {
      CallStable(k.store, k'.store, k.calls[n]);
    }
  }

  // ---------- what unchanged parts of a configuration keep ----------

  lemma LedgerFrame(k: Config, k': Config)
    requires k'.store.ledger == k.store.ledger && k'.journal == k.journal
    requires k'.store.outbox.Keys == k.store.outbox.Keys
    requires forall id :: id in k.store.outbox ==> EventEvolves(k.store.outbox[id], k'.store.outbox[id])
    requires JournalOk(k)
    ensures JournalOk(k')
  {
    assert |k'.store.outbox| == |k'.store.outbox.Keys| == |k.store.outbox.Keys| == |k.store.outbox|;
  }

  lemma ClaimEventsFrame(k: Config, k': Config)
    requires k'.journal == k.journal && k'.store.payouts == k.store.payouts && k'.store.disputes == k.store.disputes
    requires EventsCurrent(k) && StagesPosted(k)
    ensures EventsCurrent(k') && StagesPosted(k')
  {
    forall key: RecordKey | !key.PaymentKey? ensures TimesPosted(k'.journal, key) == Stage(k'.store, key) {
      assert Stage(k'.store, key) == Stage(k.store, key);
    }
  }

  lemma BooksFrame(k: Config, k': Config)
    requires Books(k) && Agrees(k') && AllAttributed(k')
    requires k'.store.ledger == k.store.ledger && k'.journal == k.journal && k'.authorized == k.authorized
    requires k'.store.payouts == k.store.payouts && k'.store.disputes == k.store.disputes
    requires k'.store.outbox.Keys == k.store.outbox.Keys
    requires forall id :: id in k.store.outbox ==> EventEvolves(k.store.outbox[id], k'.store.outbox[id])
    ensures Books(k')
  {
    LedgerFrame(k, k');
    ClaimEventsFrame(k, k');
  }

  lemma TablesFrame(k: Config, k': Config)
    requires k'.store.payments == k.store.payments && k'.store.payouts == k.store.payouts
    requires k'.store.disputes == k.store.disputes && k'.authorized == k.authorized
    requires k'.store.ledger == k.store.ledger && k'.journal == k.journal
    requires Agrees(k) && AllAttributed(k)
    ensures Agrees(k') && AllAttributed(k')
  {
    forall a, c ensures AgreesAt(k', a, c) { assert AgreesAt(k, a, c); }
    forall key, a, c ensures AttributedAt(k', key, a, c) {
      assert AttributedAt(k, key, a, c);
      assert Share(k', key, a, c) == Share(k, key, a, c);
    }
  }

  lemma ClaimsFrame(s: State, s': State)
    requires ClaimsOk(s) && s'.payouts == s.payouts && s'.disputes == s.disputes
    requires forall id :: id in s.payments ==> id in s'.payments && PaymentEvolves(s.payments[id], s'.payments[id])
    ensures ClaimsOk(s')
  {
    forall id | id in s'.disputes ensures DisputeOk(s', id, s'.disputes[id]) {
      var d := s.disputes[id];
      assert DisputeOk(s, id, d);
      assert PaymentEvolves(s.payments[d.paymentId], s'.payments[d.paymentId]);
    }
  }

  // Beginning or ending a call touches no record.
  lemma CallsOnly(k: Config, k': Config)
    requires Inv(k) && k' == k.(calls := k'.calls)
    requires CallsOk(k')
    ensures Inv(k') && Evolves(k, k')
  {
    EvolvesReflexive(k, k');
    TablesFrame(k, k');
    BooksFrame(k, k');
  }

  lemma FlagsTables(k: Config, k': Config)
    requires Tables(k) && StoreEvolves(k.store, k'.store)
    requires k' == k.(store := k'.store)
    requires k'.store == k.store.(outbox := k'.store.outbox, webhooks := k'.store.webhooks)
    ensures Tables(k')
  {
    CallsStable(k, k');
    ClaimsFrame(k.store, k'.store);
  }

  // Only the outbox flags and the webhook set change.
  lemma FlagsOnly(k: Config, k': Config)
    requires Inv(k) && StoreEvolves(k.store, k'.store)
    requires k' == k.(store := k'.store)
    requires k'.store == k.store.(outbox := k'.store.outbox, webhooks := k'.store.webhooks)
    requires k'.store.outbox.Keys == k.store.outbox.Keys
    ensures Inv(k')
  {
    FlagsTables(k, k');
    TablesFrame(k, k');
    BooksFrame(k, k');
  }

  // ---------- quiet steps ----------

  lemma KeyInserted(s: State, s': State, p: Payment, key: string)
    requires KeysOk(s) && p.id !in s.payments && key !in s.keys && key != ""
    requires s'.payments == s.payments[p.id := p] && s'.keys == s.keys[key := p.id]
    ensures KeysOk(s')
  {
    forall id | id in s'.payments ensures exists x :: x in s'.keys && s'.keys[x] == id {
      if id == p.id {
        assert s'.keys[key] == id;
      } else {
        var x :| x in s.keys && s.keys[x] == id;
        assert s'.keys[x] == id;
      }
    }
  }

  lemma NewPaymentShare(k: Config, k': Config, p: Payment)
    requires p.id !in k.store.payments && p.id !in k.authorized && p.captured == p.refunded == 0.0
    requires k'.store.payments == k.store.payments[p.id := p] && k'.authorized == k.authorized
    ensures ShareStays(k, k', PaymentKey(p.id))
  {
  }

  lemma StatusShare(k: Config, k': Config, id: string)
    requires id in k.store.payments && id in k'.store.payments && k'.authorized == k.authorized
    requires var p := k'.store.payments[id];
             k.store.payments[id].(status := p.status, providerReference := p.providerReference) == p
    ensures ShareStays(k, k', PaymentKey(id))
  {
  }

  lemma InsertedEvolves(s: State, s': State, p: Payment, key: string)
    requires p.id !in s.payments && key !in s.keys
    requires s' == s.(payments := s.payments[p.id := p], keys := s.keys[key := p.id])
    ensures StoreEvolves(s, s')
  {
  }

  lemma InsertedRows(k: Config, k': Config, p: Payment)
    requires RowsOk(k) && p.id !in k.store.payments && RowOk(p.id, p, false)
    requires k'.store.payments == k.store.payments[p.id := p] && k'.authorized == k.authorized
    ensures RowsOk(k')
  {
  }

  lemma PaymentInserted(k: Config, k': Config, p: Payment, key: string)
    requires Tables(k)
    requires p.id !in k.store.payments && key !in k.store.keys && key != ""
    requires RowOk(p.id, p, false)
    requires k' == k.(store := k.store.(payments := k.store.payments[p.id := p], keys := k.store.keys[key := p.id]))
    ensures Tables(k') && Evolves(k, k')
  {
    InsertedEvolves(k.store, k'.store, p, key);
    InsertedRows(k, k', p);
    ClaimsFrame(k.store, k'.store);
    CallsStable(k, k');
    KeyInserted(k.store, k'.store, p, key);
  }

  /** Inserting a new payment under a new key. */
  lemma InsertPaymentStep(k: Config, k': Config, p: Payment, key: string)
    requires Inv(k)
    requires p.id !in k.store.payments && key !in k.store.keys && key != ""
    requires RowOk(p.id, p, false) && p.status.Created?
    requires k' == k.(store := k.store.(payments := k.store.payments[p.id := p], keys := k.store.keys[key := p.id]))
    ensures Inv(k') && Evolves(k, k')
  {
    PaymentInserted(k, k', p, key);
    NewPaymentShare(k, k', p);
    QuietStep(k, k', PaymentKey(p.id));
    BooksFrame(k, k');
  }

  lemma RowsUpdated(k: Config, k': Config, id: string)
    requires RowsOk(k) && id in k.store.payments && id in k'.store.payments
    requires k'.store.payments == k.store.payments[id := k'.store.payments[id]]
    requires RowOk(id, k'.store.payments[id], id in k'.authorized)
    requires k'.authorized == k.authorized || k'.authorized == k.authorized + {id}
    ensures RowsOk(k')
  {
  }

  lemma PaymentUpdated(s: State, s': State, id: string)
    requires id in s.payments && id in s'.payments
    requires s'.payments == s.payments[id := s'.payments[id]] && PaymentEvolves(s.payments[id], s'.payments[id])
    requires s'.keys == s.keys && s'.webhooks == s.webhooks && s'.payouts == s.payouts && s'.disputes == s.disputes
    requires s.ledger <= s'.ledger
    requires forall x :: x in s.outbox ==> x in s'.outbox && s'.outbox[x] == s.outbox[x]
    ensures StoreEvolves(s, s')
    ensures KeysOk(s) ==> KeysOk(s')
  {
  }

  /** Marking a payment failed, whatever its status: no share depends on the status. */
  lemma FailStep(k: Config, k': Config, id: string, reason: string)
    requires Inv(k) && id in k.store.payments
    requires k' == k.(store := k.store.(payments :=
                       k.store.payments[id := k.store.payments[id].(status := Failed, providerReference := reason)]))
    ensures Inv(k') && Evolves(k, k')
  {
    assert RowOk(id, k.store.payments[id], id in k.authorized);
    PaymentCommandTables(k, k', id);
    StatusShare(k, k', id);
    QuietStep(k, k', PaymentKey(id));
    BooksFrame(k, k');
  }

  // ---------- postings ----------

  lemma SeenAfterUpdate(k: Config, s': State, id: string, p: Payment)
    requires RowsOk(k) && s'.payments == k.store.payments[id := p]
    ensures k.authorized + SeenAuthorized(s') == k.authorized + if p.status.Authorized? then {id} else {}
  {
    forall x | x in SeenAuthorized(s') && x != id ensures x in k.authorized {
      assert RowOk(x, k.store.payments[x], x in k.authorized);
    }
  }

  // The command of a payment call, with the accounts and the amount of its pair.
  ghost function PaymentCommandParts(call: Call, reference: string, ids: Ids): (PaymentCommand, Account, Account, real)
    requires call.Authorizing? || call.Capturing? || call.Refunding?
  {
    var m := call.payment.merchantId;
    match call
    case Authorizing(id, p) => (AuthorizeCommand(id, p, reference, ids), CustomerPending, MerchantPending(m), p.amount)
    case Capturing(id, p, amount) =>
      (CaptureCommand(id, p, amount, ids), MerchantPending(m), MerchantAvailable(m), amount)
    case Refunding(id, p, amount) => (RefundCommand(id, p, amount, ids), MerchantAvailable(m), CustomerRefunded, amount)
  }

  // Whatever the snapshot says, the command writes the current row moved by the command's amount.
  lemma PaymentCommandRow(s: State, call: Call, reference: string, ids: Ids, everAuthorized: bool)
    requires call.Authorizing? || call.Capturing? || call.Refunding?
    requires CallOk(s, call) && RowOk(call.id, s.payments[call.id], everAuthorized)
    requires CommitCall(s, call, reference, ids) != s
    ensures var (cmd, from, to, amount) := PaymentCommandParts(call, reference, ids);
            var row := s.payments[call.id];
            var r := CommandRow(row, cmd);
            && r.Ok? && amount > 0.0
            && CommitCall(s, call, reference, ids)
               == s.(payments := s.payments[call.id := r.value], ledger := s.ledger + cmd.ledger,
                     outbox := s.outbox[ids.event := cmd.event])
            && PaymentEvolves(row, r.value)
            && RowOk(call.id, r.value, everAuthorized || call.Authorizing?)
            && (r.value.status.Authorized? <==> call.Authorizing?)
            && (call.Authorizing? ==> !everAuthorized && row.captured == 0.0)
            && (!call.Authorizing? ==> everAuthorized)
  {
    var (cmd, from, to, amount) := PaymentCommandParts(call, reference, ids);
    PairBalanced(call.id, from, to, call.payment.currency, amount, ids);
  }

  lemma PaymentCommandExplained(s: State, call: Call, reference: string, ids: Ids)
    requires call.Authorizing? || call.Capturing? || call.Refunding?
    requires CallOk(s, call)
    requires var (cmd, from, to, amount) := PaymentCommandParts(call, reference, ids); amount > 0.0
    ensures var (cmd, from, to, amount) := PaymentCommandParts(call, reference, ids);
            && cmd.ledger == Pair(call.id, from, to, call.payment.currency, amount, ids)
            && KeyOf(cmd.event.payload) == PaymentKey(call.id)
            && cmd.event.id == ids.event
            && Explained(Posting(cmd.event, cmd.ledger[0], cmd.ledger[1]))
  {
  }

  lemma PaymentCommandShare(k: Config, k': Config, call: Call, reference: string, ids: Ids)
    requires call.Authorizing? || call.Capturing? || call.Refunding?
    requires call.id in k.store.payments && call.id in k'.store.payments
    requires PaymentEvolves(call.payment, k.store.payments[call.id])
    requires CommandRow(k.store.payments[call.id], PaymentCommandParts(call, reference, ids).0)
          == Ok(k'.store.payments[call.id])
    requires call.Authorizing? ==> call.id !in k.authorized && k.store.payments[call.id].captured == 0.0
    requires !call.Authorizing? ==> call.id in k.authorized
    requires call.id in k'.authorized
    ensures var (cmd, from, to, amount) := PaymentCommandParts(call, reference, ids);
            ShareMoves(k, k', PaymentKey(call.id), from, to, call.payment.currency, amount)
  {
  }

  lemma AfterPosting(k: Config, s': State, pair: seq<LedgerEntry>, event: OutboxEvent)
    requires |pair| == 2 && s'.ledger == k.store.ledger + pair
    requires event.id !in k.store.outbox && s'.outbox == k.store.outbox[event.id := event]
    ensures After(k, s', event.id).journal == k.journal + [Posting(event, pair[0], pair[1])]
  {
  }

  lemma PaymentCommandTables(k: Config, k': Config, id: string)
    requires Tables(k) && id in k.store.payments && id in k'.store.payments
    requires PaymentEvolves(k.store.payments[id], k'.store.payments[id])
    requires RowOk(id, k'.store.payments[id], id in k'.authorized)
    requires k'.authorized == k.authorized || k'.authorized == k.authorized + {id}
    requires k'.calls == k.calls
    requires k'.store == k.store.(payments := k.store.payments[id := k'.store.payments[id]],
                                  ledger := k'.store.ledger, outbox := k'.store.outbox)
    requires k.store.ledger <= k'.store.ledger && k.journal <= k'.journal
    requires forall x :: x in k.store.outbox ==> x in k'.store.outbox && k'.store.outbox[x] == k.store.outbox[x]
    ensures Tables(k') && Evolves(k, k')
  {
    PaymentUpdated(k.store, k'.store, id);
    RowsUpdated(k, k', id);
    ClaimsFrame(k.store, k'.store);
    CallsStable(k, k');
  }

  lemma PaymentPostingBooks(k: Config, k': Config, id: string, from: Account, to: Account,
                            currency: string, amount: real, ids: Ids, event: OutboxEvent)
    requires Books(k) && Posts(k, k', id, from, to, currency, amount, ids, event)
    requires OneRecord(k, k', PaymentKey(id)) && ShareMoves(k, k', PaymentKey(id), from, to, currency, amount)
    requires KeyOf(event.payload) == PaymentKey(id) && to != CustomerPending
    requires k'.authorized == k.authorized + if from == CustomerPending then {id} else {}
    requires from == CustomerPending ==> id !in k.authorized
    ensures Books(k')
  {
    var key := PaymentKey(id);
    PostingAgrees(k, k', key, id, from, to, currency, amount, ids, event);
    PostingAttributed(k, k', key, id, from, to, currency, amount, ids, event);
    PostingJournal(k, k', id, from, to, currency, amount, ids, event);
    forall x ensures Authorizations(k'.store.ledger, x) == if x in k'.authorized then 1 else 0 {
      PostingAuthorizations(k, k', id, from, to, currency, amount, ids, event, x);
    }
    forall other: RecordKey | !other.PaymentKey?
      ensures Latest(k'.journal, other) == Latest(k.journal, other)
      ensures TimesPosted(k'.journal, other) == TimesPosted(k.journal, other)
    {
      PostingLatest(k, k', id, from, to, currency, amount, ids, event, other);
    }
  }

  lemma PaymentCommandShape(k: Config, k': Config, call: Call, reference: string, ids: Ids)
    requires RowsOk(k) && CallOk(k.store, call) && ids.event !in k.store.outbox
    requires call.Authorizing? || call.Capturing? || call.Refunding?
    requires CommitCall(k.store, call, reference, ids) != k.store
    requires k' == After(k, CommitCall(k.store, call, reference, ids), ids.event)
    ensures var (cmd, from, to, amount) := PaymentCommandParts(call, reference, ids);
            var id := call.id;
            && CommandRow(k.store.payments[id], cmd).Ok?
            && k' == Config(k.store.(payments := k.store.payments[id := CommandRow(k.store.payments[id], cmd).value],
                                     ledger := k.store.ledger + cmd.ledger,
                                     outbox := k.store.outbox[ids.event := cmd.event]),
                            k.calls,
                            k.authorized + (if from == CustomerPending then {id} else {}),
                            k.journal + [Posting(cmd.event, cmd.ledger[0], cmd.ledger[1])])
            && Posts(k, k', id, from, to, call.payment.currency, amount, ids, cmd.event)
            && OneRecord(k, k', PaymentKey(id))
            && ShareMoves(k, k', PaymentKey(id), from, to, call.payment.currency, amount)
            && (from == CustomerPending ==> id !in k.authorized)
  {
    var (cmd, from, to, amount) := PaymentCommandParts(call, reference, ids);
    PaymentCommandRow(k.store, call, reference, ids, call.id in k.authorized);
    PaymentCommandExplained(k.store, call, reference, ids);
    SeenAfterUpdate(k, k'.store, call.id, k'.store.payments[call.id]);
    AfterPosting(k, k'.store, cmd.ledger, cmd.event);
    PaymentCommandShare(k, k', call, reference, ids);
  }

  // Of all that, what concerns the payments and the journal.
  lemma PaymentCommandPosts(k: Config, k': Config, call: Call, reference: string, ids: Ids)
    requires RowsOk(k) && CallOk(k.store, call) && ids.event !in k.store.outbox
    requires call.Authorizing? || call.Capturing? || call.Refunding?
    requires CommitCall(k.store, call, reference, ids) != k.store
    requires k' == After(k, CommitCall(k.store, call, reference, ids), ids.event)
    ensures k'.calls == k.calls && call.id in k'.store.payments
    ensures k'.store.payments == k.store.payments[call.id := k'.store.payments[call.id]]
    ensures |k'.journal| == |k.journal| + 1 && k'.journal == k.journal + [k'.journal[|k.journal|]]
    ensures KeyOf(k'.journal[|k.journal|].event.payload) == PaymentKey(call.id)
  {
    PaymentCommandShape(k, k', call, reference, ids);
  }

  lemma PaymentCommandWrites(k: Config, k': Config, call: Call, reference: string, ids: Ids)
    requires RowsOk(k) && CallOk(k.store, call) && ids.event !in k.store.outbox
    requires call.Authorizing? || call.Capturing? || call.Refunding?
    requires CommitCall(k.store, call, reference, ids) != k.store
    requires k' == After(k, CommitCall(k.store, call, reference, ids), ids.event)
    ensures var id := call.id;
            && id in k.store.payments && id in k'.store.payments
            && PaymentEvolves(k.store.payments[id], k'.store.payments[id])
            && RowOk(id, k'.store.payments[id], id in k'.authorized)
            && (k'.authorized == k.authorized || k'.authorized == k.authorized + {id})
            && k'.store == k.store.(payments := k.store.payments[id := k'.store.payments[id]],
                                    ledger := k'.store.ledger, outbox := k'.store.outbox)
            && k.store.ledger <= k'.store.ledger && k.journal <= k'.journal
            && k'.store.outbox == k.store.outbox[ids.event := k'.store.outbox[ids.event]]
  {
    PaymentCommandShape(k, k', call, reference, ids);
    PaymentCommandRow(k.store, call, reference, ids, call.id in k.authorized);
  }

  lemma PaymentCommandKeepsTables(k: Config, k': Config, call: Call, reference: string, ids: Ids)
    requires Tables(k) && CallOk(k.store, call) && ids.event !in k.store.outbox
    requires call.Authorizing? || call.Capturing? || call.Refunding?
    requires CommitCall(k.store, call, reference, ids) != k.store
    requires k' == After(k, CommitCall(k.store, call, reference, ids), ids.event)
    ensures Tables(k') && Evolves(k, k')
  {
    PaymentCommandWrites(k, k', call, reference, ids);
    PaymentCommandTables(k, k', call.id);
  }

  lemma PaymentCommandKeepsBooks(k: Config, k': Config, call: Call, reference: string, ids: Ids)
    requires RowsOk(k) && Books(k) && CallOk(k.store, call) && ids.event !in k.store.outbox
    requires call.Authorizing? || call.Capturing? || call.Refunding?
    requires CommitCall(k.store, call, reference, ids) != k.store
    requires k' == After(k, CommitCall(k.store, call, reference, ids), ids.event)
    ensures Books(k')
  {
    var (cmd, from, to, amount) := PaymentCommandParts(call, reference, ids);
    PaymentCommandShape(k, k', call, reference, ids);
    PaymentPostingBooks(k, k', call.id, from, to, call.payment.currency, amount, ids, cmd.event);
  }

  /** Authorize, capture and refund, built from a snapshot that may be stale. */
  lemma PaymentCommandStep(k: Config, k': Config, call: Call, reference: string, ids: Ids)
    requires Inv(k) && CallOk(k.store, call) && ids.event !in k.store.outbox
    requires call.Authorizing? || call.Capturing? || call.Refunding?
    requires CommitCall(k.store, call, reference, ids) != k.store
    requires k' == After(k, CommitCall(k.store, call, reference, ids), ids.event)
    ensures Inv(k') && Evolves(k, k')
  {
    PaymentCommandKeepsTables(k, k', call, reference, ids);
    PaymentCommandKeepsBooks(k, k', call, reference, ids);
  }
}
