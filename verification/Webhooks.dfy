/** internal/httpapi/webhook.go: provider callbacks. A callback is checked, registered once by its
    event id, and only then runs its money command. The signature check and the JSON decoding are
    given as their outcomes. */
module Webhooks {
  import opened Domain
  import opened Accounts
  import opened MemoryStores
  import opened ServiceSpec
  import opened Services
  import S = StoreSpec

  datatype PaymentAction = CaptureAction | RefundAction | OtherAction
  datatype PayoutAction = PaidAction | FailedAction | UnknownAction

  // What arrives, with what the provider will answer and the identifiers the call will draw.
  datatype Callback =
    | PaymentCallback(signed: bool, decoded: bool, id: string, action: PaymentAction, paymentId: string,
                      amount: Option<real>, providerOk: bool, ids: Ids)
    | PayoutCallback(signed: bool, decoded: bool, id: string, outcome: PayoutAction, payoutId: string,
                     reference: string, ids: Ids)

  datatype Answer = BadRequest | Unauthorized | Unprocessable | Duplicate | CommandFailed | Accepted

  // Why a callback is turned away before it is registered, if it is.
  function Refusal(d: Callback): Option<Answer> {
    if !d.signed then Some(Unauthorized)
    else match d
      case PaymentCallback(_, decoded, id, action, paymentId, amount, _, _) =>
        if !decoded || id == "" || paymentId == "" then Some(BadRequest)
        else if amount.None? || !(amount.value > 0.0) then Some(BadRequest)
        else if action.OtherAction? then Some(Unprocessable) else None
      case PayoutCallback(_, decoded, id, outcome, payoutId, _, _) =>
        if !decoded || id == "" || payoutId == "" then Some(BadRequest)
        else if outcome.UnknownAction? then Some(Unprocessable) else None
  }

  predicate Valid(d: Callback) {
    Refusal(d).None?
  }

  // The money command of a valid callback, and whether it failed.
  function Command(s: S.State, d: Callback): (S.State, bool)
    requires Valid(d)
  {
    match d
    case PaymentCallback(_, _, _, action, id, amount, providerOk, ids) =>
      if action.CaptureAction? then
        var (s', r) := CaptureCall(s, id, amount.value, providerOk, ids); (s', r.Err?)
      else
        var (s', r) := RefundCall(s, id, amount.value, providerOk, ids); (s', r.Err?)
    case PayoutCallback(_, _, _, outcome, id, reference, ids) =>
      var (s', r) := CompleteCall(s, id, reference, outcome.PaidAction?, ids); (s', r.Err?)
  }

  function Handle(s: S.State, d: Callback): (S.State, Answer) {
    if !Valid(d) then (s, Refusal(d).value)
    else
      var (registered, accepted) := S.RegisterWebhook(s, d.id);
      if !accepted then (s, Duplicate)
      else
        var (s', failed) := Command(registered, d);
        (s', if failed then CommandFailed else Accepted)
  }

  class Server {
    const store: MemoryStore
    const payments: PaymentService

    constructor (payments: PaymentService)
      ensures this.payments == payments && this.store == payments.store
    {
      this.payments := payments;
      this.store := payments.store;
    }

    method Webhook(d: Callback) returns (answer: Answer)
      requires d.PaymentCallback? && payments.store == store
      modifies store
      ensures (store.Contents(), answer) == Handle(old(store.Contents()), d)
    {
      if !d.signed {
        return Unauthorized;
      }
      if !d.decoded || d.id == "" || d.paymentId == "" {
        return BadRequest;
      }
      if d.amount == None || !(d.amount.value > 0.0) {
        return BadRequest;
      }
      if d.action != CaptureAction && d.action != RefundAction {
        return Unprocessable;
      }
      var accepted := store.RegisterWebhook(d.id);
      if !accepted {
        return Duplicate;
      }
      var r;
      if d.action == CaptureAction {
        r := payments.Capture(d.paymentId, d.amount.value, d.providerOk, d.ids);
      } else {
        r := payments.Refund(d.paymentId, d.amount.value, d.providerOk, d.ids);
      }
      return if r.Err? then CommandFailed else Accepted;
    }

    method PayoutWebhook(d: Callback) returns (answer: Answer)
      requires d.PayoutCallback?
      modifies store
      ensures (store.Contents(), answer) == Handle(old(store.Contents()), d)
    {
      if !d.signed {
        return Unauthorized;
      }
      if !d.decoded || d.id == "" || d.payoutId == "" {
        return BadRequest;
      }
      if d.outcome != PaidAction && d.outcome != FailedAction {
        return Unprocessable;
      }
      var accepted := store.RegisterWebhook(d.id);
      if !accepted {
        return Duplicate;
      }
      var service := new PayoutService(store);
      var r := service.Complete(d.payoutId, d.reference, d.outcome == PaidAction, d.ids);
      return if r.Err? then CommandFailed else Accepted;
    }
  }

  // ---------- sequences of callbacks ----------

  function Process(s: S.State, callbacks: seq<Callback>): S.State
    decreases |callbacks|
  {
    if callbacks == [] then s else Process(Handle(s, callbacks[0]).0, callbacks[1..])
  }

  // The first valid delivery of each event id that is not in `seen`, in order.
  function Firsts(seen: set<string>, callbacks: seq<Callback>): seq<Callback>
    decreases |callbacks|
  {
    if callbacks == [] then []
    else
      var d := callbacks[0];
      if Valid(d) && d.id !in seen then [d] + Firsts(seen + {d.id}, callbacks[1..])
      else Firsts(seen, callbacks[1..])
  }

  lemma CommandAppends(s: S.State, d: Callback)
    requires Valid(d)
    ensures Command(s, d).0.webhooks == s.webhooks
    ensures |s.ledger| <= |Command(s, d).0.ledger| <= |s.ledger| + 2
  {
  }

  lemma HandleRegisters(s: S.State, d: Callback)
    ensures Handle(s, d).0.webhooks == s.webhooks + if Valid(d) then {d.id} else {}
    ensures !Valid(d) || d.id in s.webhooks ==> Handle(s, d).0 == s
    ensures |s.ledger| <= |Handle(s, d).0.ledger| <= |s.ledger| + 2
  {
    if Valid(d) && d.id !in s.webhooks {
      CommandAppends(S.RegisterWebhook(s, d.id).0, d);
    }
  }

  /** Any sequence of payment and payout callbacks, with any repetitions in any places, leaves the
      store exactly as if only the first valid delivery of each event id had arrived. */
  lemma {:induction false} DuplicatesChangeNothing(s: S.State, callbacks: seq<Callback>)
    ensures Process(s, callbacks) == Process(s, Firsts(s.webhooks, callbacks))
    decreases |callbacks|
  {
    if callbacks != [] {
      var d, rest := callbacks[0], callbacks[1..];
      var s' := Handle(s, d).0;
      HandleRegisters(s, d);
      DuplicatesChangeNothing(s', rest);
      if Valid(d) && d.id !in s.webhooks {
        var kept := Firsts(s.webhooks, callbacks);
        assert kept[0] == d && kept[1..] == Firsts(s'.webhooks, rest);
      } else {
        assert s'.webhooks == s.webhooks;
      }
    }
  }

  // Valid callbacks under pairwise different ids, none of them in `seen`.
  predicate AllNew(seen: set<string>, callbacks: seq<Callback>) {
    && (forall i :: 0 <= i < |callbacks| ==> Valid(callbacks[i]) && callbacks[i].id !in seen)
    && (forall i, j :: 0 <= i < j < |callbacks| ==> callbacks[i].id != callbacks[j].id)
  }

  lemma {:induction false} FirstsAreNew(seen: set<string>, callbacks: seq<Callback>)
    ensures AllNew(seen, Firsts(seen, callbacks))
    decreases |callbacks|
  {
    if callbacks != [] {
      var d := callbacks[0];
      if Valid(d) && d.id !in seen {
        var rest := Firsts(seen + {d.id}, callbacks[1..]);
        FirstsAreNew(seen + {d.id}, callbacks[1..]);
        assert Firsts(seen, callbacks) == [d] + rest;
      } else {
        FirstsAreNew(seen, callbacks[1..]);
      }
    }
  }

  lemma {:induction false} ProcessLedger(s: S.State, callbacks: seq<Callback>)
    ensures |Process(s, callbacks).ledger| <= |s.ledger| + 2 * |callbacks|
    decreases |callbacks|
  {
    if callbacks != [] {
      HandleRegisters(s, callbacks[0]);
      ProcessLedger(Handle(s, callbacks[0]).0, callbacks[1..]);
    }
  }

  /** Each event id moves money at most once: the ledger grows by at most one pair for each distinct
      id that was new and valid. */
  lemma EachIdMovesMoneyOnce(s: S.State, callbacks: seq<Callback>)
    ensures var kept := Firsts(s.webhooks, callbacks);
            && |Process(s, callbacks).ledger| <= |s.ledger| + 2 * |kept|
            && AllNew(s.webhooks, kept)
  {
    DuplicatesChangeNothing(s, callbacks);
    ProcessLedger(s, Firsts(s.webhooks, callbacks));
    FirstsAreNew(s.webhooks, callbacks);
  }
}
