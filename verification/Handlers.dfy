/** internal/httpapi/webhook.go with handlers that overlap: each handler checks its callback, registers
    the event id, reads the record and commits its command in steps of its own, interleaved with the
    other handlers and with everything else the platform does. */
module Handlers {
  import opened Domain
  import opened Accounts
  import opened StoreSpec
  import opened ServiceSpec
  import opened Machine
  import opened Runs
  import opened Theorems
  import Snapshots
  import W = Webhooks

  datatype Progress = Checked | Registered | Calling(n: nat)

  datatype Handler = Handler(callback: W.Callback, progress: Progress)

  // One posting made by a handler: for which callback, and where it stands in the journal.
  datatype Move = Move(callback: W.Callback, at: nat)

  // `moves` is history: the postings made by handlers.
  datatype Web = Web(core: Config, handlers: map<nat, Handler>, moves: seq<Move>)

  const WEB_INIT := Web(INIT, map[], [])

  datatype WebAction =
    | Elsewhere(a: Action)
    | Arrive(h: nat, callback: W.Callback)
    | RegisterId(h: nat)
    | ReadRecord(h: nat, n: nat)
    | CommitMove(h: nat, ids: Ids)
    | GiveUp(h: nat)

  // The call a callback leads to, if its record exists and passes the check of the service.
  function CallOf(s: State, d: W.Callback): Option<Call> {
    match d
    case PaymentCallback(_, _, _, action, id, amount, _, _) =>
      if id !in s.payments || amount.None? then None
      else if action.CaptureAction? then
        if ValidCapture(s.payments[id], amount.value) then Some(Capturing(id, s.payments[id], amount.value)) else None
      else
        if ValidRefund(s.payments[id], amount.value) then Some(Refunding(id, s.payments[id], amount.value)) else None
    case PayoutCallback(_, _, _, outcome, id, reference, _) =>
      if id !in s.payouts then None else Some(Completing(id, s.payouts[id], reference, outcome.PaidAction?))
  }

  // The record a callback is about.
  function Target(d: W.Callback): RecordKey {
    match d
    case PaymentCallback(_, _, _, _, id, _, _, _) => PaymentKey(id)
    case PayoutCallback(_, _, _, _, id, _, _) => PayoutKey(id)
  }

  function CallTarget(call: Call): RecordKey {
    match call
    case Authorizing(id, _) => PaymentKey(id)
    case Capturing(id, _, _) => PaymentKey(id)
    case Refunding(id, _, _) => PaymentKey(id)
    case Completing(id, _, _, _) => PayoutKey(id)
    case Opening(id, _, _, _) => PaymentKey(id)
    case Resolving(id, _, _) => DisputeKey(id)
  }

  // The call is one that a handler of the callback makes.
  predicate Serves(call: Call, d: W.Callback) {
    (call.Capturing? || call.Refunding? || call.Completing?) && CallTarget(call) == Target(d)
  }

  // A call that a handler is in the middle of.
  ghost predicate Owned(w: Web, n: nat) {
    exists h :: h in w.handlers && w.handlers[h].progress == Calling(n)
  }

  ghost predicate WebEnabled(w: Web, x: WebAction) {
    match x
    case Elsewhere(a) =>
      Enabled(w.core, a) && (a.Abort? || a.Fail? || a.Commit? ==> !Owned(w, a.n))
    case Arrive(h, d) => h !in w.handlers && W.Valid(d)
    case RegisterId(h) => h in w.handlers && w.handlers[h].progress == Checked
    case ReadRecord(h, n) =>
      && h in w.handlers && w.handlers[h].progress == Registered && n !in w.core.calls
      && CallOf(w.core.store, w.handlers[h].callback).Some?
    case CommitMove(h, ids) =>
      && h in w.handlers && w.handlers[h].progress.Calling?
      && Enabled(w.core, Commit(w.handlers[h].progress.n, "", ids))
    case GiveUp(h) =>
      && h in w.handlers && (w.handlers[h].progress.Calling? ==> w.handlers[h].progress.n in w.core.calls)
  }

  ghost function WebPerform(w: Web, x: WebAction): Web
    requires WebEnabled(w, x)
  {
    match x
    case Elsewhere(a) => w.(core := Perform(w.core, a))
    case Arrive(h, d) => w.(handlers := w.handlers[h := Handler(d, Checked)])
    case RegisterId(h) =>
      var d := w.handlers[h].callback;
      if d.id in w.core.store.webhooks then w.(handlers := w.handlers - {h})
      else w.(core := Perform(w.core, Register(d.id)), handlers := w.handlers[h := Handler(d, Registered)])
    case ReadRecord(h, n) =>
      var d := w.handlers[h].callback;
      w.(core := w.core.(calls := w.core.calls[n := CallOf(w.core.store, d).value]),
         handlers := w.handlers[h := Handler(d, Calling(n))])
    case CommitMove(h, ids) =>
      var d, n := w.handlers[h].callback, w.handlers[h].progress.n;
      Web(Perform(w.core, Commit(n, "", ids)), w.handlers - {h},
          if Commits(w.core.store, w.core.calls[n], "", ids) then w.moves + [Move(d, |w.core.journal|)] else w.moves)
    case GiveUp(h) =>
      w.(core := if w.handlers[h].progress.Calling? then EndCall(w.core, w.handlers[h].progress.n) else w.core,
         handlers := w.handlers - {h})
  }

  ghost predicate WebNext(w: Web, w': Web) {
    exists x :: WebEnabled(w, x) && w' == WebPerform(w, x)
  }

  ghost predicate WebRun(r: seq<Web>) {
    && |r| > 0
    && r[0] == WEB_INIT
    && forall i :: 0 <= i < |r| - 1 ==> WebNext(r[i], r[i + 1])
  }

  // ---------- the platform underneath ----------

  lemma CallOfReads(s: State, d: W.Callback)
    requires CallOf(s, d).Some?
    ensures Reads(s, CallOf(s, d).value) && Serves(CallOf(s, d).value, d)
  {
  }

  // Whatever handlers do, the platform underneath takes a step of its own or none.
  lemma CoreSteps(w: Web, x: WebAction)
    requires WebEnabled(w, x)
    ensures WebPerform(w, x).core == w.core || Next(w.core, WebPerform(w, x).core)
  {
    var a := match x
      case Elsewhere(a) => a
      case RegisterId(h) => Register(w.handlers[h].callback.id)
      case ReadRecord(h, n) => Begin(n, CallOf(w.core.store, w.handlers[h].callback).value)
      case CommitMove(h, ids) => Commit(w.handlers[h].progress.n, "", ids)
      case GiveUp(h) => if w.handlers[h].progress.Calling? then Abort(w.handlers[h].progress.n) else Register("")
      case Arrive(_, _) => Register("");
    if x.ReadRecord? {
      CallOfReads(w.core.store, w.handlers[x.h].callback);
    }
    if WebPerform(w, x).core != w.core {
      assert Enabled(w.core, a) && WebPerform(w, x).core == Perform(w.core, a);
    }
  }

  lemma NextKeeps(k: Config, k': Config)
    requires Inv(k) && (k' == k || Next(k, k'))
    ensures Inv(k') && Evolves(k, k')
  {
    if k' == k {
      AfterNothing(k, "");
    } else {
      var a :| Enabled(k, a) && k' == Perform(k, a);
      StepKeepsInv(k, a);
    }
  }

  // ---------- the invariant ----------

  predicate Accepted(x: Handler) {
    !x.progress.Checked?
  }

  // A handler past registration is the only one for its id, and has not moved money yet.
  ghost predicate HandlersOk(w: Web) {
    && (forall h :: h in w.handlers && Accepted(w.handlers[h]) ==> w.handlers[h].callback.id in w.core.store.webhooks)
    && (forall h, g :: (h in w.handlers && g in w.handlers && h != g
                        && Accepted(w.handlers[h]) && Accepted(w.handlers[g])) ==>
          w.handlers[h].callback.id != w.handlers[g].callback.id)
    && (forall h, i :: h in w.handlers && Accepted(w.handlers[h]) && 0 <= i < |w.moves| ==>
          w.moves[i].callback.id != w.handlers[h].callback.id)
  }

  ghost predicate MovesOk(w: Web) {
    && (forall i :: 0 <= i < |w.moves| ==> w.moves[i].callback.id in w.core.store.webhooks)
    && (forall i, j :: 0 <= i < j < |w.moves| ==> w.moves[i].callback.id != w.moves[j].callback.id)
  }

  ghost predicate OwnedOk(w: Web) {
    forall h :: h in w.handlers && w.handlers[h].progress.Calling? ==>
      && w.handlers[h].progress.n in w.core.calls
      && Serves(w.core.calls[w.handlers[h].progress.n], w.handlers[h].callback)
  }

  ghost predicate Distinct(w: Web) {
    forall h, g :: h in w.handlers && g in w.handlers && h != g
                   && w.handlers[h].progress.Calling? && w.handlers[g].progress.Calling? ==>
      w.handlers[h].progress.n != w.handlers[g].progress.n
  }

  // The move stands in the journal and is about the record its callback names.
  predicate Posted(journal: seq<Posting>, m: Move) {
    m.at < |journal| && KeyOf(journal[m.at].event.payload) == Target(m.callback)
  }

  ghost predicate MovesPosted(w: Web) {
    && (forall i :: 0 <= i < |w.moves| ==> Posted(w.core.journal, w.moves[i]))
    && (forall i, j :: 0 <= i < j < |w.moves| ==> w.moves[i].at < w.moves[j].at)
  }

  lemma HandlersKept(w: Web, x: WebAction)
    requires HandlersOk(w) && MovesOk(w) && WebEnabled(w, x) && !x.RegisterId?
    requires w.core.store.webhooks <= WebPerform(w, x).core.store.webhooks
    ensures HandlersOk(WebPerform(w, x)) && MovesOk(WebPerform(w, x))
  {
    if x.CommitMove? {
      CommitKeeps(w, x);
    }
  }

  lemma CommitKeeps(w: Web, x: WebAction)
    requires HandlersOk(w) && MovesOk(w) && WebEnabled(w, x) && x.CommitMove?
    requires w.core.store.webhooks <= WebPerform(w, x).core.store.webhooks
    ensures HandlersOk(WebPerform(w, x)) && MovesOk(WebPerform(w, x))
  {
    assert Accepted(w.handlers[x.h]);
  }

  lemma RegisterKeeps(w: Web, x: WebAction)
    requires HandlersOk(w) && MovesOk(w) && WebEnabled(w, x) && x.RegisterId?
    ensures HandlersOk(WebPerform(w, x)) && MovesOk(WebPerform(w, x))
  {
  }

  lemma ElsewhereKeepsOwned(w: Web, a: Action)
    requires OwnedOk(w) && WebEnabled(w, Elsewhere(a))
    ensures OwnedOk(WebPerform(w, Elsewhere(a)))
  {
    var w' := WebPerform(w, Elsewhere(a));
    forall h | h in w'.handlers && w'.handlers[h].progress.Calling?
      ensures && w'.handlers[h].progress.n in w'.core.calls
              && Serves(w'.core.calls[w'.handlers[h].progress.n], w'.handlers[h].callback)
    {
      assert Owned(w, w.handlers[h].progress.n);
      Snapshots.StepKeepsCall(w.core, a, w.handlers[h].progress.n);
    }
  }

  lemma HandlerKeepsOwned(w: Web, x: WebAction)
    requires OwnedOk(w) && Distinct(w) && WebEnabled(w, x) && !x.Elsewhere?
    ensures OwnedOk(WebPerform(w, x))
  {
    if x.ReadRecord? {
      CallOfReads(w.core.store, w.handlers[x.h].callback);
    }
  }

  lemma DistinctKept(w: Web, x: WebAction)
    requires OwnedOk(w) && Distinct(w) && WebEnabled(w, x)
    ensures Distinct(WebPerform(w, x))
  {
  }

  lemma CommitTarget(s: State, call: Call, ids: Ids)
    requires CallOk(s, call) && (call.Capturing? || call.Refunding? || call.Completing?) && Commits(s, call, "", ids)
    requires call.id in s.payments ==> s.payments[call.id].id == call.id
    ensures var s' := CommitCall(s, call, "", ids);
            ids.event in s'.outbox && KeyOf(s'.outbox[ids.event].payload) == CallTarget(call)
  {
  }

  lemma MoveIsPosted(k: Config, n: nat, ids: Ids, d: W.Callback)
    requires RowsOk(k) && CallsOk(k) && Enabled(k, Commit(n, "", ids)) && Serves(k.calls[n], d)
    requires Commits(k.store, k.calls[n], "", ids)
    ensures Posted(Perform(k, Commit(n, "", ids)).journal, Move(d, |k.journal|))
  {
    var call := k.calls[n];
    assert CallOk(k.store, call);
    if call.id in k.store.payments {
      assert RowOk(call.id, k.store.payments[call.id], call.id in k.authorized);
    }
    CommitTarget(k.store, call, ids);
    CommitAppends(k.store, call, "", ids);
  }

  lemma OldMovesStayPosted(journal: seq<Posting>, later: seq<Posting>, moves: seq<Move>)
    requires journal <= later && forall i :: 0 <= i < |moves| ==> Posted(journal, moves[i])
    ensures forall i :: 0 <= i < |moves| ==> Posted(later, moves[i])
  {
  }

  // The moves after a step: the old ones, and at most one new one that stands at the end of the old journal.
  lemma StepMoves(w: Web, x: WebAction)
    requires RowsOk(w.core) && CallsOk(w.core) && OwnedOk(w) && WebEnabled(w, x)
    ensures var w' := WebPerform(w, x);
            || w'.moves == w.moves
            || (|w'.moves| == |w.moves| + 1 && w'.moves[..|w.moves|] == w.moves
                && w'.moves[|w.moves|].at == |w.core.journal| && Posted(w'.core.journal, w'.moves[|w.moves|]))
  {
    if x.CommitMove? {
      var d, n := w.handlers[x.h].callback, w.handlers[x.h].progress.n;
      if Commits(w.core.store, w.core.calls[n], "", x.ids) {
        MoveIsPosted(w.core, n, x.ids, d);
      }
    }
  }

  lemma PostedKept(w: Web, x: WebAction)
    requires RowsOk(w.core) && CallsOk(w.core) && OwnedOk(w) && MovesPosted(w) && WebEnabled(w, x)
    requires w.core.journal <= WebPerform(w, x).core.journal
    ensures MovesPosted(WebPerform(w, x))
  {
    var w' := WebPerform(w, x);
    OldMovesStayPosted(w.core.journal, w'.core.journal, w.moves);
    StepMoves(w, x);
    MovesExtended(w, w');
  }

  lemma MovesExtended(w: Web, w': Web)
    requires MovesPosted(w) && forall i :: 0 <= i < |w.moves| ==> Posted(w'.core.journal, w.moves[i])
    requires || w'.moves == w.moves
             || (|w'.moves| == |w.moves| + 1 && w'.moves[..|w.moves|] == w.moves
                 && w'.moves[|w.moves|].at == |w.core.journal| && Posted(w'.core.journal, w'.moves[|w.moves|]))
    ensures MovesPosted(w')
  {
    forall i | 0 <= i < |w'.moves| ensures Posted(w'.core.journal, w'.moves[i]) {
      if i < |w.moves| { assert w'.moves[i] == w.moves[i]; }
    }
    forall i, j | 0 <= i < j < |w'.moves| ensures w'.moves[i].at < w'.moves[j].at {
      assert w'.moves[i] == w.moves[i] && Posted(w.core.journal, w.moves[i]);
      if j < |w.moves| { assert w'.moves[j] == w.moves[j]; }
    }
  }

  ghost predicate WebInv(w: Web) {
    Inv(w.core) && HandlersOk(w) && MovesOk(w) && OwnedOk(w) && Distinct(w) && MovesPosted(w)
  }

  lemma WebStepKeepsInv(w: Web, x: WebAction)
    requires WebInv(w) && WebEnabled(w, x)
    ensures WebInv(WebPerform(w, x))
  {
    CoreSteps(w, x);
    var core := WebPerform(w, x).core;
    assert Inv(core) && Evolves(w.core, core) by { NextKeeps(w.core, core); }
    if x.RegisterId? { RegisterKeeps(w, x); } else { HandlersKept(w, x); }
    if x.Elsewhere? { ElsewhereKeepsOwned(w, x.a); } else { HandlerKeepsOwned(w, x); }
    DistinctKept(w, x);
    PostedKept(w, x);
  }

  lemma {:induction false} WebRunInv(r: seq<Web>, i: nat)
    requires WebRun(r) && i < |r|
    ensures WebInv(r[i])
    decreases i
  {
    if i == 0 {
      InitInv();
    } else {
      WebRunInv(r, i - 1);
      assert WebNext(r[i - 1], r[i - 1 + 1]);
      var x :| WebEnabled(r[i - 1], x) && r[i] == WebPerform(r[i - 1], x);
      WebStepKeepsInv(r[i - 1], x);
    }
  }

  /** However callbacks repeat and their handlers overlap, each event id moves money at most once: the
      postings that handlers make belong to pairwise different ids, are pairwise different postings,
      and each is about the record its callback names. */
  lemma OneMovePerId(r: seq<Web>, i: nat, a: nat, b: nat)
    requires WebRun(r) && i < |r| && a < b < |r[i].moves|
    ensures r[i].moves[a].callback.id != r[i].moves[b].callback.id
    ensures r[i].moves[a].at < r[i].moves[b].at
    ensures Posted(r[i].core.journal, r[i].moves[a]) && Posted(r[i].core.journal, r[i].moves[b])
  {
    WebRunInv(r, i);
  }

  // ---------- a handler that runs alone ----------

  ghost function WebFollow(w: Web, xs: seq<WebAction>): Option<Web>
    decreases |xs|
  {
    if xs == [] then Some(w)
    else if WebEnabled(w, xs[0]) then WebFollow(WebPerform(w, xs[0]), xs[1..])
    else None
  }

  // Whether the provider lets the command through; a payout completion does not ask it.
  predicate ProviderAgrees(d: W.Callback) {
    d.PaymentCallback? ==> d.providerOk
  }

  // The steps of one handler from its arrival to its answer.
  ghost function HandlerSteps(s: State, h: nat, n: nat, d: W.Callback): seq<WebAction> {
    if !W.Valid(d) then []
    else if d.id in s.webhooks then [Arrive(h, d), RegisterId(h)]
    else if CallOf(s, d).None? then [Arrive(h, d), RegisterId(h), GiveUp(h)]
    else [Arrive(h, d), RegisterId(h), ReadRecord(h, n), if ProviderAgrees(d) then CommitMove(h, d.ids) else GiveUp(h)]
  }

  lemma FollowCons(w: Web, x: WebAction, rest: seq<WebAction>)
    requires WebEnabled(w, x)
    ensures WebFollow(w, [x] + rest) == WebFollow(WebPerform(w, x), rest)
  {
    assert ([x] + rest)[1..] == rest;
  }

  // The store after the call of a callback was made, if it was.
  function AfterCall(s: State, d: W.Callback): State {
    if CallOf(s, d).None? || !ProviderAgrees(d) then s else CommitCall(s, CallOf(s, d).value, "", d.ids)
  }

  // The command of a callback is the call the handler makes for it.
  lemma CommandIsCall(s: State, d: W.Callback)
    requires W.Valid(d)
    ensures W.Command(s, d).0 == AfterCall(s, d)
  {
  }

  lemma ArriveAndRegister(w: Web, h: nat, d: W.Callback)
    requires h !in w.handlers && W.Valid(d)
    ensures var w1 := WebPerform(w, Arrive(h, d));
            && WebEnabled(w, Arrive(h, d)) && WebEnabled(w1, RegisterId(h))
            && var w2 := WebPerform(w1, RegisterId(h));
               && w2.core == w.core.(store := w.core.store.(webhooks := w.core.store.webhooks + {d.id}))
               && w2.handlers == (if d.id in w.core.store.webhooks then w.handlers
                                  else w.handlers[h := Handler(d, Registered)])
               && w2.moves == w.moves
  {
    assert w.handlers[h := Handler(d, Checked)] - {h} == w.handlers;
  }

  lemma ReadAndFinish(w: Web, h: nat, n: nat, d: W.Callback)
    requires h in w.handlers && w.handlers[h] == Handler(d, Registered) && n !in w.core.calls
    requires CallOf(w.core.store, d).Some? && Fresh(w.core.store, d.ids)
    ensures var finish := if ProviderAgrees(d) then CommitMove(h, d.ids) else GiveUp(h);
            && WebEnabled(w, ReadRecord(h, n))
            && var w1 := WebPerform(w, ReadRecord(h, n));
               && WebEnabled(w1, finish)
               && var w2 := WebPerform(w1, finish);
                  && w2.core.store == AfterCall(w.core.store, d) && w2.core.calls == w.core.calls
                  && w2.handlers == w.handlers - {h}
  {
    var call := CallOf(w.core.store, d).value;
    CallOfReads(w.core.store, d);
    assert w.core.calls[n := call] - {n} == w.core.calls;
    assert w.handlers[h := Handler(d, Calling(n))] - {h} == w.handlers - {h};
  }

  // Registering changes no record.
  lemma RegisteredCommand(s: State, d: W.Callback)
    requires W.Valid(d) && d.id !in s.webhooks
    ensures var registered := s.(webhooks := s.webhooks + {d.id});
            && CallOf(registered, d) == CallOf(s, d)
            && W.Handle(s, d).0 == AfterCall(registered, d)
            && (Fresh(s, d.ids) ==> Fresh(registered, d.ids))
  {
    CommandIsCall(s.(webhooks := s.webhooks + {d.id}), d);
  }

  /** A handler whose steps are not interleaved with anything leaves the very store that the sequential
      handler leaves, whatever the callback and however it ends. */
  lemma HandlerAlone(w: Web, h: nat, n: nat, d: W.Callback)
    requires h !in w.handlers && n !in w.core.calls && Fresh(w.core.store, d.ids)
    ensures var end := WebFollow(w, HandlerSteps(w.core.store, h, n, d));
            && end.Some? && end.value.core.store == W.Handle(w.core.store, d).0
            && end.value.core.calls == w.core.calls && end.value.handlers == w.handlers
  {
    var s, xs := w.core.store, HandlerSteps(w.core.store, h, n, d);
    if W.Valid(d) {
      ArriveAndRegister(w, h, d);
      var w1 := WebPerform(w, Arrive(h, d));
      var w2 := WebPerform(w1, RegisterId(h));
      assert xs == [xs[0]] + xs[1..] && xs[1..] == [xs[1]] + xs[2..];
      FollowCons(w, xs[0], xs[1..]);
      FollowCons(w1, xs[1], xs[2..]);
      if d.id in s.webhooks {
        assert s.webhooks + {d.id} == s.webhooks;
      } else {
        RegisteredCommand(s, d);
        assert (w.handlers[h := Handler(d, Registered)]) - {h} == w.handlers;
        FinishAlone(w2, h, n, d, xs[2..]);
      }
    }
  }

  lemma FinishAlone(w: Web, h: nat, n: nat, d: W.Callback, xs: seq<WebAction>)
    requires h in w.handlers && w.handlers[h] == Handler(d, Registered) && n !in w.core.calls
    requires Fresh(w.core.store, d.ids)
    requires xs == if CallOf(w.core.store, d).None? then [GiveUp(h)]
                   else [ReadRecord(h, n), if ProviderAgrees(d) then CommitMove(h, d.ids) else GiveUp(h)]
    ensures var end := WebFollow(w, xs);
            && end.Some? && end.value.core.store == AfterCall(w.core.store, d)
            && end.value.core.calls == w.core.calls && end.value.handlers == w.handlers - {h}
  {
    if CallOf(w.core.store, d).None? {
      FollowCons(w, GiveUp(h), []);
      assert xs == [GiveUp(h)] + [];
    } else {
      ReadAndFinish(w, h, n, d);
      var w1 := WebPerform(w, xs[0]);
      FollowCons(w, xs[0], [xs[1]]);
      FollowCons(w1, xs[1], []);
      assert xs == [xs[0]] + [xs[1]] && [xs[1]] == [xs[1]] + [];
    }
  }
}
