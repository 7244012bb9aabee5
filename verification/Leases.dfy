/** The PostgreSQL outbox: any number of workers claim events under a one-minute lease, publish them
    and mark them, on a clock that never runs backwards. A claim is one atomic step: it takes the
    oldest claimable events up to its limit, passing over those that another transaction has locked
    at that moment, and returns them in no particular order. */
module Leases {
  import opened Domain

  const MINUTE := 60

  datatype Row = Row(createdAt: int, claimedAt: Option<int>, published: bool)

  // One row taken by one claim.
  datatype Claim = Claim(id: string, at: int)

  // A worker delivers the claims numbered `next` to `end`; `accepted` says that the publisher has
  // taken claim `next` and the mark is still to come.
  datatype Worker = Idle | Delivering(next: nat, end: nat, accepted: bool)

  // `claims` and `accepts` are history: every row ever claimed, and the claim numbers whose event
  // the publisher accepted.
  datatype Outbox = Outbox(rows: map<string, Row>, now: int, workers: map<nat, Worker>, claims: seq<Claim>,
                           accepts: seq<nat>)

  const NEW_OUTBOX := Outbox(map[], 0, map[], [], [])

  datatype Action =
    | Enqueue(id: string)
    | Tick(seconds: nat)
    | ClaimRows(w: nat, limit: nat, ids: seq<string>, locked: set<string>)
    | Publish(w: nat, accepted: bool)
    | Mark(w: nat)
    | Stop(w: nat)

  predicate Claimable(row: Row, now: int) {
    !row.published && (row.claimedAt.None? || row.claimedAt.value < now - MINUTE)
  }

  // What the query of a claim can take.
  predicate Candidate(o: Outbox, id: string, locked: set<string>) {
    id in o.rows && Claimable(o.rows[id], o.now) && id !in locked
  }

  // The oldest candidates up to the limit; among equally old ones any.
  ghost predicate TakesOldest(o: Outbox, limit: nat, ids: seq<string>, locked: set<string>) {
    && |ids| <= limit
    && (forall i :: 0 <= i < |ids| ==> Candidate(o, ids[i], locked))
    && (forall i, j :: 0 <= i < j < |ids| ==> ids[i] != ids[j])
    && (forall id :: Candidate(o, id, locked) && id !in ids ==>
          |ids| == limit && forall i :: 0 <= i < |ids| ==> o.rows[ids[i]].createdAt <= o.rows[id].createdAt)
  }

  function WorkerOf(o: Outbox, w: nat): Worker {
    if w in o.workers then o.workers[w] else Idle
  }

  ghost predicate Enabled(o: Outbox, a: Action) {
    match a
    case Enqueue(id) => id !in o.rows
    case Tick(_) => true
    case ClaimRows(w, limit, ids, locked) => WorkerOf(o, w).Idle? && TakesOldest(o, limit, ids, locked)
    case Publish(w, _) => var x := WorkerOf(o, w); x.Delivering? && x.next < x.end && !x.accepted
    case Mark(w) => var x := WorkerOf(o, w); x.Delivering? && x.next < x.end <= |o.claims| && x.accepted
    // Done, failed or killed.
    case Stop(_) => true
  }

  ghost function Perform(o: Outbox, a: Action): Outbox
    requires Enabled(o, a)
  {
    match a
    case Enqueue(id) => o.(rows := o.rows[id := Row(o.now, None, false)])
    case Tick(seconds) => o.(now := o.now + seconds)
    case ClaimRows(w, _, ids, _) =>
      o.(rows := map id | id in o.rows :: if id in ids then o.rows[id].(claimedAt := Some(o.now)) else o.rows[id],
         claims := o.claims + seq(|ids|, i requires 0 <= i < |ids| => Claim(ids[i], o.now)),
         workers := o.workers[w := Delivering(|o.claims|, |o.claims| + |ids|, false)])
    case Publish(w, accepted) =>
      var x := WorkerOf(o, w);
      if accepted then o.(accepts := o.accepts + [x.next], workers := o.workers[w := x.(accepted := true)])
      else o.(workers := o.workers[w := Idle])
    case Mark(w) =>
      var x := WorkerOf(o, w);
      var id := o.claims[x.next].id;
      var marked := o.(workers := o.workers[w := Delivering(x.next + 1, x.end, false)]);
      if id in o.rows then marked.(rows := o.rows[id := o.rows[id].(published := true)]) else marked
    case Stop(w) => o.(workers := o.workers[w := Idle])
  }

  ghost predicate Next(o: Outbox, o': Outbox) {
    exists a :: Enabled(o, a) && o' == Perform(o, a)
  }

  ghost predicate Run(r: seq<Outbox>) {
    && |r| > 0
    && r[0] == NEW_OUTBOX
    && forall i :: 0 <= i < |r| - 1 ==> Next(r[i], r[i + 1])
  }

  // ---------- the invariant ----------

  // Claims of one event are more than a minute apart, and the row remembers the newest.
  predicate ClaimsOk(o: Outbox) {
    && (forall i :: 0 <= i < |o.claims| ==>
          && o.claims[i].id in o.rows
          && var row := o.rows[o.claims[i].id];
             row.claimedAt.Some? && o.claims[i].at <= row.claimedAt.value)
    && (forall id :: id in o.rows && o.rows[id].claimedAt.Some? ==> o.rows[id].claimedAt.value <= o.now)
    && (forall i, j :: 0 <= i < j < |o.claims| && o.claims[i].id == o.claims[j].id ==>
          o.claims[i].at + MINUTE < o.claims[j].at)
  }

  predicate AcceptsOk(o: Outbox) {
    && (forall i :: 0 <= i < |o.accepts| ==> o.accepts[i] < |o.claims|)
    && (forall i, j :: 0 <= i < j < |o.accepts| ==> o.accepts[i] != o.accepts[j])
    && (forall id :: id in o.rows && o.rows[id].published ==> Accepted(o, id))
  }

  predicate Accepted(o: Outbox, id: string) {
    exists i :: 0 <= i < |o.accepts| && o.accepts[i] < |o.claims| && o.claims[o.accepts[i]].id == id
  }

  // A worker's own part of the invariant.
  predicate WorkerOk(o: Outbox, x: Worker) {
    x.Delivering? ==>
      && x.next <= x.end <= |o.claims|
      && (x.accepted ==> x.next < x.end && x.next in o.accepts)
      && (forall i :: 0 <= i < |o.accepts| && x.next <= o.accepts[i] < x.end ==> x.accepted && o.accepts[i] == x.next)
  }

  predicate Disjoint(x: Worker, y: Worker) {
    x.Delivering? && y.Delivering? ==> x.end <= y.next || y.end <= x.next
  }

  predicate WorkersOk(o: Outbox) {
    && (forall w :: w in o.workers ==> WorkerOk(o, o.workers[w]))
    && (forall v, w :: v in o.workers && w in o.workers && v != w ==> Disjoint(o.workers[v], o.workers[w]))
  }

  predicate Inv(o: Outbox) {
    ClaimsOk(o) && AcceptsOk(o) && WorkersOk(o)
  }

  lemma StepKeepsClaims(o: Outbox, a: Action)
    requires ClaimsOk(o) && Enabled(o, a)
    ensures ClaimsOk(Perform(o, a))
  {
  }

  lemma StepKeepsAccepts(o: Outbox, a: Action)
    requires Inv(o) && Enabled(o, a)
    ensures AcceptsOk(Perform(o, a))
  {
    var o' := Perform(o, a);
    assert o.claims <= o'.claims && o.accepts <= o'.accepts;
    if a.Publish? && a.accepted {
      assert WorkerOf(o, a.w) == o.workers[a.w];
    }
    forall id | id in o'.rows && o'.rows[id].published ensures Accepted(o', id) {
      if id in o.rows && o.rows[id].published {
        var i :| 0 <= i < |o.accepts| && o.accepts[i] < |o.claims| && o.claims[o.accepts[i]].id == id;
        assert o'.accepts[i] == o.accepts[i];
      } else {
        assert WorkerOf(o, a.w) == o.workers[a.w];
        var i :| 0 <= i < |o.accepts| && o.accepts[i] == o.workers[a.w].next;
        assert o'.accepts[i] == o.accepts[i];
      }
    }
  }

  lemma PublishKeepsWorkers(o: Outbox, a: Action)
    requires Inv(o) && Enabled(o, a) && a.Publish? && a.accepted
    ensures WorkersOk(Perform(o, a))
  {
    var o' := Perform(o, a);
    var x := o.workers[a.w];
    assert o'.accepts[|o.accepts|] == x.next;
    forall w | w in o'.workers ensures WorkerOk(o', o'.workers[w]) {
      assert WorkerOk(o, o.workers[w]);
      if w != a.w {
        assert Disjoint(o.workers[w], x);
      }
    }
    forall v, w | v in o'.workers && w in o'.workers && v != w ensures Disjoint(o'.workers[v], o'.workers[w]) {
      assert Disjoint(o.workers[v], o.workers[w]);
    }
  }

  lemma OtherStepKeepsWorkers(o: Outbox, a: Action)
    requires Inv(o) && Enabled(o, a) && !(a.Publish? && a.accepted)
    ensures WorkersOk(Perform(o, a))
  {
    var o' := Perform(o, a);
    assert o'.accepts == o.accepts && o.claims <= o'.claims;
    forall w | w in o'.workers ensures WorkerOk(o', o'.workers[w]) {
      if w in o.workers {
        assert WorkerOk(o, o.workers[w]);
      }
    }
    forall v, w | v in o'.workers && w in o'.workers && v != w ensures Disjoint(o'.workers[v], o'.workers[w]) {
      if v in o.workers && w in o.workers {
        assert Disjoint(o.workers[v], o.workers[w]);
      }
    }
  }

  lemma {:induction false} RunInv(r: seq<Outbox>, i: nat)
    requires Run(r) && i < |r|
    ensures Inv(r[i])
    decreases i
  {
    if i > 0 {
      RunInv(r, i - 1);
      assert Next(r[i - 1], r[i - 1 + 1]);
      var a :| Enabled(r[i - 1], a) && r[i] == Perform(r[i - 1], a);
      StepKeepsClaims(r[i - 1], a);
      StepKeepsAccepts(r[i - 1], a);
      if a.Publish? && a.accepted {
        PublishKeepsWorkers(r[i - 1], a);
      } else {
        OtherStepKeepsWorkers(r[i - 1], a);
      }
    }
  }

  // History is only ever extended, and a published event is never claimed again.
  ghost predicate Extends(o: Outbox, o': Outbox) {
    && o.claims <= o'.claims && o.accepts <= o'.accepts && o.now <= o'.now
    && forall id :: id in o.rows && o.rows[id].published ==>
         && id in o'.rows && o'.rows[id].published
         && forall c :: |o.claims| <= c < |o'.claims| ==> o'.claims[c].id != id
  }

  lemma StepExtends(o: Outbox, a: Action)
    requires Enabled(o, a)
    ensures Extends(o, Perform(o, a))
  {
  }

  lemma ExtendsTransitive(o: Outbox, p: Outbox, q: Outbox)
    requires Extends(o, p) && Extends(p, q)
    ensures Extends(o, q)
  {
    forall id | id in o.rows && o.rows[id].published
      ensures id in q.rows && q.rows[id].published
      ensures forall c :: |o.claims| <= c < |q.claims| ==> q.claims[c].id != id
    {
      forall c | |o.claims| <= c < |q.claims| ensures q.claims[c].id != id {
        if c < |p.claims| {
          assert q.claims[c] == p.claims[c];
        }
      }
    }
  }

  lemma NextExtends(o: Outbox, o': Outbox)
    requires Next(o, o')
    ensures Extends(o, o')
  {
    var a :| Enabled(o, a) && o' == Perform(o, a);
    StepExtends(o, a);
  }

  lemma {:induction false} RunExtends(r: seq<Outbox>, i: nat, j: nat)
    requires Run(r) && i <= j < |r|
    ensures Extends(r[i], r[j])
    decreases j
  {
    if i < j {
      RunExtends(r, i, j - 1);
      assert Next(r[j - 1], r[j - 1 + 1]);
      NextExtends(r[j - 1], r[j]);
      ExtendsTransitive(r[i], r[j - 1], r[j]);
    }
  }

  // ---------- theorems ----------

  /** Two claims of one event are more than a minute apart, whichever workers made them. */
  lemma ClaimsAreSpaced(r: seq<Outbox>, i: nat, first: nat, second: nat)
    requires Run(r) && i < |r| && first < second < |r[i].claims|
    requires r[i].claims[first].id == r[i].claims[second].id
    ensures r[i].claims[first].at + 60 < r[i].claims[second].at
  {
    RunInv(r, i);
  }

  /** An event is marked only after the publisher accepted it, and once marked it stays marked and
      is never claimed again. */
  lemma PublishedOnceAccepted(r: seq<Outbox>, i: nat, j: nat, id: string)
    requires Run(r) && i <= j < |r| && id in r[i].rows && r[i].rows[id].published
    ensures Accepted(r[i], id)
    ensures id in r[j].rows && r[j].rows[id].published
    ensures forall c :: |r[i].claims| <= c < |r[j].claims| ==> r[j].claims[c].id != id
  {
    RunInv(r, i);
    RunExtends(r, i, j);
  }

  /** The publisher may accept an event twice, but each claim leads to at most one acceptance: two
      acceptances of an event stem from claims of it more than a minute apart. */
  lemma DuplicatesNeedExpiredLease(r: seq<Outbox>, i: nat, x: nat, y: nat)
    requires Run(r) && i < |r| && x < |r[i].accepts| && y < |r[i].accepts| && x != y
    requires r[i].accepts[x] < |r[i].claims| && r[i].accepts[y] < |r[i].claims|
    requires r[i].claims[r[i].accepts[x]].id == r[i].claims[r[i].accepts[y]].id
    ensures var o := r[i]; var s, t := o.claims[o.accepts[x]].at, o.claims[o.accepts[y]].at;
            s + 60 < t || t + 60 < s
  {
    RunInv(r, i);
    if x < y { assert r[i].accepts[x] != r[i].accepts[y]; } else { assert r[i].accepts[y] != r[i].accepts[x]; }
    if r[i].accepts[x] < r[i].accepts[y] {
      ClaimsAreSpaced(r, i, r[i].accepts[x], r[i].accepts[y]);
    } else {
      ClaimsAreSpaced(r, i, r[i].accepts[y], r[i].accepts[x]);
    }
  }

  // ---------- runs with their actions ----------

  // A run together with the actions it took.
  ghost predicate Trace(r: seq<Outbox>, xs: seq<Action>) {
    && |r| == |xs| + 1
    && r[0] == NEW_OUTBOX
    && forall i :: 0 <= i < |xs| ==> Enabled(r[i], xs[i]) && r[i + 1] == Perform(r[i], xs[i])
  }

  lemma TraceInv(r: seq<Outbox>, xs: seq<Action>, i: nat)
    requires Trace(r, xs) && i < |r|
    ensures Run(r) && Inv(r[i])
  {
    forall j | 0 <= j < |r| - 1 ensures Next(r[j], r[j + 1]) {
      assert Enabled(r[j], xs[j]) && r[j + 1] == Perform(r[j], xs[j]);
    }
    RunInv(r, i);
  }

  predicate IsPublished(o: Outbox, id: string) {
    id in o.rows && o.rows[id].published
  }

  // The step marks the claim its worker is at, and that claim is of event `id`.
  ghost predicate Marks(o: Outbox, a: Action, id: string) {
    && a.Mark? && Enabled(o, a) && o.claims[WorkerOf(o, a.w).next].id == id
  }

  /** A mark publishes the event of the claim its worker is at, and touches no other row. */
  lemma MarkPublishesItsEvent(o: Outbox, w: nat)
    requires Inv(o) && Enabled(o, Mark(w))
    ensures var id := o.claims[WorkerOf(o, w).next].id;
            && id in o.rows
            && Perform(o, Mark(w)).rows == o.rows[id := o.rows[id].(published := true)]
  {
  }

  lemma StepPublishes(o: Outbox, a: Action, id: string)
    requires Inv(o) && Enabled(o, a)
    ensures IsPublished(Perform(o, a), id) <==> IsPublished(o, id) || Marks(o, a, id)
  {
    if a.Mark? {
      MarkPublishesItsEvent(o, a.w);
    }
  }

  ghost predicate MarkedBefore(r: seq<Outbox>, xs: seq<Action>, j: nat, id: string)
    requires j <= |xs| < |r|
  {
    exists i :: 0 <= i < j && Marks(r[i], xs[i], id)
  }

  /** An event is published exactly when one of its claims has been marked. */
  lemma {:induction false} PublishedIffMarked(r: seq<Outbox>, xs: seq<Action>, j: nat, id: string)
    requires Trace(r, xs) && j < |r|
    ensures IsPublished(r[j], id) <==> MarkedBefore(r, xs, j, id)
    decreases j
  {
    if j > 0 {
      PublishedIffMarked(r, xs, j - 1, id);
      TraceInv(r, xs, j - 1);
      StepPublishes(r[j - 1], xs[j - 1], id);
      assert MarkedBefore(r, xs, j, id) <==> MarkedBefore(r, xs, j - 1, id) || Marks(r[j - 1], xs[j - 1], id);
    }
  }

  /** Once an event has been marked it is published at every later point and never claimed again. */
  lemma MarkedForEver(r: seq<Outbox>, xs: seq<Action>, i: nat, j: nat, id: string)
    requires Trace(r, xs) && i < j < |r| && Marks(r[i], xs[i], id)
    ensures IsPublished(r[j], id)
    ensures forall c :: |r[i].claims| <= c < |r[j].claims| ==> r[j].claims[c].id != id
  {
    TraceInv(r, xs, i);
    StepPublishes(r[i], xs[i], id);
    PublishedOnceAccepted(r, i + 1, j, id);
    assert r[i + 1].claims == r[i].claims;
  }

  /** A row keeps the time at which its event was written, by which claims are ordered. */
  lemma {:induction false} RowKeepsBirth(r: seq<Outbox>, xs: seq<Action>, i: nat, j: nat, id: string)
    requires Trace(r, xs) && i < j < |r| && xs[i] == Enqueue(id)
    ensures id in r[j].rows && r[j].rows[id].createdAt == r[i].now
    decreases j
  {
    assert Enabled(r[j - 1], xs[j - 1]) && r[j] == Perform(r[j - 1], xs[j - 1]);
    if j > i + 1 {
      RowKeepsBirth(r, xs, i, j - 1, id);
    }
  }

  /** There is a run that publishes an event: it is written, claimed, accepted and marked. */
  lemma EventCanBePublished(id: string)
    ensures exists r :: Run(r) && IsPublished(r[|r| - 1], id)
  {
    var o1 := Perform(NEW_OUTBOX, Enqueue(id));
    var claim := ClaimRows(0, 1, [id], {});
    assert Candidate(o1, id, {}) && TakesOldest(o1, 1, [id], {});
    var o2 := Perform(o1, claim);
    assert WorkerOf(o2, 0) == Delivering(0, 1, false) && o2.claims[0].id == id;
    var o3 := Perform(o2, Publish(0, true));
    assert WorkerOf(o3, 0) == Delivering(0, 1, true);
    var o4 := Perform(o3, Mark(0));
    assert IsPublished(o4, id);
    var r := [NEW_OUTBOX, o1, o2, o3, o4];
    assert Next(r[0], r[1]) && Next(r[1], r[2]) && Next(r[2], r[3]) && Next(r[3], r[4]);
    assert Run(r);
  }

  // ---------- a worker stops at the first failure ----------

  // Of the claims `a` to `b`, those before `m` were accepted and no others, and all but the last of
  // these are published.
  ghost predicate AcceptedPrefix(o: Outbox, a: nat, b: nat, m: nat) {
    && a <= m <= b <= |o.claims|
    && (forall c: nat :: a <= c < b ==> (c in o.accepts <==> c < m))
    && (forall c: nat :: a <= c < m - 1 ==> IsPublished(o, o.claims[c].id))
  }

  // Worker `w` is still delivering the claims `a` to `b`.
  predicate OnBatch(o: Outbox, w: nat, a: nat, b: nat) {
    var x := WorkerOf(o, w);
    x.Delivering? && x.end == b && a <= x.next < b
  }

  // The other workers are at other claims.
  ghost predicate OthersElsewhere(o: Outbox, w: nat, a: nat, b: nat) {
    forall v :: v in o.workers && o.workers[v].Delivering? && o.workers[v].next < o.workers[v].end ==>
      o.workers[v].end <= a || b <= o.workers[v].next || (v == w && OnBatch(o, w, a, b))
  }

  ghost predicate BatchOk(o: Outbox, w: nat, a: nat, b: nat) {
    && OthersElsewhere(o, w, a, b)
    && if OnBatch(o, w, a, b) then
         var x := WorkerOf(o, w);
         && AcceptedPrefix(o, a, b, if x.accepted then x.next + 1 else x.next)
         && (forall c: nat :: a <= c < x.next ==> IsPublished(o, o.claims[c].id))
       else exists m :: AcceptedPrefix(o, a, b, m)
  }

  lemma PrefixKept(o: Outbox, o': Outbox, a: nat, b: nat, m: nat)
    requires AcceptedPrefix(o, a, b, m) && o.claims <= o'.claims
    requires forall c: nat :: a <= c < b ==> (c in o'.accepts <==> c in o.accepts)
    requires forall id :: IsPublished(o, id) ==> IsPublished(o', id)
    ensures AcceptedPrefix(o', a, b, m)
  {
  }

  lemma StepKeepsPublished(o: Outbox, a: Action)
    requires Inv(o) && Enabled(o, a)
    ensures o.claims <= Perform(o, a).claims
    ensures forall id :: IsPublished(o, id) ==> IsPublished(Perform(o, a), id)
  {
    forall id | IsPublished(o, id) ensures IsPublished(Perform(o, a), id) {
      StepPublishes(o, a, id);
    }
  }

  // A step that accepts nothing of the batch and leaves its worker where it is, or idle.
  lemma BatchFrame(o: Outbox, act: Action, w: nat, a: nat, b: nat)
    requires Inv(o) && Enabled(o, act) && BatchOk(o, w, a, b)
    requires forall c: nat :: a <= c < b ==> (c in Perform(o, act).accepts <==> c in o.accepts)
    requires WorkerOf(Perform(o, act), w) == WorkerOf(o, w) || !OnBatch(Perform(o, act), w, a, b)
    requires OthersElsewhere(Perform(o, act), w, a, b)
    ensures BatchOk(Perform(o, act), w, a, b)
  {
    var o' := Perform(o, act);
    StepKeepsPublished(o, act);
    if OnBatch(o, w, a, b) {
      var x := WorkerOf(o, w);
      PrefixKept(o, o', a, b, if x.accepted then x.next + 1 else x.next);
    } else {
      var m :| AcceptedPrefix(o, a, b, m);
      PrefixKept(o, o', a, b, m);
    }
  }

  lemma OthersStay(o: Outbox, act: Action, w: nat, a: nat, b: nat)
    requires Inv(o) && Enabled(o, act) && OthersElsewhere(o, w, a, b) && b <= |o.claims|
    ensures OthersElsewhere(Perform(o, act), w, a, b)
  {
  }

  // Worker `w` gets the event it is at accepted.
  lemma OwnAccept(o: Outbox, w: nat, a: nat, b: nat)
    requires Inv(o) && Enabled(o, Publish(w, true)) && BatchOk(o, w, a, b) && OnBatch(o, w, a, b)
    requires OthersElsewhere(Perform(o, Publish(w, true)), w, a, b)
    ensures BatchOk(Perform(o, Publish(w, true)), w, a, b)
  {
    var o', x := Perform(o, Publish(w, true)), WorkerOf(o, w);
    assert o'.accepts == o.accepts + [x.next] && o'.rows == o.rows && o'.claims == o.claims;
    assert AcceptedPrefix(o', a, b, x.next + 1);
  }

  // Worker `w` marks the event it is at.
  lemma OwnMark(o: Outbox, w: nat, a: nat, b: nat)
    requires Inv(o) && Enabled(o, Mark(w)) && BatchOk(o, w, a, b) && OnBatch(o, w, a, b)
    requires OthersElsewhere(Perform(o, Mark(w)), w, a, b)
    ensures BatchOk(Perform(o, Mark(w)), w, a, b)
  {
    var o', x := Perform(o, Mark(w)), WorkerOf(o, w);
    StepKeepsPublished(o, Mark(w));
    MarkPublishesItsEvent(o, w);
    PrefixKept(o, o', a, b, x.next + 1);
    assert IsPublished(o', o'.claims[x.next].id);
  }

  // Another worker accepts none of this batch.
  lemma ElsewhereAccepts(o: Outbox, act: Action, w: nat, a: nat, b: nat)
    requires Enabled(o, act) && OthersElsewhere(o, w, a, b)
    requires !(act == Publish(w, true) && OnBatch(o, w, a, b))
    ensures forall c: nat :: a <= c < b ==> (c in Perform(o, act).accepts <==> c in o.accepts)
  {
    if act.Publish? && act.accepted {
      assert WorkerOf(o, act.w) == o.workers[act.w];
    }
  }

  lemma BatchStep(o: Outbox, act: Action, w: nat, a: nat, b: nat)
    requires Inv(o) && Enabled(o, act) && BatchOk(o, w, a, b) && b <= |o.claims|
    ensures BatchOk(Perform(o, act), w, a, b)
  {
    OthersStay(o, act, w, a, b);
    if OnBatch(o, w, a, b) && act == Publish(w, true) {
      OwnAccept(o, w, a, b);
    } else if OnBatch(o, w, a, b) && act == Mark(w) {
      OwnMark(o, w, a, b);
    } else {
      ElsewhereAccepts(o, act, w, a, b);
      BatchFrame(o, act, w, a, b);
    }
  }

  lemma BatchBegins(o: Outbox, w: nat, limit: nat, ids: seq<string>, locked: set<string>)
    requires Inv(o) && Enabled(o, ClaimRows(w, limit, ids, locked))
    ensures BatchOk(Perform(o, ClaimRows(w, limit, ids, locked)), w, |o.claims|, |o.claims| + |ids|)
  {
    var o', a, b := Perform(o, ClaimRows(w, limit, ids, locked)), |o.claims|, |o.claims| + |ids|;
    forall v | v in o'.workers && o'.workers[v].Delivering? && o'.workers[v].next < o'.workers[v].end
      ensures o'.workers[v].end <= a || b <= o'.workers[v].next || (v == w && OnBatch(o', w, a, b))
    {
      if v != w {
        assert WorkerOk(o, o.workers[v]);
      }
    }
    assert AcceptedPrefix(o', a, b, a);
  }

  lemma TraceBatchStep(r: seq<Outbox>, xs: seq<Action>, j: nat, w: nat, a: nat, b: nat)
    requires Trace(r, xs) && j < |xs| && BatchOk(r[j], w, a, b) && b <= |r[j].claims|
    ensures BatchOk(r[j + 1], w, a, b) && b <= |r[j + 1].claims|
  {
    TraceInv(r, xs, j);
    BatchStep(r[j], xs[j], w, a, b);
    StepKeepsPublished(r[j], xs[j]);
  }

  lemma TraceBatchBegins(r: seq<Outbox>, xs: seq<Action>, i: nat)
    requires Trace(r, xs) && i < |xs| && xs[i].ClaimRows?
    ensures BatchOk(r[i + 1], xs[i].w, |r[i].claims|, |r[i + 1].claims|)
  {
    TraceInv(r, xs, i);
    BatchBegins(r[i], xs[i].w, xs[i].limit, xs[i].ids, xs[i].locked);
  }

  lemma {:induction false} BatchAlong(r: seq<Outbox>, xs: seq<Action>, i: nat, j: nat, w: nat, a: nat, b: nat)
    requires Trace(r, xs) && i <= j < |r| && BatchOk(r[i], w, a, b) && b <= |r[i].claims|
    ensures BatchOk(r[j], w, a, b) && b <= |r[j].claims|
    decreases j
  {
    if i < j {
      BatchAlong(r, xs, i, j - 1, w, a, b);
      TraceBatchStep(r, xs, j - 1, w, a, b);
    }
  }

  /** Of the events one claim returned, the publisher accepted exactly the first few, up to the point at
      which it failed or the worker was stopped, and all of these but perhaps the last are published:
      delivery is in order and stops at the first failure. */
  lemma DeliveredInOrder(r: seq<Outbox>, xs: seq<Action>, i: nat, j: nat)
    requires Trace(r, xs) && i < j < |r| && xs[i].ClaimRows?
    ensures var a, b := |r[i].claims|, |r[i + 1].claims|; exists m :: AcceptedPrefix(r[j], a, b, m)
  {
    var a, b := |r[i].claims|, |r[i + 1].claims|;
    TraceBatchBegins(r, xs, i);
    BatchAlong(r, xs, i + 1, j, xs[i].w, a, b);
  }

  // ---------- no event is lost ----------

  // The other candidates that are as old or older.
  function Ahead(o: Outbox, id: string, locked: set<string>): set<string>
    requires id in o.rows
  {
    set x | x in o.rows && x != id && Candidate(o, x, locked) && o.rows[x].createdAt <= o.rows[id].createdAt
  }

  lemma {:induction false} DistinctWithin(ids: seq<string>, s: set<string>)
    requires forall i :: 0 <= i < |ids| ==> ids[i] in s
    requires forall i, j :: 0 <= i < j < |ids| ==> ids[i] != ids[j]
    ensures |ids| <= |s|
  {
    if ids != [] {
      var n := |ids| - 1;
      DistinctWithin(ids[..n], s - {ids[n]});
    }
  }

  // A claim that leaves a candidate behind has taken its whole limit from ahead of it.
  lemma LeftBehind(o: Outbox, limit: nat, ids: seq<string>, locked: set<string>, id: string)
    requires TakesOldest(o, limit, ids, locked) && Candidate(o, id, locked) && id !in ids
    ensures limit <= |Ahead(o, id, locked)|
  {
    forall i | 0 <= i < |ids| ensures ids[i] in Ahead(o, id, locked) {
      assert ids[i] != id;
    }
    DistinctWithin(ids, Ahead(o, id, locked));
  }

  lemma {:induction false} OldestOf(o: Outbox, candidates: set<string>) returns (oldest: string)
    requires candidates != {} && forall id :: id in candidates ==> id in o.rows
    ensures oldest in candidates
    ensures forall id :: id in candidates ==> o.rows[oldest].createdAt <= o.rows[id].createdAt
    decreases |candidates|
  {
    var first :| first in candidates;
    var rest := candidates - {first};
    oldest := first;
    if rest != {} {
      var other := OldestOf(o, rest);
      if o.rows[other].createdAt < o.rows[first].createdAt {
        oldest := other;
      }
    }
    forall id | id in candidates ensures o.rows[oldest].createdAt <= o.rows[id].createdAt {
      if id != first {
        assert id in rest;
      }
    }
  }

  lemma {:induction false} OldestFew(o: Outbox, candidates: set<string>, limit: nat) returns (ids: seq<string>)
    requires forall id :: id in candidates ==> id in o.rows
    ensures |ids| <= limit && (forall i :: 0 <= i < |ids| ==> ids[i] in candidates)
    ensures forall i, j :: 0 <= i < j < |ids| ==> ids[i] != ids[j]
    ensures forall id :: id in candidates && id !in ids ==>
              |ids| == limit && forall i :: 0 <= i < |ids| ==> o.rows[ids[i]].createdAt <= o.rows[id].createdAt
    decreases limit
  {
    if limit == 0 || candidates == {} {
      ids := [];
    } else {
      var first := OldestOf(o, candidates);
      var rest := OldestFew(o, candidates - {first}, limit - 1);
      ids := [first] + rest;
      forall id | id in candidates && id !in ids
        ensures |ids| == limit && forall i :: 0 <= i < |ids| ==> o.rows[ids[i]].createdAt <= o.rows[id].createdAt
      {
        assert ids[0] == first && id != first;
        assert id in candidates - {first};
        assert ids[1..] == rest && id !in ids[1..];
      }
    }
  }

  // An idle worker can always claim.
  lemma ClaimEnabled(o: Outbox, w: nat, limit: nat, locked: set<string>)
    requires WorkerOf(o, w).Idle?
    ensures exists ids :: Enabled(o, ClaimRows(w, limit, ids, locked))
  {
    var candidates := set id | id in o.rows && Candidate(o, id, locked);
    var ids := OldestFew(o, candidates, limit);
    assert TakesOldest(o, limit, ids, locked);
    assert Enabled(o, ClaimRows(w, limit, ids, locked));
  }

  // The claim `after` records that `id` was taken now.
  ghost predicate Takes(o: Outbox, after: Outbox, id: string) {
    exists c :: |o.claims| <= c < |after.claims| && after.claims[c] == Claim(id, o.now)
  }

  /** A claim never takes more than its limit. */
  lemma ClaimWithinLimit(o: Outbox, w: nat, limit: nat, ids: seq<string>, locked: set<string>)
    requires Enabled(o, ClaimRows(w, limit, ids, locked))
    ensures |Perform(o, ClaimRows(w, limit, ids, locked)).claims| <= |o.claims| + limit
  {
  }

  lemma ClaimTakes(o: Outbox, w: nat, limit: nat, ids: seq<string>, locked: set<string>, id: string)
    requires Enabled(o, ClaimRows(w, limit, ids, locked)) && id in ids
    ensures Takes(o, Perform(o, ClaimRows(w, limit, ids, locked)), id)
  {
    var i :| 0 <= i < |ids| && ids[i] == id;
    assert Perform(o, ClaimRows(w, limit, ids, locked)).claims[|o.claims| + i] == Claim(id, o.now);
  }

  /** No unpublished event is lost. Once the lease of whoever held it has run out, every claim takes it
      whose limit exceeds the number of claimable events as old or older, unless its row is locked at
      that moment; and an idle worker can always make a claim. */
  lemma ExpiredIsTaken(r: seq<Outbox>, i: nat, id: string, w: nat, limit: nat, locked: set<string>)
    requires Run(r) && i < |r| && id in r[i].rows && !r[i].rows[id].published && id !in locked
    requires WorkerOf(r[i], w).Idle?
    ensures var later := Perform(r[i], Tick(61));
            && (exists ids :: Enabled(later, ClaimRows(w, limit, ids, locked)))
            && (|Ahead(later, id, locked)| < limit ==>
                  forall ids :: Enabled(later, ClaimRows(w, limit, ids, locked)) ==>
                    Takes(later, Perform(later, ClaimRows(w, limit, ids, locked)), id))
  {
    RunInv(r, i);
    var later := Perform(r[i], Tick(61));
    assert Candidate(later, id, locked);
    ClaimEnabled(later, w, limit, locked);
    if |Ahead(later, id, locked)| < limit {
      forall ids | Enabled(later, ClaimRows(w, limit, ids, locked))
        ensures Takes(later, Perform(later, ClaimRows(w, limit, ids, locked)), id)
      {
        if id !in ids {
          LeftBehind(later, limit, ids, locked, id);
        }
        ClaimTakes(later, w, limit, ids, locked, id);
      }
    }
  }
}
