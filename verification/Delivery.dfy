/** internal/service/outbox.go: OutboxWorker.Deliver over the in-memory store. The publisher is an
    oracle that accepts or fails each of the calls made to it in turn. */
module Delivery {
  import opened Domain
  import opened MemoryStores
  import S = StoreSpec

  ghost predicate KeyedById(outbox: map<string, OutboxEvent>) {
    forall k :: k in outbox ==> outbox[k].id == k
  }

  lemma ExecuteKeepsKeys(s: S.State, op: S.Operation)
    ensures var s' := S.Execute(s, op);
            || s'.outbox == s.outbox
            || (exists e: OutboxEvent :: s'.outbox == s.outbox[e.id := e])
            || (op.DoMarkPublished? && op.id in s.outbox
                && s'.outbox == s.outbox[op.id := s.outbox[op.id].(published := true)])
  {
    match op
    case DoCommit(cmd) =>
      var s' := S.Execute(s, op);
      if s'.outbox != s.outbox {
        var e := s'.outbox[cmd.event.id];
        assert s'.outbox == s.outbox[e.id := e];
      }
    case _ =>
  }

  /** Whatever operations the store performs, events sit under their own ids. */
  lemma {:induction false} StoreKeysEventsById(ops: seq<S.Operation>)
    ensures KeyedById(S.ExecuteAll(ops).outbox)
  {
    if ops != [] {
      StoreKeysEventsById(ops[..|ops| - 1]);
      ExecuteKeepsKeys(S.ExecuteAll(ops[..|ops| - 1]), ops[|ops| - 1]);
    }
  }

  // The outbox with the events `ids` marked published.
  function Marked(outbox: map<string, OutboxEvent>, ids: seq<string>): map<string, OutboxEvent> {
    map k | k in outbox :: if k in ids then outbox[k].(published := true) else outbox[k]
  }

  lemma MarkNext(outbox: map<string, OutboxEvent>, ids: seq<string>, i: nat)
    requires i < |ids| && ids[i] in outbox
    ensures var before := Marked(outbox, ids[..i]);
            Marked(outbox, ids[..i + 1]) == before[ids[i] := before[ids[i]].(published := true)]
  {
    assert ids[..i + 1] == ids[..i] + [ids[i]];
  }

  function Ids(events: seq<OutboxEvent>): seq<string> {
    seq(|events|, i requires 0 <= i < |events| => events[i].id)
  }

  // The publisher accepts its first `n` calls.
  ghost predicate AcceptsFirst(accepts: nat -> bool, n: nat) {
    forall i: nat :: i < n ==> accepts(i)
  }

  lemma AcceptsNext(accepts: nat -> bool, n: nat)
    requires AcceptsFirst(accepts, n) && accepts(n)
    ensures AcceptsFirst(accepts, n + 1)
  {
  }

  // A round in which nothing fails: what was claimed is what was marked.
  ghost predicate Round(outbox: map<string, OutboxEvent>, outbox': map<string, OutboxEvent>, n: int) {
    exists ids, claimed :: LegalClaim(outbox, n, ids, claimed) && outbox' == Marked(outbox, ids)
  }

  class OutboxWorker {
    const store: MemoryStore

    constructor (store: MemoryStore)
      ensures this.store == store
    {
      this.store := store;
    }

    /** Publishes the claimed events in order and marks each after it was accepted. The first
        failure ends the round: exactly the events before it are marked. */
    method Deliver(batchSize: int, accepts: nat -> bool)
      returns (r: Result<()>, ghost claimed: seq<OutboxEvent>, ghost marked: nat)
      requires batchSize >= 0 && KeyedById(store.outbox)
      modifies store
      ensures LegalClaim(old(store.outbox), batchSize, Ids(claimed), claimed)
      ensures marked <= |claimed| && AcceptsFirst(accepts, marked)
      ensures if marked == |claimed| then r.Ok? else r == Err(PublishFailed) && !accepts(marked)
      ensures store.Contents() == old(store.Contents()).(outbox := Marked(old(store.outbox), Ids(claimed)[..marked]))
      ensures r.Ok? ==> Round(old(store.outbox), store.outbox, batchSize)
    {
      ghost var before := store.outbox;
      var events := store.ClaimOutbox(batchSize);
      ghost var ids: seq<string> :| LegalClaim(before, batchSize, ids, events);
      assert ids == Ids(events);
      claimed, marked := events, 0;
      assert Marked(before, ids[..0]) == before;
      for i := 0 to |events|
        invariant marked == i && claimed == events
        invariant AcceptsFirst(accepts, i)
        invariant store.outbox == Marked(before, ids[..i])
        invariant store.Contents() == old(store.Contents()).(outbox := store.outbox)
      {
        var event := events[i];
        if !accepts(i) {
          return Err(PublishFailed), claimed, marked;
        }
        AcceptsNext(accepts, i);
        MarkNext(before, ids, i);
        var done := store.MarkPublished(event.id);
        if done.Err? {
          return done, claimed, marked;
        }
        marked := i + 1;
      }
      assert ids[..|events|] == ids;
      assert Round(before, store.outbox, batchSize);
      return Ok(()), claimed, marked;
    }

    /** The worker's polling loop while the publisher accepts everything: each round leaves the batch
        size fewer events unpublished, or none. */
    method Poll(batchSize: int, rounds: nat)
      requires batchSize >= 1 && KeyedById(store.outbox)
      modifies store
      ensures |S.Unpublished(store.outbox)| == Max(|S.Unpublished(old(store.outbox))| - rounds * batchSize, 0)
      ensures store.Contents() == old(store.Contents()).(outbox := store.outbox)
      ensures store.outbox.Keys == old(store.outbox.Keys)
    {
      ghost var states := [store.outbox];
      for i := 0 to rounds
        invariant |states| == i + 1 && states[0] == old(store.outbox) && states[i] == store.outbox
        invariant forall j :: 0 <= j < |states| - 1 ==> Round(states[j], states[j + 1], batchSize)
        invariant KeyedById(store.outbox) && store.outbox.Keys == old(store.outbox.Keys)
        invariant store.Contents() == old(store.Contents()).(outbox := store.outbox)
      {
        var r, claimed, marked := Deliver(batchSize, (n: nat) => true);
        states := states + [store.outbox];
      }
      RoundsDrain(states, batchSize, rounds);
    }
  }

  // ---------- draining a backlog ----------

  function Max(a: int, b: int): int {
    if a < b then b else a
  }

  lemma {:induction false} DistinctCount(ids: seq<string>)
    requires forall i, j :: 0 <= i < j < |ids| ==> ids[i] != ids[j]
    ensures |(set k | k in ids)| == |ids|
  {
    if ids != [] {
      var rest := ids[..|ids| - 1];
      DistinctCount(rest);
      assert (set k | k in ids) == (set k | k in rest) + {ids[|ids| - 1]};
    }
  }

  lemma ClaimTakes(outbox: map<string, OutboxEvent>, n: int, ids: seq<string>, claimed: seq<OutboxEvent>)
    requires n >= 1 && LegalClaim(outbox, n, ids, claimed)
    ensures var taken := set k | k in ids;
            && taken <= S.Unpublished(outbox) && |taken| == |ids| <= n
            && (|ids| == n || taken == S.Unpublished(outbox))
  {
    DistinctCount(ids);
  }

  lemma MarkedUnpublished(outbox: map<string, OutboxEvent>, ids: seq<string>)
    ensures S.Unpublished(Marked(outbox, ids)) == S.Unpublished(outbox) - set k | k in ids
  {
  }

  /** A round publishes exactly `n` events, or all there are. */
  lemma RoundPublishes(outbox: map<string, OutboxEvent>, outbox': map<string, OutboxEvent>, n: int)
    requires n >= 1 && Round(outbox, outbox', n)
    ensures |S.Unpublished(outbox')| == Max(|S.Unpublished(outbox)| - n, 0)
  {
    var ids, claimed :| LegalClaim(outbox, n, ids, claimed) && outbox' == Marked(outbox, ids);
    ClaimTakes(outbox, n, ids, claimed);
    MarkedUnpublished(outbox, ids);
  }

  lemma {:induction false} RoundsDrain(states: seq<map<string, OutboxEvent>>, n: int, k: nat)
    requires n >= 1 && k < |states|
    requires forall i :: 0 <= i < |states| - 1 ==> Round(states[i], states[i + 1], n)
    ensures |S.Unpublished(states[k])| == Max(|S.Unpublished(states[0])| - k * n, 0)
    decreases k
  {
    if k > 0 {
      RoundsDrain(states, n, k - 1);
      assert Round(states[k - 1], states[k - 1 + 1], n);
      RoundPublishes(states[k - 1], states[k], n);
      assert (k - 1) * n + n == k * n;
    }
  }

  /** A backlog of U events needs exactly U / n rounds, rounded up: then nothing is left, and one
      round earlier something still was. */
  lemma BacklogNeedsExactlyThisMany(states: seq<map<string, OutboxEvent>>, n: int)
    requires n >= 1 && |states| > 0
    requires forall i :: 0 <= i < |states| - 1 ==> Round(states[i], states[i + 1], n)
    ensures var backlog := |S.Unpublished(states[0])|; var needed := (backlog + n - 1) / n;
            && (needed < |states| ==> S.Unpublished(states[needed]) == {})
            && (0 < needed <= |states| ==> S.Unpublished(states[needed - 1]) != {})
  {
    var backlog := |S.Unpublished(states[0])|;
    var needed := (backlog + n - 1) / n;
    CeilingBounds(backlog, n);
    if needed < |states| {
      RoundsDrain(states, n, needed);
    }
    if 0 < needed <= |states| {
      RoundsDrain(states, n, needed - 1);
    }
  }

  lemma CeilingBounds(u: nat, n: int)
    requires n >= 1
    ensures var q := (u + n - 1) / n; q >= 0 && q * n >= u && (q > 0 ==> (q - 1) * n < u)
  {
    var q := (u + n - 1) / n;
    assert u + n - 1 == q * n + (u + n - 1) % n;
    assert (q - 1) * n == q * n - n;
  }
}
