/** internal/httpapi/security.go: the in-memory sliding-window rate limiter. Times are integers
    (nanoseconds); the clock reading is an input. */
module RateLimiter {

  // The hits that are younger than the window at time `now`.
  function Recent(log: seq<int>, now: int, window: int): seq<int> {
    if log == [] then []
    else
      var last := log[|log| - 1];
      Recent(log[..|log| - 1], now, window) + if now - last < window then [last] else []
  }

  // One decision on one key's log.
  function AllowStep(log: seq<int>, now: int, limit: int, window: int): (seq<int>, bool) {
    var recent := Recent(log, now, window);
    if |recent| >= limit then (recent, false) else (recent + [now], true)
  }

  // A Go slice: the first `len` cells of a backing array.
  datatype Slice = Slice(buffer: array<int>, len: nat)

  class MemoryRateLimiter {
    var hits: map<string, Slice>
    const limit: int
    const window: int

    constructor (limit: int, window: int)
      ensures Valid() && hits == map[] && this.limit == limit && this.window == window
    {
      this.limit, this.window := limit, window;
      hits := map[];
    }

    // No two keys share a backing array.
    ghost predicate Valid()
      reads this
    {
      && (forall k :: k in hits ==> hits[k].len <= hits[k].buffer.Length)
      && (forall k, l :: k in hits && l in hits && k != l ==> hits[k].buffer != hits[l].buffer)
    }

    ghost function Log(key: string): seq<int>
      requires Valid()
      reads this, set k | k in hits :: hits[k].buffer
    {
      if key in hits then hits[key].buffer[..hits[key].len] else []
    }

    /** Overwrites the backing array while it is being read. The write index never passes the read
        index, so the result is the filter of the old log. */
    static method Compact(buffer: array<int>, len: nat, now: int, window: int) returns (kept: nat)
      requires len <= buffer.Length
      modifies buffer
      ensures kept <= len
      ensures buffer[..kept] == Recent(old(buffer[..len]), now, window)
    {
      kept := 0;
      for i := 0 to len
        invariant kept <= i
        invariant buffer[..kept] == Recent(old(buffer[..len])[..i], now, window)
        invariant forall j :: i <= j < len ==> buffer[j] == old(buffer[j])
      {
        var hit := buffer[i];
        ghost var was := old(buffer[..len]);
        assert was[..i + 1][..i] == was[..i] && was[..i + 1][i] == hit;
        if now - hit < window {
          buffer[kept] := hit;
          kept := kept + 1;
        }
      }
      assert old(buffer[..len])[..len] == old(buffer[..len]);
    }

    // append(slice, x): in place when the backing array has room, else into a larger copy.
    static method Append(s: Slice, x: int) returns (r: Slice)
      requires s.len <= s.buffer.Length
      modifies s.buffer
      ensures r.len == s.len + 1 <= r.buffer.Length
      ensures r.buffer == s.buffer || fresh(r.buffer)
      ensures r.buffer[..r.len] == old(s.buffer[..s.len]) + [x]
    {
      if s.len < s.buffer.Length {
        s.buffer[s.len] := x;
        return Slice(s.buffer, s.len + 1);
      }
      var larger := new int[2 * s.len + 1];
      forall i | 0 <= i < s.len {
        larger[i] := s.buffer[i];
      }
      larger[s.len] := x;
      return Slice(larger, s.len + 1);
    }

    method Allow(key: string, now: int) returns (allowed: bool)
      requires Valid()
      modifies this`hits, set k | k in hits :: hits[k].buffer
      ensures Valid()
      ensures (Log(key), allowed) == AllowStep(old(Log(key)), now, limit, window)
      ensures forall other :: other != key ==> Log(other) == old(Log(other))
    {
      var slice;
      if key in hits {
        slice := hits[key];
      } else {
        var empty := new int[0];
        slice := Slice(empty, 0);
      }
      var kept := Compact(slice.buffer, slice.len, now, window);
      var recent := Slice(slice.buffer, kept);
      if kept >= limit {
        hits := hits[key := recent];
        return false;
      }
      var longer := Append(recent, now);
      hits := hits[key := longer];
      return true;
    }
  }

  // ---------- runs: any sequence of requests for any keys ----------

  datatype Request = Request(key: string, at: int)

  function LogAfter(requests: seq<Request>, key: string, limit: int, window: int): seq<int> {
    if requests == [] then []
    else
      var last := requests[|requests| - 1];
      var before := LogAfter(requests[..|requests| - 1], key, limit, window);
      if last.key == key then AllowStep(before, last.at, limit, window).0 else before
  }

  predicate Granted(requests: seq<Request>, i: nat, limit: int, window: int)
    requires i < |requests|
  {
    AllowStep(LogAfter(requests[..i], requests[i].key, limit, window), requests[i].at, limit, window).1
  }

  // The times of the granted requests of a key, in order.
  function Grants(requests: seq<Request>, key: string, limit: int, window: int): seq<int> {
    if requests == [] then []
    else
      var n := |requests| - 1;
      Grants(requests[..n], key, limit, window)
      + if requests[n].key == key && Granted(requests, n, limit, window) then [requests[n].at] else []
  }

  predicate Monotone(requests: seq<Request>) {
    forall i, j :: 0 <= i < j < |requests| ==> requests[i].at <= requests[j].at
  }

  // The grants in the half-open interval (t - window, t].
  function Within(grants: seq<int>, t: int, window: int): seq<int> {
    if grants == [] then []
    else
      var last := grants[|grants| - 1];
      Within(grants[..|grants| - 1], t, window) + if t - window < last <= t then [last] else []
  }

  lemma RecentAppend(log: seq<int>, x: int, now: int, window: int)
    ensures Recent(log + [x], now, window) == Recent(log, now, window) + if now - x < window then [x] else []
  {
    assert (log + [x])[..|log|] == log;
  }

  lemma {:induction false} RecentTwice(log: seq<int>, now: int, later: int, window: int)
    requires now <= later
    ensures Recent(Recent(log, now, window), later, window) == Recent(log, later, window)
  {
    if log != [] {
      var rest, last := log[..|log| - 1], log[|log| - 1];
      RecentTwice(rest, now, later, window);
      if now - last < window {
        RecentAppend(Recent(rest, now, window), last, later, window);
      } else {
        assert Recent(log, now, window) == Recent(rest, now, window);
      }
    }
  }

  /** The compacted log forgets nothing that still matters: at any later time it has the same recent
      hits as the full history of grants. */
  lemma {:induction false} LogKeepsRecentGrants(requests: seq<Request>, key: string, limit: int, window: int, t: int)
    requires Monotone(requests)
    requires requests != [] ==> requests[|requests| - 1].at <= t
    ensures Recent(LogAfter(requests, key, limit, window), t, window)
            == Recent(Grants(requests, key, limit, window), t, window)
  {
    if requests != [] {
      var n := |requests| - 1;
      var before, now := requests[..n], requests[n].at;
      LogKeepsRecentGrants(before, key, limit, window, t);
      var log, grants := LogAfter(before, key, limit, window), Grants(before, key, limit, window);
      if requests[n].key == key {
        RecentTwice(log, now, t, window);
        if Granted(requests, n, limit, window) {
          RecentAppend(Recent(log, now, window), now, t, window);
          RecentAppend(grants, now, t, window);
        } else {
          assert Grants(requests, key, limit, window) == grants;
        }
      } else {
        assert Grants(requests, key, limit, window) == grants;
      }
    }
  }

  lemma {:induction false} GrantsArePast(requests: seq<Request>, key: string, limit: int, window: int, t: int)
    requires forall i :: 0 <= i < |requests| ==> requests[i].at <= t
    ensures forall g :: g in Grants(requests, key, limit, window) ==> g <= t
  {
    if requests != [] {
      var n := |requests| - 1;
      GrantsArePast(requests[..n], key, limit, window, t);
      forall g | g in Grants(requests, key, limit, window) ensures g <= t {
        assert g in Grants(requests[..n], key, limit, window) || g == requests[n].at;
      }
    }
  }

  // Of what lies in the past, the hits younger than the window are those in (now - window, now].
  lemma {:induction false} RecentIsWithin(grants: seq<int>, now: int, window: int)
    requires forall g :: g in grants ==> g <= now
    ensures Recent(grants, now, window) == Within(grants, now, window)
  {
    if grants != [] {
      var rest, last := grants[..|grants| - 1], grants[|grants| - 1];
      assert last in grants && forall g :: g in rest ==> g in grants;
      RecentIsWithin(rest, now, window);
    }
  }

  /** A request is granted exactly when fewer than `limit` grants of its key lie in the window that ends
      with it; so it is refused only when `limit` of them do. */
  lemma GrantedIff(requests: seq<Request>, i: nat, limit: int, window: int)
    requires Monotone(requests) && i < |requests|
    ensures Granted(requests, i, limit, window)
       <==> |Within(Grants(requests[..i], requests[i].key, limit, window), requests[i].at, window)| < limit
  {
    var before, now := requests[..i], requests[i].at;
    LogKeepsRecentGrants(before, requests[i].key, limit, window, now);
    GrantsArePast(before, requests[i].key, limit, window, now);
    RecentIsWithin(Grants(before, requests[i].key, limit, window), now, window);
  }

  lemma {:induction false} WithinAtMostRecent(grants: seq<int>, now: int, t: int, window: int)
    requires now <= t
    ensures |Within(grants, t, window)| <= |Recent(grants, now, window)|
  {
    if grants != [] {
      WithinAtMostRecent(grants[..|grants| - 1], now, t, window);
    }
  }

  lemma WithinAppend(grants: seq<int>, x: int, t: int, window: int)
    ensures Within(grants + [x], t, window) == Within(grants, t, window) + if t - window < x <= t then [x] else []
  {
    assert (grants + [x])[..|grants|] == grants;
  }

  /** At every instant, no key has more than `limit` grants in the window that ends there. */
  lemma {:induction false} AtMostLimitPerWindow(requests: seq<Request>, key: string, limit: int, window: int, t: int)
    requires Monotone(requests)
    ensures |Within(Grants(requests, key, limit, window), t, window)| <= if limit > 0 then limit else 0
  {
    if requests != [] {
      var n := |requests| - 1;
      var before, now := requests[..n], requests[n].at;
      var grants := Grants(before, key, limit, window);
      AtMostLimitPerWindow(before, key, limit, window, t);
      if requests[n].key == key && Granted(requests, n, limit, window) {
        WithinAppend(grants, now, t, window);
        if now <= t {
          GrantedIff(requests, n, limit, window);
          GrantsArePast(before, key, limit, window, now);
          RecentIsWithin(grants, now, window);
          WithinAtMostRecent(grants, now, t, window);
        }
      } else {
        assert Grants(requests, key, limit, window) == grants;
      }
    }
  }
}
