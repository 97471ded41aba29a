/** The in-memory rate limiter: a counter per key for the current minute, with a bulk eviction of old counters, against
    the plain reading of "so many calls per minute". */
module RateLimit {

  const SECOND := 1_000_000_000   // in nanoseconds
  const MINUTE := 60 * SECOND
  const EVICT_FROM := 512

  datatype Bucket = Bucket(window: nat, count: nat)

  datatype Call = Call(key: string, at: nat)

  /** The minute an instant falls into. */
  function Window(at: nat): nat {
    at / MINUTE
  }

  /** The minutes follow each other without a gap, 60 seconds each. */
  lemma WindowIsMinute(at: nat, m: nat)
    ensures Window(at) == m <==> 60 * SECOND * m <= at < 60 * SECOND * (m + 1)
  {
  }

  // ----- The plain reading -----

  /** The number of calls with this key in this minute. */
  function CallsIn(h: seq<Call>, key: string, w: nat): nat {
    if h == [] then 0
    else
      var c := h[|h| - 1];
      CallsIn(h[..|h| - 1], key, w) + if c.key == key && Window(c.at) == w then 1 else 0
  }

  function KeysIn(h: seq<Call>, w: nat): set<string> {
    if h == [] then {}
    else
      var c := h[|h| - 1];
      KeysIn(h[..|h| - 1], w) + if Window(c.at) == w then {c.key} else {}
  }

  /** The clock never returns to a minute it has left; within a minute it may do as it likes. */
  predicate NeverReturns(h: seq<Call>) {
    forall i, j, k :: 0 <= i < j < k < |h| && Window(h[i].at) == Window(h[k].at) ==> Window(h[j].at) == Window(h[i].at)
  }

  /** The minutes do not go back. */
  predicate Ordered(h: seq<Call>) {
    forall i, j :: 0 <= i < j < |h| ==> Window(h[i].at) <= Window(h[j].at)
  }

  function Now(h: seq<Call>): nat {
    if h == [] then 0 else Window(h[|h| - 1].at)
  }

  // ----- The table -----

  function Evicted(local: map<string, Bucket>, now: nat): map<string, Bucket> {
    if |local| < EVICT_FROM then local
    else map k | k in local && local[k].window >= now :: local[k]
  }

  function Bumped(local: map<string, Bucket>, key: string, now: nat): map<string, Bucket> {
    var count := if key in local && local[key].window == now then local[key].count else 0;
    local[key := Bucket(now, count + 1)]
  }

  /** The table after a history of calls. */
  function Table(h: seq<Call>): map<string, Bucket> {
    if h == [] then map[]
    else
      var c := h[|h| - 1];
      Bumped(Evicted(Table(h[..|h| - 1]), Window(c.at)), c.key, Window(c.at))
  }

  /** The table knows the count of every key that was called in the current minute, and every entry stems from a
      call. */
  ghost predicate Tracks(local: map<string, Bucket>, h: seq<Call>) {
    && (forall k :: k in local ==> CallsIn(h, k, local[k].window) > 0)
    && (forall k :: k in local && local[k].window == Now(h) ==> local[k].count == CallsIn(h, k, Now(h)))
    && (forall k :: CallsIn(h, k, Now(h)) > 0 ==> k in local && local[k].window == Now(h))
  }

  lemma {:induction false} CallsCome(h: seq<Call>, key: string, w: nat)
    ensures CallsIn(h, key, w) > 0 <==> exists i :: 0 <= i < |h| && h[i].key == key && Window(h[i].at) == w
  {
    if h != [] {
      var rest, c := h[..|h| - 1], h[|h| - 1];
      CallsCome(rest, key, w);
      assert forall i :: 0 <= i < |rest| ==> h[i] == rest[i];
      if i :| 0 <= i < |h| && h[i].key == key && Window(h[i].at) == w {
        assert i == |h| - 1 || rest[i] == h[i];
      }
    }
  }

  lemma {:induction false} CallersAreKeys(h: seq<Call>, key: string, w: nat)
    ensures CallsIn(h, key, w) > 0 <==> key in KeysIn(h, w)
  {
    if h != [] {
      CallersAreKeys(h[..|h| - 1], key, w);
    }
  }

  lemma NewMinuteIsNew(h: seq<Call>, key: string)
    requires NeverReturns(h) && h != [] && Now(h[..|h| - 1]) != Now(h)
    ensures CallsIn(h[..|h| - 1], key, Now(h)) == 0
  {
    var rest := h[..|h| - 1];
    CallsCome(rest, key, Now(h));
    forall i | 0 <= i < |rest| ensures Window(rest[i].at) != Now(h) {
      assert h[i] == rest[i] && h[|h| - 2] == rest[|rest| - 1];
    }
  }

  lemma {:induction false} TableTracks(h: seq<Call>)
    requires NeverReturns(h)
    ensures Tracks(Table(h), h)
  {
    if h != [] {
      var rest, c := h[..|h| - 1], h[|h| - 1];
      assert forall i :: 0 <= i < |rest| ==> rest[i] == h[i];
      TableTracks(rest);
      var now := Window(c.at);
      var local := Evicted(Table(rest), now);
      forall k | k in local && local[k].window == now ensures local[k].count == CallsIn(rest, k, now) {
        if Now(rest) != now {
          NewMinuteIsNew(h, k);
        }
      }
      forall k | CallsIn(rest, k, now) > 0 ensures k in local && local[k].window == now {
        if Now(rest) != now {
          NewMinuteIsNew(h, k);
        }
      }
      assert Table(h) == Bumped(local, c.key, now);
      StillTracks(rest, c, local);
      assert h == rest + [c];
    }
  }

  lemma CallsAppend(h: seq<Call>, c: Call, key: string, w: nat)
    ensures CallsIn(h + [c], key, w) == CallsIn(h, key, w) + if c.key == key && Window(c.at) == w then 1 else 0
  {
    assert (h + [c])[..|h|] == h;
  }

  lemma StillTracks(h: seq<Call>, c: Call, local: map<string, Bucket>)
    requires forall k :: k in local ==> CallsIn(h, k, local[k].window) > 0
    requires forall k :: k in local && local[k].window == Window(c.at) ==> local[k].count == CallsIn(h, k, Window(c.at))
    requires forall k :: CallsIn(h, k, Window(c.at)) > 0 ==> k in local && local[k].window == Window(c.at)
    ensures Tracks(Bumped(local, c.key, Window(c.at)), h + [c])
  {
    hide CallsIn;
    forall k, w ensures CallsIn(h + [c], k, w) == CallsIn(h, k, w) + if c.key == k && Window(c.at) == w then 1 else 0 {
      CallsAppend(h, c, k, w);
    }
  }

  lemma TableAppend(h: seq<Call>, c: Call)
    ensures Table(h + [c]) == Bumped(Evicted(Table(h), Window(c.at)), c.key, Window(c.at))
  {
    hide Evicted, Bumped, Window;
    var g := h + [c];
    assert g[..|g| - 1] == h && g[|g| - 1] == c;
  }

  /** The counter just written says how many calls with that key there have been so far in the current minute. */
  predicate Exact(h: seq<Call>)
    requires h != []
  {
    var c := h[|h| - 1];
    c.key in Table(h) && Table(h)[c.key].count == CallsIn(h, c.key, Window(c.at))
  }

  /** Eviction is invisible: as long as the clock does not return to a minute it has left, every counter is exact. */
  lemma CounterIsExact(h: seq<Call>)
    requires NeverReturns(h) && h != []
    ensures Exact(h)
  {
    TableTracks(h);
  }

  lemma SmallerSet(a: set<string>, b: set<string>)
    requires a <= b
    ensures |a| <= |b|
  {
    assert b == a + (b - a);
  }

  lemma {:induction false} NothingAhead(h: seq<Call>, k: string)
    requires Ordered(h) && k in Table(h)
    ensures Table(h)[k].window <= Now(h)
  {
    var rest, c := h[..|h| - 1], h[|h| - 1];
    assert forall i :: 0 <= i < |rest| ==> rest[i] == h[i];
    if k != c.key {
      NothingAhead(rest, k);
    }
  }

  lemma OrderedNeverReturns(h: seq<Call>)
    requires Ordered(h)
    ensures NeverReturns(h)
  {
    forall i, j, k | 0 <= i < j < k < |h| && Window(h[i].at) == Window(h[k].at)
      ensures Window(h[j].at) == Window(h[i].at)
    {
      assert Window(h[i].at) <= Window(h[j].at) <= Window(h[k].at);
    }
  }

  /** While the minutes do not go back, the table never holds more than 512 keys, or more than the keys called this
      minute. */
  lemma {:induction false} TableStaysSmall(h: seq<Call>)
    requires Ordered(h)
    ensures |Table(h)| <= 512 || |Table(h)| <= |KeysIn(h, Now(h))|
  {
    if h != [] {
      var rest, c := h[..|h| - 1], h[|h| - 1];
      var now := Window(c.at);
      var prior, local := Table(rest), Evicted(Table(rest), now);
      if |prior| < EVICT_FROM {
        assert Table(h).Keys == prior.Keys + {c.key};
      } else {
        OrderedNeverReturns(h);
        TableTracks(h);
        forall k | k in Table(h) ensures k in KeysIn(h, now) {
          NothingAhead(h, k);
          assert Table(h)[k].window == now;
          CallersAreKeys(h, k, now);
        }
        SmallerSet(Table(h).Keys, KeysIn(h, now));
      }
    }
  }

  // ----- Which clocks lose counts -----

  /** The same schedule, with other keys perhaps. */
  predicate SameInstants(g: seq<Call>, h: seq<Call>) {
    |g| == |h| && forall i :: 0 <= i < |g| ==> g[i].at == h[i].at
  }

  /** Every call of the history was counted exactly. */
  ghost predicate AlwaysExact(h: seq<Call>) {
    forall p :: 0 < p <= |h| ==> Exact(h[..p])
  }

  lemma LastIsCurrent(h: seq<Call>)
    requires h != []
    ensures h[|h| - 1].key in Table(h) && Table(h)[h[|h| - 1].key].window == Now(h)
  {
  }

  /** A key that comes back to a minute after a call in another one is counted from one again. */
  lemma ReturnForgets(h: seq<Call>, i: nat)
    requires i < |h| - 2 && h[i].key == h[|h| - 2].key == h[|h| - 1].key
    requires Window(h[i].at) == Window(h[|h| - 1].at) != Window(h[|h| - 2].at)
    ensures !Exact(h)
  {
    var rest, c := h[..|h| - 1], h[|h| - 1];
    LastIsCurrent(rest);
    assert rest[i] == h[i];
    CallsCome(rest, c.key, Window(c.at));
    assert Table(h)[c.key].count == 1;
  }

  lemma {:induction false} FirstReturn(h: seq<Call>, i: nat, j: nat, k: nat) returns (p: nat)
    requires i < j < k < |h| && Window(h[i].at) == Window(h[k].at) != Window(h[j].at)
    ensures i < p - 1 < p < |h| && Window(h[p].at) == Window(h[i].at) != Window(h[p - 1].at)
    decreases k - j
  {
    if Window(h[j + 1].at) == Window(h[i].at) {
      p := j + 1;
    } else {
      p := FirstReturn(h, i, j + 1, k);
    }
  }

  /** The same schedule with one key for all calls. */
  function OneKey(h: seq<Call>): (g: seq<Call>)
    ensures SameInstants(g, h) && forall i :: 0 <= i < |g| ==> g[i].key == ""
  {
    seq(|h|, n requires 0 <= n < |h| => Call("", h[n].at))
  }

  lemma ReturnIsNoticed(h: seq<Call>, g: seq<Call>, i: nat, j: nat, k: nat)
    requires SameInstants(g, h) && forall m :: 0 <= m < |g| ==> g[m].key == ""
    requires i < j < k < |h| && Window(h[i].at) == Window(h[k].at) != Window(h[j].at)
    ensures !AlwaysExact(g)
  {
    hide Exact, Window;
    var p := FirstReturn(h, i, j, k);
    var part := g[..p + 1];
    assert part[i] == g[i] && part[p - 1] == g[p - 1] && part[p] == g[p];
    ReturnForgets(part, i);
  }

  /** Exactly which clocks lose counts: with this schedule of instants every call is counted exactly, whatever the keys,
      if and only if the clock never returns to a minute it has left. */
  lemma ClockIsExact(h: seq<Call>)
    ensures NeverReturns(h) <==> forall g :: SameInstants(g, h) ==> AlwaysExact(g)
  {
    hide Window, Exact;
    if NeverReturns(h) {
      forall g, p | SameInstants(g, h) && 0 < p <= |g| ensures Exact(g[..p]) {
        CounterIsExact(g[..p]);
      }
    } else {
      var i, j, k :| 0 <= i < j < k < |h| && Window(h[i].at) == Window(h[k].at) && Window(h[j].at) != Window(h[i].at);
      var g := OneKey(h);
      ReturnIsNoticed(h, g, i, j, k);
    }
  }

  // ----- Admissions -----

  /** Was the last call of the history let through? The counter in the table decides. */
  predicate LastAdmitted(h: seq<Call>, limit: nat)
    requires h != []
  {
    var key := h[|h| - 1].key;
    key in Table(h) && Table(h)[key].count <= limit
  }

  /** The number of calls of this key that were let through in this minute. */
  function AdmittedIn(h: seq<Call>, limit: nat, key: string, w: nat): nat {
    if h == [] then 0
    else
      var c := h[|h| - 1];
      AdmittedIn(h[..|h| - 1], limit, key, w)
      + if c.key == key && Window(c.at) == w && LastAdmitted(h, limit) then 1 else 0
  }

  /** The number of calls of this key that were let through in the 60 seconds from `from`. */
  function AdmittedFrom(h: seq<Call>, limit: nat, key: string, from: nat): nat {
    if h == [] then 0
    else
      var c := h[|h| - 1];
      AdmittedFrom(h[..|h| - 1], limit, key, from)
      + if c.key == key && from <= c.at < from + 60 * SECOND && LastAdmitted(h, limit) then 1 else 0
  }

  function Quota(h: seq<Call>, limit: nat, key: string, w: nat): nat {
    if CallsIn(h, key, w) <= limit then CallsIn(h, key, w) else limit
  }

  /** As long as the clock does not return to a minute it has left, a key gets in each minute exactly its limit, or all
      its calls if they are fewer. */
  lemma {:induction false} QuotaIsExact(h: seq<Call>, limit: nat, key: string, w: nat)
    requires NeverReturns(h)
    ensures AdmittedIn(h, limit, key, w) == Quota(h, limit, key, w)
  {
    hide NeverReturns, Table, Window;
    if h != [] {
      PrefixNeverReturns(h, |h| - 1);
      QuotaIsExact(h[..|h| - 1], limit, key, w);
      CounterIsExact(h);
    }
  }

  lemma PrefixNeverReturns(h: seq<Call>, p: nat)
    requires NeverReturns(h) && p <= |h|
    ensures NeverReturns(h[..p])
  {
    hide Window;
  }

  // ----- Which clocks keep the quota -----

  ghost predicate KeepsQuota(h: seq<Call>) {
    forall limit, key, w :: AdmittedIn(h, limit, key, w) == Quota(h, limit, key, w)
  }

  predicate SameKeys(h: seq<Call>) {
    forall i :: 0 <= i < |h| ==> h[i].key == ""
  }

  /** The call at `p` is the first one, or the one before it was in another minute. */
  predicate Fresh(h: seq<Call>, p: nat)
    requires p < |h|
  {
    p == 0 || Window(h[p - 1].at) != Window(h[p].at)
  }

  lemma FreshIsAdmitted(h: seq<Call>)
    requires SameKeys(h) && h != [] && Fresh(h, |h| - 1)
    ensures LastAdmitted(h, 1)
  {
    var rest := h[..|h| - 1];
    if rest == [] {
      assert Table(rest) == map[];
    } else {
      LastIsCurrent(rest);
    }
    assert Table(h)[""].count == 1;
  }

  /** The first call of the minute that `i` is in. */
  lemma {:induction false} FirstInMinute(h: seq<Call>, i: nat) returns (j: nat)
    requires i < |h|
    ensures j <= i && Window(h[j].at) == Window(h[i].at) && Fresh(h, j)
  {
    if Fresh(h, i) {
      j := i;
    } else {
      j := FirstInMinute(h, i - 1);
    }
  }

  lemma {:induction false} FreshCounts(h: seq<Call>, p: nat)
    requires SameKeys(h) && p < |h| && Fresh(h, p)
    ensures AdmittedIn(h, 1, "", Window(h[p].at)) >= 1 && CallsIn(h, "", Window(h[p].at)) >= 1
  {
    hide LastAdmitted, Window;
    var rest := h[..|h| - 1];
    if p == |h| - 1 {
      FreshIsAdmitted(h);
    } else {
      FreshCounts(rest, p);
    }
  }

  lemma {:induction false} FreshCountsTwice(h: seq<Call>, j: nat, p: nat)
    requires SameKeys(h) && j < p < |h| && Fresh(h, j) && Fresh(h, p) && Window(h[j].at) == Window(h[p].at)
    ensures AdmittedIn(h, 1, "", Window(h[p].at)) >= 2 && CallsIn(h, "", Window(h[p].at)) >= 2
  {
    hide LastAdmitted, Window;
    var rest := h[..|h| - 1];
    if p == |h| - 1 {
      FreshIsAdmitted(h);
      FreshCounts(rest, j);
    } else {
      FreshCountsTwice(rest, j, p);
    }
  }

  lemma ReturnExceedsQuota(g: seq<Call>, i: nat, j: nat, k: nat)
    requires SameKeys(g) && i < j < k < |g| && Window(g[i].at) == Window(g[k].at) != Window(g[j].at)
    ensures !KeepsQuota(g)
  {
    hide Window, AdmittedIn, CallsIn;
    var p := FirstReturn(g, i, j, k);
    var first := FirstInMinute(g, i);
    FreshCountsTwice(g, first, p);
    assert AdmittedIn(g, 1, "", Window(g[p].at)) != Quota(g, 1, "", Window(g[p].at));
  }

  /** Exactly which clocks keep the quota: with this schedule every key gets its quota in every minute, whatever the
      keys and the limit, if and only if the clock never returns to a minute it has left. */
  lemma QuotaClockIsExact(h: seq<Call>)
    ensures NeverReturns(h) <==> forall g :: SameInstants(g, h) ==> KeepsQuota(g)
  {
    hide Window, AdmittedIn, CallsIn;
    if NeverReturns(h) {
      forall g, limit, key, w | SameInstants(g, h) ensures AdmittedIn(g, limit, key, w) == Quota(g, limit, key, w) {
        QuotaIsExact(g, limit, key, w);
      }
    } else {
      var i, j, k :| 0 <= i < j < k < |h| && Window(h[i].at) == Window(h[k].at) && Window(h[j].at) != Window(h[i].at);
      ReturnExceedsQuota(OneKey(h), i, j, k);
    }
  }

  // ----- The limiter -----

  class Limiter {
    const limit: nat
    var local: map<string, Bucket>
    ghost var history: seq<Call>

    constructor (limit: nat)
      ensures Valid() && history == [] && this.limit == limit
    {
      this.limit := limit;
      local, history := map[], [];
    }

    ghost predicate Valid()
      reads this
    {
      local == Table(history)
    }

    /** Drop the counters of earlier minutes, once there are 512. */
    method CleanupLocal(now: nat)
      modifies this`local
      ensures local == Evicted(old(local), now)
      ensures |old(local)| < 512 ==> local == old(local)
      ensures |old(local)| >= 512 ==>
        && (forall k :: k in local <==> k in old(local) && old(local)[k].window >= now)
        && (forall k :: k in local ==> local[k] == old(local)[k])
    {
      if |local| < EVICT_FROM {
        return;
      }
      ghost var before := local;
      var todo := local.Keys;
      while todo != {}
        invariant local.Keys <= before.Keys && todo <= local.Keys
        invariant forall k :: k in local ==> local[k] == before[k]
        invariant forall k :: k in before && (k in todo || before[k].window >= now) ==> k in local
        invariant forall k :: k in local && k !in todo ==> before[k].window >= now
        decreases todo
      {
        var key :| key in todo;
        todo := todo - {key};
        if local[key].window < now {
          local := local - {key};
        }
      }
    }

    /** Count a call: exactly, unless the clock has returned to a minute it had left. */
    method IncrementLocal(key: string, at: nat) returns (count: nat)
      requires Valid()
      modifies this
      ensures Valid() && history == old(history) + [Call(key, at)]
      ensures key in local && count == local[key].count
      ensures NeverReturns(history) ==> count == CallsIn(history, key, Window(at))
      ensures Ordered(history) ==> |local| <= 512 || |local| <= |KeysIn(history, Window(at))|
    {
      hide Table, CallsIn, KeysIn, Ordered, NeverReturns;
      TableAppend(history, Call(key, at));
      var now := Window(at);
      CleanupLocal(now);
      var value := if key in local then local[key] else Bucket(0, 0);
      if key !in local || value.window != now {
        value := Bucket(now, 0);
      }
      value := value.(count := value.count + 1);
      local := local[key := value];
      count := value.count;
      history := history + [Call(key, at)];
      if NeverReturns(history) {
        CounterIsExact(history);
      }
      if Ordered(history) {
        TableStaysSmall(history);
      }
    }

    /** The admission test. */
    method Admit(key: string, at: nat) returns (admitted: bool, remaining: nat)
      requires Valid()
      modifies this
      ensures Valid() && history == old(history) + [Call(key, at)]
      ensures admitted <==> LastAdmitted(history, limit)
      ensures key in local && remaining == if admitted then limit - local[key].count else 0
      ensures NeverReturns(history) ==> local[key].count == CallsIn(history, key, Window(at))
    {
      var count := IncrementLocal(key, at);
      admitted := count <= limit;
      remaining := if limit >= count then limit - count else 0;
    }
  }
}
