/** Exactly which clocks keep the rate limiter's bound on any 60 seconds. */
module RateInterval {
  import opened RateLimit

  /** Between the calls `i` and `j` the clock was in another minute than at `j`. */
  predicate Apart(h: seq<Call>, i: nat, j: nat)
    requires i < j < |h|
  {
    exists p :: i <= p < j && Window(h[p].at) != Window(h[j].at)
  }

  predicate Near(a: Call, b: Call) {
    a.at < b.at + 60 * SECOND && b.at < a.at + 60 * SECOND
  }

  /** No three calls within 60 seconds are separated twice by a change of the minute. */
  predicate TwoMinutesOnly(h: seq<Call>) {
    forall i, j, k :: 0 <= i < j < k < |h| && Apart(h, i, j) && Apart(h, j, k) ==>
      !(Near(h[i], h[j]) && Near(h[j], h[k]) && Near(h[i], h[k]))
  }

  /** Does the call count for this key and these 60 seconds? */
  predicate Hits(c: Call, key: string, from: nat) {
    c.key == key && from <= c.at < from + 60 * SECOND
  }

  /** The last call that counts, or -1. */
  function LastHit(h: seq<Call>, key: string, from: nat): (x: int)
    ensures -1 <= x < |h|
    ensures x >= 0 ==> Hits(h[x], key, from)
    ensures forall i :: x < i < |h| ==> !Hits(h[i], key, from)
  {
    if h == [] then -1
    else if Hits(h[|h| - 1], key, from) then |h| - 1
    else LastHit(h[..|h| - 1], key, from)
  }

  /** How often a call that counts is apart from the one before it. */
  function Breaks(h: seq<Call>, key: string, from: nat): nat {
    if h == [] then 0
    else
      var rest := h[..|h| - 1];
      var x := LastHit(rest, key, from);
      Breaks(rest, key, from) + if Hits(h[|h| - 1], key, from) && x >= 0 && Apart(h, x, |h| - 1) then 1 else 0
  }

  // ----- Within one minute counters rise -----

  /** The bucket of a key is in the minute of its last call, if it is still there. */
  lemma {:induction false} BucketOfLast(h: seq<Call>, key: string, y: nat)
    requires y < |h| && h[y].key == key && forall i :: y < i < |h| ==> h[i].key != key
    ensures key in Table(h) ==> Table(h)[key].window == Window(h[y].at)
  {
    hide Window;
    if y < |h| - 1 {
      BucketOfLast(h[..|h| - 1], key, y);
    }
  }

  lemma {:induction false} NoBucket(h: seq<Call>, key: string)
    requires forall i :: 0 <= i < |h| ==> h[i].key != key
    ensures key !in Table(h)
  {
    hide Window;
    if h != [] {
      NoBucket(h[..|h| - 1], key);
    }
  }

  lemma CountedNow(h: seq<Call>)
    requires h != []
    ensures var c := h[|h| - 1];
      c.key in Table(h) && Table(h)[c.key].window == Window(c.at) && Table(h)[c.key].count >= 1
  {
    hide Window;
  }

  /** While the minute does not change, a bucket of this minute stays and its count does not fall. */
  lemma {:induction false} BucketStays(h: seq<Call>, y: nat)
    requires y < |h| && forall i :: y <= i < |h| ==> Window(h[i].at) == Window(h[y].at)
    ensures var key, part := h[y].key, h[..y + 1];
      && key in Table(part) && key in Table(h) && Table(h)[key].window == Window(h[y].at)
      && Table(h)[key].count >= Table(part)[key].count
      && (y < |h| - 1 && h[|h| - 1].key == key ==> Table(h)[key].count >= Table(part)[key].count + 1)
  {
    hide Window;
    if y == |h| - 1 {
      assert h[..y + 1] == h;
      CountedNow(h);
    } else {
      var rest := h[..|h| - 1];
      BucketStays(rest, y);
      assert rest[..y + 1] == h[..y + 1];
    }
  }

  /** The count that the call at `x` got. */
  function CountAt(h: seq<Call>, x: nat): nat
    requires x < |h|
  {
    if h[x].key in Table(h[..x + 1]) then Table(h[..x + 1])[h[x].key].count else 0
  }

  lemma CountRises(h: seq<Call>, y: nat)
    requires y < |h| - 1 && !Apart(h, y, |h| - 1) && h[y].key == h[|h| - 1].key
    ensures CountAt(h, |h| - 1) >= CountAt(h, y) + 1
  {
    var x := |h| - 1;
    assert h[..x + 1] == h;
    forall i | y <= i < |h| ensures Window(h[i].at) == Window(h[y].at) {
      assert Window(h[y].at) == Window(h[x].at);
      if i < x {
        assert Window(h[i].at) == Window(h[x].at);
      }
    }
    BucketStays(h, y);
  }

  function Least(a: nat, b: nat): nat {
    if a <= b then a else b
  }

  function Current(h: seq<Call>, limit: nat, key: string, from: nat): nat {
    var x := LastHit(h, key, from);
    if x < 0 then 0 else Least(limit, CountAt(h, x))
  }

  lemma LastHitSkips(h: seq<Call>, key: string, from: nat)
    requires h != []
    ensures LastHit(h, key, from) == if Hits(h[|h| - 1], key, from) then |h| - 1 else LastHit(h[..|h| - 1], key, from)
  {
  }

  lemma CountAtPrefix(h: seq<Call>, x: nat)
    requires x < |h| - 1
    ensures CountAt(h[..|h| - 1], x) == CountAt(h, x)
  {
    assert h[..|h| - 1][..x + 1] == h[..x + 1];
  }

  lemma {:induction false} NoHits(h: seq<Call>, limit: nat, key: string, from: nat)
    requires LastHit(h, key, from) < 0
    ensures AdmittedFrom(h, limit, key, from) == 0 && Breaks(h, key, from) == 0
  {
    hide LastAdmitted;
    if h != [] {
      NoHits(h[..|h| - 1], limit, key, from);
    }
  }

  lemma HitStep(h: seq<Call>, limit: nat, key: string, from: nat)
    requires h != [] && Hits(h[|h| - 1], key, from)
    requires var rest := h[..|h| - 1];
      AdmittedFrom(rest, limit, key, from) <= Breaks(rest, key, from) * limit + Current(rest, limit, key, from)
    ensures AdmittedFrom(h, limit, key, from) <= Breaks(h, key, from) * limit + Current(h, limit, key, from)
  {
    hide Table, Apart;
    var rest, x := h[..|h| - 1], |h| - 1;
    var y := LastHit(rest, key, from);
    LastHitSkips(h, key, from);
    assert h[..x + 1] == h;
    CountedNow(h);
    if y >= 0 {
      CountAtPrefix(h, y);
      assert rest[y] == h[y];
      if Apart(h, y, x) {
        assert (Breaks(rest, key, from) + 1) * limit == Breaks(rest, key, from) * limit + limit;
      } else {
        CountRises(h, y);
      }
    }
  }

  /** Each stretch without a change of the minute admits at most the limit. */
  lemma {:induction false} BreaksBound(h: seq<Call>, limit: nat, key: string, from: nat)
    ensures AdmittedFrom(h, limit, key, from) <= Breaks(h, key, from) * limit + Current(h, limit, key, from)
  {
    hide Table, Apart, Least, LastAdmitted;
    if h != [] {
      BreaksBound(h[..|h| - 1], limit, key, from);
      if Hits(h[|h| - 1], key, from) {
        HitStep(h, limit, key, from);
      } else {
        LastHitSkips(h, key, from);
        if LastHit(h, key, from) >= 0 {
          CountAtPrefix(h, LastHit(h, key, from));
        }
      }
    }
  }

  lemma ApartPrefix(h: seq<Call>, n: nat, i: nat, j: nat)
    requires i < j < n <= |h|
    ensures Apart(h[..n], i, j) <==> Apart(h, i, j)
  {
    var g := h[..n];
    if Apart(g, i, j) {
      var p :| i <= p < j && Window(g[p].at) != Window(g[j].at);
      assert Window(h[p].at) != Window(h[j].at);
    }
    if Apart(h, i, j) {
      var p :| i <= p < j && Window(h[p].at) != Window(h[j].at);
      assert Window(g[p].at) != Window(g[j].at);
    }
  }

  /** Where there is a break, two calls that count are apart. */
  lemma {:induction false} BreakShows(h: seq<Call>, key: string, from: nat) returns (i: nat, j: nat)
    requires Breaks(h, key, from) > 0
    ensures i < j <= LastHit(h, key, from) < |h| && Hits(h[i], key, from) && Hits(h[j], key, from) && Apart(h, i, j)
  {
    hide Apart;
    var rest := h[..|h| - 1];
    LastHitSkips(h, key, from);
    if Breaks(rest, key, from) > 0 {
      i, j := BreakShows(rest, key, from);
      ApartPrefix(h, |h| - 1, i, j);
    } else {
      i, j := LastHit(rest, key, from), |h| - 1;
    }
  }

  lemma ApartEarlier(h: seq<Call>, i: nat, y: nat, j: nat)
    requires i <= y < j < |h| && Apart(h, y, j)
    ensures Apart(h, i, j)
  {
  }

  lemma PrefixTwoMinutes(h: seq<Call>)
    requires TwoMinutesOnly(h) && h != []
    ensures TwoMinutesOnly(h[..|h| - 1])
  {
    hide Apart, Near;
    var rest := h[..|h| - 1];
    forall i, j, k | 0 <= i < j < k < |rest| && Apart(rest, i, j) && Apart(rest, j, k)
      ensures !(Near(rest[i], rest[j]) && Near(rest[j], rest[k]) && Near(rest[i], rest[k]))
    {
      ApartPrefix(h, |rest|, i, j);
      ApartPrefix(h, |rest|, j, k);
    }
  }

  lemma HitsAreNear(a: Call, b: Call, key: string, from: nat)
    requires Hits(a, key, from) && Hits(b, key, from)
    ensures Near(a, b)
  {
  }

  lemma {:induction false} OneBreak(h: seq<Call>, key: string, from: nat)
    requires TwoMinutesOnly(h)
    ensures Breaks(h, key, from) <= 1
  {
    hide Apart, Near;
    if h != [] {
      var rest, x := h[..|h| - 1], |h| - 1;
      PrefixTwoMinutes(h);
      OneBreak(rest, key, from);
      var y := LastHit(rest, key, from);
      if Breaks(rest, key, from) > 0 && Hits(h[x], key, from) && y >= 0 && Apart(h, y, x) {
        var i, j := BreakShows(rest, key, from);
        ApartPrefix(h, |rest|, i, j);
        ApartEarlier(h, j, y, x);
        HitsAreNear(h[i], h[j], key, from);
        HitsAreNear(h[j], h[x], key, from);
        HitsAreNear(h[i], h[x], key, from);
      }
    }
  }

  /** No 60 seconds let through more than twice the limit, unless three calls within 60 seconds are separated twice by a
      change of the minute. */
  lemma IntervalBound(h: seq<Call>, limit: nat, key: string, from: nat)
    requires TwoMinutesOnly(h)
    ensures AdmittedFrom(h, limit, key, from) <= 2 * limit
  {
    hide TwoMinutesOnly, Breaks, AdmittedFrom, CountAt;
    BreaksBound(h, limit, key, from);
    OneBreak(h, key, from);
    assert Breaks(h, key, from) * limit <= limit;
  }

  // ----- The other clocks exceed it -----

  /** The same schedule, with one key for the marked calls and another one for the rest. */
  function Marked(h: seq<Call>, marks: set<nat>): (g: seq<Call>)
    ensures SameInstants(g, h) && forall i :: 0 <= i < |g| ==> (g[i].key == "" <==> i in marks)
  {
    seq(|h|, n requires 0 <= n < |h| => Call(if n in marks then "" else "x", h[n].at))
  }

  /** A call is let through at limit 1 if its key was not called before, or last in another minute. */
  lemma FirstAgain(g: seq<Call>, x: nat, y: int)
    requires x < |g| && g[x].key == "" && -1 <= y < x && forall i :: y < i < x ==> g[i].key != ""
    requires y >= 0 ==> g[y].key == "" && Window(g[y].at) != Window(g[x].at)
    ensures LastAdmitted(g[..x + 1], 1)
  {
    var h, rest := g[..x + 1], g[..x];
    assert h[..|h| - 1] == rest;
    hide Window;
    if y >= 0 {
      BucketOfLast(rest, "", y);
    } else {
      NoBucket(rest, "");
    }
    assert Table(h) == Bumped(Evicted(Table(rest), Window(g[x].at)), "", Window(g[x].at));
    assert Table(h)[""].count == 1;
  }

  lemma {:induction false} AdmittedGrows(g: seq<Call>, limit: nat, key: string, from: nat, n: nat, m: nat)
    requires n <= m <= |g|
    ensures AdmittedFrom(g[..n], limit, key, from) <= AdmittedFrom(g[..m], limit, key, from)
    decreases m - n
  {
    hide LastAdmitted;
    if n < m {
      AdmittedGrows(g, limit, key, from, n, m - 1);
      assert g[..m][..m - 1] == g[..m - 1];
    }
  }

  lemma AdmittedOneMore(g: seq<Call>, limit: nat, key: string, from: nat, x: nat)
    requires x < |g| && Hits(g[x], key, from) && LastAdmitted(g[..x + 1], limit)
    ensures AdmittedFrom(g[..x + 1], limit, key, from) == AdmittedFrom(g[..x], limit, key, from) + 1
  {
    assert g[..x + 1][..x] == g[..x];
  }

  lemma ThreeAdmitted(g: seq<Call>, from: nat, i: nat, j: nat, k: nat)
    requires i < j < k < |g| && Hits(g[i], "", from) && Hits(g[j], "", from) && Hits(g[k], "", from)
    requires LastAdmitted(g[..i + 1], 1) && LastAdmitted(g[..j + 1], 1) && LastAdmitted(g[..k + 1], 1)
    ensures AdmittedFrom(g, 1, "", from) >= 3
  {
    hide LastAdmitted, AdmittedFrom;
    AdmittedOneMore(g, 1, "", from, i);
    AdmittedGrows(g, 1, "", from, i + 1, j);
    AdmittedOneMore(g, 1, "", from, j);
    AdmittedGrows(g, 1, "", from, j + 1, k);
    AdmittedOneMore(g, 1, "", from, k);
    AdmittedGrows(g, 1, "", from, k + 1, |g|);
    assert g[..|g|] == g;
  }

  ghost predicate KeepsBound(h: seq<Call>) {
    forall limit: nat, key, from: nat :: AdmittedFrom(h, limit, key, from) <= 2 * limit
  }

  lemma MarkedExceed(h: seq<Call>, i: nat, p: nat, j: nat, q: nat, k: nat, from: nat)
    requires i <= p < j <= q < k < |h|
    requires Window(h[p].at) != Window(h[j].at) && Window(h[q].at) != Window(h[k].at)
    requires from <= h[i].at < from + 60 * SECOND && from <= h[j].at < from + 60 * SECOND
    requires from <= h[k].at < from + 60 * SECOND
    ensures var g := Marked(h, {i, p, j, q, k}); SameInstants(g, h) && !KeepsBound(g)
  {
    hide Window, LastAdmitted, AdmittedFrom;
    var g := Marked(h, {i, p, j, q, k});
    FirstAgain(g, i, -1);
    FirstAgain(g, j, p);
    FirstAgain(g, k, q);
    ThreeAdmitted(g, from, i, j, k);
  }

  lemma Start(a: Call, b: Call, c: Call) returns (from: nat)
    requires Near(a, b) && Near(b, c) && Near(a, c)
    ensures from <= a.at < from + 60 * SECOND && from <= b.at < from + 60 * SECOND && from <= c.at < from + 60 * SECOND
  {
    from := if a.at <= b.at && a.at <= c.at then a.at else if b.at <= c.at then b.at else c.at;
  }

  lemma ThreeApartExceed(h: seq<Call>, i: nat, j: nat, k: nat)
    requires i < j < k < |h| && Apart(h, i, j) && Apart(h, j, k)
    requires Near(h[i], h[j]) && Near(h[j], h[k]) && Near(h[i], h[k])
    ensures exists g :: SameInstants(g, h) && !KeepsBound(g)
  {
    hide Near, Window, KeepsBound;
    var p: nat :| i <= p < j && Window(h[p].at) != Window(h[j].at);
    var q: nat :| j <= q < k && Window(h[q].at) != Window(h[k].at);
    var from := Start(h[i], h[j], h[k]);
    MarkedExceed(h, i, p, j, q, k, from);
  }

  lemma SameTwoMinutes(g: seq<Call>, h: seq<Call>)
    requires SameInstants(g, h) && TwoMinutesOnly(h)
    ensures TwoMinutesOnly(g)
  {
    hide Apart;
    forall i, j, k | 0 <= i < j < k < |g| && Apart(g, i, j) && Apart(g, j, k)
      ensures !(Near(g[i], g[j]) && Near(g[j], g[k]) && Near(g[i], g[k]))
    {
      SameApart(g, h, i, j);
      SameApart(g, h, j, k);
    }
  }

  lemma SameApart(g: seq<Call>, h: seq<Call>, i: nat, j: nat)
    requires SameInstants(g, h) && i < j < |g| && Apart(g, i, j)
    ensures Apart(h, i, j)
  {
    hide Window;
    var p :| i <= p < j && Window(g[p].at) != Window(g[j].at);
    assert Window(h[p].at) != Window(h[j].at);
  }

  /** Exactly which clocks keep the bound: with this schedule no 60 seconds let through more than twice the limit,
      whatever the keys and the limit, if and only if no three calls within 60 seconds are separated twice by a change
      of the minute. */
  lemma IntervalClockIsExact(h: seq<Call>)
    ensures TwoMinutesOnly(h) <==> forall g :: SameInstants(g, h) ==> KeepsBound(g)
  {
    hide Apart, Near, AdmittedFrom;
    if TwoMinutesOnly(h) {
      forall g, limit: nat, key, from: nat | SameInstants(g, h)
        ensures AdmittedFrom(g, limit, key, from) <= 2 * limit
      {
        SameTwoMinutes(g, h);
        IntervalBound(g, limit, key, from);
      }
    } else {
      var i: nat, j: nat, k: nat :| 0 <= i < j < k < |h| && Apart(h, i, j) && Apart(h, j, k)
                     && Near(h[i], h[j]) && Near(h[j], h[k]) && Near(h[i], h[k]);
      ThreeApartExceed(h, i, j, k);
    }
  }

  lemma WindowsNear(a: nat, b: nat)
    requires a < b + 60 * SECOND && b < a + 60 * SECOND
    ensures Window(a) <= Window(b) + 1 && Window(b) <= Window(a) + 1
  {
  }

  /** A clock that does not return to a minute it has left is among them. */
  lemma NeverReturnsSuffices(h: seq<Call>)
    requires NeverReturns(h)
    ensures TwoMinutesOnly(h)
  {
    hide NeverReturns, Apart, Window;
    forall i, j, k | 0 <= i < j < k < |h| && Apart(h, i, j) && Apart(h, j, k)
      ensures !(Near(h[i], h[j]) && Near(h[j], h[k]) && Near(h[i], h[k]))
    {
      if Near(h[i], h[j]) && Near(h[j], h[k]) && Near(h[i], h[k]) {
        WindowsNear(h[i].at, h[j].at);
        WindowsNear(h[j].at, h[k].at);
        WindowsNear(h[i].at, h[k].at);
        ThreeMinutes(h, i, j, k);
      }
    }
  }

  lemma ThreeMinutes(h: seq<Call>, i: nat, j: nat, k: nat)
    requires NeverReturns(h) && i < j < k < |h| && Apart(h, i, j) && Apart(h, j, k)
    ensures Window(h[i].at) != Window(h[j].at) && Window(h[j].at) != Window(h[k].at)
    ensures Window(h[i].at) != Window(h[k].at)
  {
    hide Apart, Window;
    ApartIsOther(h, i, j);
    ApartIsOther(h, j, k);
  }

  lemma ApartIsOther(h: seq<Call>, i: nat, j: nat)
    requires NeverReturns(h) && i < j < |h| && Apart(h, i, j)
    ensures Window(h[i].at) != Window(h[j].at)
  {
    hide Window;
  }
}
