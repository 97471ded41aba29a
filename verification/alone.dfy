/** Requests that run alone, one after the other: what the service methods do, told as runs of the system. */
module Alone {
  import opened Text
  import opened Model
  import opened Store
  import opened Planning
  import opened Protocol
  import opened Laws
  import opened Lives
  import opened Safety
  import opened Consistency

  // ----- One request -----

  /** The events by which a request reads all it needs. */
  function Reads(n: nat, req: Request): seq<Event> {
    [Start(n, req), ReadPrimary(n), ReadLink(n), CountClaims(n), ReadSecond(n)]
  }

  /** All the events of one request, with nothing in between. */
  function Solo(n: nat, req: Request, id: nat): seq<Event> {
    Reads(n, req) + [Commit(n, id, true)]
  }

  ghost function Served(t: Tables, req: Request, id: nat): Tables {
    var r := Serve(t, req, id);
    if r.Ok? then r.value else t
  }

  lemma FetchesObserve(t: Tables, n: nat, req: Request)
    ensures var own := Fetch(t, Begun(req), ReadPrimary(n));
      Fetch(t, Fetch(t, Fetch(t, own, ReadLink(n)), CountClaims(n)), ReadSecond(n)) == Observe(t, req)
  {
    hide FindByCode, Unclaimed, Find;
  }

  lemma FetchNext(s: System, e: Event)
    requires e.ReadPrimary? || e.ReadLink? || e.CountClaims? || e.ReadSecond?
    requires e.n in s.flights
    ensures Next(s, e) == System(s.db, s.flights[e.n := Fetch(s.db, s.flights[e.n], e)])
  {
  }

  lemma ReadsNext(s: System, n: nat, req: Request)
    requires n !in s.flights && Bound(req)
    ensures var s1 := Next(s, Start(n, req));
            var s2 := Next(s1, ReadPrimary(n));
            var s3 := Next(s2, ReadLink(n));
            var s4 := Next(s3, CountClaims(n));
            Next(s4, ReadSecond(n)) == System(s.db, s.flights[n := Observe(s.db, req)])
  {
    var s1 := Next(s, Start(n, req));
    var s2 := Next(s1, ReadPrimary(n));
    var s3 := Next(s2, ReadLink(n));
    var s4 := Next(s3, CountClaims(n));
    hide Fetch, Observe;
    FetchNext(s1, ReadPrimary(n));
    FetchNext(s2, ReadLink(n));
    FetchNext(s3, CountClaims(n));
    FetchNext(s4, ReadSecond(n));
    FetchesObserve(s.db, n, req);
    assert Next(s4, ReadSecond(n)).flights == s.flights[n := Observe(s.db, req)];
  }

  lemma {:induction false} CarefulAppend(es: seq<Event>, e: Event)
    requires Careful(es) && CarefulEvent(Run(es), e)
    ensures Careful(es + [e])
  {
    assert (es + [e])[..|es|] == es;
  }

  /** Uninterrupted, the reads of a request see one state. */
  lemma {:induction false} ReadsObserve(es: seq<Event>, n: nat, req: Request)
    requires n !in Run(es).flights && Bound(req)
    ensures Run(es + Reads(n, req)) == System(Run(es).db, Run(es).flights[n := Observe(Run(es).db, req)])
    ensures Careful(es) ==> Careful(es + Reads(n, req))
  {
    hide Run, Careful, Next, Observe;
    var all := Reads(n, req);
    ReadsNext(Run(es), n, req);
    var e1, e2, e3, e4 := es + [all[0]], es + all[..2], es + all[..3], es + all[..4];
    assert e2 == e1 + [all[1]] && e3 == e2 + [all[2]] && e4 == e3 + [all[3]] && es + all == e4 + [all[4]];
    RunAppend(es, all[0]);
    RunAppend(e1, all[1]);
    RunAppend(e2, all[2]);
    RunAppend(e3, all[3]);
    RunAppend(e4, all[4]);
    if Careful(es) {
      CarefulAppend(es, all[0]);
      CarefulAppend(e1, all[1]);
      CarefulAppend(e2, all[2]);
      CarefulAppend(e3, all[3]);
      CarefulAppend(e4, all[4]);
    }
  }

  lemma CommitNext(s: System, n: nat, id: nat)
    requires n in s.flights
    ensures var r := Attempt(s.db, s.flights[n], id);
      Next(s, Commit(n, id, true)) == System(if r.Ok? then r.value else s.db, s.flights - {n})
  {
  }

  /** A request without interference does to the system what `Serve`, the specification of the service methods, does to
      the tables. */
  lemma {:induction false} SoloServes(es: seq<Event>, n: nat, req: Request, id: nat)
    requires n !in Run(es).flights && Bound(req)
    ensures Run(es + Solo(n, req, id)) == System(Served(Run(es).db, req, id), Run(es).flights)
    ensures Careful(es) && Honest(Observe(Run(es).db, req)) ==> Careful(es + Solo(n, req, id))
  {
    hide Run, Careful, Reads, Next, Observe, Plan, ApplyTx;
    var part := es + Reads(n, req);
    ReadsObserve(es, n, req);
    CommitNext(Run(part), n, id);
    RunAppend(part, Commit(n, id, true));
    assert part + [Commit(n, id, true)] == es + Solo(n, req, id);
    assert Run(es).flights[n := Observe(Run(es).db, req)] - {n} == Run(es).flights;
    if Careful(es) && Honest(Observe(Run(es).db, req)) {
      CarefulAppend(part, Commit(n, id, true));
    }
  }

  /** A number that no request under way has. */
  ghost function Above(s: set<nat>): (n: nat)
    ensures forall m :: m in s ==> m < n
  {
    if s == {} then 0
    else
      var m :| m in s;
      var rest := Above(s - {m});
      assert forall k :: k in s ==> k == m || k in s - {m};
      if rest > m then rest else m + 1
  }

  // ----- Safety of one request -----

  lemma ObserveSafe(t: Tables, req: Request)
    requires SafeTables(t) && Bound(req)
    ensures SafeFlight(t, Observe(t, req))
  {
    hide Alive, Consistent, Trim;
  }

  lemma PlanSwaps(f: Flight, id: nat)
    requires SendsVersion(f.req) && Plan(f, id).Ok?
    ensures Plan(f, id).value.first.change.Swap?
  {
  }

  lemma ServesPlan(t: Tables, req: Request, id: nat, tx: Tx)
    requires Plan(Observe(t, req), id) == Ok(tx)
    ensures Serve(t, req, id) == ApplyTx(t, tx)
  {
  }

  lemma ServesAttempt(t: Tables, req: Request, id: nat)
    ensures Serve(t, req, id) == Attempt(t, Observe(t, req), id)
    ensures Serve(t, req, id).Ok? ==> Plan(Observe(t, req), id).Ok?
  {
  }

  /** A request that succeeds alone has sent the version of the row. */
  lemma ServedIsHonest(t: Tables, req: Request, id: nat)
    requires SafeTables(t) && Bound(req) && Serve(t, req, id).Ok?
    ensures Honest(Observe(t, req))
  {
    hide Plan, ApplyTx, SafeTables, SafeFlight, Observe;
    var f := Observe(t, req);
    ServesAttempt(t, req, id);
    ObservedRequest(t, req);
    if SendsVersion(req) {
      ObserveSafe(t, req);
      WellReadPlanTidy(t, f, id);
      PlanSwaps(f, id);
      PlanVersions(f, id);
      TxCurrent(t, Plan(f, id).value, Serve(t, req, id).value);
    }
  }

  lemma ObservedRequest(t: Tables, req: Request)
    ensures Observe(t, req).req == req
    ensures SendsVersion(req) ==> Observe(t, req).primary == Find(t, req.Subject())
  {
  }

  lemma WellReadPlanTidy(t: Tables, f: Flight, id: nat)
    requires SafeFlight(t, f) && Plan(f, id).Ok?
    ensures Tidy(Plan(f, id).value)
  {
    PlanTidy(f, id);
  }

  lemma ServeSafe(t: Tables, req: Request, id: nat)
    requires SafeTables(t) && Bound(req) && Serve(t, req, id).Ok?
    ensures SafeTables(Serve(t, req, id).value) && Grows(t, Serve(t, req, id).value)
  {
    hide Plan, ApplyTx, SafeTables, SafeFlight, Observe;
    ServesAttempt(t, req, id);
    ObserveSafe(t, req);
    ServedIsHonest(t, req, id);
    AttemptSafe(t, Observe(t, req), id, Serve(t, req, id).value);
  }

  // ----- Several requests -----

  /** A request and the identifier it gets if it inserts a row. */
  datatype Ask = Ask(req: Request, id: nat)

  function Solos(n: nat, asks: seq<Ask>): seq<Event> {
    if asks == [] then [] else Solo(n, asks[0].req, asks[0].id) + Solos(n, asks[1..])
  }

  /** These requests, one after the other, all succeed and lead from `t` to `u`. */
  ghost predicate Reaches(t: Tables, asks: seq<Ask>, u: Tables)
    decreases |asks|
  {
    if asks == [] then t == u
    else
      var r := Serve(t, asks[0].req, asks[0].id);
      Bound(asks[0].req) && r.Ok? && Reaches(r.value, asks[1..], u)
  }

  lemma ReachesOne(t: Tables, req: Request, id: nat)
    requires Bound(req) && Serve(t, req, id).Ok?
    ensures Reaches(t, [Ask(req, id)], Serve(t, req, id).value)
  {
    hide Serve;
    var one := [Ask(req, id)];
    assert one[1..] == [];
    assert Reaches(Serve(t, req, id).value, one[1..], Serve(t, req, id).value);
  }

  lemma {:induction false} ReachesThen(t: Tables, a: seq<Ask>, u: Tables, b: seq<Ask>, v: Tables)
    requires Reaches(t, a, u) && Reaches(u, b, v)
    ensures Reaches(t, a + b, v)
    decreases |a|
  {
    hide Serve;
    if a == [] {
      assert a + b == b;
    } else {
      ReachesThen(Serve(t, a[0].req, a[0].id).value, a[1..], u, b, v);
      assert (a + b)[1..] == a[1..] + b;
    }
  }

  lemma {:induction false} ReachesSafe(t: Tables, asks: seq<Ask>, u: Tables)
    requires SafeTables(t) && Reaches(t, asks, u)
    ensures SafeTables(u) && Grows(t, u)
    decreases |asks|
  {
    hide Serve, SafeTables, Grows;
    if asks == [] {
      GrowsReflexive(t);
    } else {
      var v := Serve(t, asks[0].req, asks[0].id).value;
      ServeSafe(t, asks[0].req, asks[0].id);
      ReachesSafe(v, asks[1..], u);
      GrowsTransitive(t, v, u);
    }
  }

  /** What can be reached by requests one after the other is reached by a careful run. */
  lemma {:induction false} SolosReach(es: seq<Event>, n: nat, asks: seq<Ask>, u: Tables)
    requires Careful(es) && n !in Run(es).flights && Reaches(Run(es).db, asks, u)
    ensures Careful(es + Solos(n, asks)) && Run(es + Solos(n, asks)) == System(u, Run(es).flights)
    decreases |asks|
  {
    hide Run, Careful, Solo, Serve, SafeTables, Observe;
    if asks == [] {
      assert es + Solos(n, asks) == es;
    } else {
      var part := es + Solo(n, asks[0].req, asks[0].id);
      RunIsSafe(es);
      ServedIsHonest(Run(es).db, asks[0].req, asks[0].id);
      SoloServes(es, n, asks[0].req, asks[0].id);
      SolosReach(part, n, asks[1..], u);
      assert part + Solos(n, asks[1..]) == es + Solos(n, asks);
    }
  }
}
