/** When an executing directive can be completed, exactly. */
module Completion {
  import opened Model
  import opened Store
  import opened Planning
  import opened Protocol
  import opened Laws
  import opened Lives
  import opened Consistency
  import opened Alone
  import opened Serving
  import opened Progress
  import opened Creations
  import opened Exits

  /** A deleted confirmation names the directive. */
  ghost predicate DeadClaim(t: Tables, d: Key) {
    exists c :: Names(t, c, d) && !t.rows[c].live
  }

  /** A confirmation under way that found the gate where it has to go. */
  predicate Confirming(t: Tables, f: Flight, d: Key, g: Key) {
    Deciding(t, f, d, g) && f.req.target == Confirmed
  }

  /** The directive is live and no deleted confirmation names it, and its gate is live or a confirmation under way has
      read the gate in its place. */
  ghost predicate Completable(s: System, d: Key, g: Key)
    requires d in s.db.rows && g in s.db.rows
  {
    && s.db.rows[d].live && !DeadClaim(s.db, d)
    && (s.db.rows[g].live || exists n :: n in s.flights && Confirming(s.db, s.flights[n], d, g))
  }

  ghost predicate IsCompleted(es: seq<Event>, d: Key) {
    d in Run(es).db.rows && Run(es).db.rows[d].status == Completed
  }

  // ----- Where it is not completable, it never is -----

  /** The directive is aborted, or executes and is not completable. */
  ghost predicate Blocked(s: System, d: Key, g: Key) {
    && ActsOn(s.db, d, g)
    && (s.db.rows[d].status == Aborted || (s.db.rows[d].status == Executing && !Completable(s, d, g)))
  }

  lemma ActsOnStays(t: Tables, u: Tables, d: Key, g: Key)
    requires Grows(t, u) && ActsOn(t, d, g) && t.rows[d].status != Draft
    ensures ActsOn(u, d, g)
  {
    assert Grown(d.kind, t.rows[d], u.rows[d]) && Grown(g.kind, t.rows[g], u.rows[g]);
  }

  lemma AbortedStays(t: Tables, u: Tables, d: Key)
    requires SafeTables(u) && Grows(t, u) && IsDirective(t, d) && t.rows[d].status == Aborted
    ensures u.rows[d].status == Aborted
  {
    hide SafeTables;
    assert Grown(d.kind, t.rows[d], u.rows[d]);
    DirectiveKnown(u, d);
  }

  lemma DeadClaimStays(t: Tables, u: Tables, d: Key)
    requires Grows(t, u) && DeadClaim(t, d)
    ensures DeadClaim(u, d)
  {
    var c :| Names(t, c, d) && !t.rows[c].live;
    NamesStay(t, u, c, d);
    DeadStays(t, u, c);
  }

  /** A dead claim of a directive in execution is pending for ever. */
  lemma DeadClaimBlocks(t: Tables, u: Tables, d: Key)
    requires SafeTables(t) && SafeTables(u) && Grows(t, u) && DeadClaim(t, d) && t.rows[d].status == Executing
    ensures d in u.rows && u.rows[d].status != Completed
  {
    hide SafeTables, Grows;
    var c :| Names(t, c, d) && !t.rows[c].live;
    ClaimIsPending(t, c, d);
    NamesStay(t, u, c, d);
    DeadStays(t, u, c);
    PendingIsIncomplete(u, c, d);
  }

  lemma ClaimIsPending(t: Tables, c: Key, d: Key)
    requires SafeTables(t) && Names(t, c, d) && t.rows[d].status == Executing
    ensures t.rows[c].status == Pending
  {
    assert Agree(t.rows[c], t.rows[d]);
  }

  /** What a commit makes of a directive that is not completable: if it ends the execution, it aborts it. */
  lemma LeavingAborts(s: System, n: nat, id: nat, u: Tables, d: Key, g: Key)
    requires SafeSystem(s) && n in s.flights && Honest(s.flights[n]) && Attempt(s.db, s.flights[n], id) == Ok(u)
    requires ActsOn(s.db, d, g) && s.db.rows[d].status == Executing && !Completable(s, d, g)
    requires d in u.rows && u.rows[d].status != Executing
    requires SafeTables(u) && Grows(s.db, u)
    ensures u.rows[d].status == Aborted
  {
    hide SafeTables, SafeFlight, Attempt, Honest, Grows, Deciding, Aborting;
    var t, f := s.db, s.flights[n];
    if !t.rows[d].live {
      DeadStays(t, u, d);
    } else if DeadClaim(t, d) {
      DeadClaimBlocks(t, u, d);
      EndsInTop(t, u, d);
    } else {
      LeavingIsDecisive(t, f, id, u, d, g);
      if Aborting(t, f, d, g) {
        AbortingCommits(t, f, d, g, id);
      } else {
        DecidingCommits(t, f, d, g, id);
        DecidingTargets(t, f, d, g);
      }
    }
  }

  lemma DecidingTargets(t: Tables, f: Flight, d: Key, g: Key)
    requires Deciding(t, f, d, g)
    ensures f.req.target == Confirmed || f.req.target == Failed
  {
  }

  lemma EndsInTop(t: Tables, u: Tables, d: Key)
    requires SafeTables(u) && Grows(t, u) && IsDirective(t, d) && t.rows[d].status == Executing
    requires u.rows[d].status != Executing && u.rows[d].status != Completed
    ensures u.rows[d].status == Aborted
  {
    hide SafeTables;
    assert Grown(d.kind, t.rows[d], u.rows[d]);
    DirectiveKnown(u, d);
  }

  lemma StillNotCompletable(s: System, n: nat, u: Tables, d: Key, g: Key)
    requires SafeSystem(s) && Grows(s.db, u) && ActsOn(s.db, d, g) && s.db.rows[d].status == Executing
    requires !Completable(s, d, g) && d in u.rows && u.rows[d].status == Executing
    ensures ActsOn(u, d, g) && !Completable(System(u, s.flights - {n}), d, g)
  {
    hide SafeTables, SafeFlight, Grows, Grown, DeadClaim, Confirming;
    var t := s.db;
    StillExecuting(t, u, d, g);
    if u.rows[d].live {
      if DeadClaim(t, d) {
        DeadClaimStays(t, u, d);
      } else {
        forall m | m in s.flights ensures !Confirming(u, s.flights[m], d, g) {
          if Confirming(u, s.flights[m], d, g) {
            ConfirmingEarlier(t, u, s.flights[m], d, g);
          }
        }
      }
    }
  }

  lemma ConfirmingEarlier(t: Tables, u: Tables, f: Flight, d: Key, g: Key)
    requires SafeFlight(t, f) && Grows(t, u) && ActsOn(t, d, g)
    requires t.rows[d].status == Executing && u.rows[d].status == Executing && IsLive(u, d)
    requires Confirming(u, f, d, g)
    ensures Confirming(t, f, d, g)
  {
    hide SafeFlight, Grows, Deciding, Aborting;
    SafeFlightIsFresh(t, f);
    DecisiveEarlier(t, u, f, d, g);
    ConfirmingIsDeciding(t, f, d, g);
  }

  lemma ConfirmingIsDeciding(t: Tables, f: Flight, d: Key, g: Key)
    requires Decisive(t, f, d, g) && f.req.target == Confirmed
    ensures Deciding(t, f, d, g)
  {
  }

  lemma CommitStaysBlocked(s: System, n: nat, id: nat, u: Tables, d: Key, g: Key)
    requires SafeSystem(s) && Blocked(s, d, g) && n in s.flights && Honest(s.flights[n])
    requires Attempt(s.db, s.flights[n], id) == Ok(u)
    ensures Blocked(System(u, s.flights - {n}), d, g)
  {
    hide SafeTables, Attempt, SafeFlight, Honest, Grown, Completable;
    var t, f := s.db, s.flights[n];
    AttemptSafe(t, f, id, u);
    if t.rows[d].status == Aborted {
      ActsOnStays(t, u, d, g);
      AbortedStays(t, u, d);
    } else if u.rows[d].status == Executing {
      StillNotCompletable(s, n, u, d, g);
    } else {
      ActsOnStays(t, u, d, g);
      LeavingAborts(s, n, id, u, d, g);
    }
  }

  /** Requests that start, or end without an effect, change nothing about it. */
  lemma FlightsStayBlocked(s: System, flights: map<nat, Flight>, d: Key, g: Key)
    requires Blocked(s, d, g)
    requires forall n :: n in flights && Confirming(s.db, flights[n], d, g) && !s.db.rows[g].live ==>
      n in s.flights && Confirming(s.db, s.flights[n], d, g)
    ensures Blocked(System(s.db, flights), d, g)
  {
    hide Confirming, DeadClaim;
  }

  lemma FetchConfirmsNothing(t: Tables, f: Flight, e: Event, d: Key, g: Key)
    requires WellRead(f) && g in t.rows && !t.rows[g].live && Confirming(t, Fetch(t, f, e), d, g)
    ensures Confirming(t, f, d, g)
  {
    hide WellRead, Deciding, Aborting;
    FetchDecidesNothing(t, f, e, d, g);
    FetchKeepsRequest(t, f, e);
    ConfirmingIsDeciding(t, f, d, g);
  }

  lemma FetchKeepsRequest(t: Tables, f: Flight, e: Event)
    ensures Fetch(t, f, e).req == f.req
  {
  }

  lemma BegunConfirmsNothing(t: Tables, req: Request, d: Key, g: Key)
    ensures !Confirming(t, Begun(req), d, g)
  {
  }

  lemma CommitEventStaysBlocked(s: System, e: Event, d: Key, g: Key)
    requires e.Commit? && SafeSystem(s) && CarefulEvent(s, e) && Blocked(s, d, g)
    ensures Blocked(Next(s, e), d, g)
  {
    hide Attempt, SafeSystem, Blocked, Honest, Confirming;
    if e.n in s.flights {
      var r := Attempt(s.db, s.flights[e.n], e.id);
      if e.healthy && r.Ok? {
        CommitStaysBlocked(s, e.n, e.id, r.value, d, g);
      } else {
        FlightsStayBlocked(s, s.flights - {e.n}, d, g);
      }
    }
  }

  lemma ReadEventStaysBlocked(s: System, e: Event, d: Key, g: Key)
    requires !e.Commit? && SafeSystem(s) && Blocked(s, d, g)
    ensures Blocked(Next(s, e), d, g)
  {
    hide SafeTables, SafeFlight, Blocked, Confirming, Fetch, Begun;
    if e.Start? {
      BegunConfirmsNothing(s.db, e.req, d, g);
      FlightsStayBlocked(s, Next(s, e).flights, d, g);
    } else if e.n in s.flights {
      var f := s.flights[e.n];
      SafeFlightIsFresh(s.db, f);
      GateIsThere(s, d, g);
      if !s.db.rows[g].live && Confirming(s.db, Fetch(s.db, f, e), d, g) {
        FetchConfirmsNothing(s.db, f, e, d, g);
      }
      FlightsStayBlocked(s, Next(s, e).flights, d, g);
    }
  }

  lemma GateIsThere(s: System, d: Key, g: Key)
    requires Blocked(s, d, g)
    ensures d in s.db.rows && g in s.db.rows && s.db.rows[d].status != Completed
  {
  }

  lemma NextStaysBlocked(s: System, e: Event, d: Key, g: Key)
    requires SafeSystem(s) && CarefulEvent(s, e) && Blocked(s, d, g)
    ensures Blocked(Next(s, e), d, g)
  {
    hide SafeSystem, Blocked, Next, CarefulEvent;
    if e.Commit? {
      CommitEventStaysBlocked(s, e, d, g);
    } else {
      ReadEventStaysBlocked(s, e, d, g);
    }
  }

  lemma {:induction false} BlockedForever(es: seq<Event>, more: seq<Event>, d: Key, g: Key)
    requires Careful(es + more) && Blocked(Run(es), d, g)
    ensures Blocked(Run(es + more), d, g)
  {
    hide Blocked, SafeSystem, Next, CarefulEvent;
    if more == [] {
      assert es + more == es;
    } else {
      var part := es + more[..|more| - 1];
      assert (es + more)[..|es + more| - 1] == part;
      BlockedForever(es, more[..|more| - 1], d, g);
      RunSafe(part);
      NextStaysBlocked(Run(part), more[|more| - 1], d, g);
    }
  }

  // ----- Where it is completable, some run completes it -----

  lemma CompleteLive(t: Tables, d: Key, g: Key) returns (asks: seq<Ask>, u: Tables)
    requires SafeTables(t) && Stuck(t, d, g) && !DeadClaim(t, d)
    ensures Reaches(t, asks, u) && d in u.rows && u.rows[d].status == Completed
  {
    hide SafeTables, Reaches;
    if c :| Names(t, c, d) {
      ClaimIsPending(t, c, d);
      asks, u := Complete(t, c, d, g);
    } else {
      var first, v, c := NewConfirmation(t, d, g);
      var rest, w := Complete(v, c, d, g);
      ReachesThen(t, first, v, rest, w);
      asks, u := first + rest, w;
    }
  }

  lemma {:induction false} LiveGateLetsComplete(es: seq<Event>, d: Key, g: Key)
    requires Careful(es) && Stuck(Run(es).db, d, g) && !DeadClaim(Run(es).db, d)
    ensures exists more :: Careful(es + more) && IsCompleted(es + more, d)
  {
    hide Run, Careful, Solos, SafeTables, Reaches, DeadClaim, Stuck;
    RunIsSafe(es);
    var n := Above(Run(es).flights.Keys);
    var asks, u := CompleteLive(Run(es).db, d, g);
    SolosReach(es, n, asks, u);
    assert IsCompleted(es + Solos(n, asks), d);
  }

  lemma {:induction false} ConfirmingLetsComplete(es: seq<Event>, n: nat, d: Key, g: Key)
    requires Careful(es) && n in Run(es).flights && ActsOn(Run(es).db, d, g)
    requires IsLive(Run(es).db, d) && Run(es).db.rows[d].status == Executing
    requires Confirming(Run(es).db, Run(es).flights[n], d, g)
    ensures exists more :: Careful(es + more) && IsCompleted(es + more, d)
  {
    hide Run, Careful, SafeTables, SafeFlight, Attempt;
    RunSafe(es);
    DecidingCommits(Run(es).db, Run(es).flights[n], d, g, 0);
    RunAppend(es, Commit(n, 0, true));
    CommitNext(Run(es), n, 0);
    CarefulAppend(es, Commit(n, 0, true));
    assert IsCompleted(es + [Commit(n, 0, true)], d);
  }

  /** Guaranteed completion, exactly: some careful continuation completes an executing directive if and only if the
      directive is live, no deleted confirmation names it, and its gate is live or a confirmation under way has read the
      gate where it has to go and is otherwise up to date. */
  lemma {:induction false} CompletionIsExact(es: seq<Event>, d: Key, g: Key)
    requires Careful(es) && ActsOn(Run(es).db, d, g) && Run(es).db.rows[d].status == Executing
    ensures (exists more :: Careful(es + more) && IsCompleted(es + more, d)) <==> Completable(Run(es), d, g)
  {
    hide Run, Careful, Confirming, DeadClaim;
    if Completable(Run(es), d, g) {
      if Run(es).db.rows[g].live {
        LiveGateLetsComplete(es, d, g);
      } else {
        var n :| n in Run(es).flights && Confirming(Run(es).db, Run(es).flights[n], d, g);
        ConfirmingLetsComplete(es, n, d, g);
      }
    } else {
      forall more | Careful(es + more) ensures !IsCompleted(es + more, d) {
        BlockedForever(es, more, d, g);
      }
    }
  }

  /** Deleting the pending confirmation is a way to lose completion: from every careful run with one, this one request
      leaves the directive in execution with a live gate, so that it can be aborted, but never completed. */
  lemma {:induction false} DeletedClaimIsReached(es: seq<Event>, n: nat, c: Key, d: Key, g: Key)
    requires Careful(es) && n !in Run(es).flights && Confirmable(Run(es).db, c, d, g)
    ensures var all := es + Solo(n, Removal(c, "operator"), 0);
      && Careful(all) && Stuck(Run(all).db, d, g) && DeadClaim(Run(all).db, d)
      && (exists more :: Careful(all + more) && Left(all + more, d))
      && !exists more :: Careful(all + more) && IsCompleted(all + more, d)
  {
    hide Run, Careful, Solo, Observe, Serve, SafeTables;
    var t, req := Run(es).db, Removal(c, "operator");
    var all := es + Solo(n, req, 0);
    RunIsSafe(es);
    RemovalServes(t, c, "operator");
    ServedIsHonest(t, req, 0);
    SoloServes(es, n, req, 0);
    assert Names(Run(all).db, c, d) && !Run(all).db.rows[c].live;
    LiveGateLetsLeave(all, d, g);
    CompletionIsExact(all, d, g);
  }
}
