/** When an executing directive can leave execution, exactly. */
module Exits {
  import opened Text
  import opened Model
  import opened Store
  import opened Planning
  import opened Journal
  import opened Protocol
  import opened Laws
  import opened Lives
  import opened Safety
  import opened Consistency
  import opened Alone
  import opened Serving
  import opened Progress

  // ----- Requests under way that can still decide -----

  /** The row the request is about is still the one it read, and it sends the version of that row. */
  predicate UpToDate(t: Tables, f: Flight) {
    && f.primary.Some? && IsLive(t, f.req.Subject()) && f.primary.value == t.rows[f.req.Subject()]
    && f.req.expected == f.primary.value.version && f.req.verb == Transition
  }

  /** An abort under way that found the gate locked, so that it will not write it. */
  predicate Aborting(t: Tables, f: Flight, d: Key, g: Key) {
    && UpToDate(t, f) && f.req.Subject() == d && f.req.target == Aborted && AnyDispatcher(f.req.role)
    && f.link.Some? && f.link.value.key == g && f.link.value.row.status == Locked
  }

  /** A confirmation or failure under way that found the gate where it has to go, so that it will not write it. */
  predicate Deciding(t: Tables, f: Flight, d: Key, g: Key) {
    && UpToDate(t, f) && f.req.kind == ExecutionConfirmation && f.primary.value.status == Pending
    && (f.req.target == Confirmed || f.req.target == Failed)
    && d in t.rows && f.link == Some(Snap(d, t.rows[d]))
    && f.second.Some? && f.second.value.key == g
    && f.second.value.row.status == GateOutcome(f.req.target, t.rows[d])
  }

  predicate Decisive(t: Tables, f: Flight, d: Key, g: Key) {
    Aborting(t, f, d, g) || Deciding(t, f, d, g)
  }

  /** The way out is open: the directive is live, and its gate is live or some request under way read the gate in its
      place. */
  ghost predicate CanLeave(s: System, d: Key, g: Key)
    requires d in s.db.rows && g in s.db.rows
  {
    s.db.rows[d].live && (s.db.rows[g].live || exists n :: n in s.flights && Decisive(s.db, s.flights[n], d, g))
  }

  // ----- A decisive request commits -----

  lemma AbortingCommits(t: Tables, f: Flight, d: Key, g: Key, id: nat)
    requires SafeFlight(t, f) && ActsOn(t, d, g) && IsLive(t, d) && t.rows[d].status == Executing
    requires Aborting(t, f, d, g)
    ensures Attempt(t, f, id).Ok? && IsLive(Attempt(t, f, id).value, d)
    ensures Attempt(t, f, id).value.rows[d].status == Aborted
  {
    var tx := GatedTx(f.req, t.rows[d], f.link.value, Locked);
    AbortPlan(f, id);
    hide Plan;
    SwapApplies(t, tx.first);
  }

  lemma DecidingCommits(t: Tables, f: Flight, d: Key, g: Key, id: nat)
    requires SafeTables(t) && SafeFlight(t, f) && ActsOn(t, d, g) && IsLive(t, d) && t.rows[d].status == Executing
    requires Deciding(t, f, d, g)
    ensures Attempt(t, f, id).Ok? && IsLive(Attempt(t, f, id).value, d)
    ensures Attempt(t, f, id).value.rows[d].status == DirectiveOutcome(f.req.target)
  {
    hide SafeTables, SafeFlight, Plan, ApplyTx, DecisionTx, Decided, GateOutcome, DirectiveOutcome, CanReach;
    SafeFlightIsFresh(t, f);
    DecidingReaches(t, f, d, g);
    DecisionPlan(f, id);
    NamesRead(t, f, d);
    SafeIsUnique(t);
    DecisionApplies(t, f.req.Subject(), d, f.second.value, f.req);
  }

  lemma DecidingReaches(t: Tables, f: Flight, d: Key, g: Key)
    requires WellRead(f) && Deciding(t, f, d, g) && t.rows[d].status == Executing
    ensures CanReach(f.second.value.row, GateOutcome(f.req.target, t.rows[d]))
    ensures Orders(t, f.req.Subject(), f.req.target, f.req)
  {
    hide Proper, Norm;
  }

  lemma NamesRead(t: Tables, f: Flight, d: Key)
    requires SafeTables(t) && SafeFlight(t, f) && UpToDate(t, f) && f.req.kind == ExecutionConfirmation
    requires IsDirective(t, d) && f.link == Some(Snap(d, t.rows[d]))
    ensures Names(t, f.req.Subject(), d)
    ensures f.second.Some? ==> f.second.value.key.kind == GateUnit
  {
    hide Consistent, Lawful, Alive, FreshFlight, Proper, Trim, Norm;
    NamesLink(t, f.req.Subject(), d);
  }

  lemma DecisiveCommits(t: Tables, f: Flight, d: Key, g: Key, id: nat)
    requires SafeTables(t) && SafeFlight(t, f) && ActsOn(t, d, g) && IsLive(t, d) && t.rows[d].status == Executing
    requires Decisive(t, f, d, g)
    ensures Attempt(t, f, id).Ok? && IsLive(Attempt(t, f, id).value, d)
    ensures Attempt(t, f, id).value.rows[d].status != Executing
  {
    hide SafeTables, SafeFlight, Plan, ApplyTx, Attempt;
    if Aborting(t, f, d, g) {
      AbortingCommits(t, f, d, g, id);
    } else {
      DecidingCommits(t, f, d, g, id);
    }
  }

  // ----- Without a gate, nothing else commits -----

  lemma WritesDirective(f: Flight, id: nat, d: Key)
    requires WellRead(f) && Plan(f, id).Ok? && d.kind == OperationDirective && Writes(Plan(f, id).value, d)
    ensures var tx := Plan(f, id).value;
      || (Swaps(tx.first, d) && f.req.Subject() == d)
      || (tx.second.Some? && Swaps(tx.second.value, d) && f.req.kind == ExecutionConfirmation)
  {
    hide Norm, Trim, EqualFold, Filled;
  }

  /** Writing a directive in execution on its own account is aborting it. */
  lemma AbortShape(f: Flight, id: nat)
    requires WellRead(f) && Plan(f, id).Ok? && f.req.kind == OperationDirective && SendsVersion(f.req)
    requires f.primary.Some? && f.primary.value.status == Executing
    ensures f.req.verb == Transition && f.req.target == Aborted && AnyDispatcher(f.req.role)
    ensures f.link.Some? && f.link.value.key.kind == GateUnit
    ensures f.link.value.row.code == Norm(f.primary.value.related)
    ensures Plan(f, id).value.second == MoveStep(f.req, DirectiveExecution, f.link.value, Locked)
  {
    hide Norm, Trim, EqualFold, Filled;
  }

  lemma DecisionShape(f: Flight, id: nat)
    requires WellRead(f) && Plan(f, id).Ok? && f.req.kind == ExecutionConfirmation
    requires Plan(f, id).value.second.Some?
    ensures f.req.verb == Transition && (f.req.target == Confirmed || f.req.target == Failed)
    ensures f.primary.Some? && f.primary.value.status == Pending
    ensures f.link.Some? && f.link.value.row.status == Executing
    ensures f.second.Some? && f.second.value.key.kind == GateUnit
    ensures f.second.value.row.code == Norm(f.link.value.row.related)
    ensures Plan(f, id).value.third
            == MoveStep(f.req, ExecutionOutcome, f.second.value, GateOutcome(f.req.target, f.link.value.row))
  {
    hide Norm, Trim, EqualFold, Filled;
  }

  /** The gate a request read for a directive is the gate the directive acts on. */
  lemma GateFoundIsActedOn(t: Tables, d: Key, g: Key, s: Snap)
    requires SafeTables(t) && ActsOn(t, d, g)
    requires Seen(t, s.key, s.row) && s.key.kind == GateUnit && s.row.code == Norm(t.rows[d].related)
    ensures s.key == g
  {
    hide Consistent, Trim, Norm;
    assert Sound(d.kind, t.rows[d], History(t.audits, d), ApprovalsOf(t.approvals, d.id));
  }

  lemma OwnLeaveIsAborting(t: Tables, f: Flight, id: nat, u: Tables, d: Key, g: Key)
    requires SafeTables(t) && SafeFlight(t, f) && Honest(f) && Plan(f, id).Ok? && Tidy(Plan(f, id).value)
    requires ApplyTx(t, Plan(f, id).value) == Ok(u) && ActsOn(t, d, g) && t.rows[d].status == Executing
    requires !t.rows[g].live && Swaps(Plan(f, id).value.first, d) && f.req.Subject() == d
    ensures Aborting(t, f, d, g)
  {
    hide SafeTables, Plan, ApplyTx, Tidy, Norm;
    CommitSeesSnapshots(t, f, id, u);
    PlanVersions(f, id);
    SwapsSendVersions(f, id);
    AbortShape(f, id);
    GateFoundIsActedOn(t, d, g, f.link.value);
    TxCurrent(t, Plan(f, id).value, u);
  }

  lemma SwapsSendVersions(f: Flight, id: nat)
    requires Plan(f, id).Ok? && Plan(f, id).value.first.change.Swap?
    ensures SendsVersion(f.req)
  {
  }

  lemma OtherLeaveIsDeciding(t: Tables, f: Flight, id: nat, u: Tables, d: Key, g: Key)
    requires SafeTables(t) && SafeFlight(t, f) && Honest(f) && Plan(f, id).Ok? && Tidy(Plan(f, id).value)
    requires ApplyTx(t, Plan(f, id).value) == Ok(u) && ActsOn(t, d, g) && t.rows[d].status == Executing
    requires !t.rows[g].live && f.req.kind == ExecutionConfirmation
    requires Plan(f, id).value.second.Some? && Swaps(Plan(f, id).value.second.value, d)
    ensures Deciding(t, f, d, g)
  {
    hide SafeTables, Plan, ApplyTx, Tidy, Norm;
    CommitSeesSnapshots(t, f, id, u);
    PlanVersions(f, id);
    PlanSwaps(f, id) by { DecisionShape(f, id); }
    DecisionShape(f, id);
    GateFoundIsActedOn(t, d, g, f.second.value);
    TxCurrent(t, Plan(f, id).value, u);
  }

  /** Once the gate is gone, a commit that ends the execution comes from a request that had read the gate in place. */
  lemma LeavingIsDecisive(t: Tables, f: Flight, id: nat, u: Tables, d: Key, g: Key)
    requires SafeTables(t) && SafeFlight(t, f) && Honest(f) && Attempt(t, f, id) == Ok(u)
    requires ActsOn(t, d, g) && t.rows[d].status == Executing && !t.rows[g].live
    requires d in u.rows && u.rows[d].status != Executing
    ensures Decisive(t, f, d, g)
  {
    hide SafeTables, Plan, ApplyTx, Tidy, Aborting, Deciding, Writes;
    var tx := Plan(f, id).value;
    PlanTidy(f, id);
    TxVersions(t, tx, u, d);
    WritesDirective(f, id, d);
    if Swaps(tx.first, d) && f.req.Subject() == d {
      OwnLeaveIsAborting(t, f, id, u, d, g);
    } else {
      OtherLeaveIsDeciding(t, f, id, u, d, g);
    }
  }

  // ----- Stranded directives -----

  ghost predicate Stranded(s: System, d: Key, g: Key) {
    ActsOn(s.db, d, g) && s.db.rows[d].status == Executing && !CanLeave(s, d, g)
  }

  /** A directive that goes on executing does not change, except that it may be deleted. */
  lemma StillExecuting(t: Tables, u: Tables, d: Key, g: Key)
    requires Grows(t, u) && ActsOn(t, d, g) && t.rows[d].status == Executing && u.rows[d].status == Executing
    ensures ActsOn(u, d, g) && u.rows[d] == t.rows[d].(live := u.rows[d].live)
    ensures !t.rows[g].live ==> !u.rows[g].live
    ensures !t.rows[d].live ==> !u.rows[d].live
  {
    assert Grown(d.kind, t.rows[d], u.rows[d]) && Grown(g.kind, t.rows[g], u.rows[g]);
  }

  lemma UpToDateEarlier(t: Tables, u: Tables, f: Flight)
    requires FreshFlight(t, f) && Grows(t, u) && UpToDate(u, f)
    ensures UpToDate(t, f)
  {
    var k := f.req.Subject();
    assert Grown(k.kind, t.rows[k], u.rows[k]);
  }

  lemma DecisiveEarlier(t: Tables, u: Tables, f: Flight, d: Key, g: Key)
    requires FreshFlight(t, f) && Grows(t, u) && ActsOn(t, d, g)
    requires t.rows[d].status == Executing && u.rows[d].status == Executing && IsLive(u, d)
    requires Decisive(u, f, d, g)
    ensures Decisive(t, f, d, g)
  {
    hide Grows, FreshFlight, UpToDate;
    StillExecuting(t, u, d, g);
    UpToDateEarlier(t, u, f);
  }

  lemma FetchDecidesNothing(t: Tables, f: Flight, e: Event, d: Key, g: Key)
    requires WellRead(f) && g in t.rows && !t.rows[g].live && Decisive(t, Fetch(t, f, e), d, g)
    ensures Decisive(t, f, d, g)
  {
    hide Proper, Norm;
  }

  lemma CommitStaysStranded(s: System, n: nat, id: nat, u: Tables, d: Key, g: Key)
    requires SafeSystem(s) && Stranded(s, d, g) && n in s.flights && Honest(s.flights[n])
    requires Attempt(s.db, s.flights[n], id) == Ok(u)
    ensures Stranded(System(u, s.flights - {n}), d, g)
  {
    hide SafeTables, Attempt, Decisive, SafeFlight, Honest, Grown;
    var t, f := s.db, s.flights[n];
    AttemptSafe(t, f, id, u);
    if u.rows[d].status != Executing {
      if t.rows[d].live {
        LeavingIsDecisive(t, f, id, u, d, g);
      } else {
        DeadStays(t, u, d);
      }
    } else {
      StillExecuting(t, u, d, g);
      forall m | m in s.flights && u.rows[d].live ensures !Decisive(u, s.flights[m], d, g) {
        if Decisive(u, s.flights[m], d, g) {
          SafeFlightIsFresh(t, s.flights[m]);
          DecisiveEarlier(t, u, s.flights[m], d, g);
        }
      }
    }
  }

  lemma SafeFlightIsFresh(t: Tables, f: Flight)
    requires SafeFlight(t, f)
    ensures FreshFlight(t, f) && WellRead(f)
  {
  }

  lemma DeadStays(t: Tables, u: Tables, k: Key)
    requires Grows(t, u) && k in t.rows && !t.rows[k].live
    ensures k in u.rows && u.rows[k] == t.rows[k]
  {
    assert Grown(k.kind, t.rows[k], u.rows[k]);
  }

  lemma StrandedWithout(s: System, n: nat, d: Key, g: Key)
    requires Stranded(s, d, g)
    ensures Stranded(System(s.db, s.flights - {n}), d, g)
  {
  }

  lemma CommitEventStaysStranded(s: System, e: Event, d: Key, g: Key)
    requires e.Commit? && SafeSystem(s) && CarefulEvent(s, e) && Stranded(s, d, g)
    ensures Stranded(Next(s, e), d, g)
  {
    hide Attempt, SafeSystem, Stranded, Honest;
    if e.n in s.flights {
      var r := Attempt(s.db, s.flights[e.n], e.id);
      if e.healthy && r.Ok? {
        CommitStaysStranded(s, e.n, e.id, r.value, d, g);
      } else {
        StrandedWithout(s, e.n, d, g);
      }
    }
  }

  lemma StartStaysStranded(s: System, n: nat, req: Request, d: Key, g: Key)
    requires Stranded(s, d, g)
    ensures Stranded(System(s.db, s.flights[n := Begun(req)]), d, g)
  {
  }

  lemma FetchStaysStranded(s: System, e: Event, d: Key, g: Key)
    requires SafeSystem(s) && Stranded(s, d, g) && !e.Start? && !e.Commit? && e.n in s.flights
    ensures Stranded(System(s.db, s.flights[e.n := Fetch(s.db, s.flights[e.n], e)]), d, g)
  {
    hide SafeTables, Fetch, Decisive, SafeFlight;
    var f := s.flights[e.n];
    SafeFlightIsFresh(s.db, f);
    if !s.db.rows[g].live && Decisive(s.db, Fetch(s.db, f, e), d, g) {
      FetchDecidesNothing(s.db, f, e, d, g);
    }
  }

  lemma NextStaysStranded(s: System, e: Event, d: Key, g: Key)
    requires SafeSystem(s) && CarefulEvent(s, e) && Stranded(s, d, g)
    ensures Stranded(Next(s, e), d, g)
  {
    hide SafeSystem, Stranded, Attempt, Fetch;
    if e.Commit? {
      CommitEventStaysStranded(s, e, d, g);
    } else if e.Start? {
      StartStaysStranded(s, e.n, e.req, d, g);
    } else if e.n in s.flights {
      FetchStaysStranded(s, e, d, g);
    }
  }

  /** Where the way out is closed, it stays closed: no careful run takes the directive out of execution any more. */
  lemma {:induction false} StrandedForever(es: seq<Event>, more: seq<Event>, d: Key, g: Key)
    requires Careful(es + more) && Stranded(Run(es), d, g)
    ensures Stranded(Run(es + more), d, g)
  {
    hide Stranded, SafeSystem, Next;
    if more == [] {
      assert es + more == es;
    } else {
      var part := es + more[..|more| - 1];
      assert (es + more)[..|es + more| - 1] == part;
      StrandedForever(es, more[..|more| - 1], d, g);
      RunSafe(part);
      NextStaysStranded(Run(part), more[|more| - 1], d, g);
    }
  }

  // ----- The exact condition -----

  ghost predicate Left(es: seq<Event>, d: Key) {
    d in Run(es).db.rows && Run(es).db.rows[d].status != Executing
  }

  lemma {:induction false} LiveGateLetsLeave(es: seq<Event>, d: Key, g: Key)
    requires Careful(es) && Stuck(Run(es).db, d, g)
    ensures exists more :: Careful(es + more) && Left(es + more, d) && IsLive(Run(es + more).db, d)
  {
    hide Run, Careful, Solo;
    var n := Above(Run(es).flights.Keys);
    var req := Order(Run(es).db, d, Aborted, "operator", Operator);
    CanAbort(es, n, d, g, req);
    assert Left(es + Solo(n, req, 0), d);
  }

  lemma {:induction false} DecisiveLetsLeave(es: seq<Event>, n: nat, d: Key, g: Key)
    requires Careful(es) && n in Run(es).flights && ActsOn(Run(es).db, d, g)
    requires IsLive(Run(es).db, d) && Run(es).db.rows[d].status == Executing
    requires Decisive(Run(es).db, Run(es).flights[n], d, g)
    ensures exists more :: Careful(es + more) && Left(es + more, d) && IsLive(Run(es + more).db, d)
  {
    hide Run, Careful, SafeTables, SafeFlight, Attempt;
    RunSafe(es);
    DecisiveCommits(Run(es).db, Run(es).flights[n], d, g, 0);
    RunAppend(es, Commit(n, 0, true));
    CommitNext(Run(es), n, 0);
    CarefulAppend(es, Commit(n, 0, true));
    assert Left(es + [Commit(n, 0, true)], d);
  }

  /** Guaranteed exit, exactly: some careful continuation takes an executing directive out of execution if and only if
      its row is live, and its gate is live or a request under way has read the gate where it has to go and is otherwise
      up to date. */
  lemma {:induction false} ExitIsExact(es: seq<Event>, d: Key, g: Key)
    requires Careful(es) && ActsOn(Run(es).db, d, g) && Run(es).db.rows[d].status == Executing
    ensures (exists more :: Careful(es + more) && Left(es + more, d)) <==> CanLeave(Run(es), d, g)
  {
    hide Run, Careful, Decisive;
    if CanLeave(Run(es), d, g) {
      if Run(es).db.rows[g].live {
        LiveGateLetsLeave(es, d, g);
      } else {
        var n :| n in Run(es).flights && Decisive(Run(es).db, Run(es).flights[n], d, g);
        DecisiveLetsLeave(es, n, d, g);
      }
    } else {
      forall more | Careful(es + more) ensures !Left(es + more, d) {
        StrandedForever(es, more, d, g);
      }
    }
  }

  // ----- The two ways to be stranded, and the way around -----

  lemma NamesStay(t: Tables, u: Tables, c: Key, d: Key)
    requires Grows(t, u) && Names(t, c, d)
    ensures Names(u, c, d)
  {
    assert Grown(c.kind, t.rows[c], u.rows[c]) && Grown(d.kind, t.rows[d], u.rows[d]);
  }

  lemma PendingIsIncomplete(u: Tables, c: Key, d: Key)
    requires SafeTables(u) && Names(u, c, d) && u.rows[c].status == Pending
    ensures u.rows[d].status != Completed
  {
    assert Agree(u.rows[c], u.rows[d]);
  }

  /** Once the pending confirmation of a directive is deleted, the directive can never be completed: the deleted row
      keeps its place in the unique index. */
  lemma {:induction false} NeverCompletes(es: seq<Event>, more: seq<Event>, c: Key, d: Key)
    requires Careful(es + more) && Names(Run(es).db, c, d)
    requires !Run(es).db.rows[c].live && Run(es).db.rows[c].status == Pending
    ensures d in Run(es + more).db.rows && Run(es + more).db.rows[d].status != Completed
  {
    hide Run, Careful, SafeTables, Grows;
    RunGrows(es, more);
    DeadRowsAreFinal(es, more, c);
    RunIsSafe(es + more);
    NamesStay(Run(es).db, Run(es + more).db, c, d);
    PendingIsIncomplete(Run(es + more).db, c, d);
  }

  /** The request under way matters: a confirmation that has read the gate in place completes the directive although the
      gate is deleted before it commits. */
  lemma {:induction false} GateReadEarlierStillCompletes(es: seq<Event>, n: nat, m: nat, c: Key, d: Key, g: Key)
    requires Careful(es) && n != m && n !in Run(es).flights && m !in Run(es).flights
    requires Confirmable(Run(es).db, c, d, g) && Run(es).db.rows[g].status == Run(es).db.rows[d].gateState
    ensures var part := es + Reads(n, Order(Run(es).db, c, Confirmed, "operator", Operator))
                        + Solo(m, Removal(g, "operator"), 0);
      && Careful(part + [Commit(n, 0, true)])
      && g in Run(part).db.rows && !Run(part).db.rows[g].live
      && d in Run(part).db.rows && Run(part).db.rows[d].status == Executing
      && d in Run(part + [Commit(n, 0, true)]).db.rows
      && Run(part + [Commit(n, 0, true)]).db.rows[d].status == Completed
  {
    hide Run, Careful, Reads, Solo, Observe, Serve, SafeTables, SafeFlight, Attempt, Deciding, GateOutcome;
    var t := Run(es).db;
    var req, removal := Order(t, c, Confirmed, "operator", Operator), Removal(g, "operator");
    var read := es + Reads(n, req);
    RunIsSafe(es);
    ReadsObserve(es, n, req);
    RemovalServes(t, g, "operator");
    ServedIsHonest(t, removal, 0);
    SoloServes(read, m, removal, 0);
    var part := read + Solo(m, removal, 0);
    RunSafe(part);
    StillDeciding(t, Run(part).db, c, d, g, req);
    DecidingCommits(Run(part).db, Run(part).flights[n], d, g, 0);
    DecidingIsHonest(Run(part).db, Run(part).flights[n], d, g);
    RunAppend(part, Commit(n, 0, true));
    CommitNext(Run(part), n, 0);
    CarefulAppend(part, Commit(n, 0, true));
  }

  lemma DecidingIsHonest(t: Tables, f: Flight, d: Key, g: Key)
    requires Deciding(t, f, d, g)
    ensures Honest(f)
  {
  }

  lemma StillDeciding(t: Tables, u: Tables, c: Key, d: Key, g: Key, req: Request)
    requires SafeTables(t) && Confirmable(t, c, d, g) && t.rows[g].status == t.rows[d].gateState
    requires Orders(t, c, Confirmed, req) && u.rows == t.rows[g := t.rows[g].(live := false)]
    ensures Observe(t, req).req == req && Deciding(u, Observe(t, req), d, g)
  {
    hide Observe, SafeTables;
    DecisionObserved(t, c, d, g, req);
  }
}
