/** What optimistic locking does not give: guessed versions and deletes. */
module Limits {
  import opened Model
  import opened Store
  import opened Planning
  import opened Journal
  import opened Protocol
  import opened Laws
  import opened Lives
  import opened Consistency
  import opened Alone
  import opened Serving
  import opened Progress

  // ----- A guessed version -----

  /** The directive is aborted, its gate is not locked, and its history does not replay. */
  ghost predicate Broken(t: Tables, d: Key, g: Key) {
    && d in t.rows && g in t.rows && t.rows[d].status == Aborted && t.rows[g].status != Locked
    && !Unbroken(OperationDirective, History(t.audits, d))
  }

  /** `req` guesses the version that the directive is going to have next. */
  predicate GuessesNext(t: Tables, d: Key, req: Request) {
    && d in t.rows && req.kind == OperationDirective && req.verb == Transition && req.Subject() == d
    && req.target == Aborted && AnyDispatcher(req.role) && req.expected == t.rows[d].version + 1 && Bound(req)
  }

  lemma StaleAbortBreaks(t: Tables, u: Tables, d: Key, g: Key, req: Request)
    requires IsLive(t, d) && d.kind == OperationDirective && t.rows[d].status == Approved && GuessesNext(t, d, req)
    requires SafeTables(u) && Stuck(u, d, g) && u.rows[g].status != Locked
    requires u.rows[d] == t.rows[d].(status := Executing, version := t.rows[d].version + 1)
    ensures var r := Attempt(u, Observe(t, req), 0); r.Ok? && Broken(r.value, d, g)
  {
    hide Plan, Observe, ApplyTx, SafeTables, Attempt, Edge;
    var f := Observe(t, req);
    var e := Entry(req, Did(Transition), d, Approved, Aborted);
    var s := Step(Swap(d, req.expected, Advanced(req, t.rows[d])), None, e);
    ObservedRequest(t, req);
    AdvancePlan(f, 0);
    FinalIsStatus(u, d);
    SwapApplies(u, s);
    SingleAttempt(u, f, s);
    HistoryAppend(u.audits, e, d);
    BreaksHistory(History(u.audits, d), e);
  }

  lemma BreaksHistory(h: seq<Audit>, e: Audit)
    requires h != [] && e.before != Final(h)
    ensures !Unbroken(OperationDirective, h + [e])
  {
    assert (h + [e])[|h|] == e && (h + [e])[|h| - 1] == h[|h| - 1];
  }

  lemma SingleAttempt(t: Tables, f: Flight, s: Step)
    requires Plan(f, 0) == Ok(Single(s))
    ensures Attempt(t, f, 0) == ApplyStep(t, s)
  {
  }

  /** A client that guesses the next version instead of sending one it was shown can abort a directive that has just
      begun to execute as if it were still merely approved. From every state of a careful run with a live approved
      directive and a live gate, at most two requests in the meantime make this happen: the gate is not locked, and
      the directive's history no longer replays. */
  lemma {:induction false} GuessedVersionBreaksHistory(es: seq<Event>, n: nat, m: nat, d: Key, g: Key, abort: Request)
    requires Careful(es) && n != m && n !in Run(es).flights && m !in Run(es).flights
    requires Ready(Run(es).db, d, g) && Run(es).db.rows[d].status == Approved && GuessesNext(Run(es).db, d, abort)
    ensures exists asks :: |asks| <= 2 && Careful(es + Reads(n, abort) + Solos(m, asks))
                           && Broken(Run(es + Reads(n, abort) + Solos(m, asks) + [Commit(n, 0, true)]).db, d, g)
  {
    hide Run, Careful, Reads, Solos, SafeTables, Reaches, Attempt, Observe, Broken;
    var t := Run(es).db;
    var part := es + Reads(n, abort);
    RunIsSafe(es);
    var asks, u := Execute(t, d, g);
    ReachesSafe(t, asks, u);
    ReadsObserve(es, n, abort);
    SolosReach(part, m, asks, u);
    StaleAbortBreaks(t, u, d, g, abort);
    RunAppend(part + Solos(m, asks), Commit(n, 0, true));
    CommitNext(Run(part + Solos(m, asks)), n, 0);
  }

  // ----- Deletes -----

  lemma DeletePlan(f: Flight, id: nat)
    requires f.req.verb == Delete && f.primary.Some? && Plan(f, id).Ok?
    ensures Plan(f, id).value == DeleteTx(f.req, f.primary.value)
  {
  }

  /** Deletes carry no version: one that passed its checks removes the row whatever has become of it. */
  lemma DeleteIsUnguarded(t: Tables, f: Flight, id: nat)
    requires f.req.verb == Delete && f.primary.Some? && Plan(f, id).Ok?
    ensures var r, k := Attempt(t, f, id), f.req.Subject();
      && (r.Ok? <==> IsLive(t, k))
      && (r.Ok? ==> r.value.rows == t.rows[k := t.rows[k].(live := false)]
                    && r.value.audits == t.audits + [Entry(f.req, Did(Delete), k, f.primary.value.status, Deleted)])
  {
    DeletePlan(f, id);
  }

  lemma {:induction false} LogCut(log: seq<Audit>, m: nat, k: Key)
    requires m < |log|
    ensures log[..|log| - 1][..m] == log[..m]
  {
  }

  /** The entries of `k` from the `m`-th on keep its status. */
  predicate Steady(log: seq<Audit>, m: nat, k: Key) {
    forall i :: m <= i < |log| && log[i].key == k ==> log[i].before == log[i].after
  }

  lemma EdgeRaises(kind: Kind, e: Audit)
    requires Linked(kind) && Edge(kind, e.before, e.after) && e.before != Blank
    ensures e.before == e.after || Rank(kind, e.before) < Rank(kind, e.after)
  {
  }

  lemma EdgeEnds(kind: Kind, h: seq<Audit>)
    requires Unbroken(kind, h) && h != []
    ensures Final(h) != Blank
  {
  }

  /** Directives and confirmations do not return to a status, so it is the same at two moments exactly if no entry in
      between changed it. */
  lemma {:induction false} StatusReturns(kind: Kind, log: seq<Audit>, m: nat, k: Key)
    requires Linked(kind) && m <= |log| && Unbroken(kind, History(log, k)) && History(log[..m], k) != []
    requires forall i :: 0 <= i < |log| ==> !Deletes(log[i], k)
    ensures History(log, k) != []
    ensures Rank(kind, Final(History(log[..m], k))) <= Rank(kind, Final(History(log, k)))
    ensures Final(History(log[..m], k)) == Final(History(log, k)) <==> Steady(log, m, k)
    decreases |log|
  {
    hide Edge, Rank, Unbroken, Steady;
    if m == |log| {
      assert log[..m] == log;
      assert Steady(log, m, k) by { SteadyAtEnd(log, k); }
    } else {
      var rest, e := log[..|log| - 1], log[|log| - 1];
      assert rest[..m] == log[..m] by { LogCut(log, m, k); }
      assert log == rest + [e];
      HistoryAppend(rest, e, k);
      SteadyAppend(rest, e, m, k);
      if e.key == k {
        HistoryEnds(kind, History(rest, k), e);
      }
      StatusReturns(kind, rest, m, k);
      if e.key == k {
        EdgeEnds(kind, History(rest, k));
        EdgeRaises(kind, e);
      }
    }
  }

  lemma SteadyAtEnd(log: seq<Audit>, k: Key)
    ensures Steady(log, |log|, k)
  {
  }

  lemma SteadyAppend(rest: seq<Audit>, e: Audit, m: nat, k: Key)
    requires m <= |rest|
    ensures Steady(rest + [e], m, k) <==> Steady(rest, m, k) && (e.key == k ==> e.before == e.after)
  {
    var log := rest + [e];
    assert log[|rest|] == e && forall i :: 0 <= i < |rest| ==> log[i] == rest[i];
  }

  lemma HistoryEnds(kind: Kind, h: seq<Audit>, e: Audit)
    requires Unbroken(kind, h + [e])
    ensures Unbroken(kind, h) && e.before == Final(h) && Edge(kind, e.before, e.after)
  {
    hide Edge;
    UnbrokenPrefix(kind, h + [e]);
    assert (h + [e])[..|h|] == h && (h + [e])[|h|] == e;
  }

  /** When the entry of a delete continues the history of a directive or confirmation: exactly if no entry since the
      read has changed its status. */
  lemma {:induction false} DeleteJoinsHistory(es: seq<Event>, more: seq<Event>, n: nat, id: nat)
    requires Careful(es + more) && n in Run(es + more).flights
    requires var f := Run(es + more).flights[n];
      && f.req.verb == Delete && Linked(f.req.kind) && f.primary.Some? && Plan(f, id).Ok?
      && f.primary == Find(Run(es).db, f.req.Subject()) && Attempt(Run(es + more).db, f, id).Ok?
    ensures var f := Run(es + more).flights[n];
      var log, u := Run(es + more).db.audits, Attempt(Run(es + more).db, f, id).value;
      && |u.audits| == |log| + 1 && |Run(es).db.audits| <= |log|
      && (u.audits[|log|].before == Final(History(log, f.req.Subject()))
          <==> Steady(log, |Run(es).db.audits|, f.req.Subject()))
  {
    hide Run, Careful, SafeTables, Plan, Attempt, Steady, Unbroken, Lawful;
    var f := Run(es + more).flights[n];
    var k, t, u := f.req.Subject(), Run(es).db, Run(es + more).db;
    DeleteIsUnguarded(u, f, id);
    RunExtends(es, more);
    CarefulPrefix(es, more);
    RunIsSafe(es);
    RunIsSafe(es + more);
    FinalIsStatus(t, k);
    FinalIsStatus(u, k);
    assert u.audits[..|t.audits|] == t.audits;
    LivenessIsLogged(es + more, k);
    StatusReturns(k.kind, u.audits, |t.audits|, k);
  }

  /** The last entry deletes a directive in execution as if it were still a draft; its gate is live. */
  ghost predicate Lost(es: seq<Event>, d: Key, g: Key) {
    var t := Run(es).db;
    && d in t.rows && t.rows[d].status == Executing && !t.rows[d].live && IsLive(t, g)
    && t.audits != [] && Deletes(t.audits[|t.audits| - 1], d)
    && t.audits[|t.audits| - 1].before == Draft && Final(History(t.audits, d)) == Executing
  }

  ghost predicate LostForever(es: seq<Event>, d: Key, g: Key) {
    && Careful(es) && Lost(es, d, g)
    && forall more :: d in Run(es + more).db.rows && Run(es + more).db.rows[d].status == Executing
  }

  /** A delete that read the draft and commits late removes a directive in execution, which then never leaves execution
      although its gate is live, and whose history its entry does not continue. At most four requests in the meantime
      make this happen, from every state of a careful run with a live draft and a live gate. */
  lemma {:induction false} LateDeleteLosesDirective(es: seq<Event>, n: nat, m: nat, d: Key, g: Key)
    requires Careful(es) && n != m && n !in Run(es).flights && m !in Run(es).flights
    requires Ready(Run(es).db, d, g) && Run(es).db.rows[d].status == Draft
    ensures exists asks :: |asks| <= 4
                           && LostForever(es + Reads(n, Removal(d, "operator")) + Solos(m, asks)
                                          + [Commit(n, 0, true)], d, g)
  {
    hide Run, Careful, Reads, Solos, SafeTables, Reaches, Attempt, Observe;
    var t, req := Run(es).db, Removal(d, "operator");
    var part := es + Reads(n, req);
    RunIsSafe(es);
    var asks, u := Dispatch(t, d, g);
    ReadsObserve(es, n, req);
    SolosReach(part, m, asks, u);
    RemovalPlan(t, d);
    DeleteIsUnguarded(u, Observe(t, req), 0);
    FinalIsStatus(u, d);
    var done := part + Solos(m, asks);
    RunAppend(done, Commit(n, 0, true));
    CommitNext(Run(done), n, 0);
    CarefulAppend(done, Commit(n, 0, true));
    var all := done + [Commit(n, 0, true)];
    var e := Entry(req, Did(Delete), d, Draft, Deleted);
    HistoryAppend(u.audits, e, d);
    assert Run(all).db.audits[|u.audits|] == e;
    forall more ensures d in Run(all + more).db.rows && Run(all + more).db.rows[d].status == Executing {
      DeadRowsAreFinal(all, more, d);
    }
    assert Lost(all, d, g);
    assert LostForever(all, d, g);
  }

  lemma RemovalPlan(t: Tables, d: Key)
    requires IsLive(t, d) && d.kind == OperationDirective && t.rows[d].status == Draft
    ensures var f := Observe(t, Removal(d, "operator"));
      f.req == Removal(d, "operator") && f.primary == Some(t.rows[d]) && Plan(f, 0).Ok?
  {
  }
}
