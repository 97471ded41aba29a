/** Requests served one after the other: the whole log replays, deletes included. */
module Sequential {
  import opened Text
  import opened Model
  import opened Store
  import opened Planning
  import opened Journal
  import opened Protocol
  import opened Laws
  import opened Lives
  import opened Safety
  import opened Consistency
  import opened Alone
  import opened Outcomes

  /** What the log says of `k` is what the tables say. */
  ghost predicate Logged(t: Tables, k: Key) {
    var h := Trail(t.audits, k);
    && Chained(k.kind, h)
    && (if k !in t.rows then h == [] else h != [] && Final(h) == if t.rows[k].live then t.rows[k].status else Deleted)
    && (k in t.rows ==> t.rows[k].status != Blank)
    && (k in t.rows && !t.rows[k].live ==> EndsWithDelete(h, t.rows[k].status))
  }

  /** The last entry deletes a row of this status. */
  predicate EndsWithDelete(h: seq<Audit>, status: Status) {
    h != [] && h[|h| - 1].action == Did(Delete) && h[|h| - 1].before == status
  }

  ghost predicate AllLogged(t: Tables) {
    forall k :: Logged(t, k)
  }

  lemma ChainedAppend(kind: Kind, h: seq<Audit>, e: Audit)
    requires Chained(kind, h) && e.before == Final(h)
    requires if e.action == Did(Delete) then e.after == Deleted else Edge(kind, e.before, e.after)
    ensures Chained(kind, h + [e]) && Final(h + [e]) == e.after
  {
    hide Edge;
  }

  /** A delete that saw the status the row has. */
  predicate Seeing(t: Tables, s: Step) {
    s.change.Bury? ==>
      s.change.key in t.rows && s.audit.before == t.rows[s.change.key].status && s.audit.after == Deleted
  }

  lemma InsertEdge(t: Tables, s: Step, u: Tables)
    requires s.change.Insert? && WellShaped(s) && Legal(t, s) && Seeing(t, s) && ApplyStep(t, s) == Ok(u)
    requires s.change.key in t.rows ==> t.rows[s.change.key].status != Blank
    ensures s.audit.before == if s.change.key in t.rows then t.rows[s.change.key].status else Blank
    ensures if s.audit.action == Did(Delete) then s.audit.after == Deleted
            else Edge(s.change.key.kind, s.audit.before, s.audit.after)
    ensures s.change.key in t.rows ==> t.rows[s.change.key].live
    ensures s.change.key in u.rows && u.rows[s.change.key].status != Blank
    ensures s.audit.after == if u.rows[s.change.key].live then u.rows[s.change.key].status else Deleted
    ensures !u.rows[s.change.key].live ==> EndsWithDelete([s.audit], u.rows[s.change.key].status)
  {
    hide CanTransition;
    StepEffect(t, s, u);
  }

  lemma SwapEdge(t: Tables, s: Step, u: Tables)
    requires s.change.Swap? && WellShaped(s) && Legal(t, s) && Seeing(t, s) && ApplyStep(t, s) == Ok(u)
    requires s.change.key in t.rows ==> t.rows[s.change.key].status != Blank
    ensures s.audit.before == if s.change.key in t.rows then t.rows[s.change.key].status else Blank
    ensures if s.audit.action == Did(Delete) then s.audit.after == Deleted
            else Edge(s.change.key.kind, s.audit.before, s.audit.after)
    ensures s.change.key in t.rows ==> t.rows[s.change.key].live
    ensures s.change.key in u.rows && u.rows[s.change.key].status != Blank
    ensures s.audit.after == if u.rows[s.change.key].live then u.rows[s.change.key].status else Deleted
    ensures !u.rows[s.change.key].live ==> EndsWithDelete([s.audit], u.rows[s.change.key].status)
  {
    hide CanTransition;
    MoveLeads(s.change.key, t.rows[s.change.key], s.change.row, s.approval, s.audit);
    hide Move, Edge, Birth;
    StepEffect(t, s, u);
  }

  lemma BuryEdge(t: Tables, s: Step, u: Tables)
    requires s.change.Bury? && WellShaped(s) && Legal(t, s) && Seeing(t, s) && ApplyStep(t, s) == Ok(u)
    requires s.change.key in t.rows ==> t.rows[s.change.key].status != Blank
    ensures s.audit.before == if s.change.key in t.rows then t.rows[s.change.key].status else Blank
    ensures if s.audit.action == Did(Delete) then s.audit.after == Deleted
            else Edge(s.change.key.kind, s.audit.before, s.audit.after)
    ensures s.change.key in t.rows ==> t.rows[s.change.key].live
    ensures s.change.key in u.rows && u.rows[s.change.key].status != Blank
    ensures s.audit.after == if u.rows[s.change.key].live then u.rows[s.change.key].status else Deleted
    ensures !u.rows[s.change.key].live ==> EndsWithDelete([s.audit], u.rows[s.change.key].status)
  {
    hide Edge;
    StepEffect(t, s, u);
  }

  lemma MoveLeads(k: Key, r: Record, q: Record, a: Option<Approval>, e: Audit)
    requires Move(k, r, q, a, e) && r.status != Blank
    ensures e.before == r.status && e.after == q.status && q.status != Blank && q.live
    ensures Edge(k.kind, e.before, e.after)
  {
  }

  lemma StepEdge(t: Tables, s: Step, u: Tables)
    requires WellShaped(s) && Legal(t, s) && Seeing(t, s) && ApplyStep(t, s) == Ok(u)
    requires s.change.key in t.rows ==> t.rows[s.change.key].status != Blank
    ensures s.audit.before == if s.change.key in t.rows then t.rows[s.change.key].status else Blank
    ensures if s.audit.action == Did(Delete) then s.audit.after == Deleted
            else Edge(s.change.key.kind, s.audit.before, s.audit.after)
    ensures s.change.key in t.rows ==> t.rows[s.change.key].live
    ensures s.change.key in u.rows && u.rows[s.change.key].status != Blank
    ensures s.audit.after == if u.rows[s.change.key].live then u.rows[s.change.key].status else Deleted
    ensures !u.rows[s.change.key].live ==> EndsWithDelete([s.audit], u.rows[s.change.key].status)
  {
    hide Edge, Legal, ApplyStep, Seeing;
    match s.change
    case Insert(_, _) => InsertEdge(t, s, u);
    case Swap(_, _, _) => SwapEdge(t, s, u);
    case Bury(_) => BuryEdge(t, s, u);
  }

  lemma WrittenLogged(t: Tables, s: Step, u: Tables)
    requires Logged(t, s.change.key) && WellShaped(s) && Legal(t, s) && Seeing(t, s) && ApplyStep(t, s) == Ok(u)
    ensures Logged(u, s.change.key)
  {
    hide Legal, Edge, Chained;
    var k := s.change.key;
    StepEdge(t, s, u);
    StepEffect(t, s, u);
    TrailAppend(t.audits, s.audit, k);
    ChainedAppend(k.kind, Trail(t.audits, k), s.audit);
  }

  lemma OtherLogged(t: Tables, s: Step, u: Tables, k: Key)
    requires Logged(t, k) && WellShaped(s) && ApplyStep(t, s) == Ok(u) && k != s.change.key
    ensures Logged(u, k)
  {
    hide Edge, Chained, ApplyStep;
    StepEffect(t, s, u);
    TrailAppend(t.audits, s.audit, k);
  }

  lemma StepLogged(t: Tables, s: Step, u: Tables)
    requires AllLogged(t) && WellShaped(s) && Legal(t, s) && Seeing(t, s) && ApplyStep(t, s) == Ok(u)
    ensures AllLogged(u)
  {
    hide ApplyStep, Legal, Logged;
    StepEffect(t, s, u);
    forall k ensures Logged(u, k) {
      assert Logged(t, k);
      if k == s.change.key {
        WrittenLogged(t, s, u);
      } else {
        OtherLogged(t, s, u, k);
      }
    }
  }

  predicate AllSeeing(t: Tables, tx: Tx) {
    && Seeing(t, tx.first)
    && (tx.second.Some? ==> tx.second.value.change.Swap?)
    && (tx.third.Some? ==> tx.third.value.change.Swap?)
  }

  lemma TxLogged(t: Tables, tx: Tx, u: Tables)
    requires AllLogged(t) && Tidy(tx) && LegalTx(t, tx) && AllSeeing(t, tx) && ApplyTx(t, tx) == Ok(u)
    ensures AllLogged(u)
  {
    hide AllLogged, ApplyStep, ValidBlock, Move;
    TidyDistinct(tx);
    var t1 := ApplyStep(t, tx.first).value;
    StepEffect(t, tx.first, t1);
    StepLogged(t, tx.first, t1);
    if tx.second.Some? {
      var t2 := ApplyStep(t1, tx.second.value).value;
      StepEffect(t1, tx.second.value, t2);
      StepLogged(t1, tx.second.value, t2);
      if tx.third.Some? {
        StepLogged(t2, tx.third.value, u);
      }
    }
  }

  lemma BurySees(t: Tables, req: Request, id: nat)
    requires Plan(Observe(t, req), id).Ok?
    ensures Seeing(t, Plan(Observe(t, req), id).value.first)
  {
    hide EqualFold, Norm, Trim, Filled, CanTransition, MoveStep, FindByCode;
  }

  lemma PlanSees(t: Tables, req: Request, id: nat)
    requires Plan(Observe(t, req), id).Ok?
    ensures AllSeeing(t, Plan(Observe(t, req), id).value)
  {
    hide Plan, Observe;
    PlanVersions(Observe(t, req), id);
    BurySees(t, req, id);
  }

  lemma ServeLogged(t: Tables, req: Request, id: nat)
    requires SafeTables(t) && AllLogged(t) && Bound(req) && Serve(t, req, id).Ok?
    ensures AllLogged(Serve(t, req, id).value)
  {
    hide Plan, SafeFlight, Observe, ApplyTx, Honest, Tidy, LegalTx, AllSeeing, AllLogged;
    var f, u := Observe(t, req), Serve(t, req, id).value;
    ServesAttempt(t, req, id);
    ObserveSafe(t, req);
    ServedIsHonest(t, req, id);
    PlanSees(t, req, id);
    PlanKept(t, f, id, u);
    TxLogged(t, Plan(f, id).value, u);
  }

  lemma PlanKept(t: Tables, f: Flight, id: nat, u: Tables)
    requires SafeTables(t) && SafeFlight(t, f) && Honest(f)
    requires Plan(f, id).Ok? && ApplyTx(t, Plan(f, id).value) == Ok(u)
    ensures Tidy(Plan(f, id).value) && LegalTx(t, Plan(f, id).value)
  {
    hide Plan, ApplyTx;
    PlanTidy(f, id);
    CommitLegal(t, f, id, u);
  }

  predicate AllBound(asks: seq<Ask>) {
    forall i :: 0 <= i < |asks| ==> Bound(asks[i].req)
  }

  lemma {:induction false} SolosLogged(es: seq<Event>, n: nat, asks: seq<Ask>)
    requires n !in Run(es).flights && AllBound(asks) && SafeTables(Run(es).db) && AllLogged(Run(es).db)
    ensures AllLogged(Run(es + Solos(n, asks)).db)
    decreases |asks|
  {
    hide Run, Solo, Serve, SafeTables, AllLogged, Bound;
    if asks == [] {
      assert es + Solos(n, asks) == es;
    } else {
      var t, req, id := Run(es).db, asks[0].req, asks[0].id;
      assert Bound(req);
      if Serve(t, req, id).Ok? {
        ServeLogged(t, req, id);
        ServeSafe(t, req, id);
      }
      SoloServes(es, n, req, id);
      SolosLogged(es + Solo(n, req, id), n, asks[1..]);
      assert es + Solo(n, req, id) + Solos(n, asks[1..]) == es + Solos(n, asks);
    }
  }

  lemma RunsLogged(n: nat, asks: seq<Ask>)
    requires AllBound(asks)
    ensures AllLogged(Run(Solos(n, asks)).db)
  {
    hide Solos, SafeTables;
    assert Run([]) == INITIAL;
    RunIsSafe([]);
    assert AllLogged(EMPTY);
    SolosLogged([], n, asks);
    assert [] + Solos(n, asks) == Solos(n, asks);
  }

  /** One request at a time, successful or not, with whatever versions: all the entries of a row, a delete included,
      form an unbroken chain from nothing to its status, or to `Deleted` exactly if it is deleted. */
  lemma {:induction false} SequentialReplay(n: nat, asks: seq<Ask>, k: Key)
    requires AllBound(asks)
    ensures var t := Run(Solos(n, asks)).db;
      var h := Trail(t.audits, k);
      && (h != [] ==> h[0].before == Blank)
      && (forall i :: 0 < i < |h| ==> h[i].before == h[i - 1].after)
      && (forall i :: 0 <= i < |h| ==>
            if h[i].action == Did(Delete) then h[i].after == Deleted else Edge(k.kind, h[i].before, h[i].after))
      && Final(h) == (if k !in t.rows then Blank else if t.rows[k].live then t.rows[k].status else Deleted)
  {
    hide Solos;
    RunsLogged(n, asks);
    assert Logged(Run(Solos(n, asks)).db, k);
  }

  lemma {:induction false} TrailMember(log: seq<Audit>, k: Key, e: Audit)
    requires e in Trail(log, k)
    ensures e in log && e.key == k
  {
    var last, rest := log[|log| - 1], log[..|log| - 1];
    if e in Trail(rest, k) {
      TrailMember(rest, k, e);
    }
  }

  /** One request at a time: what is deleted is what the request that deletes it saw. A deleted directive was, and is, a
      draft; a deleted confirmation is pending. */
  lemma {:induction false} DeletedAsDrafts(n: nat, asks: seq<Ask>, k: Key)
    requires AllBound(asks)
    ensures var rows := Run(Solos(n, asks)).db.rows;
      k in rows && !rows[k].live ==>
        && (k.kind == OperationDirective ==> rows[k].status == Draft)
        && (k.kind == ExecutionConfirmation ==> rows[k].status == Pending)
  {
    hide Solos, SafeTables, Run;
    var t := Run(Solos(n, asks)).db;
    RunsLogged(n, asks);
    assert Logged(t, k);
    if k in t.rows && !t.rows[k].live {
      var h := Trail(t.audits, k);
      var e := h[|h| - 1];
      TrailMember(t.audits, k, e);
      var i :| 0 <= i < |t.audits| && t.audits[i] == e;
      DeletedWhile(Solos(n, asks), i);
    }
  }
}
