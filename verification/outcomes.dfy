/** The main results about careful runs. */
module Outcomes {
  import opened Text
  import opened Model
  import opened Store
  import opened Planning
  import opened Journal
  import opened Protocol
  import opened Laws
  import opened Lives
  import opened Safety
  import opened Consistency

  // ----- Optimistic locking -----

  /** The live row `k` is `r`. */
  predicate IsNow(t: Tables, k: Key, r: Record) {
    IsLive(t, k) && t.rows[k] == r
  }

  /** Whatever happened between its reads and its commit, a commit that succeeds writes only rows that are still what
      the request read and validated. */
  lemma {:induction false} OptimisticLockSound(es: seq<Event>, n: nat, id: nat)
    requires Careful(es) && n in Run(es).flights && Honest(Run(es).flights[n])
    requires Attempt(Run(es).db, Run(es).flights[n], id).Ok?
    ensures var t, f := Run(es).db, Run(es).flights[n];
      var tx := Plan(f, id).value;
      && (tx.first.change.Swap? ==> f.primary.Some? && IsNow(t, f.req.Subject(), f.primary.value))
      && (tx.second.Some? ==> f.link.Some? && IsNow(t, f.link.value.key, f.link.value.row))
      && (tx.third.Some? ==> f.second.Some? && IsNow(t, f.second.value.key, f.second.value.row))
  {
    RunSafe(es);
    var t, f := Run(es).db, Run(es).flights[n];
    var u := Attempt(t, f, id).value;
    CommitSeesSnapshots(t, f, id, u);
    PlanTidy(f, id);
    TxCurrent(t, Plan(f, id).value, u);
  }

  /** At some moment of the run, row `k` showed this version. */
  ghost predicate ShownBefore(es: seq<Event>, k: Key, version: nat) {
    exists i :: 0 <= i <= |es| && k in Run(es[..i]).db.rows && Run(es[..i]).db.rows[k].version == version
  }

  /** Every update and transition carries a version that its row showed before the request started. */
  ghost predicate SendsShownVersions(es: seq<Event>) {
    forall i :: 0 <= i < |es| && es[i].Start? && SendsVersion(es[i].req) ==>
      ShownBefore(es[..i], es[i].req.Subject(), es[i].req.expected)
  }

  /** No request under way is ahead of its row, neither as it is nor as it was read. */
  ghost predicate Behind(s: System) {
    forall n :: n in s.flights && SendsVersion(s.flights[n].req) ==>
      && s.flights[n].req.Subject() in s.db.rows
      && s.flights[n].req.expected <= s.db.rows[s.flights[n].req.Subject()].version
      && Honest(s.flights[n])
  }

  lemma {:induction false} ShownIsBehind(es: seq<Event>, k: Key, version: nat)
    requires ShownBefore(es, k, version)
    ensures k in Run(es).db.rows && version <= Run(es).db.rows[k].version
  {
    hide Run;
    var i :| 0 <= i <= |es| && k in Run(es[..i]).db.rows && Run(es[..i]).db.rows[k].version == version;
    assert es[..i] + es[i..] == es;
    RunExtends(es[..i], es[i..]);
  }

  lemma NextBehind(s: System, e: Event)
    requires LawfulSystem(s) && Behind(s)
    requires e.Start? && SendsVersion(e.req) ==>
      e.req.Subject() in s.db.rows && e.req.expected <= s.db.rows[e.req.Subject()].version
    ensures Behind(Next(s, e))
  {
    hide Lawful, WellRead, Attempt, Follow, Unclaimed;
    NextLawful(s, e);
  }

  /** Clients that send the versions they were shown make a careful run, whatever the order of its events. */
  lemma {:induction false} ShownVersionsAreHonest(es: seq<Event>)
    requires SendsShownVersions(es)
    ensures Careful(es) && Behind(Run(es))
  {
    hide Next, Behind, Honest, LawfulSystem;
    if es == [] {
      assert Behind(INITIAL) by { NobodyIsBehind(); }
    } else {
      var part, e := es[..|es| - 1], es[|es| - 1];
      assert forall i :: 0 <= i < |part| ==> part[i] == es[i] && part[..i] == es[..i];
      ShownVersionsAreHonest(part);
      RunLawful(part);
      if e.Start? && SendsVersion(e.req) {
        ShownIsBehind(part, e.req.Subject(), e.req.expected);
      }
      NextBehind(Run(part), e);
      BehindIsCareful(Run(part), e);
    }
  }

  lemma NobodyIsBehind()
    ensures Behind(INITIAL)
  {
  }

  lemma BehindIsCareful(s: System, e: Event)
    requires Behind(s)
    ensures CarefulEvent(s, e)
  {
  }

  // ----- Version steps -----

  /** Each commit raises the version of a row it writes by exactly one, and does not touch the others; this needs no
      honesty of anybody. */
  lemma {:induction false} CommitRaisesVersionsByOne(es: seq<Event>, n: nat, id: nat, k: Key)
    requires n in Run(es).flights && k in Run(es).db.rows && Attempt(Run(es).db, Run(es).flights[n], id).Ok?
    ensures var t, u := Run(es).db, Attempt(Run(es).db, Run(es).flights[n], id).value;
      && k in u.rows
      && u.rows[k].version == t.rows[k].version + (if Writes(Plan(Run(es).flights[n], id).value, k) then 1 else 0)
      && (!Writes(Plan(Run(es).flights[n], id).value, k) ==> u.rows[k] == t.rows[k].(live := u.rows[k].live))
  {
    RunLawful(es);
    var t, f := Run(es).db, Run(es).flights[n];
    PlanTidy(f, id);
    TxVersions(t, Plan(f, id).value, Attempt(t, f, id).value, k);
  }

  // ----- Audit replay -----

  /** Replaying the log: the history of every row is unbroken, every entry of it is an edge, and it ends in the row's
      status after as many entries as the row has versions. */
  lemma {:induction false} AuditReplay(es: seq<Event>, k: Key)
    requires Careful(es) && k in Run(es).db.rows
    ensures var t := Run(es).db; var h := History(t.audits, k);
      && h != [] && h[0].before == Blank
      && (forall i :: 0 < i < |h| ==> h[i].before == h[i - 1].after)
      && (forall i :: 0 <= i < |h| ==> Edge(k.kind, h[i].before, h[i].after))
      && h[|h| - 1].after == t.rows[k].status && |h| == t.rows[k].version
  {
    hide Run, Careful, SafeTables, Edge;
    RunIsSafe(es);
    FinalIsStatus(Run(es).db, k);
    VersionCountsEntries(es, k);
  }

  // ----- Two persons -----

  /** Nobody decides alone: the approval rows of a directive are exactly those its state calls for. */
  lemma {:induction false} TwoPersonEvidence(es: seq<Event>, d: Key)
    requires Careful(es) && IsDirective(Run(es).db, d)
    ensures var row, own := Run(es).db.rows[d], ApprovalsOf(Run(es).db.approvals, d.id);
      && ((row.status == Approved || row.status == Executing || row.status == Completed) ==>
            |own| == 2 && SubmittedBy(row, own[0]) && ApprovedBy(row, own[1])
            && row.submittedBy != "" && row.approvedBy != "" && !SameName(row.submittedBy, row.approvedBy))
      && (row.status == Pending ==> |own| == 1 && SubmittedBy(row, own[0]))
      && (row.status == Draft ==> own == [])
      && (row.status == Aborted && row.approvedBy == "" ==> |own| == 1 && SubmittedBy(row, own[0]))
      && (row.status == Aborted && row.approvedBy != "" ==>
            |own| == 2 && SubmittedBy(row, own[0]) && ApprovedBy(row, own[1])
            && !SameName(row.submittedBy, row.approvedBy))
  {
    hide Run, Careful, SafeTables, EqualFold, SameName;
    EqualFoldIsExact(Run(es).db.rows[d].submittedBy, Run(es).db.rows[d].approvedBy);
    RunIsSafe(es);
    DirectiveAttested(Run(es).db, d);
  }

  // ----- Consistency across entities -----

  lemma CompletedIsConfirmed(t: Tables, d: Key)
    requires Consistent(t) && IsDirective(t, d)
    ensures t.rows[d].status == Completed <==> exists c :: Names(t, c, d) && t.rows[c].status == Confirmed
  {
    if t.rows[d].status == Completed {
      var c :| Names(t, c, d);
      assert Agree(t.rows[c], t.rows[d]);
    } else {
      forall c | Names(t, c, d) ensures t.rows[c].status != Confirmed {
        assert Agree(t.rows[c], t.rows[d]);
      }
    }
  }

  lemma TablesAgree(t: Tables, d: Key)
    requires Consistent(t) && UniqueRelated(t.rows) && IsDirective(t, d)
    ensures t.rows[d].status == Completed <==> exists c :: Names(t, c, d) && t.rows[c].status == Confirmed
    ensures forall c :: Names(t, c, d) ==> StatesAgree(t.rows[c].status, t.rows[d].status)
    ensures forall b, c :: Names(t, b, d) && Names(t, c, d) ==> b == c
  {
    CompletedIsConfirmed(t, d);
    hide StatesAgree;
    forall c | Names(t, c, d) ensures StatesAgree(t.rows[c].status, t.rows[d].status) {
      assert Agree(t.rows[c], t.rows[d]);
    }
  }

  /** Completion is exactly confirmation, failure means abortion, a pending confirmation means execution or abortion,
      and a directive has at most one confirmation ever. */
  lemma {:induction false} EntitiesAgree(es: seq<Event>, d: Key)
    requires Careful(es) && IsDirective(Run(es).db, d)
    ensures var t := Run(es).db;
      && (t.rows[d].status == Completed <==> exists c :: Names(t, c, d) && t.rows[c].status == Confirmed)
      && (forall c :: Names(t, c, d) ==> StatesAgree(t.rows[c].status, t.rows[d].status))
      && (forall b, c :: Names(t, b, d) && Names(t, c, d) ==> b == c)
  {
    RunSafe(es);
    TablesAgree(Run(es).db, d);
  }

  /** Every confirmation names a directive, and says the same about facility, category and risk as it does. */
  lemma {:induction false} ConfirmationsCopyDirectives(es: seq<Event>, c: Key)
    requires Careful(es) && IsConfirmation(Run(es).db, c)
    ensures exists d :: Names(Run(es).db, c, d)
    ensures forall d :: Names(Run(es).db, c, d) ==>
      var p, q := Run(es).db.rows[c], Run(es).db.rows[d];
      p.facility == q.facility && p.category == q.category && p.riskLevel == q.riskLevel
  {
    RunSafe(es);
    var t := Run(es).db;
    forall d | Names(t, c, d) ensures t.rows[c].facility == t.rows[d].facility
        && t.rows[c].category == t.rows[d].category && t.rows[c].riskLevel == t.rows[d].riskLevel {
      assert Agree(t.rows[c], t.rows[d]);
    }
  }

  // ----- One outcome -----

  /** Some step of the transaction takes directive `d` out of execution. */
  predicate Decides(tx: Tx, d: Key) {
    Leaves(tx.first, d) || (tx.second.Some? && Leaves(tx.second.value, d))
  }

  predicate Leaves(s: Step, d: Key) {
    s.change.Swap? && s.change.key == d && s.audit.before == Executing && s.audit.after != Executing
  }

  lemma LegalDecision(t: Tables, tx: Tx, d: Key)
    requires LegalTx(t, tx) && Decides(tx, d) && d in t.rows
    ensures t.rows[d].status == Executing
  {
  }

  lemma LateAttemptFails(t: Tables, f: Flight, id: nat, d: Key)
    requires SafeTables(t) && SafeFlight(t, f) && Honest(f) && Plan(f, id).Ok? && Decides(Plan(f, id).value, d)
    requires d in t.rows && t.rows[d].status != Executing
    ensures Attempt(t, f, id).Err?
  {
    var r := Attempt(t, f, id);
    if r.Ok? {
      CommitLegal(t, f, id, r.value);
      LegalDecision(t, Plan(f, id).value, d);
    }
  }

  /** Of all the aborts, confirmations and failures that race for a directive, one that comes after the decision
      changes nothing at all. */
  lemma {:induction false} LateDecisionChangesNothing(es: seq<Event>, n: nat, id: nat, healthy: bool, d: Key)
    requires Careful(es) && n in Run(es).flights && Honest(Run(es).flights[n])
    requires Plan(Run(es).flights[n], id).Ok? && Decides(Plan(Run(es).flights[n], id).value, d)
    requires IsDirective(Run(es).db, d) && Run(es).db.rows[d].status != Executing
    ensures Run(es + [Commit(n, id, healthy)]).db == Run(es).db
  {
    hide Run, Careful, SafeTables, SafeFlight, Plan, Attempt, Decides;
    RunSafe(es);
    LateAttemptFails(Run(es).db, Run(es).flights[n], id, d);
    RunAppend(es, Commit(n, id, healthy));
  }

  /** The path of a directive and its departures from execution, told by the status it is in. */
  predicate Travelled(status: Status, path: seq<Status>, departures: nat) {
    match status
    case Draft => path == [Draft] && departures == 0
    case Pending => path == [Draft, Pending] && departures == 0
    case Approved => path == [Draft, Pending, Approved] && departures == 0
    case Executing => path == [Draft, Pending, Approved, Executing] && departures == 0
    case Completed => path == [Draft, Pending, Approved, Executing, Completed] && departures == 1
    case Aborted =>
      || (path == [Draft, Pending, Aborted] && departures == 0)
      || (path == [Draft, Pending, Approved, Aborted] && departures == 0)
      || (path == [Draft, Pending, Approved, Executing, Aborted] && departures == 1)
    case _ => false
  }

  lemma TravelsOn(from: Status, to: Status, path: seq<Status>, departures: nat)
    requires Travelled(from, path, departures) && Edge(OperationDirective, from, to)
    ensures if from == to then true
            else Travelled(to, path + [to], departures + if from == Executing then 1 else 0)
  {
  }

  /** How the statuses of a directive can follow each other. */
  lemma {:induction false} DirectivePath(h: seq<Audit>)
    requires Unbroken(OperationDirective, h) && h != []
    ensures Travelled(Final(h), Path(h), Departures(h, Executing))
  {
    hide Edge, Travelled;
    var rest, e := h[..|h| - 1], h[|h| - 1];
    assert Edge(OperationDirective, e.before, e.after);
    UnbrokenPrefix(OperationDirective, h);
    if rest == [] {
      FirstTravel(e);
      assert Path(h) == [] + [e.after];
    } else {
      DirectivePath(rest);
      TravelsOn(e.before, e.after, Path(rest), Departures(rest, Executing));
    }
  }

  lemma FirstTravel(e: Audit)
    requires Edge(OperationDirective, e.before, e.after) && e.before == Blank
    ensures e.after == Draft && Travelled(e.after, [] + [e.after], 0)
  {
  }

  lemma TravelledTells(status: Status, path: seq<Status>, departures: nat)
    requires Travelled(status, path, departures)
    ensures departures <= 1 && |path| <= 5
    ensures status == Completed ==> path == [Draft, Pending, Approved, Executing, Completed]
    ensures status == Aborted ==>
      || path == [Draft, Pending, Aborted]
      || path == [Draft, Pending, Approved, Aborted]
      || path == [Draft, Pending, Approved, Executing, Aborted]
    ensures status != Completed && status != Aborted ==> departures == 0
  {
  }

  /** The path of a directive is determined by where it ends, and it leaves execution at most once. */
  lemma {:induction false} UniqueHistory(es: seq<Event>, d: Key)
    requires Careful(es) && IsDirective(Run(es).db, d)
    ensures var status, h := Run(es).db.rows[d].status, History(Run(es).db.audits, d);
      && Departures(h, Executing) <= 1 && |Path(h)| <= 5
      && (status == Completed ==> Path(h) == [Draft, Pending, Approved, Executing, Completed])
      && (status == Aborted ==>
            || Path(h) == [Draft, Pending, Aborted]
            || Path(h) == [Draft, Pending, Approved, Aborted]
            || Path(h) == [Draft, Pending, Approved, Executing, Aborted])
      && (status != Completed && status != Aborted ==> Departures(h, Executing) == 0)
  {
    hide Run, Careful, Path, Departures, Edge, Unbroken, Travelled, SafeTables;
    RunIsSafe(es);
    var h := History(Run(es).db.audits, d);
    FinalIsStatus(Run(es).db, d);
    DirectivePath(h);
    TravelledTells(Final(h), Path(h), Departures(h, Executing));
  }

  // ----- Freezing and termination -----

  /** Once submitted, a directive only ever changes its status, version, approver and liveness. */
  lemma {:induction false} SubmittedDirectivesAreFrozen(es: seq<Event>, more: seq<Event>, d: Key)
    requires Careful(es + more) && IsDirective(Run(es).db, d) && Run(es).db.rows[d].status != Draft
    ensures IsDirective(Run(es + more).db, d)
    ensures var r, q := Run(es).db.rows[d], Run(es + more).db.rows[d];
      q.(status := r.status, version := r.version, approvedBy := r.approvedBy, live := r.live) == r
  {
    RunGrows(es, more);
  }

  lemma {:induction false} KnownDirective(es: seq<Event>, d: Key)
    requires Careful(es) && IsDirective(Run(es).db, d)
    ensures KnownStatus(OperationDirective, Run(es).db.rows[d].status)
  {
    RunSafe(es);
    var t := Run(es).db;
    assert Sound(d.kind, t.rows[d], History(t.audits, d), ApprovalsOf(t.approvals, d.id));
  }

  /** The steps in rank between two statuses of a directive. */
  function Climb(from: Status, to: Status): int {
    Rank(OperationDirective, to) - Rank(OperationDirective, from)
  }

  lemma GrownRanks(r: Record, q: Record)
    requires Grown(OperationDirective, r, q)
    requires KnownStatus(OperationDirective, r.status) && KnownStatus(OperationDirective, q.status)
    ensures Rank(OperationDirective, r.status) <= Rank(OperationDirective, q.status) <= 4
    ensures r.status == Pending ==> q.version <= r.version + 3
    ensures r.status != Draft ==> q.version - r.version <= Climb(r.status, q.status)
    ensures r.status != q.status ==> Rank(OperationDirective, r.status) < Rank(OperationDirective, q.status)
  {
  }

  /** Each version after submission is a step up in rank, so at most three follow. */
  lemma {:induction false} DirectivesTerminate(es: seq<Event>, more: seq<Event>, d: Key)
    requires Careful(es + more) && IsDirective(Run(es).db, d)
    ensures IsDirective(Run(es + more).db, d)
    ensures var r, q := Run(es).db.rows[d], Run(es + more).db.rows[d];
      && Rank(OperationDirective, r.status) <= Rank(OperationDirective, q.status) <= 4
      && (r.status == Pending ==> q.version <= r.version + 3)
      && (r.status != Draft ==> q.version - r.version <= Climb(r.status, q.status))
      && (r.status != q.status ==> Rank(OperationDirective, r.status) < Rank(OperationDirective, q.status))
  {
    RunGrows(es, more);
    CarefulPrefix(es, more);
    KnownDirective(es, d);
    KnownDirective(es + more, d);
    GrownRanks(Run(es).db.rows[d], Run(es + more).db.rows[d]);
  }

  // ----- Gates -----

  /** On any path of the gate graph, between a closed or locked gate and an open one there is a moving one. */
  lemma {:induction false} OpensThroughMoving(p: seq<Status>, i: nat, j: nat)
    requires forall m :: 0 < m < |p| ==> CanTransition(GateUnit, p[m - 1], p[m])
    requires i < j < |p| && (p[i] == Closed || p[i] == Locked) && p[j] == Open
    ensures exists m :: i < m < j && p[m] == Moving
    decreases j - i
  {
    assert CanTransition(GateUnit, p[i], p[i + 1]);
    if p[i + 1] != Moving {
      OpensThroughMoving(p, i + 1, j);
    }
  }

  /** Whichever service moves it, a gate walks along its graph, and opens through moving only. */
  lemma {:induction false} GatesMoveSafely(es: seq<Event>, g: Key)
    requires Careful(es) && g in Run(es).db.rows && g.kind == GateUnit
    ensures var p := Path(History(Run(es).db.audits, g));
      && p != [] && p[0] == Open && p[|p| - 1] == Run(es).db.rows[g].status
      && (forall m :: 0 < m < |p| ==> CanTransition(GateUnit, p[m - 1], p[m]))
      && (forall i, j | 0 <= i < j < |p| && (p[i] == Closed || p[i] == Locked) && p[j] == Open ::
            exists m :: i < m < j && p[m] == Moving)
  {
    hide Run, Careful, SafeTables, Path, Edge, CanTransition, Unbroken;
    RunIsSafe(es);
    var h := History(Run(es).db.audits, g);
    FinalIsStatus(Run(es).db, g);
    PathEnds(GateUnit, h);
    var p := Path(h);
    forall i, j | 0 <= i < j < |p| && (p[i] == Closed || p[i] == Locked) && p[j] == Open
      ensures exists m :: i < m < j && p[m] == Moving
    {
      OpensThroughMoving(p, i, j);
    }
  }

  /** The last linked row of a transaction is where it was meant to go: it is written to the goal, unless the request
      read it there already. */
  lemma MovedOrThere(t: Tables, tx: Tx, u: Tables, req: Request, action: Action, g: Snap, goal: Status)
    requires Tidy(tx) && ApplyTx(t, tx) == Ok(u) && g.key.kind == GateUnit
    requires var move := MoveStep(req, action, g, goal);
      tx.third == move || (tx.third.None? && tx.second == move)
    ensures g.row.status == goal || (g.key in u.rows && u.rows[g.key].status == goal)
  {
    var t1 := ApplyStep(t, tx.first).value;
    StepEffect(t, tx.first, t1);
    if tx.second.Some? {
      var t2 := ApplyStep(t1, tx.second.value).value;
      StepEffect(t1, tx.second.value, t2);
      if tx.third.Some? {
        StepEffect(t2, tx.third.value, u);
      }
    }
  }

  /** After an outcome the gate is where the outcome puts it, at the directive's goal or locked, if the commit wrote it;
      otherwise it was there when the request read it. */
  lemma {:induction false} OutcomePlacesGate(es: seq<Event>, n: nat, id: nat)
    requires n in Run(es).flights && Attempt(Run(es).db, Run(es).flights[n], id).Ok?
    requires Run(es).flights[n].req.verb == Transition && Run(es).flights[n].req.kind == ExecutionConfirmation
    requires Run(es).flights[n].primary.Some? && Run(es).flights[n].primary.value.status == Pending
    ensures var f, u := Run(es).flights[n], Attempt(Run(es).db, Run(es).flights[n], id).value;
      && f.link.Some? && f.second.Some?
      && (var goal := if f.req.target == Confirmed then f.link.value.row.gateState else Locked;
          f.second.value.row.status == goal
          || (f.second.value.key in u.rows && u.rows[f.second.value.key].status == goal))
  {
    RunLawful(es);
    var t, f := Run(es).db, Run(es).flights[n];
    var tx := Plan(f, id).value;
    PlanTidy(f, id);
    OutcomeTxShape(f, id);
    MovedOrThere(t, tx, Attempt(t, f, id).value, f.req, ExecutionOutcome, f.second.value,
                 GateOutcome(f.req.target, f.link.value.row));
  }

  lemma DirectiveCommitPlacesGate(t: Tables, f: Flight, id: nat, u: Tables)
    requires WellRead(f) && f.req.verb == Transition && f.req.kind == OperationDirective
    requires f.primary.Some? && NeedsGate(f.primary.value.status, f.req.target) && Attempt(t, f, id) == Ok(u)
    ensures f.link.Some? && GateFollowsDirective(u, f.req.target, f.primary.value, f.link.value)
  {
    hide Plan, ApplyTx, Tidy, WellRead;
    PlanTidy(f, id);
    GatedTxShape(f, id);
    var goal := GateGoal(f.primary.value, f.req.target, f.link.value.row);
    if goal.Some? {
      MovedOrThere(t, Plan(f, id).value, u, f.req, DirectiveExecution, f.link.value, goal.value);
    }
  }

  /** Where the gate is, or was when it was read, after an abort or the beginning of an execution. */
  predicate GateFollowsDirective(u: Tables, target: Status, row: Record, gate: Snap) {
    if target == Aborted
    then gate.row.status == Locked || (gate.key in u.rows && u.rows[gate.key].status == Locked)
    else || gate.row.status == row.gateState
         || gate.row.status == Moving || (gate.key in u.rows && u.rows[gate.key].status == Moving)
  }

  /** The same for the transitions of a directive: an abort leaves its gate locked, or had read it locked; the beginning
      of an execution leaves it moving, or had read it moving or where it has to go. */
  lemma {:induction false} DirectivePlacesGate(es: seq<Event>, n: nat, id: nat)
    requires n in Run(es).flights && Attempt(Run(es).db, Run(es).flights[n], id).Ok?
    requires Run(es).flights[n].req.verb == Transition && Run(es).flights[n].req.kind == OperationDirective
    requires var f := Run(es).flights[n]; f.primary.Some? && NeedsGate(f.primary.value.status, f.req.target)
    ensures var f, u := Run(es).flights[n], Attempt(Run(es).db, Run(es).flights[n], id).value;
      f.link.Some? && GateFollowsDirective(u, f.req.target, f.primary.value, f.link.value)
  {
    hide Run, Attempt, Lawful, WellRead, GateFollowsDirective;
    RunLawful(es);
    DirectiveCommitPlacesGate(Run(es).db, Run(es).flights[n], id, Attempt(Run(es).db, Run(es).flights[n], id).value);
  }

  lemma GatedTxShape(f: Flight, id: nat)
    requires WellRead(f) && f.req.verb == Transition && f.req.kind == OperationDirective && Plan(f, id).Ok?
    requires f.primary.Some? && NeedsGate(f.primary.value.status, f.req.target)
    ensures f.link.Some? && f.link.value.key.kind == GateUnit && Plan(f, id).value.third.None?
    ensures f.req.target == Aborted || f.req.target == Executing
    ensures var goal := GateGoal(f.primary.value, f.req.target, f.link.value.row);
      goal.Some? ==> Plan(f, id).value.second == MoveStep(f.req, DirectiveExecution, f.link.value, goal.value)
  {
    hide Norm, Trim, EqualFold, Proper;
  }

  lemma OutcomeTxShape(f: Flight, id: nat)
    requires WellRead(f) && f.req.verb == Transition && f.req.kind == ExecutionConfirmation && Plan(f, id).Ok?
    requires f.primary.Some? && f.primary.value.status == Pending
    ensures f.link.Some? && f.second.Some? && f.second.value.key.kind == GateUnit
    ensures var goal := GateOutcome(f.req.target, f.link.value.row);
      Plan(f, id).value.third == MoveStep(f.req, ExecutionOutcome, f.second.value, goal)
  {
  }

  lemma BlockSettles(b: seq<Audit>, e: Audit)
    requires ValidBlock(b) && e in b && e.action == ExecutionOutcome && e.key.kind == GateUnit
    ensures Settled(e.after)
  {
  }

  /** A directive outcome that moves a gate settles it; in no run does one leave a gate moving. */
  lemma {:induction false} OutcomesSettleGates(es: seq<Event>, i: nat)
    requires i < |Run(es).db.audits|
    requires Run(es).db.audits[i].action == ExecutionOutcome && Run(es).db.audits[i].key.kind == GateUnit
    ensures Settled(Run(es).db.audits[i].after)
  {
    var log := Run(es).db.audits;
    LogParses(es);
    FlattenMember(Blocks(log), log[i]);
    var j :| 0 <= j < |Blocks(log)| && log[i] in Blocks(log)[j];
    BlockSettles(Blocks(log)[j], log[i]);
  }

  lemma BlockDeletes(b: seq<Audit>, e: Audit)
    requires ValidBlock(b) && e in b
    ensures DeletesLawfully(e)
  {
  }

  /** Directives are deleted as drafts only, and confirmations while pending only, as far as the request that deletes
      them can tell; in every run. */
  lemma {:induction false} DeletedWhile(es: seq<Event>, i: nat)
    requires i < |Run(es).db.audits| && Run(es).db.audits[i].action == Did(Delete)
    ensures var e := Run(es).db.audits[i];
      && e.after == Deleted
      && (e.key.kind == OperationDirective ==> e.before == Draft)
      && (e.key.kind == ExecutionConfirmation ==> e.before == Pending)
  {
    hide ValidBlock, Run, Blocks, Flatten;
    var log := Run(es).db.audits;
    LogParses(es);
    FlattenMember(Blocks(log), log[i]);
    var j :| 0 <= j < |Blocks(log)| && log[i] in Blocks(log)[j];
    BlockDeletes(Blocks(log)[j], log[i]);
  }
}
