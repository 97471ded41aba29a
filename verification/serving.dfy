/** What single requests achieve when they run alone: the way forward from any consistent state. */
module Serving {
  import opened Text
  import opened Model
  import opened Store
  import opened Planning
  import opened Journal
  import opened Laws
  import opened Lives
  import opened Safety
  import opened Consistency
  import opened Alone

  // ----- Lookups -----

  lemma FindsGate(t: Tables, d: Key, g: Key)
    requires SafeTables(t) && ActsOn(t, d, g) && IsLive(t, g)
    ensures FindByCode(t, GateUnit, t.rows[d].related) == Some(Snap(g, t.rows[g]))
    ensures KnownStatus(GateUnit, t.rows[g].status) && Norm(t.rows[d].related) == t.rows[d].related
  {
    assert Sound(d.kind, t.rows[d], History(t.audits, d), ApprovalsOf(t.approvals, d.id));
    assert Sound(g.kind, t.rows[g], History(t.audits, g), ApprovalsOf(t.approvals, g.id));
    assert Matches(t, GateUnit, t.rows[d].related, g);
  }

  lemma FindsDirective(t: Tables, c: Key, d: Key)
    requires SafeTables(t) && Names(t, c, d) && IsLive(t, d)
    ensures FindByCode(t, OperationDirective, t.rows[c].related) == Some(Snap(d, t.rows[d]))
    ensures EqualFold(Trim(t.rows[c].related), t.rows[c].related)
  {
    assert Sound(c.kind, t.rows[c], History(t.audits, c), ApprovalsOf(t.approvals, c.id));
    assert Matches(t, OperationDirective, t.rows[c].related, d);
    UpperNorm(t.rows[c].related);
  }

  lemma UpperNorm(s: string)
    requires Norm(s) == s
    ensures EqualFold(Trim(s), s)
  {
    assert Upper(Upper(Trim(s))) == Upper(Trim(s));
  }

  // ----- Writes that apply -----

  lemma SwapApplies(t: Tables, s: Step)
    requires s.change.Swap? && Current(t, s) && (s.approval.Some? ==> !StageTaken(t.approvals, s.approval.value))
    requires s.change.row.code == t.rows[s.change.key].code && s.change.row.live
    requires s.change.key.kind == ExecutionConfirmation ==> !RelatedTaken(t.rows, s.change.key, s.change.row.related)
    ensures ApplyStep(t, s) == Ok(Tables(
      t.rows[s.change.key := s.change.row],
      t.approvals + (if s.approval.Some? then [s.approval.value] else []), t.audits + [s.audit]))
  {
    assert t.approvals + [] == t.approvals;
  }

  function Moved(rows: map<Key, Record>, s: Snap, goal: Status): map<Key, Record> {
    if s.row.status == goal then rows else rows[s.key := s.row.(status := goal, version := s.row.version + 1)]
  }

  lemma MoveApplies(t: Tables, req: Request, action: Action, s: Snap, goal: Status)
    requires IsLive(t, s.key) && t.rows[s.key] == s.row && s.key.kind != ExecutionConfirmation
    ensures var r := ApplyNext(t, MoveStep(req, action, s, goal));
      r.Ok? && r.value.rows == Moved(t.rows, s, goal) && r.value.approvals == t.approvals
      && r.value.audits == t.audits + if s.row.status == goal then []
                                      else [Entry(req, action, s.key, s.row.status, goal)]
  {
    if s.row.status != goal {
      SwapApplies(t, MoveStep(req, action, s, goal).value);
    }
  }

  lemma {:induction false} ApprovalListed(all: seq<Approval>, i: nat)
    requires i < |all|
    ensures all[i] in ApprovalsOf(all, all[i].directive)
  {
    if i < |all| - 1 {
      ApprovalListed(all[..|all| - 1], i);
    }
  }

  /** A stage is open as long as none of the directive's own approvals is of that stage. */
  lemma StageOpen(all: seq<Approval>, a: Approval)
    requires forall b :: b in ApprovalsOf(all, a.directive) ==> b.stage != a.stage
    ensures !StageTaken(all, a)
  {
    forall i | 0 <= i < |all| && all[i].directive == a.directive ensures all[i].stage != a.stage {
      ApprovalListed(all, i);
    }
  }

  // ----- Status requests -----

  /** `req` asks to bring row `k` to `target`, with the version the row has. */
  predicate Orders(t: Tables, k: Key, target: Status, req: Request) {
    && k in t.rows && req.kind == k.kind && req.verb == Transition && req.Subject() == k && req.target == target
    && req.expected == t.rows[k].version && Bound(req)
  }

  const NOTHING := Input("", "", "", "", "", Blank, Details("", "", ""))

  function Order(t: Tables, k: Key, target: Status, actor: string, role: Role): (req: Request)
    requires k in t.rows && actor != ""
    ensures Orders(t, k, target, req) && req.actor == actor && req.role == role
  {
    Request(k.kind, Transition, k.id, t.rows[k].version, target, NOTHING, actor, role, "")
  }

  /** A reservoir or gate takes any edge of its graph. */
  lemma StatusServes(t: Tables, k: Key, req: Request)
    requires IsLive(t, k) && !Linked(k.kind) && Orders(t, k, req.target, req)
    requires CanTransition(k.kind, t.rows[k].status, req.target)
    ensures Serve(t, req, 0).Ok?
    ensures Serve(t, req, 0).value.rows
            == t.rows[k := t.rows[k].(status := req.target, version := t.rows[k].version + 1)]
  {
    var tx := StatusChange(req, t.rows[k]).value;
    assert Plan(Observe(t, req), 0) == Ok(tx);
    SwapApplies(t, tx.first);
  }

  /** Accepting a status that concerns the directive alone. */
  lemma AdvanceServes(t: Tables, d: Key, req: Request)
    requires IsLive(t, d) && d.kind == OperationDirective && Orders(t, d, req.target, req)
    requires CanTransition(OperationDirective, t.rows[d].status, req.target) && RoleAllowed(req.target, req.role)
    requires !NeedsGate(t.rows[d].status, req.target) && req.target != Completed
    requires req.target == Approved ==> t.rows[d].submittedBy != "" && !EqualFold(t.rows[d].submittedBy, req.actor)
    requires var a := Evidence(req, t.rows[d]); a.Some? ==> !StageTaken(t.approvals, a.value)
    ensures Serve(t, req, 0).Ok?
    ensures Serve(t, req, 0).value.rows == t.rows[d := Advanced(req, t.rows[d])]
    ensures Serve(t, req, 0).value.audits
            == t.audits + [Entry(req, Did(Transition), d, t.rows[d].status, req.target)]
  {
    var r := t.rows[d];
    var s := Step(Swap(d, req.expected, Advanced(req, r)), Evidence(req, r),
                  Entry(req, Did(Transition), d, r.status, req.target));
    AdvancePlan(Observe(t, req), 0);
    ServesPlan(t, req, 0, Single(s));
    SwapApplies(t, s);
  }

  lemma AdvancePlan(f: Flight, id: nat)
    requires f.req.kind == OperationDirective && f.req.verb == Transition && f.primary.Some?
    requires CanTransition(OperationDirective, f.primary.value.status, f.req.target)
    requires RoleAllowed(f.req.target, f.req.role)
    requires !NeedsGate(f.primary.value.status, f.req.target) && f.req.target != Completed
    requires f.req.target == Approved ==>
      f.primary.value.submittedBy != "" && !EqualFold(f.primary.value.submittedBy, f.req.actor)
    ensures Plan(f, id) == Ok(Single(Step(
      Swap(f.req.Subject(), f.req.expected, Advanced(f.req, f.primary.value)), Evidence(f.req, f.primary.value),
      Entry(f.req, Did(Transition), f.req.Subject(), f.primary.value.status, f.req.target))))
  {
  }

  lemma SubmitServes(t: Tables, d: Key, req: Request)
    requires SafeTables(t) && IsLive(t, d) && d.kind == OperationDirective && t.rows[d].status == Draft
    requires Orders(t, d, Pending, req) && Dispatcher(req.role)
    ensures Serve(t, req, 0).Ok?
    ensures Serve(t, req, 0).value.rows
            == t.rows[d := t.rows[d].(status := Pending, version := t.rows[d].version + 1, submittedBy := req.actor)]
  {
    hide SafeTables, Serve;
    DirectiveAttested(t, d);
    StageOpen(t.approvals, Evidence(req, t.rows[d]).value);
    AdvanceServes(t, d, req);
  }

  lemma ApproveServes(t: Tables, d: Key, req: Request)
    requires SafeTables(t) && IsLive(t, d) && d.kind == OperationDirective && t.rows[d].status == Pending
    requires Orders(t, d, Approved, req) && (req.role == Reviewer || req.role == Admin)
    requires !EqualFold(t.rows[d].submittedBy, req.actor)
    ensures Serve(t, req, 0).Ok?
    ensures Serve(t, req, 0).value.rows
            == t.rows[d := t.rows[d].(status := Approved, version := t.rows[d].version + 1, approvedBy := req.actor)]
  {
    hide SafeTables, Serve;
    DirectiveAttested(t, d);
    StageOpen(t.approvals, Evidence(req, t.rows[d]).value);
    AdvanceServes(t, d, req);
  }

  /** A directive that does not execute yet is aborted without a look at its gate. */
  lemma EarlyAbortServes(t: Tables, d: Key, req: Request)
    requires IsLive(t, d) && d.kind == OperationDirective
    requires t.rows[d].status == Pending || t.rows[d].status == Approved
    requires Orders(t, d, Aborted, req) && AnyDispatcher(req.role)
    ensures Serve(t, req, 0).Ok?
    ensures Serve(t, req, 0).value.rows
            == t.rows[d := t.rows[d].(status := Aborted, version := t.rows[d].version + 1)]
  {
    AdvanceServes(t, d, req);
  }

  // ----- Requests that move a directive and its gate -----

  function GatedTx(req: Request, row: Record, gate: Snap, goal: Status): Tx {
    Tx(Step(Swap(req.Subject(), req.expected, row.(status := req.target, version := req.expected + 1)), None,
            Entry(req, Did(Transition), req.Subject(), row.status, req.target)),
       MoveStep(req, DirectiveExecution, gate, goal), None)
  }

  lemma GatedApplies(t: Tables, req: Request, d: Key, g: Key, goal: Status)
    requires ActsOn(t, d, g) && IsLive(t, d) && IsLive(t, g) && Orders(t, d, req.target, req)
    ensures var r := ApplyTx(t, GatedTx(req, t.rows[d], Snap(g, t.rows[g]), goal));
      && r.Ok? && r.value.approvals == t.approvals
      && r.value.rows == Moved(t.rows[d := t.rows[d].(status := req.target, version := t.rows[d].version + 1)],
                               Snap(g, t.rows[g]), goal)
      && History(r.value.audits, d)
         == History(t.audits, d) + [Entry(req, Did(Transition), d, t.rows[d].status, req.target)]
  {
    var tx := GatedTx(req, t.rows[d], Snap(g, t.rows[g]), goal);
    SwapApplies(t, tx.first);
    HistoryAppend(t.audits, tx.first.audit, d);
    var t1 := ApplyStep(t, tx.first).value;
    MoveApplies(t1, req, DirectiveExecution, Snap(g, t.rows[g]), goal);
    if tx.second.Some? {
      HistoryAppend(t1.audits, tx.second.value.audit, d);
    }
  }

  lemma GatedObserved(t: Tables, d: Key, g: Key, req: Request)
    requires ActsOn(t, d, g) && IsLive(t, d) && IsLive(t, g) && Orders(t, d, req.target, req)
    requires NeedsGate(t.rows[d].status, req.target)
    requires FindByCode(t, GateUnit, t.rows[d].related) == Some(Snap(g, t.rows[g]))
    ensures var f := Observe(t, req);
      f.req == req && f.primary == Some(t.rows[d]) && f.link == Some(Snap(g, t.rows[g]))
  {
  }

  lemma ExecutePlan(f: Flight, id: nat)
    requires f.req.kind == OperationDirective && f.req.verb == Transition && f.req.target == Executing
    requires Dispatcher(f.req.role) && f.primary.Some? && f.primary.value.status == Approved
    requires f.link.Some? && f.link.value.row.status != Locked && KnownStatus(GateUnit, f.link.value.row.status)
    ensures var gate := f.link.value.row;
      Plan(f, id) == Ok(if gate.status == f.primary.value.gateState
                        then GatedTx(f.req, f.primary.value, f.link.value, gate.status)
                        else GatedTx(f.req, f.primary.value, f.link.value, Moving))
  {
  }

  /** Beginning to execute moves the gate unless it is in place already. */
  lemma ExecuteServes(t: Tables, d: Key, g: Key, req: Request)
    requires SafeTables(t) && ActsOn(t, d, g) && IsLive(t, d) && IsLive(t, g)
    requires t.rows[d].status == Approved && t.rows[g].status != Locked
    requires Orders(t, d, Executing, req) && Dispatcher(req.role)
    ensures Serve(t, req, 0).Ok?
    ensures var r, u := t.rows[d], Serve(t, req, 0).value;
      && u.rows == Moved(t.rows[d := r.(status := Executing, version := r.version + 1)], Snap(g, t.rows[g]),
                         if t.rows[g].status == r.gateState then t.rows[g].status else Moving)
      && History(u.audits, d) == History(t.audits, d) + [Entry(req, Did(Transition), d, Approved, Executing)]
  {
    var goal := if t.rows[g].status == t.rows[d].gateState then t.rows[g].status else Moving;
    hide SafeTables, Observe, Plan, ApplyTx;
    FindsGate(t, d, g);
    GatedObserved(t, d, g, req);
    ExecutePlan(Observe(t, req), 0);
    ServesPlan(t, req, 0, GatedTx(req, t.rows[d], Snap(g, t.rows[g]), goal));
    GatedApplies(t, req, d, g, goal);
  }

  predicate Stuck(t: Tables, d: Key, g: Key) {
    ActsOn(t, d, g) && IsLive(t, d) && IsLive(t, g) && t.rows[d].status == Executing
  }

  lemma AbortPlan(f: Flight, id: nat)
    requires f.req.kind == OperationDirective && f.req.verb == Transition && f.req.target == Aborted
    requires AnyDispatcher(f.req.role) && f.primary.Some? && f.primary.value.status == Executing
    requires f.link.Some? && KnownStatus(GateUnit, f.link.value.row.status)
    ensures Plan(f, id) == Ok(GatedTx(f.req, f.primary.value, f.link.value, Locked))
  {
  }

  /** One request of an operator, reviewer or admin takes a live directive out of execution and locks its gate. */
  lemma AbortServes(t: Tables, d: Key, g: Key, req: Request)
    requires SafeTables(t) && Stuck(t, d, g) && Orders(t, d, Aborted, req) && AnyDispatcher(req.role)
    ensures Serve(t, req, 0).Ok?
    ensures var r, u := t.rows[d], Serve(t, req, 0).value;
      u.rows == Moved(t.rows[d := r.(status := Aborted, version := r.version + 1)], Snap(g, t.rows[g]), Locked)
  {
    hide SafeTables, Observe, Plan, ApplyTx;
    FindsGate(t, d, g);
    GatedObserved(t, d, g, req);
    AbortPlan(Observe(t, req), 0);
    GatedApplies(t, req, d, g, Locked);
    ServesPlan(t, req, 0, GatedTx(req, t.rows[d], Snap(g, t.rows[g]), Locked));
  }

  // ----- Confirmations -----

  predicate Confirmable(t: Tables, c: Key, d: Key, g: Key) {
    Stuck(t, d, g) && Names(t, c, d) && IsLive(t, c) && t.rows[c].status == Pending
  }

  function DecisionTx(req: Request, row: Record, d: Snap, g: Snap): Tx {
    Tx(Step(Swap(req.Subject(), req.expected, Decided(req, row)), None,
            Entry(req, Did(Transition), req.Subject(), row.status, req.target)),
       MoveStep(req, ExecutionOutcome, d, DirectiveOutcome(req.target)),
       MoveStep(req, ExecutionOutcome, g, GateOutcome(req.target, d.row)))
  }

  lemma DecisionObserved(t: Tables, c: Key, d: Key, g: Key, req: Request)
    requires SafeTables(t) && Confirmable(t, c, d, g) && Orders(t, c, req.target, req)
    ensures var f := Observe(t, req);
      && f.req == req && f.primary == Some(t.rows[c])
      && f.link == Some(Snap(d, t.rows[d])) && f.second == Some(Snap(g, t.rows[g]))
  {
    hide SafeTables, FindByCode, Norm, EqualFold, Trim;
    FindsGate(t, d, g);
    FindsDirective(t, c, d);
  }

  lemma DecisionPlan(f: Flight, id: nat)
    requires f.req.kind == ExecutionConfirmation && f.req.verb == Transition
    requires f.req.target == Confirmed || f.req.target == Failed
    requires f.primary.Some? && f.primary.value.status == Pending
    requires f.link.Some? && f.link.value.row.status == Executing
    requires f.second.Some? && CanReach(f.second.value.row, GateOutcome(f.req.target, f.link.value.row))
    ensures Plan(f, id) == Ok(DecisionTx(f.req, f.primary.value, f.link.value, f.second.value))
  {
  }

  lemma DecisionApplies(t: Tables, c: Key, d: Key, g: Snap, req: Request)
    requires UniqueRelated(t.rows) && Names(t, c, d) && IsLive(t, c) && IsLive(t, d) && t.rows[d].status == Executing
    requires Orders(t, c, req.target, req) && g.key.kind == GateUnit
    requires g.row.status == GateOutcome(req.target, t.rows[d]) || (IsLive(t, g.key) && t.rows[g.key] == g.row)
    ensures var r, out := ApplyTx(t, DecisionTx(req, t.rows[c], Snap(d, t.rows[d]), g)), DirectiveOutcome(req.target);
      && r.Ok?
      && r.value.rows == Moved(t.rows[c := Decided(req, t.rows[c])][
                                 d := t.rows[d].(status := out, version := t.rows[d].version + 1)],
                               g, GateOutcome(req.target, t.rows[d]))
  {
    var tx := DecisionTx(req, t.rows[c], Snap(d, t.rows[d]), g);
    assert !RelatedTaken(t.rows, c, t.rows[c].related);
    SwapApplies(t, tx.first);
    var t1 := ApplyStep(t, tx.first).value;
    SwapApplies(t1, tx.second.value);
    if tx.third.Some? {
      MoveApplies(ApplyStep(t1, tx.second.value).value, req, ExecutionOutcome, g, GateOutcome(req.target, t.rows[d]));
    }
  }

  lemma MovedTells(rows: map<Key, Record>, c: Key, d: Key, g: Snap, rc: Record, rd: Record, goal: Status)
    requires c != d && c != g.key && d != g.key && (g.key in rows && rows[g.key] == g.row)
    ensures var next := Moved(rows[c := rc][d := rd], g, goal);
      c in next && d in next && g.key in next && next[c] == rc && next[d] == rd && next[g.key].status == goal
  {
  }

  lemma DecisionTold(req: Request, c: Record, d: Record)
    requires req.expected == c.version
    ensures req.target == Confirmed ==>
      && Decided(req, c) == c.(status := Confirmed, version := c.version + 1, confirmedBy := req.actor)
      && DirectiveOutcome(req.target) == Completed && GateOutcome(req.target, d) == d.gateState
    ensures req.target == Failed ==>
      && Decided(req, c) == c.(status := Failed, version := c.version + 1)
      && DirectiveOutcome(req.target) == Aborted && GateOutcome(req.target, d) == Locked
  {
  }

  /** A confirmation that is accepted decides the directive and puts the gate in its place. */
  lemma DecisionServes(t: Tables, c: Key, d: Key, g: Key, req: Request)
    requires SafeTables(t) && Confirmable(t, c, d, g) && Orders(t, c, req.target, req)
    requires req.target == Confirmed || req.target == Failed
    requires CanReach(t.rows[g], if req.target == Confirmed then t.rows[d].gateState else Locked)
    ensures Serve(t, req, 0).Ok?
    ensures var u, rc, rd := Serve(t, req, 0).value, t.rows[c], t.rows[d];
      && c in u.rows && d in u.rows && g in u.rows
      && (req.target == Confirmed ==>
            && u.rows[c] == rc.(status := Confirmed, version := rc.version + 1, confirmedBy := req.actor)
            && u.rows[d] == rd.(status := Completed, version := rd.version + 1)
            && u.rows[g].status == rd.gateState)
      && (req.target == Failed ==>
            && u.rows[c] == rc.(status := Failed, version := rc.version + 1)
            && u.rows[d] == rd.(status := Aborted, version := rd.version + 1)
            && u.rows[g].status == Locked)
  {
    DecisionTold(req, t.rows[c], t.rows[d]);
    hide SafeTables, Observe, Plan, ApplyTx, DecisionTx, Moved, Decided, Serve, CanReach, GateOutcome, DirectiveOutcome;
    assert UniqueRelated(t.rows) by { SafeIsUnique(t); }
    var tx := DecisionTx(req, t.rows[c], Snap(d, t.rows[d]), Snap(g, t.rows[g]));
    DecisionObserved(t, c, d, g, req);
    DecisionPlan(Observe(t, req), 0);
    ServesPlan(t, req, 0, tx);
    DecisionApplies(t, c, d, Snap(g, t.rows[g]), req);
    MovedTells(t.rows, c, d, Snap(g, t.rows[g]), Decided(req, t.rows[c]),
               t.rows[d].(status := DirectiveOutcome(req.target), version := t.rows[d].version + 1),
               GateOutcome(req.target, t.rows[d]));
  }

  lemma SafeIsUnique(t: Tables)
    requires SafeTables(t)
    ensures UniqueRelated(t.rows) && UniqueCodes(t.rows)
  {
  }

  lemma CancelPlan(f: Flight, id: nat)
    requires f.req.kind == ExecutionConfirmation && f.req.verb == Transition && f.req.target == Cancelled
    requires f.primary.Some? && f.primary.value.status == Failed
    ensures Plan(f, id) == Ok(Single(Step(
      Swap(f.req.Subject(), f.req.expected, Decided(f.req, f.primary.value)), None,
      Entry(f.req, Did(Transition), f.req.Subject(), Failed, Cancelled))))
  {
  }

  lemma CancelServes(t: Tables, c: Key, req: Request)
    requires SafeTables(t) && IsLive(t, c) && c.kind == ExecutionConfirmation && t.rows[c].status == Failed
    requires Orders(t, c, Cancelled, req)
    ensures Serve(t, req, 0).Ok?
    ensures Serve(t, req, 0).value.rows
            == t.rows[c := t.rows[c].(status := Cancelled, version := t.rows[c].version + 1)]
  {
    var r := t.rows[c];
    var s := Step(Swap(c, req.expected, Decided(req, r)), None, Entry(req, Did(Transition), c, Failed, Cancelled));
    hide SafeTables, ApplyTx, Observe, Plan;
    assert !RelatedTaken(t.rows, c, r.related) by { SafeIsUnique(t); }
    ObservedRequest(t, req);
    CancelPlan(Observe(t, req), 0);
    ServesPlan(t, req, 0, Single(s));
    SingleApplies(t, s);
  }

  // ----- Edits -----

  function Edit(t: Tables, k: Key, input: Input, actor: string): Request
    requires k in t.rows
  {
    Request(k.kind, Update, k.id, t.rows[k].version, Blank, input, actor, Operator, "")
  }

  function DraftInput(t: Tables, d: Key, g: Key): Input
    requires d in t.rows && g in t.rows
  {
    Input("", t.rows[g].facility, "", "", t.rows[g].code, Blank, Details("n", "o", ""))
  }

  function EditedDraft(t: Tables, d: Key, g: Key): Record
    requires d in t.rows && g in t.rows
  {
    Revised(t.rows[d], t.rows[d].version, DraftInput(t, d, g)).(related := t.rows[g].code)
  }

  lemma PlainDetails()
    ensures Trim("n") != "" && Trim("o") != ""
  {
    assert TrimLeft("n") == "n" && TrimRight("n") == "n";
    assert TrimLeft("o") == "o" && TrimRight("o") == "o";
  }

  lemma RowProper(t: Tables, k: Key)
    requires SafeTables(t) && k in t.rows
    ensures Proper(k.kind, t.rows[k])
  {
    hide Proper;
  }

  /** A live row is found by its own code. */
  lemma FindsOwn(t: Tables, k: Key)
    requires SafeTables(t) && IsLive(t, k)
    ensures FindByCode(t, k.kind, t.rows[k].code) == Some(Snap(k, t.rows[k])) && Norm(t.rows[k].code) == t.rows[k].code
  {
    assert Sound(k.kind, t.rows[k], History(t.audits, k), ApprovalsOf(t.approvals, k.id));
    assert Matches(t, k.kind, t.rows[k].code, k);
  }

  /** A draft can be edited to act on any gate that is live and not locked. */
  lemma EditDraftServes(t: Tables, d: Key, g: Key, actor: string)
    requires SafeTables(t) && IsLive(t, d) && d.kind == OperationDirective && IsLive(t, g) && g.kind == GateUnit
    requires actor != "" && t.rows[d].status == Draft && t.rows[g].status != Locked
    ensures var r := Serve(t, Edit(t, d, DraftInput(t, d, g), actor), 0);
      r.Ok? && r.value.rows == t.rows[d := EditedDraft(t, d, g)]
  {
    hide Trim, Norm, SafeTables, ApplyTx, FindByCode;
    var req, r := Edit(t, d, DraftInput(t, d, g), actor), t.rows[d];
    FindsOwn(t, g);
    PlainDetails();
    RowProper(t, g);
    RowProper(t, d);
    var row := EditedDraft(t, d, g);
    EditDraftPlan(Observe(t, req), 0);
    ServesPlan(t, req, 0, Single(UpdateStep(req, r, row)));
    SingleApplies(t, UpdateStep(req, r, row));
  }

  lemma SingleApplies(t: Tables, s: Step)
    requires s.change.Swap? && Current(t, s) && s.approval.None?
    requires s.change.row.code == t.rows[s.change.key].code && s.change.row.live
    requires s.change.key.kind == ExecutionConfirmation ==> !RelatedTaken(t.rows, s.change.key, s.change.row.related)
    ensures ApplyTx(t, Single(s)).Ok? && ApplyTx(t, Single(s)).value.rows == t.rows[s.change.key := s.change.row]
  {
    SwapApplies(t, s);
  }

  lemma EditDraftPlan(f: Flight, id: nat)
    requires f.req.kind == OperationDirective && f.req.verb == Update && f.primary.Some? && f.link.Some?
    requires f.primary.value.status == Draft && Filled(f.primary.value.code, f.req.input)
    requires GateUsable(f.req.input, f.link.value.row) && f.req.input.gateState == Blank
    ensures Plan(f, id) == Ok(Single(UpdateStep(f.req, f.primary.value,
      Revised(f.primary.value, f.req.expected, f.req.input).(
        related := Norm(f.req.input.related), gateState := f.primary.value.gateState))))
  {
  }

  function ConfirmationInput(t: Tables, c: Key): Input
    requires c in t.rows
  {
    Input("", "n", "", "", t.rows[c].related, Blank, Details("n", "o", ""))
  }

  function EditedConfirmation(t: Tables, c: Key, d: Key): Record
    requires c in t.rows && d in t.rows
  {
    var l := t.rows[d];
    Revised(t.rows[c], t.rows[c].version, ConfirmationInput(t, c)).(
      facility := l.facility, category := l.category, riskLevel := l.riskLevel, related := l.code)
  }

  lemma EditConfirmationPlan(f: Flight, id: nat)
    requires f.req.kind == ExecutionConfirmation && f.req.verb == Update && f.primary.Some? && f.link.Some?
    requires f.primary.value.status == Pending && Filled(f.primary.value.code, f.req.input)
    requires EqualFold(Trim(f.req.input.related), f.primary.value.related) && f.link.value.row.status == Executing
    ensures var l := f.link.value.row;
      Plan(f, id) == Ok(Single(UpdateStep(f.req, f.primary.value,
        Revised(f.primary.value, f.req.expected, f.req.input).(
          facility := l.facility, category := l.category, riskLevel := l.riskLevel, related := l.code))))
  {
  }

  lemma EditObserved(t: Tables, c: Key, d: Key, req: Request)
    requires IsLive(t, c) && c.kind == ExecutionConfirmation && req.Subject() == c && req.verb == Update
    requires d in t.rows && FindByCode(t, OperationDirective, t.rows[c].related) == Some(Snap(d, t.rows[d]))
    ensures var f := Observe(t, req);
      f.req == req && f.primary == Some(t.rows[c]) && f.link == Some(Snap(d, t.rows[d]))
  {
    hide FindByCode;
  }

  /** A pending confirmation can be edited as long as its directive executes. */
  lemma EditConfirmationServes(t: Tables, c: Key, d: Key, actor: string)
    requires SafeTables(t) && Names(t, c, d) && IsLive(t, c) && IsLive(t, d) && actor != ""
    requires t.rows[c].status == Pending && t.rows[d].status == Executing
    ensures var r := Serve(t, Edit(t, c, ConfirmationInput(t, c), actor), 0);
      r.Ok? && r.value.rows == t.rows[c := EditedConfirmation(t, c, d)]
  {
    var req, r, l := Edit(t, c, ConfirmationInput(t, c), actor), t.rows[c], t.rows[d];
    hide Trim, Norm, EqualFold, SafeTables, ApplyTx, Observe, Plan;
    FindsDirective(t, c, d);
    PlainDetails();
    RowProper(t, c);
    assert !RelatedTaken(t.rows, c, l.code) by { SafeIsUnique(t); }
    EditObserved(t, c, d, req);
    var row := EditedConfirmation(t, c, d);
    EditConfirmationPlan(Observe(t, req), 0);
    ServesPlan(t, req, 0, Single(UpdateStep(req, r, row)));
    SingleApplies(t, UpdateStep(req, r, row));
  }

  // ----- Deletes -----

  function Removal(k: Key, actor: string): Request {
    Request(k.kind, Delete, k.id, 0, Blank, NOTHING, actor, Operator, "")
  }

  /** Gates and reservoirs can be deleted at any time, directives as drafts and confirmations while pending. */
  lemma RemovalServes(t: Tables, k: Key, actor: string)
    requires IsLive(t, k) && (Linked(k.kind) ==> t.rows[k].status == Initial(k.kind))
    ensures Serve(t, Removal(k, actor), 0).Ok?
    ensures Serve(t, Removal(k, actor), 0).value.rows == t.rows[k := t.rows[k].(live := false)]
  {
    ServesPlan(t, Removal(k, actor), 0, DeleteTx(Removal(k, actor), t.rows[k]));
  }
}
