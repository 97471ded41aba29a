/** The status changes of a request served alone, written out in the same way: who may make them and when, and all
    that they write, the approvals and the linked rows included. */
module Decisions {
  import opened Text
  import opened Model
  import opened Store
  import opened Planning
  import opened Journal
  import opened Lives
  import opened Consistency
  import opened Alone
  import opened Serving
  import opened Acceptance
  import opened Reference

  // ----- Words -----

  function Turned(r: Record, to: Status): Record {
    r.(status := to, version := r.version + 1)
  }

  /** One row is written, and the entry says from which status to which. */
  function Changed(t: Tables, req: Request, action: Action, k: Key, row: Record): Tables
    requires k in t.rows
  {
    Tables(t.rows[k := row], t.approvals, t.audits + [Signed(req, action, k, t.rows[k].status, row.status)])
  }

  /** A linked row goes to a status, unless it is there. */
  function Drawn(t: Tables, req: Request, action: Action, k: Key, goal: Status): Tables
    requires k in t.rows
  {
    if t.rows[k].status == goal then t else Changed(t, req, action, k, Turned(t.rows[k], goal))
  }

  function Voted(t: Tables, req: Request, stage: Stage, from: Status, to: Status): Tables {
    t.(approvals := t.approvals + [Approval(directive := req.id, stage := stage, actor := req.actor, role := req.role,
                                            requestId := req.requestId, from := from, to := to)])
  }

  // ----- Writes -----

  lemma Known(t: Tables, k: Key)
    requires SafeTables(t) && k in t.rows
    ensures KnownStatus(k.kind, t.rows[k].status)
  {
    assert Sound(k.kind, t.rows[k], History(t.audits, k), ApprovalsOf(t.approvals, k.id));
  }

  /** The first write of a status change needs the version that was sent. */
  lemma FirstIs(t: Tables, tx: Tx, req: Request, row: Record)
    requires SafeTables(t) && IsLive(t, req.Subject()) && tx.first.change == Swap(req.Subject(), req.expected, row)
    requires row.code == t.rows[req.Subject()].code && row.live && row.related == t.rows[req.Subject()].related
    requires tx.first.approval.Some? ==> !StageTaken(t.approvals, tx.first.approval.value)
    ensures ApplyTx(t, tx).Ok? ==> AsSent(t, req)
    ensures AsSent(t, req) ==> ApplyStep(t, tx.first) == Ok(Tables(
      t.rows[req.Subject() := row],
      t.approvals + (if tx.first.approval.Some? then [tx.first.approval.value] else []),
      t.audits + [tx.first.audit]))
  {
    hide SafeTables, RelatedTaken, StageTaken;
    OwnNameIsFree(t, req.Subject());
    if AsSent(t, req) {
      SwapApplies(t, tx.first);
    } else {
      StaleSwapFails(t, tx.first);
    }
  }

  lemma DrawnIs(t: Tables, req: Request, action: Action, k: Key, goal: Status)
    requires IsLive(t, k) && k.kind != ExecutionConfirmation
    ensures ApplyNext(t, MoveStep(req, action, Snap(k, t.rows[k]), goal)) == Ok(Drawn(t, req, action, k, goal))
  {
    MoveApplies(t, req, action, Snap(k, t.rows[k]), goal);
    assert t.audits + [] == t.audits;
  }

  // ----- Reservoirs and gates -----

  /** A reservoir or gate changes its status exactly along an edge of its graph. */
  lemma StatusChangeIs(t: Tables, req: Request, id: nat)
    requires SafeTables(t) && (req.kind == Reservoir || req.kind == GateUnit) && req.verb == Transition
    ensures Serve(t, req, id).Ok? <==>
      AsSent(t, req) && (t.rows[req.Subject()].status, req.target) in Edges(req.kind)
    ensures Serve(t, req, id).Ok? ==>
      var k := req.Subject();
      Serve(t, req, id).value == Changed(t, req, Did(Transition), k, Turned(t.rows[k], req.target))
  {
    hide SafeTables, CanTransition, Edges, ApplyStep;
    if IsLive(t, req.Subject()) {
      var r := t.rows[req.Subject()];
      GraphsAreMirrored(req.kind, r.status, req.target);
      if CanTransition(req.kind, r.status, req.target) {
        var tx := StatusChange(req, r).value;
        ServesPlan(t, req, id, tx);
        FirstIs(t, tx, req, r.(status := req.target, version := req.expected + 1));
        assert t.approvals + [] == t.approvals;
      }
    }
  }

  // ----- Directives -----

  lemma DirectiveServes(t: Tables, req: Request, id: nat)
    requires req.kind == OperationDirective && req.verb == Transition
    ensures Serve(t, req, id).Ok? ==> IsLive(t, req.Subject())
    ensures IsLive(t, req.Subject()) ==>
      var r := t.rows[req.Subject()];
      var gate := if NeedsGate(r.status, req.target) then FindByCode(t, GateUnit, r.related) else None;
      var plan := TransitionDirective(req, r, gate);
      Serve(t, req, id) == if plan.Ok? then ApplyTx(t, plan.value) else Err(plan.error)
  {
    hide FindByCode, TransitionDirective, ApplyTx, NeedsGate;
  }

  lemma SubmitTx(req: Request, r: Record, gate: Option<Snap>)
    requires req.kind == OperationDirective && req.target == Pending && TransitionDirective(req, r, gate).Ok?
    ensures TransitionDirective(req, r, gate).value == Single(Step(
      Swap(req.Subject(), req.expected, r.(status := Pending, version := req.expected + 1, submittedBy := req.actor)),
      Some(Approval(req.id, SubmittedStage, req.actor, req.role, req.requestId, r.status, Pending)),
      Signed(req, Did(Transition), req.Subject(), r.status, Pending)))
  {
  }

  /** A draft is submitted by an operator or an admin, and names them from then on. */
  lemma SubmitIs(t: Tables, req: Request, id: nat)
    requires SafeTables(t) && req.kind == OperationDirective && req.verb == Transition && req.target == Pending
    ensures Serve(t, req, id).Ok? <==>
      AsSent(t, req) && t.rows[req.Subject()].status == Draft && (req.role == Operator || req.role == Admin)
    ensures Serve(t, req, id).Ok? ==>
      var k := req.Subject();
      var row := t.rows[k].(status := Pending, version := t.rows[k].version + 1, submittedBy := req.actor);
      Serve(t, req, id).value
      == Voted(Changed(t, req, Did(Transition), k, row), req, SubmittedStage, Draft, Pending)
  {
    hide SafeTables, Serve, TransitionDirective, FindByCode, ApplyStep, EqualFold, SameName, StageTaken;
    DirectiveServes(t, req, id);
    if IsLive(t, req.Subject()) {
      var r := t.rows[req.Subject()];
      Known(t, req.Subject());
      DirectiveTransitionAccepted(req, r, None);
      if TransitionDirective(req, r, None).Ok? {
        var tx := TransitionDirective(req, r, None).value;
        SubmitTx(req, r, None);
        DirectiveAttested(t, req.Subject());
        StageOpen(t.approvals, tx.first.approval.value);
        FirstIs(t, tx, req, tx.first.change.row);
      }
    }
  }

  lemma ApproveTx(req: Request, r: Record, gate: Option<Snap>)
    requires req.kind == OperationDirective && req.target == Approved && TransitionDirective(req, r, gate).Ok?
    ensures TransitionDirective(req, r, gate).value == Single(Step(
      Swap(req.Subject(), req.expected, r.(status := Approved, version := req.expected + 1, approvedBy := req.actor)),
      Some(Approval(req.id, ApprovedStage, req.actor, req.role, req.requestId, r.status, Approved)),
      Signed(req, Did(Transition), req.Subject(), r.status, Approved)))
  {
  }

  /** A pending directive is approved by a reviewer or an admin who has another name than the one who submitted it. */
  lemma ApproveIs(t: Tables, req: Request, id: nat)
    requires SafeTables(t) && req.kind == OperationDirective && req.verb == Transition && req.target == Approved
    ensures Serve(t, req, id).Ok? <==>
      && AsSent(t, req) && t.rows[req.Subject()].status == Pending && (req.role == Reviewer || req.role == Admin)
      && !SameName(t.rows[req.Subject()].submittedBy, req.actor)
    ensures Serve(t, req, id).Ok? ==>
      var k := req.Subject();
      var row := t.rows[k].(status := Approved, version := t.rows[k].version + 1, approvedBy := req.actor);
      Serve(t, req, id).value
      == Voted(Changed(t, req, Did(Transition), k, row), req, ApprovedStage, Pending, Approved)
  {
    hide SafeTables, Serve, TransitionDirective, FindByCode, ApplyStep, EqualFold, SameName, StageTaken;
    DirectiveServes(t, req, id);
    if IsLive(t, req.Subject()) {
      var r := t.rows[req.Subject()];
      Known(t, req.Subject());
      DirectiveTransitionAccepted(req, r, None);
      DirectiveAttested(t, req.Subject());
      EqualFoldIsExact(r.submittedBy, req.actor);
      if TransitionDirective(req, r, None).Ok? {
        var tx := TransitionDirective(req, r, None).value;
        ApproveTx(req, r, None);
        StageOpen(t.approvals, tx.first.approval.value);
        FirstIs(t, tx, req, tx.first.change.row);
      }
    }
  }

  lemma ExecuteTx(req: Request, r: Record, gate: Snap)
    requires req.kind == OperationDirective && req.target == Executing && TransitionDirective(req, r, Some(gate)).Ok?
    ensures TransitionDirective(req, r, Some(gate)).value == Tx(
      Step(Swap(req.Subject(), req.expected, r.(status := Executing, version := req.expected + 1)), None,
           Signed(req, Did(Transition), req.Subject(), r.status, Executing)),
      MoveStep(req, DirectiveExecution, gate, if gate.row.status == r.gateState then r.gateState else Moving), None)
  {
  }

  /** There is a live gate under this code that is not locked. */
  ghost predicate HasFreeGate(t: Tables, related: string) {
    exists g :: Leads(t, GateUnit, related, g) && t.rows[g].status != Locked
  }

  lemma GateFound(t: Tables, related: string) returns (gate: Option<Snap>)
    requires SafeTables(t)
    ensures gate == FindByCode(t, GateUnit, related)
    ensures gate.Some? <==> exists g :: Leads(t, GateUnit, related, g)
    ensures gate.Some? ==> Leads(t, GateUnit, related, gate.value.key) && gate.value.row == t.rows[gate.value.key]
    ensures gate.Some? ==> KnownStatus(GateUnit, gate.value.row.status)
    ensures forall g :: Leads(t, GateUnit, related, g) ==> gate == Some(Snap(g, t.rows[g]))
  {
    hide SafeTables, FindByCode, Norm;
    FindsLed(t, GateUnit, related);
    gate := FindByCode(t, GateUnit, related);
    if gate.Some? {
      FoundIsLed(t, GateUnit, related);
      Known(t, gate.value.key);
    }
  }

  /** A first write and a gate that follows it. */
  lemma PairIs(t: Tables, tx: Tx, req: Request, row: Record, action: Action, g: Key, goal: Status)
    requires SafeTables(t) && IsLive(t, req.Subject()) && tx.first.change == Swap(req.Subject(), req.expected, row)
    requires row.code == t.rows[req.Subject()].code && row.live && row.related == t.rows[req.Subject()].related
    requires tx.first.approval.None? && IsLive(t, g) && g != req.Subject() && g.kind == GateUnit && tx.third.None?
    requires tx.first.audit == Signed(req, Did(Transition), req.Subject(), t.rows[req.Subject()].status, row.status)
    requires tx.second == MoveStep(req, action, Snap(g, t.rows[g]), goal)
    ensures ApplyTx(t, tx).Ok? <==> AsSent(t, req)
    ensures AsSent(t, req) ==>
      ApplyTx(t, tx).value == Drawn(Changed(t, req, Did(Transition), req.Subject(), row), req, action, g, goal)
  {
    hide SafeTables, ApplyStep, MoveStep, ApplyNext, Drawn;
    FirstIs(t, tx, req, row);
    if AsSent(t, req) {
      var u := Changed(t, req, Did(Transition), req.Subject(), row);
      assert t.approvals + [] == t.approvals;
      assert ApplyStep(t, tx.first) == Ok(u);
      DrawnIs(u, req, action, g, goal);
      NothingMore(Drawn(u, req, action, g, goal));
    }
  }

  lemma NothingMore(t: Tables)
    ensures ApplyNext(t, None) == Ok(t)
  {
  }

  /** An approved directive begins to execute by an operator or an admin, while its gate is live and not locked. The
      gate is drawn out of its place unless it is where the directive wants it. */
  lemma ExecuteIs(t: Tables, req: Request, id: nat)
    requires SafeTables(t) && req.kind == OperationDirective && req.verb == Transition && req.target == Executing
    ensures Serve(t, req, id).Ok? <==>
      && AsSent(t, req) && t.rows[req.Subject()].status == Approved && (req.role == Operator || req.role == Admin)
      && HasFreeGate(t, t.rows[req.Subject()].related)
    ensures forall g :: Serve(t, req, id).Ok? && Leads(t, GateUnit, t.rows[req.Subject()].related, g) ==>
      var k := req.Subject();
      var goal := if t.rows[g].status == t.rows[k].gateState then t.rows[k].gateState else Moving;
      Serve(t, req, id).value
      == Drawn(Changed(t, req, Did(Transition), k, Turned(t.rows[k], Executing)), req, DirectiveExecution, g, goal)
  {
    hide SafeTables, Serve, TransitionDirective, FindByCode, ApplyTx, EqualFold, Leads, Norm;
    DirectiveServes(t, req, id);
    if IsLive(t, req.Subject()) {
      var r := t.rows[req.Subject()];
      var gate := GateFound(t, r.related);
      Known(t, req.Subject());
      DirectiveTransitionAccepted(req, r, gate);
      if TransitionDirective(req, r, gate).Ok? {
        var tx := TransitionDirective(req, r, gate).value;
        ExecuteTx(req, r, gate.value);
        LedIsLive(t, GateUnit, r.related, gate.value.key);
        PairIs(t, tx, req, tx.first.change.row, DirectiveExecution, gate.value.key,
               if gate.value.row.status == r.gateState then r.gateState else Moving);
      }
    }
  }

  lemma LedIsLive(t: Tables, kind: Kind, text: string, k: Key)
    requires Leads(t, kind, text, k)
    ensures IsLive(t, k) && k.kind == kind
  {
  }

  lemma AbortTx(req: Request, r: Record, gate: Option<Snap>)
    requires req.kind == OperationDirective && req.target == Aborted && TransitionDirective(req, r, gate).Ok?
    requires r.status == Executing ==> gate.Some?
    ensures TransitionDirective(req, r, gate).value == Tx(
      Step(Swap(req.Subject(), req.expected, r.(status := Aborted, version := req.expected + 1)), None,
           Signed(req, Did(Transition), req.Subject(), r.status, Aborted)),
      if r.status == Executing then MoveStep(req, DirectiveExecution, gate.value, Locked) else None, None)
  {
  }

  /** A directive is aborted by anybody but a viewer, from the three statuses after submission; in execution its gate
      must be live, and is locked. */
  lemma AbortIs(t: Tables, req: Request, id: nat)
    requires SafeTables(t) && req.kind == OperationDirective && req.verb == Transition && req.target == Aborted
    ensures Serve(t, req, id).Ok? <==>
      && AsSent(t, req) && (req.role == Operator || req.role == Reviewer || req.role == Admin)
      && var r := t.rows[req.Subject()];
         || r.status == Pending || r.status == Approved
         || (r.status == Executing && exists g :: Leads(t, GateUnit, r.related, g))
    ensures Serve(t, req, id).Ok? && t.rows[req.Subject()].status != Executing ==>
      var k := req.Subject();
      Serve(t, req, id).value == Changed(t, req, Did(Transition), k, Turned(t.rows[k], Aborted))
    ensures forall g ::
      Serve(t, req, id).Ok? && t.rows[req.Subject()].status == Executing
      && Leads(t, GateUnit, t.rows[req.Subject()].related, g) ==>
        var k := req.Subject();
        Serve(t, req, id).value
        == Drawn(Changed(t, req, Did(Transition), k, Turned(t.rows[k], Aborted)), req, DirectiveExecution, g, Locked)
  {
    hide SafeTables, Serve, TransitionDirective, FindByCode, ApplyTx, EqualFold, Leads, Norm;
    DirectiveServes(t, req, id);
    if IsLive(t, req.Subject()) {
      var r := t.rows[req.Subject()];
      Known(t, req.Subject());
      var found := GateFound(t, r.related);
      var gate := if r.status == Executing then found else None;
      DirectiveTransitionAccepted(req, r, gate);
      if TransitionDirective(req, r, gate).Ok? {
        var tx := TransitionDirective(req, r, gate).value;
        AbortTx(req, r, gate);
        if r.status == Executing {
          LedIsLive(t, GateUnit, r.related, gate.value.key);
          PairIs(t, tx, req, tx.first.change.row, DirectiveExecution, gate.value.key, Locked);
        } else {
          AloneIs(t, tx, req, tx.first.change.row);
        }
      }
    }
  }

  /** A first write and nothing else. */
  lemma AloneIs(t: Tables, tx: Tx, req: Request, row: Record)
    requires SafeTables(t) && IsLive(t, req.Subject()) && tx.first.change == Swap(req.Subject(), req.expected, row)
    requires row.code == t.rows[req.Subject()].code && row.live && row.related == t.rows[req.Subject()].related
    requires tx == Single(tx.first) && tx.first.approval.None?
    requires tx.first.audit == Signed(req, Did(Transition), req.Subject(), t.rows[req.Subject()].status, row.status)
    ensures ApplyTx(t, tx).Ok? <==> AsSent(t, req)
    ensures AsSent(t, req) ==> ApplyTx(t, tx).value == Changed(t, req, Did(Transition), req.Subject(), row)
  {
    hide SafeTables, ApplyStep;
    FirstIs(t, tx, req, row);
    assert t.approvals + [] == t.approvals;
  }

  /** No request brings a directive to any other status: it is completed by its confirmation only. */
  lemma NoOtherTarget(t: Tables, req: Request, id: nat)
    requires SafeTables(t) && req.kind == OperationDirective && req.verb == Transition
    requires req.target != Pending && req.target != Approved && req.target != Executing && req.target != Aborted
    ensures Serve(t, req, id).Err?
  {
    hide SafeTables, Serve, TransitionDirective, FindByCode, ApplyTx, EqualFold;
    DirectiveServes(t, req, id);
    if IsLive(t, req.Subject()) {
      Known(t, req.Subject());
      DirectiveTransitionAccepted(req, t.rows[req.Subject()], None);
    }
  }

  // ----- Confirmations -----

  lemma ConfirmationServes(t: Tables, req: Request, id: nat)
    requires req.kind == ExecutionConfirmation && req.verb == Transition
    ensures Serve(t, req, id).Ok? ==> IsLive(t, req.Subject())
    ensures IsLive(t, req.Subject()) ==>
      var r := t.rows[req.Subject()];
      var directive := if r.status == Pending then FindByCode(t, OperationDirective, r.related) else None;
      var gate := if directive.Some? then FindByCode(t, GateUnit, directive.value.row.related) else None;
      var plan := TransitionConfirmation(req, r, directive, gate);
      Serve(t, req, id) == if plan.Ok? then ApplyTx(t, plan.value) else Err(plan.error)
  {
    hide FindByCode, TransitionConfirmation, ApplyTx;
  }

  /** A live directive in execution under this code, and the live gate under its code. */
  predicate Behind(t: Tables, related: string, d: Key, g: Key) {
    && Leads(t, OperationDirective, related, d) && t.rows[d].status == Executing
    && Leads(t, GateUnit, t.rows[d].related, g)
  }

  /** The gate is where the directive wants it, or one move away. */
  predicate Within(gate: Status, goal: Status) {
    match goal
    case Open => gate == Open || gate == Moving
    case Closed => gate == Closed || gate == Moving || gate == Locked
    case _ => true
  }

  /** Everything a confirmation or failure writes. */
  function Outcome(t: Tables, req: Request, row: Record, d: Key, out: Status, g: Key, goal: Status): Tables
    requires req.Subject() in t.rows && d in t.rows && g in t.rows
  {
    var t1 := Changed(t, req, Did(Transition), req.Subject(), row);
    var t2 := Changed(t1, req, ExecutionOutcome, d, Turned(t1.rows[d], out));
    Drawn(t2, req, ExecutionOutcome, g, goal)
  }

  lemma OutcomeIs(t: Tables, tx: Tx, req: Request, row: Record, d: Key, out: Status, g: Key, goal: Status)
    requires SafeTables(t) && IsLive(t, req.Subject()) && tx.first.change == Swap(req.Subject(), req.expected, row)
    requires row.code == t.rows[req.Subject()].code && row.live && row.related == t.rows[req.Subject()].related
    requires tx.first.approval.None? && req.kind == ExecutionConfirmation
    requires tx.first.audit == Signed(req, Did(Transition), req.Subject(), t.rows[req.Subject()].status, row.status)
    requires IsLive(t, d) && d.kind == OperationDirective && t.rows[d].status != out
    requires IsLive(t, g) && g.kind == GateUnit
    requires tx.second == MoveStep(req, ExecutionOutcome, Snap(d, t.rows[d]), out)
    requires tx.third == MoveStep(req, ExecutionOutcome, Snap(g, t.rows[g]), goal)
    ensures ApplyTx(t, tx).Ok? <==> AsSent(t, req)
    ensures AsSent(t, req) ==> ApplyTx(t, tx).value == Outcome(t, req, row, d, out, g, goal)
  {
    hide SafeTables, ApplyStep, MoveStep, ApplyNext;
    FirstIs(t, tx, req, row);
    if AsSent(t, req) {
      var t1 := Changed(t, req, Did(Transition), req.Subject(), row);
      assert t.approvals + [] == t.approvals;
      assert ApplyStep(t, tx.first) == Ok(t1);
      DrawnIs(t1, req, ExecutionOutcome, d, out);
      DrawnIs(Drawn(t1, req, ExecutionOutcome, d, out), req, ExecutionOutcome, g, goal);
    }
  }

  lemma DecideTx(req: Request, r: Record, directive: Option<Snap>, gate: Option<Snap>)
    requires req.kind == ExecutionConfirmation && r.status == Pending
    requires TransitionConfirmation(req, r, directive, gate).Ok?
    ensures directive.Some? && gate.Some? && (req.target == Confirmed || req.target == Failed)
    ensures TransitionConfirmation(req, r, directive, gate).value == Tx(
      Step(Swap(req.Subject(), req.expected,
                if req.target == Confirmed
                then r.(status := Confirmed, version := req.expected + 1, confirmedBy := req.actor)
                else r.(status := Failed, version := req.expected + 1)), None,
           Signed(req, Did(Transition), req.Subject(), Pending, req.target)),
      MoveStep(req, ExecutionOutcome, directive.value, if req.target == Confirmed then Completed else Aborted),
      MoveStep(req, ExecutionOutcome, gate.value,
               if req.target == Confirmed then directive.value.row.gateState else Locked))
  {
    hide MoveStep;
  }

  /** What lies behind a confirmation, as the services find it. */
  lemma BehindFound(t: Tables, related: string) returns (directive: Option<Snap>, gate: Option<Snap>)
    requires SafeTables(t)
    ensures directive == FindByCode(t, OperationDirective, related)
    ensures gate == if directive.Some? then FindByCode(t, GateUnit, directive.value.row.related) else None
    ensures directive.Some? ==> Settled(directive.value.row.gateState)
    ensures gate.Some? ==> KnownStatus(GateUnit, gate.value.row.status)
    ensures directive.Some? && gate.Some? ==>
      && directive.value.row == t.rows[directive.value.key] && gate.value.row == t.rows[gate.value.key]
      && IsLive(t, directive.value.key) && directive.value.key.kind == OperationDirective
      && IsLive(t, gate.value.key) && gate.value.key.kind == GateUnit
    ensures directive.Some? && directive.value.row.status == Executing && gate.Some? ==>
      Behind(t, related, directive.value.key, gate.value.key)
    ensures forall d, g :: Behind(t, related, d, g) ==>
      t.rows[d].status == Executing && directive == Some(Snap(d, t.rows[d])) && gate == Some(Snap(g, t.rows[g]))
  {
    hide SafeTables, FindByCode, Norm;
    directive := FindByCode(t, OperationDirective, related);
    FindsLed(t, OperationDirective, related);
    gate := None;
    if directive.Some? {
      FoundIsLed(t, OperationDirective, related);
      RowProper(t, directive.value.key);
      gate := GateFound(t, directive.value.row.related);
    }
  }

  /** What a request to confirm or to fail a pending confirmation does, once its rows are found. */
  lemma DecisionIs(t: Tables, req: Request, id: nat, directive: Option<Snap>, gate: Option<Snap>)
    requires SafeTables(t) && req.kind == ExecutionConfirmation && req.verb == Transition
    requires req.target == Confirmed || req.target == Failed
    requires IsLive(t, req.Subject()) && t.rows[req.Subject()].status == Pending
    requires directive == FindByCode(t, OperationDirective, t.rows[req.Subject()].related)
    requires gate == if directive.Some? then FindByCode(t, GateUnit, directive.value.row.related) else None
    ensures var r := t.rows[req.Subject()];
      var plan := TransitionConfirmation(req, r, directive, gate);
      && (Serve(t, req, id).Ok? <==> plan.Ok? && AsSent(t, req))
      && (plan.Ok? ==> directive.Some? && gate.Some? && directive.value.key in t.rows && gate.value.key in t.rows)
      && (Serve(t, req, id).Ok? ==>
            var d, g := directive.value.key, gate.value.key;
            Serve(t, req, id).value
            == if req.target == Confirmed
               then Outcome(t, req, r.(status := Confirmed, version := r.version + 1, confirmedBy := req.actor),
                            d, Completed, g, t.rows[d].gateState)
               else Outcome(t, req, Turned(r, Failed), d, Aborted, g, Locked))
  {
    hide SafeTables, Serve, TransitionConfirmation, FindByCode, ApplyTx, Behind, MoveStep, Outcome;
    ConfirmationServes(t, req, id);
    var r := t.rows[req.Subject()];
    var d, g := BehindFound(t, r.related);
    if TransitionConfirmation(req, r, directive, gate).Ok? {
      var tx := TransitionConfirmation(req, r, directive, gate).value;
      DecideTx(req, r, directive, gate);
      StillExecutes(req, r, directive, gate);
      if req.target == Confirmed {
        OutcomeIs(t, tx, req, tx.first.change.row, d.value.key, Completed, g.value.key, d.value.row.gateState);
      } else {
        OutcomeIs(t, tx, req, tx.first.change.row, d.value.key, Aborted, g.value.key, Locked);
      }
    }
  }

  lemma StillExecutes(req: Request, r: Record, directive: Option<Snap>, gate: Option<Snap>)
    requires r.status == Pending && TransitionConfirmation(req, r, directive, gate).Ok?
    ensures directive.Some? && directive.value.row.status == Executing
  {
    hide MoveStep;
  }

  lemma NotPending(t: Tables, req: Request, id: nat)
    requires SafeTables(t) && req.kind == ExecutionConfirmation && req.verb == Transition
    requires req.target == Confirmed || req.target == Failed
    requires IsLive(t, req.Subject()) && t.rows[req.Subject()].status != Pending
    ensures Serve(t, req, id).Err?
  {
    hide SafeTables, Serve, TransitionConfirmation, FindByCode, ApplyTx;
    ConfirmationServes(t, req, id);
    Known(t, req.Subject());
    ConfirmationTransitionAccepted(req, t.rows[req.Subject()], None, None);
  }

  /** A pending confirmation is confirmed exactly while its directive executes and the gate behind it is within reach.
      It names the one who confirmed; the directive is completed, and the gate goes where the directive wants it. */
  lemma ConfirmIs(t: Tables, req: Request, id: nat)
    requires SafeTables(t) && req.kind == ExecutionConfirmation && req.verb == Transition && req.target == Confirmed
    ensures Serve(t, req, id).Ok? <==>
      && AsSent(t, req) && t.rows[req.Subject()].status == Pending
      && exists d, g :: Behind(t, t.rows[req.Subject()].related, d, g) && Within(t.rows[g].status, t.rows[d].gateState)
    ensures forall d, g :: Serve(t, req, id).Ok? && Behind(t, t.rows[req.Subject()].related, d, g) ==>
      var r := t.rows[req.Subject()];
      var row := r.(status := Confirmed, version := r.version + 1, confirmedBy := req.actor);
      Serve(t, req, id).value == Outcome(t, req, row, d, Completed, g, t.rows[d].gateState)
  {
    hide SafeTables, Serve, TransitionConfirmation, FindByCode, Behind, Outcome;
    if IsLive(t, req.Subject()) {
      var r := t.rows[req.Subject()];
      Known(t, req.Subject());
      if r.status == Pending {
        var directive, gate := BehindFound(t, r.related);
        ConfirmationTransitionAccepted(req, r, directive, gate);
        DecisionIs(t, req, id, directive, gate);
        if TransitionConfirmation(req, r, directive, gate).Ok? {
          assert Within(gate.value.row.status, directive.value.row.gateState);
          assert Behind(t, r.related, directive.value.key, gate.value.key);
        }
      } else {
        NotPending(t, req, id);
      }
    } else {
      ConfirmationServes(t, req, id);
    }
  }

  /** It fails exactly while its directive executes, wherever the gate behind it is. The directive is aborted and the
      gate locked, and nobody is named. */
  lemma FailIs(t: Tables, req: Request, id: nat)
    requires SafeTables(t) && req.kind == ExecutionConfirmation && req.verb == Transition && req.target == Failed
    ensures Serve(t, req, id).Ok? <==>
      && AsSent(t, req) && t.rows[req.Subject()].status == Pending
      && exists d, g :: Behind(t, t.rows[req.Subject()].related, d, g)
    ensures forall d, g :: Serve(t, req, id).Ok? && Behind(t, t.rows[req.Subject()].related, d, g) ==>
      Serve(t, req, id).value == Outcome(t, req, Turned(t.rows[req.Subject()], Failed), d, Aborted, g, Locked)
  {
    hide SafeTables, Serve, TransitionConfirmation, FindByCode, Behind, Outcome;
    if IsLive(t, req.Subject()) {
      var r := t.rows[req.Subject()];
      Known(t, req.Subject());
      if r.status == Pending {
        var directive, gate := BehindFound(t, r.related);
        ConfirmationTransitionAccepted(req, r, directive, gate);
        DecisionIs(t, req, id, directive, gate);
        if TransitionConfirmation(req, r, directive, gate).Ok? {
          assert Behind(t, r.related, directive.value.key, gate.value.key);
        }
      } else {
        NotPending(t, req, id);
      }
    } else {
      ConfirmationServes(t, req, id);
    }
  }

  lemma CancelTx(req: Request, r: Record)
    requires req.kind == ExecutionConfirmation && req.target == Cancelled
    requires r.status == Failed && TransitionConfirmation(req, r, None, None).Ok?
    ensures TransitionConfirmation(req, r, None, None).value == Single(
      Step(Swap(req.Subject(), req.expected, r.(status := Cancelled, version := req.expected + 1)), None,
           Signed(req, Did(Transition), req.Subject(), Failed, Cancelled)))
  {
  }

  /** A failed confirmation is cancelled exactly as itself; nothing else is looked at or written. */
  lemma CancelIs(t: Tables, req: Request, id: nat)
    requires SafeTables(t) && req.kind == ExecutionConfirmation && req.verb == Transition && req.target == Cancelled
    ensures Serve(t, req, id).Ok? <==> AsSent(t, req) && t.rows[req.Subject()].status == Failed
    ensures Serve(t, req, id).Ok? ==>
      var k := req.Subject();
      Serve(t, req, id).value == Changed(t, req, Did(Transition), k, Turned(t.rows[k], Cancelled))
  {
    hide SafeTables, Serve, TransitionConfirmation, FindByCode, ApplyTx, Behind, MoveStep, CanReach;
    ConfirmationServes(t, req, id);
    if IsLive(t, req.Subject()) {
      var r := t.rows[req.Subject()];
      Known(t, req.Subject());
      if r.status == Pending {
        var directive, gate := BehindFound(t, r.related);
        ConfirmationTransitionAccepted(req, r, directive, gate);
      } else {
        ConfirmationTransitionAccepted(req, r, None, None);
        if TransitionConfirmation(req, r, None, None).Ok? {
          CancelTx(req, r);
          var tx := TransitionConfirmation(req, r, None, None).value;
          AloneIs(t, tx, req, tx.first.change.row);
        }
      }
    }
  }

  /** And no request brings a confirmation to any other status. */
  lemma NoOtherDecision(t: Tables, req: Request, id: nat)
    requires SafeTables(t) && req.kind == ExecutionConfirmation && req.verb == Transition
    requires req.target != Confirmed && req.target != Failed && req.target != Cancelled
    ensures Serve(t, req, id).Err?
  {
    hide SafeTables, Serve, TransitionConfirmation, FindByCode, ApplyTx, Behind, MoveStep, CanReach;
    ConfirmationServes(t, req, id);
    if IsLive(t, req.Subject()) {
      var r := t.rows[req.Subject()];
      Known(t, req.Subject());
      var directive, gate := BehindFound(t, r.related);
      ConfirmationTransitionAccepted(req, r, directive, gate);
      ConfirmationTransitionAccepted(req, r, None, None);
    }
  }
}
