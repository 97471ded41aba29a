/** Why a request is refused: every error that a request served alone gets tells what is wrong with it. */
module Refusals {
  import opened Text
  import opened Model
  import opened Store
  import opened Planning
  import opened Journal
  import opened Lives
  import opened Consistency
  import opened Alone
  import opened Reference
  import opened Acceptance
  import opened Decisions

  /** The kind of the row that a row of this kind stands on. */
  function Base(kind: Kind): Kind {
    match kind
    case Reservoir => Reservoir
    case GateUnit => Reservoir
    case OperationDirective => GateUnit
    case ExecutionConfirmation => OperationDirective
  }

  ghost predicate Missing(t: Tables, kind: Kind, text: string) {
    forall k :: !Leads(t, kind, text, k)
  }

  /** The code by which a request finds the row it stands on. */
  function BaseCode(t: Tables, req: Request): string {
    if req.verb == Create || (req.verb == Update && req.kind == OperationDirective) then req.input.related
    else if req.Subject() in t.rows then t.rows[req.Subject()].related
    else ""
  }

  /** The row itself, the row it stands on, or the gate below that one is not there. */
  ghost predicate NotThere(t: Tables, req: Request) {
    || (req.verb != Create && !IsLive(t, req.Subject()))
    || (req.verb != Delete && req.kind != Reservoir && Missing(t, Base(req.kind), BaseCode(t, req)))
    || (req.verb == Transition && req.kind == ExecutionConfirmation
        && exists d :: Leads(t, OperationDirective, BaseCode(t, req), d) && Missing(t, GateUnit, t.rows[d].related))
  }

  /** The row that the request stands on is there and does not suit it. */
  ghost predicate Unsuitable(t: Tables, req: Request) {
    exists k :: Leads(t, Base(req.kind), BaseCode(t, req), k) && Unfit(t, req, k)
  }

  ghost predicate Unfit(t: Tables, req: Request, k: Key)
    requires k in t.rows
  {
    match req.kind
    case Reservoir => false
    case GateUnit => req.verb != Transition && !SameName(Trim(req.input.facility), t.rows[k].facility)
    case OperationDirective =>
      || t.rows[k].status == Locked
      || (req.verb != Transition && !SameName(Trim(req.input.facility), t.rows[k].facility))
    case ExecutionConfirmation =>
      || t.rows[k].status != Executing
      || (req.verb == Create && ClaimedNow(t, k))
  }

  ghost predicate ClaimedNow(t: Tables, d: Key) {
    exists c :: Names(t, c, d) && IsLive(t, c)
  }

  /** Only deleted confirmations name the directive. */
  ghost predicate ClaimedByTheDead(t: Tables, d: Key) {
    (exists c :: Names(t, c, d)) && !ClaimedNow(t, d)
  }

  /** A gate or a confirmation cannot be moved to another row. */
  predicate Relinked(t: Tables, req: Request) {
    && req.verb == Update && (req.kind == GateUnit || req.kind == ExecutionConfirmation)
    && IsLive(t, req.Subject()) && !SameName(Trim(req.input.related), t.rows[req.Subject()].related)
  }

  predicate Incomplete(t: Tables, req: Request) {
    || (req.verb == Create && !Complete(req.input.code, req.input))
    || (req.verb == Update && IsLive(t, req.Subject()) && !Complete(t.rows[req.Subject()].code, req.input))
  }

  /** No edge leads to the target, or only another service may take it, or the gate cannot follow. */
  ghost predicate NoWay(t: Tables, req: Request) {
    && req.verb == Transition && IsLive(t, req.Subject())
    && var r := t.rows[req.Subject()];
       || (r.status, req.target) !in Edges(req.kind)
       || (req.kind == OperationDirective && req.target == Completed)
       || (req.kind == ExecutionConfirmation && req.target == Confirmed
           && exists d, g :: Behind(t, r.related, d, g) && !Within(t.rows[g].status, t.rows[d].gateState))
  }

  predicate MayDirect(target: Status, role: Role) {
    match target
    case Approved => role == Reviewer || role == Admin
    case Aborted => role == Operator || role == Reviewer || role == Admin
    case _ => role == Operator || role == Admin
  }

  /** What an error says about the request. */
  ghost predicate Explains(t: Tables, req: Request, id: nat, e: Error) {
    match e
    case NotFound => NotThere(t, req)
    case InvalidInput => Incomplete(t, req) || Relinked(t, req) || Unsuitable(t, req)
    case InvalidTransition => NoWay(t, req)
    case Forbidden =>
      && req.kind == OperationDirective && req.verb == Transition && IsLive(t, req.Subject())
      && (t.rows[req.Subject()].status, req.target) in Edges(OperationDirective) && !MayDirect(req.target, req.role)
    case TwoPersonRequired =>
      && req.kind == OperationDirective && req.verb == Transition && IsLive(t, req.Subject())
      && t.rows[req.Subject()].status == Pending && req.target == Approved
      && SameName(t.rows[req.Subject()].submittedBy, req.actor)
    case ImmutableState =>
      && (req.verb == Update || req.verb == Delete) && IsLive(t, req.Subject())
      && ((req.kind == OperationDirective && t.rows[req.Subject()].status != Draft)
          || (req.kind == ExecutionConfirmation && t.rows[req.Subject()].status != Pending))
    case VersionConflict =>
      && (req.verb == Update || req.verb == Transition) && IsLive(t, req.Subject())
      && t.rows[req.Subject()].version != req.expected
    case Duplicate =>
      && req.verb == Create
      && (!Free(t, req.kind, id, Norm(req.input.code))
          || (req.kind == ExecutionConfirmation
              && exists d :: Leads(t, OperationDirective, req.input.related, d) && ClaimedByTheDead(t, d)))
    case Storage => false
  }

  lemma StaleTx(t: Tables, tx: Tx, req: Request)
    requires IsLive(t, req.Subject()) && tx.first.change.Swap? && tx.first.change.key == req.Subject()
    requires tx.first.change.expected == req.expected && !AsSent(t, req)
    ensures ApplyTx(t, tx) == Err(VersionConflict)
  {
    hide ApplyStep;
    StaleSwapFails(t, tx.first);
  }

  // ----- Deletes and status changes of reservoirs and gates -----

  lemma DeleteRefused(t: Tables, req: Request, id: nat)
    requires req.verb == Delete && Serve(t, req, id).Err?
    ensures Explains(t, req, id, Serve(t, req, id).error)
  {
    hide Missing, Edges, Norm;
  }

  lemma StatusChangeRefused(t: Tables, req: Request, id: nat)
    requires SafeTables(t) && (req.kind == Reservoir || req.kind == GateUnit) && req.verb == Transition
    requires Serve(t, req, id).Err?
    ensures Explains(t, req, id, Serve(t, req, id).error)
  {
    hide SafeTables, CanTransition, Edges, ApplyTx, Missing, Unsuitable;
    StatusChangeIs(t, req, id);
    if IsLive(t, req.Subject()) {
      var r := t.rows[req.Subject()];
      GraphsAreMirrored(req.kind, r.status, req.target);
      if CanTransition(req.kind, r.status, req.target) {
        var tx := StatusChange(req, r).value;
        ServesPlan(t, req, id, tx);
        StaleTx(t, tx, req);
      }
    }
  }

  // ----- Directives -----

  lemma DirectivePlanRefuses(req: Request, r: Record, gate: Option<Snap>)
    requires KnownStatus(OperationDirective, r.status)
    requires gate.Some? ==> KnownStatus(GateUnit, gate.value.row.status)
    requires TransitionDirective(req, r, gate).Err?
    ensures match TransitionDirective(req, r, gate).error
            case NotFound => NeedsGate(r.status, req.target) && gate.None?
            case InvalidInput => NeedsGate(r.status, req.target) && gate.Some? && gate.value.row.status == Locked
            case InvalidTransition =>
              !CanTransition(OperationDirective, r.status, req.target) || req.target == Completed
            case Forbidden =>
              CanTransition(OperationDirective, r.status, req.target) && !MayDirect(req.target, req.role)
            case TwoPersonRequired =>
              && r.status == Pending && req.target == Approved
              && (r.submittedBy == "" || EqualFold(r.submittedBy, req.actor))
            case _ => false
  {
  }

  lemma DirectivePlanFirst(req: Request, r: Record, gate: Option<Snap>)
    requires TransitionDirective(req, r, gate).Ok?
    ensures var c := TransitionDirective(req, r, gate).value.first.change;
      c.Swap? && c.key == req.Subject() && c.expected == req.expected
  {
  }

  lemma DirectiveApplies(t: Tables, req: Request, id: nat)
    requires SafeTables(t) && req.kind == OperationDirective && req.verb == Transition && AsSent(t, req)
    requires var r := t.rows[req.Subject()];
      var gate := if NeedsGate(r.status, req.target) then FindByCode(t, GateUnit, r.related) else None;
      TransitionDirective(req, r, gate).Ok?
    ensures Serve(t, req, id).Ok?
  {
    hide SafeTables, Serve, TransitionDirective, FindByCode, EqualFold, SameName, Leads, ApplyTx;
    var r := t.rows[req.Subject()];
    var found := GateFound(t, r.related);
    var gate := if NeedsGate(r.status, req.target) then found else None;
    Known(t, req.Subject());
    DirectiveTransitionAccepted(req, r, gate);
    match req.target
    case Pending => SubmitIs(t, req, id);
    case Approved => ApproveIs(t, req, id);
    case Executing => ExecuteIs(t, req, id);
    case Aborted => AbortIs(t, req, id);
  }

  lemma DirectiveRefused(t: Tables, req: Request, id: nat)
    requires SafeTables(t) && req.kind == OperationDirective && req.verb == Transition && Serve(t, req, id).Err?
    ensures Explains(t, req, id, Serve(t, req, id).error)
  {
    hide SafeTables, Serve, TransitionDirective, FindByCode, ApplyTx, EqualFold, SameName, Leads, CanTransition, Edges,
      MayDirect;
    DirectiveServes(t, req, id);
    if IsLive(t, req.Subject()) {
      var r := t.rows[req.Subject()];
      var found := GateFound(t, r.related);
      var gate := if NeedsGate(r.status, req.target) then found else None;
      Known(t, req.Subject());
      GraphsAreMirrored(OperationDirective, r.status, req.target);
      EqualFoldIsExact(r.submittedBy, req.actor);
      DirectiveAttested(t, req.Subject());
      if TransitionDirective(req, r, gate).Ok? {
        DirectivePlanFirst(req, r, gate);
        if AsSent(t, req) {
          DirectiveApplies(t, req, id);
        } else {
          StaleTx(t, TransitionDirective(req, r, gate).value, req);
        }
      } else {
        DirectivePlanRefuses(req, r, gate);
        if gate.Some? && gate.value.row.status == Locked {
          assert Leads(t, GateUnit, BaseCode(t, req), gate.value.key);
          assert Unfit(t, req, gate.value.key);
          assert Unsuitable(t, req);
        }
      }
    } else {
      DeadIsNotFound(t, req, id);
    }
  }

  lemma DeadIsNotFound(t: Tables, req: Request, id: nat)
    requires req.verb != Create && !IsLive(t, req.Subject())
    ensures Serve(t, req, id) == Err(NotFound)
  {
  }

  // ----- Confirmations -----

  lemma ConfirmationPlanRefuses(req: Request, r: Record, directive: Option<Snap>, gate: Option<Snap>)
    requires KnownStatus(ExecutionConfirmation, r.status)
    requires directive.Some? ==> Settled(directive.value.row.gateState)
    requires gate.Some? ==> KnownStatus(GateUnit, gate.value.row.status)
    requires TransitionConfirmation(req, r, directive, gate).Err?
    ensures match TransitionConfirmation(req, r, directive, gate).error
            case NotFound =>
              r.status == Pending && (directive.None? || (directive.value.row.status == Executing && gate.None?))
            case InvalidInput => r.status == Pending && directive.Some? && directive.value.row.status != Executing
            case InvalidTransition =>
              || !CanTransition(ExecutionConfirmation, r.status, req.target)
              || (req.target == Confirmed && r.status == Pending
                  && directive.Some? && directive.value.row.status == Executing && gate.Some?
                  && !Within(gate.value.row.status, directive.value.row.gateState))
            case _ => false
  {
  }

  lemma ConfirmationPlanFirst(req: Request, r: Record, directive: Option<Snap>, gate: Option<Snap>)
    requires TransitionConfirmation(req, r, directive, gate).Ok?
    ensures CanTransition(ExecutionConfirmation, r.status, req.target)
    ensures var c := TransitionConfirmation(req, r, directive, gate).value.first.change;
      c.Swap? && c.key == req.Subject() && c.expected == req.expected
  {
    hide MoveStep;
  }

  lemma ConfirmationApplies(t: Tables, req: Request, id: nat, directive: Option<Snap>, gate: Option<Snap>)
    requires SafeTables(t) && req.kind == ExecutionConfirmation && req.verb == Transition && AsSent(t, req)
    requires var r := t.rows[req.Subject()];
      && directive == (if r.status == Pending then FindByCode(t, OperationDirective, r.related) else None)
      && gate == (if directive.Some? then FindByCode(t, GateUnit, directive.value.row.related) else None)
      && TransitionConfirmation(req, r, directive, gate).Ok?
    ensures Serve(t, req, id).Ok?
  {
    hide SafeTables, Serve, TransitionConfirmation, FindByCode, Behind, ApplyTx;
    var r := t.rows[req.Subject()];
    var d, g := BehindFound(t, r.related);
    Known(t, req.Subject());
    ConfirmationTransitionAccepted(req, r, directive, gate);
    match req.target
    case Confirmed =>
      ConfirmIs(t, req, id);
      assert Within(gate.value.row.status, directive.value.row.gateState);
    case Failed => FailIs(t, req, id);
    case Cancelled => CancelIs(t, req, id);
  }

  lemma ConfirmationRefused(t: Tables, req: Request, id: nat)
    requires SafeTables(t) && req.kind == ExecutionConfirmation && req.verb == Transition && Serve(t, req, id).Err?
    ensures Explains(t, req, id, Serve(t, req, id).error)
  {
    hide SafeTables, Serve, TransitionConfirmation, FindByCode, ApplyTx, Leads, Behind, Within, CanTransition, Edges;
    ConfirmationServes(t, req, id);
    if IsLive(t, req.Subject()) {
      var r := t.rows[req.Subject()];
      var d, g := BehindFound(t, r.related);
      FindsLed(t, OperationDirective, r.related);
      var directive := if r.status == Pending then d else None;
      var gate := if directive.Some? then g else None;
      Known(t, req.Subject());
      GraphsAreMirrored(ExecutionConfirmation, r.status, req.target);
      if TransitionConfirmation(req, r, directive, gate).Ok? {
        ConfirmationPlanFirst(req, r, directive, gate);
        if AsSent(t, req) {
          ConfirmationApplies(t, req, id, directive, gate);
        } else {
          StaleTx(t, TransitionConfirmation(req, r, directive, gate).value, req);
        }
      } else {
        ConfirmationPlanRefuses(req, r, directive, gate);
        if directive.Some? {
          DirectiveUnfit(t, req, directive.value);
        }
      }
    } else {
      DeadIsNotFound(t, req, id);
    }
  }

  lemma DirectiveUnfit(t: Tables, req: Request, d: Snap)
    requires SafeTables(t) && req.kind == ExecutionConfirmation && req.verb != Create && req.verb != Delete
    requires req.Subject() in t.rows
    requires FindByCode(t, OperationDirective, t.rows[req.Subject()].related) == Some(d)
    ensures d.row.status != Executing ==> Unsuitable(t, req)
    ensures req.verb == Transition && FindByCode(t, GateUnit, d.row.related).None? ==> NotThere(t, req)
  {
    hide FindByCode, SafeTables, Leads;
    FoundIsLed(t, OperationDirective, BaseCode(t, req));
    FindsLed(t, GateUnit, d.row.related);
    assert Leads(t, OperationDirective, BaseCode(t, req), d.key);
    assert d.row.status != Executing ==> Unfit(t, req, d.key);
  }

  // ----- Updates -----

  lemma RewriteRefused(t: Tables, req: Request, id: nat, row: Record)
    requires SafeTables(t) && req.verb == Update && IsLive(t, req.Subject())
    requires var r := t.rows[req.Subject()];
      && row.code == r.code && row.live && row.status == r.status
      && (req.kind == ExecutionConfirmation ==> row.related == r.related)
      && Serve(t, req, id) == ApplyTx(t, Single(UpdateStep(req, r, row))) && Serve(t, req, id).Err?
    ensures Explains(t, req, id, Serve(t, req, id).error)
  {
    hide SafeTables, Serve, ApplyTx;
    var r := t.rows[req.Subject()];
    RewriteIs(t, req, r, row);
    StaleTx(t, Single(UpdateStep(req, r, row)), req);
  }

  lemma ReservoirUpdateRefused(t: Tables, req: Request, id: nat)
    requires SafeTables(t) && req.kind == Reservoir && req.verb == Update && Serve(t, req, id).Err?
    ensures Explains(t, req, id, Serve(t, req, id).error)
  {
    hide SafeTables, Serve, ApplyTx, Trim, Norm, Filled, Complete;
    UpdatePlanIs(t, req, id);
    if IsLive(t, req.Subject()) {
      var r := t.rows[req.Subject()];
      FilledIsComplete(r.code, req.input);
      if UpdateReservoir(req, r).Ok? {
        RewriteRefused(t, req, id, UpdateReservoir(req, r).value.first.change.row);
      }
    } else {
      DeadIsNotFound(t, req, id);
    }
  }

  lemma GateUpdateRefused(t: Tables, req: Request, id: nat)
    requires SafeTables(t) && req.kind == GateUnit && req.verb == Update && Serve(t, req, id).Err?
    ensures Explains(t, req, id, Serve(t, req, id).error)
  {
    hide SafeTables, Serve, ApplyTx, Trim, Norm, Filled, Complete, SameName, EqualFold, FindByCode, Leads;
    UpdatePlanIs(t, req, id);
    if IsLive(t, req.Subject()) {
      var r := t.rows[req.Subject()];
      FilledIsComplete(r.code, req.input);
      EqualFoldIsExact(Trim(req.input.related), r.related);
      FindsLed(t, Reservoir, r.related);
      var found := FindByCode(t, Reservoir, r.related);
      if found.Some? {
        FoundUnfit(t, req, found.value);
      }
      if UpdateGate(req, r, found).Ok? {
        RewriteRefused(t, req, id, UpdateGate(req, r, found).value.first.change.row);
      }
    } else {
      DeadIsNotFound(t, req, id);
    }
  }

  /** The row that was found is of another facility, or it is a locked gate. */
  lemma FoundUnfit(t: Tables, req: Request, s: Snap)
    requires req.verb == Create || req.verb == Update
    requires req.kind == GateUnit || req.kind == OperationDirective
    requires FindByCode(t, Base(req.kind), BaseCode(t, req)) == Some(s)
    ensures !SameFacility(req.input, s.row) ==> Unsuitable(t, req)
    ensures req.kind == OperationDirective && !GateUsable(req.input, s.row) ==> Unsuitable(t, req)
  {
    hide FindByCode, Leads, EqualFold, SameName, Trim;
    FoundIsLed(t, Base(req.kind), BaseCode(t, req));
    EqualFoldIsExact(Trim(req.input.facility), s.row.facility);
    LedIsLive(t, Base(req.kind), BaseCode(t, req), s.key);
    assert !SameFacility(req.input, s.row) ==> Unfit(t, req, s.key);
    assert req.kind == OperationDirective && !GateUsable(req.input, s.row) ==> Unfit(t, req, s.key);
  }

  lemma DirectiveUpdateRefused(t: Tables, req: Request, id: nat)
    requires SafeTables(t) && req.kind == OperationDirective && req.verb == Update && Serve(t, req, id).Err?
    ensures Explains(t, req, id, Serve(t, req, id).error)
  {
    hide SafeTables, Serve, ApplyTx, Trim, Norm, Filled, Complete, SameName, EqualFold, FindByCode, Leads, GateUsable;
    UpdatePlanIs(t, req, id);
    if IsLive(t, req.Subject()) {
      var r := t.rows[req.Subject()];
      FilledIsComplete(r.code, req.input);
      FindsLed(t, GateUnit, req.input.related);
      var found := FindByCode(t, GateUnit, req.input.related);
      if found.Some? {
        FoundUnfit(t, req, found.value);
      }
      if UpdateDirective(req, r, found).Ok? {
        RewriteRefused(t, req, id, UpdateDirective(req, r, found).value.first.change.row);
      }
    } else {
      DeadIsNotFound(t, req, id);
    }
  }

  lemma ConfirmationUpdateRefused(t: Tables, req: Request, id: nat)
    requires SafeTables(t) && req.kind == ExecutionConfirmation && req.verb == Update && Serve(t, req, id).Err?
    ensures Explains(t, req, id, Serve(t, req, id).error)
  {
    hide SafeTables, Serve, ApplyTx, Trim, Norm, Filled, Complete, SameName, EqualFold, FindByCode, Leads;
    UpdatePlanIs(t, req, id);
    if IsLive(t, req.Subject()) {
      var r := t.rows[req.Subject()];
      FilledIsComplete(r.code, req.input);
      EqualFoldIsExact(Trim(req.input.related), r.related);
      FindsLed(t, OperationDirective, r.related);
      var found := FindByCode(t, OperationDirective, r.related);
      if found.Some? {
        DirectiveUnfit(t, req, found.value);
        FoundCode(t, req.Subject(), OperationDirective);
      }
      if UpdateConfirmation(req, r, found).Ok? {
        RewriteRefused(t, req, id, UpdateConfirmation(req, r, found).value.first.change.row);
      }
    } else {
      DeadIsNotFound(t, req, id);
    }
  }

  /** What is found by a stored code has that code. */
  lemma FoundCode(t: Tables, k: Key, kind: Kind)
    requires SafeTables(t) && k in t.rows && FindByCode(t, kind, t.rows[k].related).Some?
    ensures FindByCode(t, kind, t.rows[k].related).value.row.code == t.rows[k].related
  {
    hide SafeTables, Norm;
    RelatedIsNorm(t, k);
    FoundIsLed(t, kind, t.rows[k].related);
  }

  // ----- Creates -----

  lemma InsertRefused(t: Tables, req: Request, id: nat, row: Record)
    requires req.verb == Create && row.code == Norm(req.input.code)
    requires Serve(t, req, id) == ApplyTx(t, Single(CreateStep(req, id, row))) && Serve(t, req, id).Err?
    requires req.kind == ExecutionConfirmation ==>
      exists d ::
        Leads(t, OperationDirective, req.input.related, d) && t.rows[d].code == row.related && !ClaimedNow(t, d)
    ensures Explains(t, req, id, Serve(t, req, id).error)
  {
    hide Norm, Serve, Free;
    InsertIs(t, req, id, row);
    DuplicateOnly(t, CreateStep(req, id, row));
    if Free(t, req.kind, id, row.code) {
      var k :| k in t.rows && k.kind == ExecutionConfirmation && t.rows[k].related == row.related;
      var d :|
        Leads(t, OperationDirective, req.input.related, d) && t.rows[d].code == row.related && !ClaimedNow(t, d);
      assert Names(t, k, d);
      assert ClaimedByTheDead(t, d);
    }
  }

  lemma DuplicateOnly(t: Tables, s: Step)
    requires s.change.Insert? && ApplyTx(t, Single(s)).Err?
    ensures ApplyTx(t, Single(s)) == Err(Duplicate)
  {
  }

  lemma ReservoirCreateRefused(t: Tables, req: Request, id: nat)
    requires SafeTables(t) && req.kind == Reservoir && req.verb == Create && Serve(t, req, id).Err?
    ensures Explains(t, req, id, Serve(t, req, id).error)
  {
    hide Trim, Norm, Filled, Complete, SafeTables, Free, ApplyTx;
    FilledIsComplete(req.input.code, req.input);
    if Filled(req.input.code, req.input) {
      ServesPlan(t, req, id, Single(CreateStep(req, id, NewRecord(Reservoir, req.input))));
      InsertRefused(t, req, id, NewRecord(Reservoir, req.input));
    }
  }

  lemma GateCreateRefused(t: Tables, req: Request, id: nat)
    requires SafeTables(t) && req.kind == GateUnit && req.verb == Create && Serve(t, req, id).Err?
    ensures Explains(t, req, id, Serve(t, req, id).error)
  {
    hide Trim, Norm, Filled, Complete, SafeTables, Free, SameName, EqualFold, FindByCode, Leads, Serve, ApplyTx;
    FilledIsComplete(req.input.code, req.input);
    FindsLed(t, Reservoir, req.input.related);
    var found := FindByCode(t, Reservoir, req.input.related);
    CreatePlanIs(t, req, id, found);
    if found.Some? {
      FoundUnfit(t, req, found.value);
    }
    if CreateGate(req, found, id).Ok? {
      InsertRefused(t, req, id, NewRecord(GateUnit, req.input));
    }
  }

  lemma DirectiveCreateRefused(t: Tables, req: Request, id: nat)
    requires SafeTables(t) && req.kind == OperationDirective && req.verb == Create && Serve(t, req, id).Err?
    ensures Explains(t, req, id, Serve(t, req, id).error)
  {
    hide Trim, Norm, Filled, Complete, SafeTables, Free, SameName, EqualFold, FindByCode, Leads, Serve, ApplyTx,
      GateUsable;
    FilledIsComplete(req.input.code, req.input);
    FindsLed(t, GateUnit, req.input.related);
    var found := FindByCode(t, GateUnit, req.input.related);
    CreatePlanIs(t, req, id, found);
    if found.Some? {
      FoundUnfit(t, req, found.value);
    }
    if CreateDirective(req, found, id).Ok? {
      InsertRefused(t, req, id, CreateDirective(req, found, id).value.first.change.row);
    }
  }

  lemma ConfirmationCreateRefused(t: Tables, req: Request, id: nat)
    requires SafeTables(t) && req.kind == ExecutionConfirmation && req.verb == Create && Serve(t, req, id).Err?
    ensures Explains(t, req, id, Serve(t, req, id).error)
  {
    hide Trim, Norm, Filled, Complete, SafeTables, Free, FindByCode, Leads, Serve, ApplyTx, Unclaimed;
    FilledIsComplete(req.input.code, req.input);
    FindsLed(t, OperationDirective, req.input.related);
    var found := FindByCode(t, OperationDirective, req.input.related);
    CreatePlanIs(t, req, id, found);
    if found.Some? {
      FoundIsLed(t, OperationDirective, req.input.related);
      var d := found.value.key;
      LedIsLive(t, OperationDirective, req.input.related, d);
      ClaimsAreCounted(t, d);
      if found.value.row.status != Executing || !Unclaimed(t, found.value.row.code) {
        assert Unfit(t, req, d);
      } else if CreateConfirmation(req, found, true, id).Ok? {
        InsertRefused(t, req, id, CreateConfirmation(req, found, true, id).value.first.change.row);
      }
    }
  }

  /** Only live confirmations are counted. */
  lemma ClaimsAreCounted(t: Tables, d: Key)
    requires SafeTables(t) && IsDirective(t, d)
    ensures Unclaimed(t, t.rows[d].code) <==> !ClaimedNow(t, d)
  {
    hide SafeTables, Norm;
    assert Norm(t.rows[d].code) == t.rows[d].code by { CodeIsNorm(t, d); }
    if !Unclaimed(t, t.rows[d].code) {
      var c :| IsLive(t, c) && c.kind == ExecutionConfirmation && t.rows[c].related == Norm(t.rows[d].code);
      assert Names(t, c, d) && IsLive(t, c);
    }
  }

  lemma CodeIsNorm(t: Tables, k: Key)
    requires SafeTables(t) && k in t.rows
    ensures Norm(t.rows[k].code) == t.rows[k].code
  {
    hide Norm;
    assert Sound(k.kind, t.rows[k], History(t.audits, k), ApprovalsOf(t.approvals, k.id));
  }

  // ----- All requests -----

  lemma CreateRefused(t: Tables, req: Request, id: nat)
    requires SafeTables(t) && req.verb == Create && Serve(t, req, id).Err?
    ensures Explains(t, req, id, Serve(t, req, id).error)
  {
    hide Serve, SafeTables, Explains;
    match req.kind
    case Reservoir => ReservoirCreateRefused(t, req, id);
    case GateUnit => GateCreateRefused(t, req, id);
    case OperationDirective => DirectiveCreateRefused(t, req, id);
    case ExecutionConfirmation => ConfirmationCreateRefused(t, req, id);
  }

  lemma UpdateRefused(t: Tables, req: Request, id: nat)
    requires SafeTables(t) && req.verb == Update && Serve(t, req, id).Err?
    ensures Explains(t, req, id, Serve(t, req, id).error)
  {
    hide Serve, SafeTables, Explains;
    match req.kind
    case Reservoir => ReservoirUpdateRefused(t, req, id);
    case GateUnit => GateUpdateRefused(t, req, id);
    case OperationDirective => DirectiveUpdateRefused(t, req, id);
    case ExecutionConfirmation => ConfirmationUpdateRefused(t, req, id);
  }

  /** Whatever the request and whatever the tables of a careful run: the error it gets when it is served alone is true
      of it. */
  lemma EveryRefusalIsExplained(t: Tables, req: Request, id: nat)
    requires SafeTables(t) && Serve(t, req, id).Err?
    ensures Explains(t, req, id, Serve(t, req, id).error)
  {
    hide Serve, SafeTables, Explains;
    match req.verb
    case Create => CreateRefused(t, req, id);
    case Update => UpdateRefused(t, req, id);
    case Delete => DeleteRefused(t, req, id);
    case Transition =>
      if req.kind == OperationDirective {
        DirectiveRefused(t, req, id);
      } else if req.kind == ExecutionConfirmation {
        ConfirmationRefused(t, req, id);
      } else {
        StatusChangeRefused(t, req, id);
      }
  }
}
