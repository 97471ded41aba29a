/** The service methods, statement by statement. Each one is proved to do what `Serve` says, or to report an error and
    leave the database as it was, whichever writes fail on the way. */
module Services {
  import opened Text
  import opened Model
  import opened Store
  import opened Planning
  import opened Protocol
  import opened Databases

  function FailureOf<T>(r: Result<T>): Option<Error> {
    if r.Err? then Some(r.error) else None
  }

  // ----- The specification of each method: what its plan, made from rows read at one moment, does to the tables -----

  ghost function Applied(t: Tables, plan: Result<Tx>): Result<Tables> {
    if plan.Ok? then ApplyTx(t, plan.value) else Err(plan.error)
  }

  ghost function CreatingGate(t: Tables, req: Request, id: nat): Result<Tables> {
    Applied(t, CreateGate(req, FindByCode(t, Reservoir, req.input.related), id))
  }

  ghost function CreatingDirective(t: Tables, req: Request, id: nat): Result<Tables> {
    Applied(t, CreateDirective(req, FindByCode(t, GateUnit, req.input.related), id))
  }

  ghost function CreatingConfirmation(t: Tables, req: Request, id: nat): Result<Tables> {
    var d := FindByCode(t, OperationDirective, req.input.related);
    Applied(t, CreateConfirmation(req, d, d.Some? && Unclaimed(t, d.value.row.code), id))
  }

  ghost function Updating(t: Tables, req: Request): Result<Tables> {
    var found := Find(t, req.Subject());
    if found.None? then Err(NotFound)
    else
      var current := found.value;
      Applied(t,
        match req.kind
        case Reservoir => UpdateReservoir(req, current)
        case GateUnit => UpdateGate(req, current, FindByCode(t, Reservoir, current.related))
        case OperationDirective => UpdateDirective(req, current, FindByCode(t, GateUnit, req.input.related))
        case ExecutionConfirmation =>
          UpdateConfirmation(req, current, FindByCode(t, OperationDirective, current.related)))
  }

  ghost function ChangingStatus(t: Tables, req: Request): Result<Tables> {
    var found := Find(t, req.Subject());
    if found.None? then Err(NotFound) else Applied(t, StatusChange(req, found.value))
  }

  ghost function DirectivePlan(t: Tables, req: Request): Result<Tx> {
    var found := Find(t, req.Subject());
    if found.None? then Err(NotFound)
    else TransitionDirective(req, found.value, FindByCode(t, GateUnit, found.value.related))
  }

  ghost function TransitioningDirective(t: Tables, req: Request): Result<Tables> {
    Applied(t, DirectivePlan(t, req))
  }

  ghost function OutcomePlan(t: Tables, req: Request): Result<Tx> {
    var found := Find(t, req.Subject());
    if found.None? then Err(NotFound)
    else
      var d := FindByCode(t, OperationDirective, found.value.related);
      var g := if d.Some? then FindByCode(t, GateUnit, d.value.row.related) else None;
      TransitionConfirmation(req, found.value, d, g)
  }

  ghost function TransitioningConfirmation(t: Tables, req: Request): Result<Tables> {
    Applied(t, OutcomePlan(t, req))
  }

  ghost function Deleting(t: Tables, req: Request): Result<Tables> {
    var found := Find(t, req.Subject());
    if found.None? then Err(NotFound)
    else
      Applied(t,
        match req.kind
        case Reservoir => Ok(DeleteTx(req, found.value))
        case GateUnit => Ok(DeleteTx(req, found.value))
        case OperationDirective => DeleteDirective(req, found.value)
        case ExecutionConfirmation => DeleteConfirmation(req, found.value))
  }

  /** The specifications of the methods are those of the protocol: a method call is a request that runs alone. */
  lemma MethodsServe(t: Tables, req: Request, id: nat)
    ensures Serve(t, req, id) ==
      match req.verb
      case Create =>
        (match req.kind
         case Reservoir => Applied(t, CreateReservoir(req, id))
         case GateUnit => CreatingGate(t, req, id)
         case OperationDirective => CreatingDirective(t, req, id)
         case ExecutionConfirmation => CreatingConfirmation(t, req, id))
      case Update => Updating(t, req)
      case Delete => Deleting(t, req)
      case Transition =>
        (match req.kind
         case Reservoir => ChangingStatus(t, req)
         case GateUnit => ChangingStatus(t, req)
         case OperationDirective => TransitioningDirective(t, req)
         case ExecutionConfirmation => TransitioningConfirmation(t, req))
  {
  }

  lemma DirectiveObserved(t: Tables, req: Request)
    requires req.kind == OperationDirective && req.verb == Transition
    ensures Plan(Observe(t, req), 0) == DirectivePlan(t, req)
  {
    hide FindByCode;
  }

  lemma OutcomeObserved(t: Tables, req: Request)
    requires req.kind == ExecutionConfirmation && req.verb == Transition
    ensures Plan(Observe(t, req), 0) == OutcomePlan(t, req)
  {
    hide FindByCode;
  }

  const NOBODY := NewRecord(Reservoir, Input("", "", "", "", "", Blank, Details("", "", "")))

  function DirectiveTx(req: Request, row: Record, approval: Option<Approval>, audit: Audit, gate: Option<Snap>,
                       goal: Option<Status>): Tx
    requires goal.Some? ==> gate.Some?
  {
    Tx(Step(Swap(req.Subject(), req.expected, row), approval, audit),
       if goal.Some? then MoveStep(req, DirectiveExecution, gate.value, goal.value) else None, None)
  }

  ghost function Both(t: Tables, a: Option<Step>, b: Option<Step>): Result<Tables> {
    var u :- ApplyNext(t, a);
    ApplyNext(u, b)
  }

  lemma SingleTx(t: Tables, s: Step)
    ensures ApplyTx(t, Single(s)) == ApplyStep(t, s)
  {
  }

  lemma TxBoth(t: Tables, tx: Tx)
    ensures ApplyTx(t, tx) ==
            var first := ApplyStep(t, tx.first);
            if first.Err? then first else Both(first.value, tx.second, tx.third)
  {
  }

  function OutcomeTx(req: Request, from: Status, row: Record, directive: Option<Snap>, gate: Option<Snap>,
                     goal: Status): Tx
    requires directive.Some? <==> gate.Some?
  {
    Tx(Step(Swap(req.Subject(), req.expected, row), None,
            Entry(req, Did(Transition), req.Subject(), from, req.target)),
       if directive.Some? then MoveStep(req, ExecutionOutcome, directive.value, DirectiveOutcome(req.target)) else None,
       if directive.Some? then MoveStep(req, ExecutionOutcome, gate.value, goal) else None)
  }

  /** The plan of a directive transition that passes all checks. */
  lemma DirectivePlanned(req: Request, read: Record, linked: Option<Snap>, goal: Option<Status>)
    requires CanTransition(OperationDirective, read.status, req.target) && req.target != Completed
    requires RoleAllowed(req.target, req.role)
    requires req.target == Approved ==> read.submittedBy != "" && !EqualFold(read.submittedBy, req.actor)
    requires !NeedsGate(read.status, req.target) ==> goal.None?
    requires NeedsGate(read.status, req.target) ==>
      && linked.Some? && goal == GateGoal(read, req.target, linked.value.row)
      && (req.target == Executing ==> linked.value.row.status != Locked)
      && (goal.Some? ==> CanReach(linked.value.row, goal.value))
    ensures Planning.TransitionDirective(req, read, linked) == Ok(Tx(
      Step(Swap(req.Subject(), req.expected, Advanced(req, read)), Evidence(req, read),
           Entry(req, Did(Transition), req.Subject(), read.status, req.target)),
      if goal.Some? then MoveStep(req, DirectiveExecution, linked.value, goal.value) else None, None))
  {
  }

  // ----- The transactions every service shares -----

  class Service {
    const db: Database

    constructor (db: Database)
      ensures this.db == db
    {
      this.db := db;
    }

    /** A successful call answers with the row as it is stored. */
    ghost predicate Stored(r: Result<Record>, k: Key)
      reads db
    {
      r.Ok? ==> k in db.rows && r.value == db.rows[k]
    }

    /** Inside a transaction: an insert and its audit entry. */
    method CreateWithAudit(req: Request, row: Record) returns (failure: Option<Error>)
      requires db.Valid() && row.live
      modifies db
      ensures db.Valid() && db.saved == old(db.saved) && db.lastId == old(db.lastId) + 1 && db.writes >= old(db.writes)
      ensures failure.None? ==>
        ApplyStep(old(db.Contents()), CreateStep(req, old(db.lastId) + 1, row)) == Ok(db.Contents())
      ensures failure.Some? && failure.value != Storage ==>
        ApplyStep(old(db.Contents()), CreateStep(req, old(db.lastId) + 1, row)) == Err(failure.value)
      ensures failure == Some(Storage) ==> db.Faulted(old(db.writes))
      ensures failure.None? ==> IsLive(db.Contents(), Key(req.kind, db.lastId))
    {
      failure := db.Create(req.kind, row);
      if failure.None? {
        failure := db.AppendAudit(Entry(req, Did(Create), Key(req.kind, db.lastId), Blank, row.status));
      }
    }

    /** The transaction of a create. */
    method Insert(req: Request, row: Record) returns (r: Result<Record>)
      requires db.Valid() && db.saved == [] && row.live
      modifies db
      ensures db.Valid() && db.saved == [] && db.lastId == old(db.lastId) + 1
      ensures db.Wrote(old(db.Contents()), old(db.writes),
                       ApplyTx(old(db.Contents()), Single(CreateStep(req, old(db.lastId) + 1, row))), FailureOf(r))
      ensures Stored(r, Key(req.kind, db.lastId))
    {
      hide ApplyTx, ApplyStep, CreateStep, Indexed;
      SingleTx(db.Contents(), CreateStep(req, db.lastId + 1, row));
      db.Begin();
      var failure := CreateWithAudit(req, row);
      failure := db.Finish(failure);
      r := Answer(failure, Key(req.kind, db.lastId));
    }

    /** Inside a transaction: an optimistic update and its audit entry. */
    method SwapWithAudit(k: Key, expected: nat, row: Record, audit: Audit) returns (failure: Option<Error>)
      requires db.Valid()
      modifies db`rows, db`audits, db`writes
      ensures db.Valid() && db.writes >= old(db.writes)
      ensures failure.None? ==>
        ApplyStep(old(db.Contents()), Step(Swap(k, expected, row), None, audit)) == Ok(db.Contents())
      ensures failure.Some? && failure.value != Storage ==>
        ApplyStep(old(db.Contents()), Step(Swap(k, expected, row), None, audit)) == Err(failure.value)
      ensures failure == Some(Storage) ==> db.Faulted(old(db.writes))
      ensures failure.None? ==> IsLive(db.Contents(), k)
      ensures forall j :: j != k && IsLive(old(db.Contents()), j) ==> IsLive(db.Contents(), j)
    {
      failure := db.Update(k, expected, row);
      if failure.None? {
        failure := db.AppendAudit(audit);
      }
    }

    /** The transaction of an update. */
    method Rewrite(req: Request, ghost read: Record, row: Record) returns (r: Result<Record>)
      requires db.Valid() && db.saved == [] && row.status == read.status
      modifies db
      ensures db.Valid() && db.saved == []
      ensures db.Wrote(old(db.Contents()), old(db.writes),
                       ApplyTx(old(db.Contents()), Single(UpdateStep(req, read, row))), FailureOf(r))
      ensures Stored(r, req.Subject())
    {
      db.Begin();
      var failure := SwapWithAudit(req.Subject(), req.expected, row,
                                   Entry(req, Did(Update), req.Subject(), row.status, row.status));
      failure := db.Finish(failure);
      r := Answer(failure, req.Subject());
    }

    /** The transaction of a delete. */
    method Discard(req: Request, current: Record) returns (failure: Option<Error>)
      requires db.Valid() && db.saved == []
      modifies db
      ensures db.Valid() && db.saved == []
      ensures db.Wrote(old(db.Contents()), old(db.writes), ApplyTx(old(db.Contents()), DeleteTx(req, current)), failure)
    {
      db.Begin();
      failure := db.Remove(req.Subject());
      if failure.None? {
        failure := db.AppendAudit(Entry(req, Did(Delete), req.Subject(), current.status, Deleted));
      }
      failure := db.Finish(failure);
    }

    /** The row as it is after a successful write. */
    method Answer(failure: Option<Error>, k: Key) returns (r: Result<Record>)
      requires failure.None? ==> IsLive(db.Contents(), k)
      ensures FailureOf(r) == failure
      ensures Stored(r, k)
    {
      if failure.Some? {
        return Err(failure.value);
      }
      var stored := db.Get(k);
      return Ok(stored.value);
    }

    // ----- Operation directives -----

    /** The checks of a directive transition, and what it is going to write. */
    method CheckDirective(req: Request)
      returns (refused: Option<Error>, row: Record, approval: Option<Approval>, audit: Audit, gate: Option<Snap>,
               goal: Option<Status>)
      requires db.Valid() && req.kind == OperationDirective && req.verb == Transition
      ensures refused.Some? ==> refused.value != Storage && DirectivePlan(db.Contents(), req) == Err(refused.value)
      ensures refused.None? ==>
        && (goal.Some? ==> gate.Some? && gate.value.key != req.Subject())
        && DirectivePlan(db.Contents(), req) == Ok(DirectiveTx(req, row, approval, audit, gate, goal))
    {
      hide MoveStep, CanTransition, RoleAllowed, FindByCode, EqualFold;
      refused, approval, gate, goal := None, None, None, None;
      row, audit := NOBODY, Entry(req, Did(Transition), req.Subject(), Blank, Blank);
      var found := db.Get(req.Subject());
      if found.None? {
        refused := Some(NotFound);
        return;
      }
      var current, target := found.value, req.target;
      ghost var read := current;
      if !CanTransition(OperationDirective, current.status, target) {
        refused := Some(InvalidTransition);
        return;
      }
      if target == Completed {
        refused := Some(InvalidTransition);
        return;
      }
      if !RoleAllowed(target, req.role) {
        refused := Some(Forbidden);
        return;
      }
      refused, gate, goal := LinkedGate(req, current);
      if refused.Some? {
        return;
      }
      if target == Approved && (current.submittedBy == "" || EqualFold(current.submittedBy, req.actor)) {
        refused := Some(TwoPersonRequired);
        return;
      }
      var from := current.status;
      current := current.(status := target);
      if target == Pending {
        current := current.(submittedBy := req.actor);
        approval := Some(Approval(req.id, SubmittedStage, req.actor, req.role, req.requestId, from, target));
      }
      if target == Approved {
        current := current.(approvedBy := req.actor);
        approval := Some(Approval(req.id, ApprovedStage, req.actor, req.role, req.requestId, from, target));
      }
      current := current.(version := req.expected + 1);
      row, audit := current, Entry(req, Did(Transition), req.Subject(), from, target);
      assert current == Advanced(req, read) && approval == Evidence(req, read);
      DirectivePlanned(req, read, FindByCode(db.Contents(), GateUnit, read.related), goal);
    }

    method TransitionDirective(req: Request) returns (r: Result<Record>)
      requires db.Valid() && db.saved == [] && req.kind == OperationDirective && req.verb == Transition
      modifies db
      ensures db.Valid() && db.saved == []
      ensures db.Wrote(old(db.Contents()), old(db.writes),
                       TransitioningDirective(old(db.Contents()), req), FailureOf(r))
      ensures Stored(r, req.Subject())
    {
      hide ApplyTx, DirectivePlan, DirectiveTx;
      var refused, row, approval, audit, gate, goal := CheckDirective(req);
      if refused.Some? {
        return Err(refused.value);
      }
      var failure := CommitDirective(req, row, approval, audit, gate, goal);
      r := Answer(failure, req.Subject());
    }

    /** The same among other requests, whose commits turn the tables into `meanwhile` between the reads and the
        transaction: what the protocol calls an attempt. */
    method TransitionDirectiveAmid(req: Request, meanwhile: Tables) returns (r: Result<Record>)
      requires db.Valid() && db.saved == [] && req.kind == OperationDirective && req.verb == Transition
      requires db.Kept(meanwhile)
      modifies db
      ensures db.Valid() && db.saved == []
      ensures db.Wrote(meanwhile, old(db.writes), Attempt(meanwhile, Observe(old(db.Contents()), req), 0), FailureOf(r))
      ensures Stored(r, req.Subject())
    {
      hide ApplyTx, DirectivePlan, DirectiveTx, Observe, Plan;
      DirectiveObserved(db.Contents(), req);
      var refused, row, approval, audit, gate, goal := CheckDirective(req);
      db.Interfere(meanwhile);
      if refused.Some? {
        return Err(refused.value);
      }
      var failure := CommitDirective(req, row, approval, audit, gate, goal);
      r := Answer(failure, req.Subject());
    }

    /** The gate a directive transition needs, and where it has to go. */
    method LinkedGate(req: Request, current: Record)
      returns (refused: Option<Error>, gate: Option<Snap>, goal: Option<Status>)
      requires db.Valid() && CanTransition(OperationDirective, current.status, req.target)
      requires req.target != Completed && RoleAllowed(req.target, req.role)
      ensures var linked := FindByCode(db.Contents(), GateUnit, current.related);
        && (refused.Some? ==> refused.value != Storage
                              && Planning.TransitionDirective(req, current, linked) == Err(refused.value))
        && (refused.None? && NeedsGate(current.status, req.target) ==>
              && linked.Some? && gate == linked && goal == GateGoal(current, req.target, linked.value.row)
              && (req.target == Executing ==> linked.value.row.status != Locked)
              && (goal.Some? ==> CanReach(linked.value.row, goal.value)))
        && (refused.None? && !NeedsGate(current.status, req.target) ==> goal.None?)
    {
      refused, gate, goal := None, None, None;
      if NeedsGate(current.status, req.target) {
        gate := db.GetByCode(GateUnit, current.related);
        if gate.None? {
          return Some(NotFound), gate, goal;
        }
        if req.target == Executing && gate.value.row.status == Locked {
          return Some(InvalidInput), gate, goal;
        }
        if req.target == Aborted {
          goal := Some(Locked);
        } else if gate.value.row.status != current.gateState {
          goal := Some(Moving);
        }
        if goal.Some? && gate.value.row.status != goal.value
           && !CanTransition(GateUnit, gate.value.row.status, goal.value) {
          return Some(InvalidTransition), gate, goal;
        }
      }
    }

    /** The transaction of a directive transition; the directive's own writes are nested in it. */
    method CommitDirective(req: Request, row: Record, approval: Option<Approval>, audit: Audit,
                           gate: Option<Snap>, goal: Option<Status>) returns (failure: Option<Error>)
      requires db.Valid() && db.saved == []
      requires goal.Some? ==> gate.Some? && gate.value.key != req.Subject()
      modifies db
      ensures db.Valid() && db.saved == []
      ensures db.Wrote(old(db.Contents()), old(db.writes),
                       ApplyTx(old(db.Contents()), DirectiveTx(req, row, approval, audit, gate, goal)), failure)
      ensures failure.None? ==> IsLive(db.Contents(), req.Subject())
    {
      hide ApplyTx, ApplyStep, MoveStep, Indexed;
      TxBoth(db.Contents(), DirectiveTx(req, row, approval, audit, gate, goal));
      db.Begin();
      failure := db.TransitionWithApproval(req.Subject(), req.expected, row, approval, audit);
      if failure.None? && goal.Some? {
        failure := MoveLinked(req, DirectiveExecution, gate.value, goal.value);
      }
      failure := db.Finish(failure);
    }

    /** Inside a transaction: bring a linked row to `goal` at the version that was read, with its audit entry, unless it
        is there already. */
    method MoveLinked(req: Request, action: Action, linked: Snap, goal: Status) returns (failure: Option<Error>)
      requires db.Valid()
      modifies db`rows, db`audits, db`writes
      ensures db.Valid()
      ensures db.writes >= old(db.writes)
      ensures failure.None? ==>
        ApplyNext(old(db.Contents()), MoveStep(req, action, linked, goal)) == Ok(db.Contents())
      ensures failure.Some? && failure.value != Storage ==>
        ApplyNext(old(db.Contents()), MoveStep(req, action, linked, goal)) == Err(failure.value)
      ensures failure == Some(Storage) ==> db.Faulted(old(db.writes))
      ensures forall k :: k != linked.key && IsLive(old(db.Contents()), k) ==> IsLive(db.Contents(), k)
    {
      if linked.row.status == goal {
        return None;
      }
      var row := linked.row;
      var from := row.status;
      row := row.(status := goal);
      row := row.(version := row.version + 1);
      failure := SwapWithAudit(linked.key, row.version - 1, row, Entry(req, action, linked.key, from, goal));
    }

    method CreateDirective(req: Request) returns (r: Result<Record>)
      requires db.Valid() && db.saved == [] && req.kind == OperationDirective && req.verb == Create
      modifies db
      ensures db.Valid() && db.saved == []
      ensures db.Wrote(old(db.Contents()), old(db.writes),
                       CreatingDirective(old(db.Contents()), req, old(db.lastId) + 1), FailureOf(r))
      ensures Stored(r, Key(OperationDirective, old(db.lastId) + 1))
    {
      hide ApplyTx, FindByCode, Filled, CreateStep, EqualFold, Norm, Trim;
      if !Filled(req.input.code, req.input) {
        return Err(InvalidInput);
      }
      var gate := db.GetByCode(GateUnit, req.input.related);
      if gate.None? {
        return Err(NotFound);
      }
      if !SameFacility(req.input, gate.value.row) || gate.value.row.status == Locked {
        return Err(InvalidInput);
      }
      var gateState := if req.input.gateState == Blank then Closed else req.input.gateState;
      var row := NewRecord(OperationDirective, req.input).(gateState := gateState);
      assert Planning.CreateDirective(req, gate, db.lastId + 1) == Ok(Single(CreateStep(req, db.lastId + 1, row)));
      r := Insert(req, row);
    }

    method UpdateDirective(req: Request) returns (r: Result<Record>)
      requires db.Valid() && db.saved == [] && req.kind == OperationDirective && req.verb == Update
      modifies db
      ensures db.Valid() && db.saved == []
      ensures db.Wrote(old(db.Contents()), old(db.writes), Updating(old(db.Contents()), req), FailureOf(r))
      ensures Stored(r, req.Subject())
    {
      var found := db.Get(req.Subject());
      if found.None? {
        return Err(NotFound);
      }
      var current := found.value;
      ghost var read := current;
      if current.status != Draft {
        return Err(ImmutableState);
      }
      if !Filled(current.code, req.input) {
        return Err(InvalidInput);
      }
      var gate := db.GetByCode(GateUnit, req.input.related);
      if gate.None? {
        return Err(NotFound);
      }
      if !SameFacility(req.input, gate.value.row) || gate.value.row.status == Locked {
        return Err(InvalidInput);
      }
      current := Revised(current, req.expected, req.input);
      current := current.(related := Norm(req.input.related));
      if req.input.gateState != Blank {
        current := current.(gateState := req.input.gateState);
      }
      r := Rewrite(req, read, current);
    }

    method RemoveDirective(req: Request) returns (failure: Option<Error>)
      requires db.Valid() && db.saved == [] && req.kind == OperationDirective && req.verb == Delete
      modifies db
      ensures db.Valid() && db.saved == []
      ensures db.Wrote(old(db.Contents()), old(db.writes), Deleting(old(db.Contents()), req), failure)
    {
      var found := db.Get(req.Subject());
      if found.None? {
        return Some(NotFound);
      }
      var current := found.value;
      if current.status != Draft {
        return Some(ImmutableState);
      }
      failure := Discard(req, current);
    }

    // ----- Execution confirmations -----

    method CreateConfirmation(req: Request) returns (r: Result<Record>)
      requires db.Valid() && db.saved == [] && req.kind == ExecutionConfirmation && req.verb == Create
      modifies db
      ensures db.Valid() && db.saved == []
      ensures db.Wrote(old(db.Contents()), old(db.writes),
                       CreatingConfirmation(old(db.Contents()), req, old(db.lastId) + 1), FailureOf(r))
      ensures Stored(r, Key(ExecutionConfirmation, old(db.lastId) + 1))
    {
      hide ApplyTx, FindByCode, Filled, CreateStep, Unclaimed, Norm, Trim;
      if !Filled(req.input.code, req.input) {
        return Err(InvalidInput);
      }
      var directive := db.GetByCode(OperationDirective, req.input.related);
      if directive.None? {
        return Err(NotFound);
      }
      if directive.value.row.status != Executing {
        return Err(InvalidInput);
      }
      var count := db.CountByDirectiveCode(directive.value.row.code);
      if count > 0 {
        return Err(InvalidInput);
      }
      var source := directive.value.row;
      var row := NewRecord(ExecutionConfirmation, req.input).(
        facility := source.facility, category := source.category, riskLevel := source.riskLevel,
        related := source.code);
      assert Planning.CreateConfirmation(req, directive, true, db.lastId + 1)
             == Ok(Single(CreateStep(req, db.lastId + 1, row)));
      r := Insert(req, row);
    }

    method UpdateConfirmation(req: Request) returns (r: Result<Record>)
      requires db.Valid() && db.saved == [] && req.kind == ExecutionConfirmation && req.verb == Update
      modifies db
      ensures db.Valid() && db.saved == []
      ensures db.Wrote(old(db.Contents()), old(db.writes), Updating(old(db.Contents()), req), FailureOf(r))
      ensures Stored(r, req.Subject())
    {
      var found := db.Get(req.Subject());
      if found.None? {
        return Err(NotFound);
      }
      var current := found.value;
      ghost var read := current;
      if !Filled(current.code, req.input) {
        return Err(InvalidInput);
      }
      if current.status != Pending {
        return Err(ImmutableState);
      }
      if !EqualFold(Trim(req.input.related), current.related) {
        return Err(InvalidInput);
      }
      var directive := db.GetByCode(OperationDirective, current.related);
      if directive.None? {
        return Err(NotFound);
      }
      if directive.value.row.status != Executing {
        return Err(InvalidInput);
      }
      var source := directive.value.row;
      current := Revised(current, req.expected, req.input);
      current := current.(facility := source.facility, category := source.category, riskLevel := source.riskLevel);
      current := current.(related := source.code);
      r := Rewrite(req, read, current);
    }

    /** The checks of a confirmation transition, and what it is going to write. */
    method CheckConfirmation(req: Request)
      returns (refused: Option<Error>, from: Status, row: Record, directive: Option<Snap>, gate: Option<Snap>,
               goal: Status)
      requires db.Valid() && req.kind == ExecutionConfirmation && req.verb == Transition
      ensures refused.Some? ==> refused.value != Storage && OutcomePlan(db.Contents(), req) == Err(refused.value)
      ensures refused.None? ==>
        && (directive.Some? <==> gate.Some?)
        && (directive.Some? ==> directive.value.key.kind == OperationDirective && gate.value.key.kind == GateUnit)
        && OutcomePlan(db.Contents(), req) == Ok(OutcomeTx(req, from, row, directive, gate, goal))
    {
      hide MoveStep, CanTransition, GateOutcome, DirectiveOutcome, FindByCode, OutcomeTx;
      refused, from, row, directive, gate, goal := None, Blank, NOBODY, None, None, Blank;
      var found := db.Get(req.Subject());
      if found.None? {
        refused := Some(NotFound);
        return;
      }
      var current, target := found.value, req.target;
      var read := current;
      if !CanTransition(ExecutionConfirmation, current.status, target) {
        refused := Some(InvalidTransition);
        return;
      }
      from := current.status;
      current := current.(status := target);
      if target == Confirmed {
        current := current.(confirmedBy := req.actor);
      }
      current := current.(version := req.expected + 1);
      row := current;
      refused, directive, gate, goal := LinkedDirective(req, read);
      assert current == Decided(req, read);
    }

    method TransitionConfirmation(req: Request) returns (r: Result<Record>)
      requires db.Valid() && db.saved == [] && req.kind == ExecutionConfirmation && req.verb == Transition
      modifies db
      ensures db.Valid() && db.saved == []
      ensures db.Wrote(old(db.Contents()), old(db.writes),
                       TransitioningConfirmation(old(db.Contents()), req), FailureOf(r))
      ensures Stored(r, req.Subject())
    {
      hide ApplyTx, OutcomePlan, OutcomeTx;
      var refused, from, row, directive, gate, goal := CheckConfirmation(req);
      if refused.Some? {
        return Err(refused.value);
      }
      r := CommitOutcome(req, from, row, directive, gate, goal);
    }

    /** The same among other requests, whose commits turn the tables into `meanwhile` between the reads and the
        transaction. */
    method TransitionConfirmationAmid(req: Request, meanwhile: Tables) returns (r: Result<Record>)
      requires db.Valid() && db.saved == [] && req.kind == ExecutionConfirmation && req.verb == Transition
      requires db.Kept(meanwhile)
      modifies db
      ensures db.Valid() && db.saved == []
      ensures db.Wrote(meanwhile, old(db.writes), Attempt(meanwhile, Observe(old(db.Contents()), req), 0), FailureOf(r))
      ensures Stored(r, req.Subject())
    {
      hide ApplyTx, OutcomePlan, OutcomeTx, Observe, Plan;
      OutcomeObserved(db.Contents(), req);
      var refused, from, row, directive, gate, goal := CheckConfirmation(req);
      db.Interfere(meanwhile);
      if refused.Some? {
        return Err(refused.value);
      }
      r := CommitOutcome(req, from, row, directive, gate, goal);
    }

    /** The executing directive a pending confirmation decides, its gate, and where the gate has to go. */
    method LinkedDirective(req: Request, read: Record)
      returns (refused: Option<Error>, directive: Option<Snap>, gate: Option<Snap>, goal: Status)
      requires db.Valid() && CanTransition(ExecutionConfirmation, read.status, req.target)
      ensures var d := FindByCode(db.Contents(), OperationDirective, read.related);
        var g := if d.Some? then FindByCode(db.Contents(), GateUnit, d.value.row.related) else None;
        && (refused.Some? ==> refused.value != Storage
                              && Planning.TransitionConfirmation(req, read, d, g) == Err(refused.value))
        && (refused.None? ==>
              && (directive.Some? <==> gate.Some?) && (directive.Some? <==> read.status == Pending)
              && Planning.TransitionConfirmation(req, read, d, g)
                 == Ok(OutcomeTx(req, read.status, Decided(req, read), directive, gate, goal))
              && (directive.Some? ==> directive == d && gate == g))
    {
      refused, directive, gate, goal := None, None, None, Blank;
      if read.status == Pending {
        directive := db.GetByCode(OperationDirective, read.related);
        if directive.None? {
          return Some(NotFound), directive, gate, goal;
        }
        if directive.value.row.status != Executing {
          return Some(InvalidInput), directive, gate, goal;
        }
        gate := db.GetByCode(GateUnit, directive.value.row.related);
        if gate.None? {
          return Some(NotFound), directive, gate, goal;
        }
        goal := GateOutcome(req.target, directive.value.row);
        if gate.value.row.status != goal && !CanTransition(GateUnit, gate.value.row.status, goal) {
          return Some(InvalidTransition), directive, gate, goal;
        }
      }
    }

    /** The transaction of a confirmation transition: the confirmation, then the directive it decides, then the gate. */
    method CommitOutcome(req: Request, from: Status, row: Record, directive: Option<Snap>, gate: Option<Snap>,
                         goal: Status) returns (r: Result<Record>)
      requires db.Valid() && db.saved == [] && req.kind == ExecutionConfirmation
      requires directive.Some? <==> gate.Some?
      requires directive.Some? ==> directive.value.key.kind == OperationDirective && gate.value.key.kind == GateUnit
      modifies db
      ensures db.Valid() && db.saved == []
      ensures db.Wrote(old(db.Contents()), old(db.writes),
                       ApplyTx(old(db.Contents()), OutcomeTx(req, from, row, directive, gate, goal)), FailureOf(r))
      ensures Stored(r, req.Subject())
    {
      hide ApplyTx, ApplyStep, MoveStep, DirectiveOutcome, Indexed;
      TxBoth(db.Contents(), OutcomeTx(req, from, row, directive, gate, goal));
      db.Begin();
      var failure := SwapWithAudit(req.Subject(), req.expected, row,
                                   Entry(req, Did(Transition), req.Subject(), from, req.target));
      if failure.None? && directive.Some? {
        failure := Decide(req, directive.value, gate.value, goal);
      }
      failure := db.Finish(failure);
      r := Answer(failure, req.Subject());
    }

    /** The writes a confirmation outcome makes to its directive and gate, inside the transaction. */
    method Decide(req: Request, directive: Snap, gate: Snap, goal: Status) returns (failure: Option<Error>)
      requires db.Valid() && directive.key != gate.key
      modifies db`rows, db`audits, db`writes
      ensures db.Valid() && db.writes >= old(db.writes)
      ensures failure.None? ==>
        Both(old(db.Contents()), MoveStep(req, ExecutionOutcome, directive, DirectiveOutcome(req.target)),
             MoveStep(req, ExecutionOutcome, gate, goal)) == Ok(db.Contents())
      ensures failure.Some? && failure.value != Storage ==>
        Both(old(db.Contents()), MoveStep(req, ExecutionOutcome, directive, DirectiveOutcome(req.target)),
             MoveStep(req, ExecutionOutcome, gate, goal)) == Err(failure.value)
      ensures failure == Some(Storage) ==> db.Faulted(old(db.writes))
      ensures forall k :: k != directive.key && k != gate.key && IsLive(old(db.Contents()), k) ==>
        IsLive(db.Contents(), k)
    {
      failure := MoveLinked(req, ExecutionOutcome, directive, DirectiveOutcome(req.target));
      if failure.None? {
        failure := MoveLinked(req, ExecutionOutcome, gate, goal);
      }
    }

    method RemoveConfirmation(req: Request) returns (failure: Option<Error>)
      requires db.Valid() && db.saved == [] && req.kind == ExecutionConfirmation && req.verb == Delete
      modifies db
      ensures db.Valid() && db.saved == []
      ensures db.Wrote(old(db.Contents()), old(db.writes), Deleting(old(db.Contents()), req), failure)
    {
      var found := db.Get(req.Subject());
      if found.None? {
        return Some(NotFound);
      }
      var current := found.value;
      if current.status != Pending {
        return Some(ImmutableState);
      }
      failure := Discard(req, current);
    }

    // ----- Gates -----

    method CreateGate(req: Request) returns (r: Result<Record>)
      requires db.Valid() && db.saved == [] && req.kind == GateUnit && req.verb == Create
      modifies db
      ensures db.Valid() && db.saved == []
      ensures db.Wrote(old(db.Contents()), old(db.writes),
                       CreatingGate(old(db.Contents()), req, old(db.lastId) + 1), FailureOf(r))
      ensures Stored(r, Key(GateUnit, old(db.lastId) + 1))
    {
      hide ApplyTx, FindByCode, Filled, CreateStep, EqualFold, Norm, Trim;
      if !Filled(req.input.code, req.input) {
        return Err(InvalidInput);
      }
      var reservoir := db.GetByCode(Reservoir, req.input.related);
      if reservoir.None? {
        return Err(NotFound);
      }
      if !SameFacility(req.input, reservoir.value.row) {
        return Err(InvalidInput);
      }
      var row := NewRecord(GateUnit, req.input);
      assert Planning.CreateGate(req, reservoir, db.lastId + 1) == Ok(Single(CreateStep(req, db.lastId + 1, row)));
      r := Insert(req, row);
    }

    method UpdateGate(req: Request) returns (r: Result<Record>)
      requires db.Valid() && db.saved == [] && req.kind == GateUnit && req.verb == Update
      modifies db
      ensures db.Valid() && db.saved == []
      ensures db.Wrote(old(db.Contents()), old(db.writes), Updating(old(db.Contents()), req), FailureOf(r))
      ensures Stored(r, req.Subject())
    {
      var found := db.Get(req.Subject());
      if found.None? {
        return Err(NotFound);
      }
      var current := found.value;
      ghost var read := current;
      if !Filled(current.code, req.input) {
        return Err(InvalidInput);
      }
      if !EqualFold(Trim(req.input.related), current.related) {
        return Err(InvalidInput);
      }
      var reservoir := db.GetByCode(Reservoir, current.related);
      if reservoir.None? {
        return Err(NotFound);
      }
      if !SameFacility(req.input, reservoir.value.row) {
        return Err(InvalidInput);
      }
      current := Revised(current, req.expected, req.input);
      current := current.(related := reservoir.value.row.code);
      r := Rewrite(req, read, current);
    }

    method TransitionGate(req: Request) returns (r: Result<Record>)
      requires db.Valid() && db.saved == [] && req.kind == GateUnit && req.verb == Transition
      modifies db
      ensures db.Valid() && db.saved == []
      ensures db.Wrote(old(db.Contents()), old(db.writes), ChangingStatus(old(db.Contents()), req), FailureOf(r))
      ensures Stored(r, req.Subject())
    {
      var found := db.Get(req.Subject());
      if found.None? {
        return Err(NotFound);
      }
      var current := found.value;
      if !CanTransition(GateUnit, current.status, req.target) {
        return Err(InvalidTransition);
      }
      var from := current.status;
      current := current.(status := req.target);
      current := current.(version := req.expected + 1);
      var failure := db.TransitionWithAudit(req.Subject(), req.expected, current,
                                            Entry(req, Did(Transition), req.Subject(), from, req.target));
      r := Answer(failure, req.Subject());
    }

    method RemoveGate(req: Request) returns (failure: Option<Error>)
      requires db.Valid() && db.saved == [] && req.kind == GateUnit && req.verb == Delete
      modifies db
      ensures db.Valid() && db.saved == []
      ensures db.Wrote(old(db.Contents()), old(db.writes), Deleting(old(db.Contents()), req), failure)
    {
      var found := db.Get(req.Subject());
      if found.None? {
        return Some(NotFound);
      }
      var current := found.value;
      failure := Discard(req, current);
    }

    // ----- Reservoirs -----

    method CreateReservoir(req: Request) returns (r: Result<Record>)
      requires db.Valid() && db.saved == [] && req.kind == Reservoir && req.verb == Create
      modifies db
      ensures db.Valid() && db.saved == []
      ensures db.Wrote(old(db.Contents()), old(db.writes),
                       Applied(old(db.Contents()), Planning.CreateReservoir(req, old(db.lastId) + 1)), FailureOf(r))
      ensures Stored(r, Key(Reservoir, old(db.lastId) + 1))
    {
      if !Filled(req.input.code, req.input) {
        return Err(InvalidInput);
      }
      var row := NewRecord(Reservoir, req.input);
      r := Insert(req, row);
    }

    method UpdateReservoir(req: Request) returns (r: Result<Record>)
      requires db.Valid() && db.saved == [] && req.kind == Reservoir && req.verb == Update
      modifies db
      ensures db.Valid() && db.saved == []
      ensures db.Wrote(old(db.Contents()), old(db.writes), Updating(old(db.Contents()), req), FailureOf(r))
      ensures Stored(r, req.Subject())
    {
      var found := db.Get(req.Subject());
      if found.None? {
        return Err(NotFound);
      }
      var current := found.value;
      ghost var read := current;
      if !Filled(current.code, req.input) {
        return Err(InvalidInput);
      }
      current := Revised(current, req.expected, req.input);
      current := current.(related := Norm(req.input.related));
      r := Rewrite(req, read, current);
    }

    method TransitionReservoir(req: Request) returns (r: Result<Record>)
      requires db.Valid() && db.saved == [] && req.kind == Reservoir && req.verb == Transition
      modifies db
      ensures db.Valid() && db.saved == []
      ensures db.Wrote(old(db.Contents()), old(db.writes), ChangingStatus(old(db.Contents()), req), FailureOf(r))
      ensures Stored(r, req.Subject())
    {
      var found := db.Get(req.Subject());
      if found.None? {
        return Err(NotFound);
      }
      var current := found.value;
      if !CanTransition(Reservoir, current.status, req.target) {
        return Err(InvalidTransition);
      }
      var from := current.status;
      current := current.(status := req.target);
      current := current.(version := req.expected + 1);
      var failure := db.TransitionWithAudit(req.Subject(), req.expected, current,
                                            Entry(req, Did(Transition), req.Subject(), from, req.target));
      r := Answer(failure, req.Subject());
    }

    method RemoveReservoir(req: Request) returns (failure: Option<Error>)
      requires db.Valid() && db.saved == [] && req.kind == Reservoir && req.verb == Delete
      modifies db
      ensures db.Valid() && db.saved == []
      ensures db.Wrote(old(db.Contents()), old(db.writes), Deleting(old(db.Contents()), req), failure)
    {
      var found := db.Get(req.Subject());
      if found.None? {
        return Some(NotFound);
      }
      var current := found.value;
      failure := Discard(req, current);
    }
  }
}
