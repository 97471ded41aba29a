/** What a service decides to write, given the rows it has read. Each function checks in the order the service
    checks, so it also says which error a refused request gets. */
module Planning {
  import opened Text
  import opened Model
  import opened Store

  function CreateStep(req: Request, id: nat, row: Record): Step {
    var key := Key(req.kind, id);
    Step(Insert(key, row), None, Entry(req, Did(Create), key, Blank, row.status))
  }

  function UpdateStep(req: Request, current: Record, row: Record): Step {
    Step(Swap(req.Subject(), req.expected, row), None,
         Entry(req, Did(Update), req.Subject(), current.status, current.status))
  }

  function DeleteTx(req: Request, current: Record): Tx {
    Single(Step(Bury(req.Subject()), None, Entry(req, Did(Delete), req.Subject(), current.status, Deleted)))
  }

  /** Move a linked row to `goal` at the version that was read; nothing is written when it is there already. */
  function MoveStep(req: Request, action: Action, s: Snap, goal: Status): Option<Step> {
    if s.row.status == goal then None
    else Some(Step(
      Swap(s.key, s.row.version, s.row.(status := goal, version := s.row.version + 1)), None,
      Entry(req, action, s.key, s.row.status, goal)))
  }

  predicate CanReach(gate: Record, goal: Status) {
    gate.status == goal || CanTransition(GateUnit, gate.status, goal)
  }

  // ----- Reservoirs and gates -----

  function StatusChange(req: Request, current: Record): Result<Tx> {
    if !CanTransition(req.kind, current.status, req.target) then Err(InvalidTransition)
    else Ok(Single(Step(
      Swap(req.Subject(), req.expected, current.(status := req.target, version := req.expected + 1)), None,
      Entry(req, Did(Transition), req.Subject(), current.status, req.target))))
  }

  function CreateReservoir(req: Request, id: nat): Result<Tx> {
    if !Filled(req.input.code, req.input) then Err(InvalidInput)
    else Ok(Single(CreateStep(req, id, NewRecord(Reservoir, req.input))))
  }

  function UpdateReservoir(req: Request, current: Record): Result<Tx> {
    if !Filled(current.code, req.input) then Err(InvalidInput)
    else Ok(Single(UpdateStep(req, current,
      Revised(current, req.expected, req.input).(related := Norm(req.input.related)))))
  }

  predicate SameFacility(input: Input, linked: Record) {
    EqualFold(Trim(input.facility), linked.facility)
  }

  function CreateGate(req: Request, reservoir: Option<Snap>, id: nat): Result<Tx> {
    if !Filled(req.input.code, req.input) then Err(InvalidInput)
    else if reservoir.None? then Err(NotFound)
    else if !SameFacility(req.input, reservoir.value.row) then Err(InvalidInput)
    else Ok(Single(CreateStep(req, id, NewRecord(GateUnit, req.input))))
  }

  function UpdateGate(req: Request, current: Record, reservoir: Option<Snap>): Result<Tx> {
    if !Filled(current.code, req.input) then Err(InvalidInput)
    else if !EqualFold(Trim(req.input.related), current.related) then Err(InvalidInput)
    else if reservoir.None? then Err(NotFound)
    else if !SameFacility(req.input, reservoir.value.row) then Err(InvalidInput)
    else Ok(Single(UpdateStep(req, current,
      Revised(current, req.expected, req.input).(related := reservoir.value.row.code))))
  }

  // ----- Directives -----

  predicate Dispatcher(role: Role) {
    role == Operator || role == Admin
  }

  predicate AnyDispatcher(role: Role) {
    role == Operator || role == Reviewer || role == Admin
  }

  predicate RoleAllowed(target: Status, role: Role) {
    match target
    case Pending => Dispatcher(role)
    case Approved => role == Reviewer || role == Admin
    case Executing => Dispatcher(role)
    case Aborted => AnyDispatcher(role)
    case _ => false
  }

  predicate GateUsable(input: Input, gate: Record) {
    SameFacility(input, gate) && gate.status != Locked
  }

  function CreateDirective(req: Request, gate: Option<Snap>, id: nat): Result<Tx> {
    if !Filled(req.input.code, req.input) then Err(InvalidInput)
    else if gate.None? then Err(NotFound)
    else if !GateUsable(req.input, gate.value.row) then Err(InvalidInput)
    else Ok(Single(CreateStep(req, id, NewRecord(OperationDirective, req.input).(
      gateState := if req.input.gateState == Blank then Closed else req.input.gateState))))
  }

  function UpdateDirective(req: Request, current: Record, gate: Option<Snap>): Result<Tx> {
    if current.status != Draft then Err(ImmutableState)
    else if !Filled(current.code, req.input) then Err(InvalidInput)
    else if gate.None? then Err(NotFound)
    else if !GateUsable(req.input, gate.value.row) then Err(InvalidInput)
    else Ok(Single(UpdateStep(req, current, Revised(current, req.expected, req.input).(
      related := Norm(req.input.related),
      gateState := if req.input.gateState == Blank then current.gateState else req.input.gateState))))
  }

  function DeleteDirective(req: Request, current: Record): Result<Tx> {
    if current.status != Draft then Err(ImmutableState) else Ok(DeleteTx(req, current))
  }

  /** Does this transition read the linked gate? */
  predicate NeedsGate(from: Status, target: Status) {
    target == Executing || (from == Executing && target == Aborted)
  }

  function GateGoal(current: Record, target: Status, gate: Record): Option<Status> {
    if target == Aborted then Some(Locked)
    else if gate.status != current.gateState then Some(Moving)
    else None
  }

  function Advanced(req: Request, current: Record): Record {
    current.(
      status := req.target,
      version := req.expected + 1,
      submittedBy := if req.target == Pending then req.actor else current.submittedBy,
      approvedBy := if req.target == Approved then req.actor else current.approvedBy)
  }

  function Evidence(req: Request, current: Record): Option<Approval> {
    if req.target == Pending || req.target == Approved then
      Some(Approval(req.id, if req.target == Pending then SubmittedStage else ApprovedStage,
                    req.actor, req.role, req.requestId, current.status, req.target))
    else None
  }

  function TransitionDirective(req: Request, current: Record, gate: Option<Snap>): Result<Tx> {
    if !CanTransition(OperationDirective, current.status, req.target) then Err(InvalidTransition)
    else if req.target == Completed then Err(InvalidTransition)
    else if !RoleAllowed(req.target, req.role) then Err(Forbidden)
    else
      var first := Step(
        Swap(req.Subject(), req.expected, Advanced(req, current)), Evidence(req, current),
        Entry(req, Did(Transition), req.Subject(), current.status, req.target));
      if NeedsGate(current.status, req.target) then
        if gate.None? then Err(NotFound)
        else if req.target == Executing && gate.value.row.status == Locked then Err(InvalidInput)
        else
          var goal := GateGoal(current, req.target, gate.value.row);
          if goal.None? then Ok(Single(first))
          else if !CanReach(gate.value.row, goal.value) then Err(InvalidTransition)
          else Ok(Tx(first, MoveStep(req, DirectiveExecution, gate.value, goal.value), None))
      else if req.target == Approved && (current.submittedBy == "" || EqualFold(current.submittedBy, req.actor)) then
        Err(TwoPersonRequired)
      else Ok(Single(first))
  }

  // ----- Confirmations -----

  function CreateConfirmation(req: Request, directive: Option<Snap>, unclaimed: bool, id: nat): Result<Tx> {
    if !Filled(req.input.code, req.input) then Err(InvalidInput)
    else if directive.None? then Err(NotFound)
    else if directive.value.row.status != Executing then Err(InvalidInput)
    else if !unclaimed then Err(InvalidInput)
    else
      var d := directive.value.row;
      Ok(Single(CreateStep(req, id, NewRecord(ExecutionConfirmation, req.input).(
        facility := d.facility, category := d.category, riskLevel := d.riskLevel, related := d.code))))
  }

  function UpdateConfirmation(req: Request, current: Record, directive: Option<Snap>): Result<Tx> {
    if !Filled(current.code, req.input) then Err(InvalidInput)
    else if current.status != Pending then Err(ImmutableState)
    else if !EqualFold(Trim(req.input.related), current.related) then Err(InvalidInput)
    else if directive.None? then Err(NotFound)
    else if directive.value.row.status != Executing then Err(InvalidInput)
    else
      var d := directive.value.row;
      Ok(Single(UpdateStep(req, current, Revised(current, req.expected, req.input).(
        facility := d.facility, category := d.category, riskLevel := d.riskLevel, related := d.code))))
  }

  function DeleteConfirmation(req: Request, current: Record): Result<Tx> {
    if current.status != Pending then Err(ImmutableState) else Ok(DeleteTx(req, current))
  }

  function DirectiveOutcome(target: Status): Status {
    if target == Confirmed then Completed else Aborted
  }

  function GateOutcome(target: Status, directive: Record): Status {
    if target == Confirmed then directive.gateState else Locked
  }

  function Decided(req: Request, current: Record): Record {
    current.(
      status := req.target,
      version := req.expected + 1,
      confirmedBy := if req.target == Confirmed then req.actor else current.confirmedBy)
  }

  function TransitionConfirmation(
    req: Request, current: Record, directive: Option<Snap>, gate: Option<Snap>): Result<Tx>
  {
    if !CanTransition(ExecutionConfirmation, current.status, req.target) then Err(InvalidTransition)
    else
      var first := Step(
        Swap(req.Subject(), req.expected, Decided(req, current)), None,
        Entry(req, Did(Transition), req.Subject(), current.status, req.target));
      if current.status != Pending then Ok(Single(first))
      else if directive.None? then Err(NotFound)
      else if directive.value.row.status != Executing then Err(InvalidInput)
      else if gate.None? then Err(NotFound)
      else
        var goal := GateOutcome(req.target, directive.value.row);
        if !CanReach(gate.value.row, goal) then Err(InvalidTransition)
        else Ok(Tx(first,
                   MoveStep(req, ExecutionOutcome, directive.value, DirectiveOutcome(req.target)),
                   MoveStep(req, ExecutionOutcome, gate.value, goal)))
  }

  // ----- One request -----

  /** What a request has read so far. Each part may have been read at a different moment. */
  datatype Flight = Flight(
    req: Request,
    primary: Option<Record>,   // the row the request is about
    link: Option<Snap>,        // the row its code leads to
    second: Option<Snap>,      // the gate behind a confirmation's directive
    unclaimed: bool)           // the count of live confirmations of the directive came back zero

  datatype Target = Target(kind: Kind, code: string)

  /** The code a request follows once its own row is known. */
  function LinkTarget(req: Request, primary: Option<Record>): Option<Target> {
    match req.verb
    case Create =>
      (match req.kind
       case Reservoir => None
       case GateUnit => Some(Target(Reservoir, req.input.related))
       case OperationDirective => Some(Target(GateUnit, req.input.related))
       case ExecutionConfirmation => Some(Target(OperationDirective, req.input.related)))
    case Update =>
      if primary.None? then None else
      (match req.kind
       case Reservoir => None
       case GateUnit => Some(Target(Reservoir, primary.value.related))
       case OperationDirective => Some(Target(GateUnit, req.input.related))
       case ExecutionConfirmation => Some(Target(OperationDirective, primary.value.related)))
    case Transition =>
      if primary.None? then None
      else if req.kind == OperationDirective && NeedsGate(primary.value.status, req.target) then
        Some(Target(GateUnit, primary.value.related))
      else if req.kind == ExecutionConfirmation && primary.value.status == Pending then
        Some(Target(OperationDirective, primary.value.related))
      else None
    case Delete => None
  }

  function SecondTarget(req: Request, link: Option<Snap>): Option<Target> {
    if req.verb == Transition && req.kind == ExecutionConfirmation && link.Some? then
      Some(Target(GateUnit, link.value.row.related))
    else None
  }

  /** The transaction a request ends with; `id` is the identifier the database gives to an inserted row. */
  function Plan(f: Flight, id: nat): Result<Tx> {
    var req := f.req;
    if req.verb == Create then
      match req.kind
      case Reservoir => CreateReservoir(req, id)
      case GateUnit => CreateGate(req, f.link, id)
      case OperationDirective => CreateDirective(req, f.link, id)
      case ExecutionConfirmation => CreateConfirmation(req, f.link, f.unclaimed, id)
    else if f.primary.None? then Err(NotFound)
    else
      var current := f.primary.value;
      match req.verb
      case Update =>
        (match req.kind
         case Reservoir => UpdateReservoir(req, current)
         case GateUnit => UpdateGate(req, current, f.link)
         case OperationDirective => UpdateDirective(req, current, f.link)
         case ExecutionConfirmation => UpdateConfirmation(req, current, f.link))
      case Transition =>
        (match req.kind
         case Reservoir => StatusChange(req, current)
         case GateUnit => StatusChange(req, current)
         case OperationDirective => TransitionDirective(req, current, f.link)
         case ExecutionConfirmation => TransitionConfirmation(req, current, f.link, f.second))
      case Delete =>
        (match req.kind
         case Reservoir => Ok(DeleteTx(req, current))
         case GateUnit => Ok(DeleteTx(req, current))
         case OperationDirective => DeleteDirective(req, current)
         case ExecutionConfirmation => DeleteConfirmation(req, current))
  }

  /** The flight of a request that reads everything at one moment. */
  ghost function Observe(t: Tables, req: Request): Flight {
    var primary := if req.verb == Create then None else Find(t, req.Subject());
    var link := Follow(t, LinkTarget(req, primary));
    var second := Follow(t, SecondTarget(req, link));
    Flight(req, primary, link, second, link.Some? && Unclaimed(t, link.value.row.code))
  }

  ghost function Follow(t: Tables, target: Option<Target>): Option<Snap> {
    if target.None? then None else FindByCode(t, target.value.kind, target.value.code)
  }

  /** A request served without interference: the specification of every service method. */
  ghost function Serve(t: Tables, req: Request, id: nat): Result<Tables> {
    var tx :- Plan(Observe(t, req), id);
    ApplyTx(t, tx)
  }
}
