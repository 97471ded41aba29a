/** Which requests the services accept, told by what a caller can see rather than by the order of their checks. */
module Acceptance {
  import opened Text
  import opened Model
  import opened Planning
  import opened Lives

  /** A directive transition is accepted exactly in these cases. A locked gate stops the beginning of an execution and
      nothing else does; a missing gate stops that and the abort of an execution. */
  lemma DirectiveTransitionAccepted(req: Request, current: Record, gate: Option<Snap>)
    requires KnownStatus(OperationDirective, current.status)
    requires gate.Some? ==> KnownStatus(GateUnit, gate.value.row.status)
    ensures TransitionDirective(req, current, gate).Ok? <==>
      match req.target
      case Pending => current.status == Draft && (req.role == Operator || req.role == Admin)
      case Approved =>
        && current.status == Pending && (req.role == Reviewer || req.role == Admin)
        && current.submittedBy != "" && !SameName(current.submittedBy, req.actor)
      case Executing =>
        && current.status == Approved && (req.role == Operator || req.role == Admin)
        && gate.Some? && gate.value.row.status != Locked
      case Aborted =>
        && (req.role == Operator || req.role == Reviewer || req.role == Admin)
        && (current.status == Pending || current.status == Approved || (current.status == Executing && gate.Some?))
      case _ => false
  {
    hide SameName, EqualFold;
    EqualFoldIsExact(current.submittedBy, req.actor);
  }

  /** A confirmation transition is accepted exactly in these cases. Failing is possible wherever the gate is, confirming
      only where the goal is at most one move away. */
  lemma ConfirmationTransitionAccepted(req: Request, current: Record, directive: Option<Snap>, gate: Option<Snap>)
    requires KnownStatus(ExecutionConfirmation, current.status)
    requires gate.Some? ==> KnownStatus(GateUnit, gate.value.row.status)
    requires directive.Some? ==> Settled(directive.value.row.gateState)
    ensures TransitionConfirmation(req, current, directive, gate).Ok? <==>
      match req.target
      case Cancelled => current.status == Failed
      case Failed =>
        current.status == Pending && directive.Some? && directive.value.row.status == Executing && gate.Some?
      case Confirmed =>
        && current.status == Pending && directive.Some? && directive.value.row.status == Executing && gate.Some?
        && (match directive.value.row.gateState
            case Open => gate.value.row.status == Open || gate.value.row.status == Moving
            case Closed => gate.value.row.status != Open
            case _ => true)
      case _ => false
  {
  }
}
