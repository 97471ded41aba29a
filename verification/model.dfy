/** The entities, the status graphs and the shapes of requests. */
module Model {
  import opened Text

  datatype Option<+T> = None | Some(value: T)

  datatype Error =
    | NotFound
    | InvalidInput
    | InvalidTransition
    | Forbidden
    | TwoPersonRequired
    | ImmutableState
    | VersionConflict
    | Duplicate
    | Storage

  datatype Result<+T> = Ok(value: T) | Err(error: Error) {
    predicate IsFailure() { Err? }

    function PropagateFailure<U>(): Result<U>
      requires Err?
    {
      Err(error)
    }

    function Extract(): T
      requires Ok?
    {
      value
    }
  }

  datatype Kind = Reservoir | GateUnit | OperationDirective | ExecutionConfirmation

  /** Every status of every kind; `Blank` is the empty string, `Other` any text outside the shared lists. */
  datatype Status =
    | Blank
    | Normal | Warning | Critical | Restricted
    | Open | Closed | Moving | Locked
    | Draft | Pending | Approved | Executing | Completed | Aborted
    | Confirmed | Failed | Cancelled
    | Deleted
    | Other(text: string)

  /** The four transition graphs and the single lookup into them. */
  predicate CanTransition(kind: Kind, from: Status, to: Status) {
    match kind
    case Reservoir =>
      match from {
        case Normal => to == Warning || to == Critical
        case Warning => to == Critical || to == Restricted || to == Normal
        case Critical => to == Restricted || to == Warning
        case Restricted => to == Critical
        case _ => false
      }
    case GateUnit =>
      match from {
        case Open => to == Moving || to == Locked
        case Closed => to == Moving || to == Locked
        case Moving => to == Open || to == Closed || to == Locked
        case Locked => to == Closed
        case _ => false
      }
    case OperationDirective =>
      match from {
        case Draft => to == Pending
        case Pending => to == Approved || to == Aborted
        case Approved => to == Executing || to == Aborted
        case Executing => to == Completed || to == Aborted
        case _ => false
      }
    case ExecutionConfirmation =>
      match from {
        case Pending => to == Confirmed || to == Failed
        case Failed => to == Cancelled
        case _ => false
      }
  }

  function Initial(kind: Kind): Status {
    match kind
    case Reservoir => Normal
    case GateUnit => Open
    case OperationDirective => Draft
    case ExecutionConfirmation => Pending
  }

  datatype Role = Viewer | Operator | Reviewer | Admin

  datatype Stage = SubmittedStage | ApprovedStage

  /** An audit entry names its entity by type and id; the same pair is the key of a row. */
  datatype Key = Key(kind: Kind, id: nat)

  /** Descriptive columns: only `name` and `owner` are ever inspected. */
  datatype Details = Details(name: string, owner: string, notes: string)

  /** A row of any of the four tables. They share the base columns and the business columns; a column that a
      kind does not have stays empty. `live` is false once the row is soft deleted. */
  datatype Record = Record(
    code: string,
    status: Status,
    version: nat,
    live: bool,
    facility: string,
    category: string,
    riskLevel: string,
    related: string,
    gateState: Status,
    submittedBy: string,
    approvedBy: string,
    confirmedBy: string,
    details: Details)

  datatype Snap = Snap(key: Key, row: Record)

  datatype Approval = Approval(
    directive: nat, stage: Stage, actor: string, role: Role, requestId: string, from: Status, to: Status)

  datatype Verb = Create | Update | Transition | Delete

  datatype Action = Did(verb: Verb) | DirectiveExecution | ExecutionOutcome

  datatype Audit = Audit(
    actor: string, requestId: string, action: Action, key: Key, before: Status, after: Status)

  /** The business fields a client may send with a create or an update. */
  datatype Input = Input(
    code: string,
    facility: string,
    category: string,
    riskLevel: string,
    related: string,
    gateState: Status,
    details: Details)

  datatype Request = Request(
    kind: Kind,
    verb: Verb,
    id: nat,
    expected: nat,
    target: Status,
    input: Input,
    actor: string,
    role: Role,
    requestId: string)
  {
    function Subject(): Key {
      Key(kind, id)
    }
  }

  /** What the HTTP layer has checked before a service is called: an authenticated actor and the binding of
      `gateState`. */
  predicate Bound(req: Request) {
    req.actor != "" && (req.input.gateState == Blank || Settled(req.input.gateState))
  }

  /** A position in which a directive may ask to leave its gate. */
  predicate Settled(s: Status) {
    s == Open || s == Closed || s == Locked
  }

  predicate Filled(code: string, input: Input) {
    Trim(code) != "" && Trim(input.details.name) != "" && Trim(input.facility) != "" && Trim(input.details.owner) != ""
  }

  function Trimmed(d: Details): Details {
    Details(Trim(d.name), Trim(d.owner), Trim(d.notes))
  }

  /** The row a create writes, before the kind sets its own columns. */
  function NewRecord(kind: Kind, input: Input): Record {
    Record(
      Norm(input.code), Initial(kind), 1, true,
      Trim(input.facility), Trim(input.category), input.riskLevel, Norm(input.related),
      Blank, "", "", "", Trimmed(input.details))
  }

  /** The row an update writes, before the kind sets its own columns. */
  function Revised(current: Record, expected: nat, input: Input): Record {
    current.(
      version := expected + 1,
      facility := Trim(input.facility),
      category := Trim(input.category),
      riskLevel := input.riskLevel,
      details := Trimmed(input.details))
  }

  function Entry(req: Request, action: Action, key: Key, before: Status, after: Status): Audit {
    Audit(req.actor, req.requestId, action, key, before, after)
  }
}
