/** The life of one row while clients are honest about versions: its history tells its status, its approvals tell who
    decided, and it only ever moves forward. */
module Lives {
  import opened Text
  import opened Model
  import opened Store
  import opened Journal
  import opened Laws

  // ----- Evidence -----

  /** The approval rows of one directive, oldest first. */
  function ApprovalsOf(all: seq<Approval>, id: nat): seq<Approval> {
    if all == [] then []
    else
      var a, rest := all[|all| - 1], ApprovalsOf(all[..|all| - 1], id);
      if a.directive == id then rest + [a] else rest
  }

  lemma ApprovalsAppend(all: seq<Approval>, a: Approval, id: nat)
    ensures ApprovalsOf(all + [a], id) == if a.directive == id then ApprovalsOf(all, id) + [a] else ApprovalsOf(all, id)
  {
    assert (all + [a])[..|all|] == all;
  }

  predicate SubmittedBy(row: Record, a: Approval) {
    && a.stage == SubmittedStage && a.actor == row.submittedBy && a.actor != ""
    && (a.role == Operator || a.role == Admin) && a.from == Draft && a.to == Pending
  }

  predicate ApprovedBy(row: Record, a: Approval) {
    && a.stage == ApprovedStage && a.actor == row.approvedBy && a.actor != ""
    && (a.role == Reviewer || a.role == Admin) && a.from == Pending && a.to == Approved
  }

  predicate OnePerson(row: Record, own: seq<Approval>) {
    |own| == 1 && SubmittedBy(row, own[0]) && row.approvedBy == ""
  }

  predicate TwoPersons(row: Record, own: seq<Approval>) {
    |own| == 2 && SubmittedBy(row, own[0]) && ApprovedBy(row, own[1]) && !EqualFold(row.submittedBy, row.approvedBy)
  }

  /** The approvals a directive in this state must have. */
  predicate Attested(row: Record, own: seq<Approval>) {
    match row.status
    case Draft => own == [] && row.submittedBy == "" && row.approvedBy == ""
    case Pending => OnePerson(row, own)
    case Approved => TwoPersons(row, own)
    case Executing => TwoPersons(row, own)
    case Completed => TwoPersons(row, own)
    case Aborted => if row.approvedBy == "" then OnePerson(row, own) else TwoPersons(row, own)
    case _ => false
  }

  // ----- One row -----

  predicate KnownStatus(kind: Kind, s: Status) {
    match kind
    case Reservoir => s == Normal || s == Warning || s == Critical || s == Restricted
    case GateUnit => s == Open || s == Closed || s == Moving || s == Locked
    case OperationDirective =>
      s == Draft || s == Pending || s == Approved || s == Executing || s == Completed || s == Aborted
    case ExecutionConfirmation => s == Pending || s == Confirmed || s == Failed || s == Cancelled
  }

  predicate Linked(kind: Kind) {
    kind == OperationDirective || kind == ExecutionConfirmation
  }

  ghost predicate Sound(kind: Kind, row: Record, h: seq<Audit>, own: seq<Approval>) {
    && Unbroken(kind, h) && Final(h) == row.status && KnownStatus(kind, row.status)
    && Norm(row.code) == row.code && Norm(row.related) == row.related
    && (kind == OperationDirective ==> Attested(row, own))
    && (kind == ExecutionConfirmation ==> SignedOff(row, h))
  }

  /** A confirmed confirmation names the actor of the entry that confirmed it, which is its last one; the others name
      nobody. */
  predicate SignedOff(row: Record, h: seq<Audit>) {
    if row.status == Confirmed then
      && h != [] && h[|h| - 1].before == Pending && h[|h| - 1].after == Confirmed
      && row.confirmedBy == h[|h| - 1].actor && row.confirmedBy != ""
    else row.confirmedBy == ""
  }

  ghost predicate Alive(t: Tables) {
    && (forall k :: k in t.rows ==> Sound(k.kind, t.rows[k], History(t.audits, k), ApprovalsOf(t.approvals, k.id)))
    && (forall id: nat :: Key(OperationDirective, id) !in t.rows ==> ApprovalsOf(t.approvals, id) == [])
  }

  /** How far a directive or a confirmation has come. */
  function Rank(kind: Kind, s: Status): nat {
    match kind
    case OperationDirective =>
      (match s
       case Pending => 1
       case Approved => 2
       case Executing => 3
       case Completed => 4
       case Aborted => 4
       case _ => 0)
    case ExecutionConfirmation =>
      (match s
       case Failed => 1
       case Confirmed => 2
       case Cancelled => 2
       case _ => 0)
    case _ => 0
  }

  /** Everything a directive says apart from its status, version and approver. */
  predicate Frozen(r: Record, q: Record) {
    q.(status := r.status, version := r.version, approvedBy := r.approvedBy, live := r.live) == r
  }

  /** `r` became `q`. Directives and confirmations never fall back, and once they cannot be edited each further version
      is a step up in rank. A submitted directive is frozen, and a confirmation keeps its directive. */
  predicate Grown(kind: Kind, r: Record, q: Record) {
    && Newer(r, q)
    && Rank(kind, r.status) <= Rank(kind, q.status)
    && (Linked(kind) && !Editable(kind, r.status) ==>
          !Editable(kind, q.status) && q.version - r.version <= Rank(kind, q.status) - Rank(kind, r.status))
    && (kind == OperationDirective && r.status != Draft ==> Frozen(r, q))
    && (kind == ExecutionConfirmation ==> q.related == r.related)
  }

  ghost predicate Grows(t: Tables, u: Tables) {
    forall k :: k in t.rows ==> k in u.rows && Grown(k.kind, t.rows[k], u.rows[k])
  }

  lemma GrownTransitive(kind: Kind, p: Record, q: Record, r: Record)
    requires Grown(kind, p, q) && Grown(kind, q, r)
    ensures Grown(kind, p, r)
  {
  }

  lemma GrowsTransitive(t: Tables, u: Tables, v: Tables)
    requires Grows(t, u) && Grows(u, v)
    ensures Grows(t, v)
  {
    forall k | k in t.rows ensures k in v.rows && Grown(k.kind, t.rows[k], v.rows[k]) {
      GrownTransitive(k.kind, t.rows[k], u.rows[k], v.rows[k]);
    }
  }

  // ----- One write -----

  /** A lawful birth of a row. */
  predicate Birth(k: Key, row: Record, a: Option<Approval>, e: Audit) {
    && row.status == Initial(k.kind) && row.live && e.before == Blank && e.after == row.status && a.None?
    && Norm(row.code) == row.code && Norm(row.related) == row.related
    && row.submittedBy == "" && row.approvedBy == "" && row.confirmedBy == ""
  }

  /** A lawful change of row `r` into `q`. */
  predicate Move(k: Key, r: Record, q: Record, a: Option<Approval>, e: Audit) {
    && q.live && q.code == r.code && q.version == r.version + 1
    && e.before == r.status && e.after == q.status
    && (CanTransition(k.kind, r.status, q.status) || (r.status == q.status && Editable(k.kind, r.status)))
    && (Norm(r.related) == r.related ==> Norm(q.related) == q.related)
    && (k.kind == ExecutionConfirmation ==> q.related == r.related && Confirms(r, q, e))
    && (k.kind == OperationDirective ==>
          if r.status == q.status then
            a.None? && q.submittedBy == r.submittedBy && q.approvedBy == r.approvedBy && Norm(q.related) == q.related
          else DirectiveMove(k.id, r, q, a))
    && (k.kind != OperationDirective ==> a.None?)
  }

  predicate Confirms(r: Record, q: Record, e: Audit) {
    if q.status == Confirmed then q.confirmedBy == e.actor && e.actor != "" else q.confirmedBy == r.confirmedBy
  }

  predicate DirectiveMove(id: nat, r: Record, q: Record, a: Option<Approval>) {
    && Frozen(r, q.(submittedBy := r.submittedBy))
    && (q.status == Pending ==> a.Some? && a.value.directive == id && SubmittedBy(q, a.value))
    && (q.status != Pending ==> q.submittedBy == r.submittedBy)
    && (q.status == Approved ==>
          a.Some? && a.value.directive == id && ApprovedBy(q, a.value) && !EqualFold(q.submittedBy, q.approvedBy))
    && (q.status != Approved ==> q.approvedBy == r.approvedBy)
    && (q.status != Pending && q.status != Approved ==> a.None?)
  }

  predicate Legal(t: Tables, s: Step) {
    match s.change
    case Insert(k, row) => Birth(k, row, s.approval, s.audit)
    case Swap(k, _, row) => IsLive(t, k) && Move(k, t.rows[k], row, s.approval, s.audit)
    case Bury(k) => s.approval.None?
  }

  lemma MoveAttested(k: Key, r: Record, q: Record, a: Option<Approval>, e: Audit, own: seq<Approval>)
    requires k.kind == OperationDirective && Attested(r, own) && Move(k, r, q, a, e)
    ensures Attested(q, if a.Some? then own + [a.value] else own)
  {
    hide EqualFold, Norm;
  }

  lemma MoveEdge(k: Key, r: Record, q: Record, a: Option<Approval>, e: Audit)
    requires Move(k, r, q, a, e) && KnownStatus(k.kind, r.status)
    ensures Edge(k.kind, e.before, e.after) && KnownStatus(k.kind, q.status)
    ensures e.before == r.status && e.after == q.status && q.code == r.code
  {
    hide DirectiveMove, Norm;
  }

  lemma MoveRelated(k: Key, r: Record, q: Record, a: Option<Approval>, e: Audit)
    requires Move(k, r, q, a, e) && Norm(r.related) == r.related
    ensures Norm(q.related) == q.related
  {
    hide Norm, EqualFold, CanTransition, SubmittedBy, ApprovedBy;
  }

  lemma MoveSigned(k: Key, r: Record, q: Record, a: Option<Approval>, e: Audit, h: seq<Audit>)
    requires k.kind == ExecutionConfirmation && Move(k, r, q, a, e) && SignedOff(r, h)
    ensures SignedOff(q, h + [e])
  {
    hide Norm;
  }

  lemma MoveGrown(k: Key, r: Record, q: Record, a: Option<Approval>, e: Audit)
    requires Move(k, r, q, a, e) && r.live
    ensures Grown(k.kind, r, q)
  {
    hide Norm, EqualFold, SubmittedBy, ApprovedBy;
  }

  lemma MoveSound(k: Key, r: Record, q: Record, a: Option<Approval>, e: Audit, h: seq<Audit>, own: seq<Approval>)
    requires Sound(k.kind, r, h, own) && Move(k, r, q, a, e) && r.live
    requires h != []
    ensures Sound(k.kind, q, h + [e],
                  if k.kind == OperationDirective && a.Some? then own + [a.value] else own)
    ensures Grown(k.kind, r, q)
  {
    hide Norm, Attested, Edge, Move, Unbroken, KnownStatus, Grown, SignedOff;
    MoveEdge(k, r, q, a, e);
    MoveRelated(k, r, q, a, e);
    MoveGrown(k, r, q, a, e);
    UnbrokenAppend(k.kind, h, e);
    if k.kind == OperationDirective {
      MoveAttested(k, r, q, a, e, own);
    }
    if k.kind == ExecutionConfirmation {
      MoveSigned(k, r, q, a, e, h);
    }
  }

  lemma BirthSound(k: Key, row: Record, a: Option<Approval>, e: Audit)
    requires Birth(k, row, a, e)
    ensures Sound(k.kind, row, [e], [])
  {
  }

  lemma StepOwn(t: Tables, s: Step, u: Tables, k: Key)
    requires WellShaped(s) && ApplyStep(t, s) == Ok(u)
    ensures History(u.audits, k) ==
            if Concerns(s.audit, k) then History(t.audits, k) + [s.audit] else History(t.audits, k)
    ensures ApprovalsOf(u.approvals, k.id) ==
            if s.approval.Some? && s.approval.value.directive == k.id
            then ApprovalsOf(t.approvals, k.id) + [s.approval.value] else ApprovalsOf(t.approvals, k.id)
  {
    StepEffect(t, s, u);
    HistoryAppend(t.audits, s.audit, k);
    if s.approval.Some? {
      ApprovalsAppend(t.approvals, s.approval.value, k.id);
    }
  }

  ghost predicate RowSound(t: Tables, k: Key) {
    k in t.rows && Sound(k.kind, t.rows[k], History(t.audits, k), ApprovalsOf(t.approvals, k.id))
  }

  lemma InsertTarget(t: Tables, s: Step, u: Tables)
    requires s.change.Insert? && Counted(t) && Alive(t) && WellShaped(s) && Legal(t, s) && ApplyStep(t, s) == Ok(u)
    ensures RowSound(u, s.change.key)
  {
    var k := s.change.key;
    StepEffect(t, s, u);
    StepOwn(t, s, u, k);
    assert |History(t.audits, k)| == 0;
    assert History(u.audits, k) == [s.audit];
    BirthSound(k, s.change.row, s.approval, s.audit);
  }

  lemma SwapTarget(t: Tables, s: Step, u: Tables)
    requires s.change.Swap? && Counted(t) && Alive(t) && WellShaped(s) && Legal(t, s) && ApplyStep(t, s) == Ok(u)
    ensures RowSound(u, s.change.key) && Grown(s.change.key.kind, t.rows[s.change.key], u.rows[s.change.key])
  {
    var k, row := s.change.key, s.change.row;
    var r, h, own := t.rows[k], History(t.audits, k), ApprovalsOf(t.approvals, k.id);
    StepOwn(t, s, u, k);
    assert Sound(k.kind, r, h, own);
    SoundStarted(k.kind, r, h, own);
    assert u.rows[k] == row by { StepEffect(t, s, u); }
    MoveApproval(k, r, row, s.approval, s.audit);
    MoveSound(k, r, row, s.approval, s.audit, h, own);
  }

  lemma SoundStarted(kind: Kind, row: Record, h: seq<Audit>, own: seq<Approval>)
    requires Sound(kind, row, h, own)
    ensures h != []
  {
  }

  lemma MoveApproval(k: Key, r: Record, q: Record, a: Option<Approval>, e: Audit)
    requires Move(k, r, q, a, e)
    ensures a.Some? ==> k.kind == OperationDirective && a.value.directive == k.id
  {
  }

  lemma BuryTarget(t: Tables, s: Step, u: Tables)
    requires s.change.Bury? && Alive(t) && WellShaped(s) && Legal(t, s) && ApplyStep(t, s) == Ok(u)
    ensures RowSound(u, s.change.key) && Grown(s.change.key.kind, t.rows[s.change.key], u.rows[s.change.key])
  {
    var k := s.change.key;
    StepEffect(t, s, u);
    StepOwn(t, s, u, k);
    assert Sound(k.kind, t.rows[k], History(t.audits, k), ApprovalsOf(t.approvals, k.id));
  }

  /** The written row stays sound and grows. */
  lemma StepTarget(t: Tables, s: Step, u: Tables)
    requires Counted(t) && Alive(t) && WellShaped(s) && Legal(t, s) && ApplyStep(t, s) == Ok(u)
    ensures RowSound(u, s.change.key)
    ensures s.change.key in t.rows ==> Grown(s.change.key.kind, t.rows[s.change.key], u.rows[s.change.key])
  {
    match s.change
    case Insert(_, _) => InsertTarget(t, s, u);
    case Swap(_, _, _) => SwapTarget(t, s, u);
    case Bury(_) => BuryTarget(t, s, u);
  }

  lemma StepAlive(t: Tables, s: Step, u: Tables)
    requires Counted(t) && Alive(t) && WellShaped(s) && Legal(t, s) && ApplyStep(t, s) == Ok(u)
    ensures Alive(u) && Grows(t, u)
  {
    StepEffect(t, s, u);
    StepTarget(t, s, u);
    forall k | k in u.rows
      ensures Sound(k.kind, u.rows[k], History(u.audits, k), ApprovalsOf(u.approvals, k.id))
      ensures k in t.rows ==> Grown(k.kind, t.rows[k], u.rows[k])
    {
      if k != s.change.key {
        StepOwn(t, s, u, k);
        assert Sound(k.kind, t.rows[k], History(t.audits, k), ApprovalsOf(t.approvals, k.id));
      }
    }
    forall id: nat | Key(OperationDirective, id) !in u.rows ensures ApprovalsOf(u.approvals, id) == [] {
      StepOwn(t, s, u, Key(OperationDirective, id));
      assert Key(OperationDirective, id) !in t.rows;
    }
  }
}
