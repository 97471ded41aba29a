/** Safety of every run in which clients send versions they were shown: what a request validated is still true when
    its commit succeeds, and the entities stay consistent with each other. */
module Safety {
  import opened Text
  import opened Model
  import opened Store
  import opened Planning
  import opened Journal
  import opened Protocol
  import opened Laws
  import opened Lives

  // ----- Snapshots -----

  /** `r` was read from row `k` at some earlier moment. */
  predicate Seen(t: Tables, k: Key, r: Record) {
    r.live && k in t.rows && Grown(k.kind, r, t.rows[k])
  }

  predicate FreshFlight(t: Tables, f: Flight) {
    && (f.primary.Some? ==> Seen(t, f.req.Subject(), f.primary.value))
    && (f.link.Some? ==> Seen(t, f.link.value.key, f.link.value.row))
    && (f.second.Some? ==> Seen(t, f.second.value.key, f.second.value.row))
  }

  lemma SeenLater(t: Tables, u: Tables, k: Key, r: Record)
    requires Seen(t, k, r) && Grows(t, u)
    ensures Seen(u, k, r)
  {
    GrownTransitive(k.kind, r, t.rows[k], u.rows[k]);
  }

  lemma FreshLater(t: Tables, u: Tables, f: Flight)
    requires FreshFlight(t, f) && Grows(t, u)
    ensures FreshFlight(u, f)
  {
    if f.primary.Some? { SeenLater(t, u, f.req.Subject(), f.primary.value); }
    if f.link.Some? { SeenLater(t, u, f.link.value.key, f.link.value.row); }
    if f.second.Some? { SeenLater(t, u, f.second.value.key, f.second.value.row); }
  }

  predicate Current(t: Tables, s: Step) {
    s.change.Swap? ==> IsLive(t, s.change.key) && t.rows[s.change.key].version == s.change.expected
  }

  /** The optimistic lock works: a snapshot no older than the expected version is the row itself. */
  lemma SwapSeesSnapshot(t: Tables, k: Key, expected: nat, r: Record)
    requires Seen(t, k, r) && expected <= r.version && IsLive(t, k) && t.rows[k].version == expected
    ensures t.rows[k] == r
  {
  }

  lemma TxCurrent(t: Tables, tx: Tx, u: Tables)
    requires Tidy(tx) && ApplyTx(t, tx) == Ok(u)
    ensures Current(t, tx.first)
    ensures tx.second.Some? ==> Current(t, tx.second.value)
    ensures tx.third.Some? ==> Current(t, tx.third.value)
  {
    hide ApplyStep, ValidBlock;
    TidyDistinct(tx);
    var t1 := ApplyStep(t, tx.first).value;
    StepEffect(t, tx.first, t1);
    if tx.second.Some? {
      var t2 := ApplyStep(t1, tx.second.value).value;
      StepEffect(t1, tx.second.value, t2);
      if tx.third.Some? {
        StepEffect(t2, tx.third.value, u);
      }
    }
  }

  // ----- Legality of what the services plan -----

  lemma BirthLegal(t: Tables, req: Request, id: nat, row: Record)
    requires row.code == Norm(req.input.code) && row.status == Initial(req.kind) && row.live
    requires row.submittedBy == "" && row.approvedBy == ""
    requires Norm(row.related) == row.related && row.confirmedBy == ""
    ensures Legal(t, CreateStep(req, id, row))
  {
    NormIdempotent(req.input.code);
  }

  lemma CreateLegal(t: Tables, f: Flight, id: nat)
    requires WellRead(f) && f.req.verb == Create && Plan(f, id).Ok?
    ensures Legal(t, Plan(f, id).value.first)
  {
    hide Norm, Trim, EqualFold;
    var row := Plan(f, id).value.first.change.row;
    NormIdempotent(f.req.input.related);
    BirthLegal(t, f.req, id, row);
  }

  lemma EditMoves(req: Request, current: Record, row: Record)
    requires row.live && row.code == current.code && row.version == current.version + 1
    requires row.status == current.status && Editable(req.kind, current.status)
    requires Norm(row.related) == row.related && row.confirmedBy == current.confirmedBy
    requires req.kind == ExecutionConfirmation ==> row.related == current.related
    requires req.kind == OperationDirective ==>
      row.submittedBy == current.submittedBy && row.approvedBy == current.approvedBy
    ensures var s := UpdateStep(req, current, row); Move(req.Subject(), current, row, s.approval, s.audit)
  {
  }

  lemma UpdateMoves(f: Flight, id: nat)
    requires WellRead(f) && f.req.verb == Update && Plan(f, id).Ok? && f.primary.value.live
    requires f.req.expected == f.primary.value.version
    requires Norm(f.primary.value.related) == f.primary.value.related
    requires Norm(Norm(f.req.input.related)) == Norm(f.req.input.related)
    ensures var s := Plan(f, id).value.first;
      && s.change.Swap? && s.change.key == f.req.Subject()
      && Move(f.req.Subject(), f.primary.value, s.change.row, s.approval, s.audit)
  {
    hide Norm, EqualFold, Move;
    EditMoves(f.req, f.primary.value, Plan(f, id).value.first.change.row);
  }

  lemma UpdateLegal(t: Tables, f: Flight, id: nat)
    requires Alive(t) && WellRead(f) && f.req.verb == Update && Plan(f, id).Ok?
    requires IsLive(t, f.req.Subject()) && t.rows[f.req.Subject()] == f.primary.value
    requires f.req.expected == f.primary.value.version
    ensures Legal(t, Plan(f, id).value.first)
  {
    var k := f.req.Subject();
    assert Norm(t.rows[k].related) == t.rows[k].related by {
      assert Sound(k.kind, t.rows[k], History(t.audits, k), ApprovalsOf(t.approvals, k.id));
    }
    NormIdempotent(f.req.input.related);
    UpdateMoves(f, id);
  }

  lemma StatusChangeLegal(t: Tables, req: Request, current: Record)
    requires req.kind == Reservoir || req.kind == GateUnit
    requires IsLive(t, req.Subject()) && t.rows[req.Subject()] == current && req.expected == current.version
    requires StatusChange(req, current).Ok?
    ensures Legal(t, StatusChange(req, current).value.first)
  {
  }

  lemma MoveGateLegal(t: Tables, req: Request, action: Action, g: Snap, goal: Status)
    requires g.key.kind == GateUnit && IsLive(t, g.key) && t.rows[g.key] == g.row && CanReach(g.row, goal)
    requires MoveStep(req, action, g, goal).Some?
    ensures Legal(t, MoveStep(req, action, g, goal).value)
  {
  }

  lemma TransitionDirectiveLegal(t: Tables, req: Request, current: Record, gate: Option<Snap>)
    requires req.kind == OperationDirective && Bound(req)
    requires IsLive(t, req.Subject()) && t.rows[req.Subject()] == current && req.expected == current.version
    requires TransitionDirective(req, current, gate).Ok?
    ensures Legal(t, TransitionDirective(req, current, gate).value.first)
  {
  }

  lemma TransitionConfirmationLegal(t: Tables, req: Request, current: Record, d: Option<Snap>, g: Option<Snap>)
    requires req.kind == ExecutionConfirmation && req.actor != ""
    requires IsLive(t, req.Subject()) && t.rows[req.Subject()] == current && req.expected == current.version
    requires d.Some? ==> d.value.key.kind == OperationDirective
    requires TransitionConfirmation(req, current, d, g).Ok?
    ensures var tx := TransitionConfirmation(req, current, d, g).value;
      && Legal(t, tx.first)
      && (tx.second.Some? && IsLive(t, d.value.key) && t.rows[d.value.key] == d.value.row ==>
            Legal(t, tx.second.value))
  {
  }

  /** Every row a successful commit writes is the row that was read and validated. */
  lemma CommitSeesSnapshots(t: Tables, f: Flight, id: nat, u: Tables)
    requires WellRead(f) && FreshFlight(t, f) && Honest(f)
    requires Plan(f, id).Ok? && ApplyTx(t, Plan(f, id).value) == Ok(u)
    ensures var tx := Plan(f, id).value;
      && (tx.first.change.Swap? ==>
            f.primary.Some? && t.rows[f.req.Subject()] == f.primary.value && f.req.expected == f.primary.value.version
            && tx.first.change.key == f.req.Subject())
      && (tx.second.Some? ==> f.link.Some? && tx.second.value.change.Swap?
                              && tx.second.value.change.key == f.link.value.key
                              && IsLive(t, f.link.value.key) && t.rows[f.link.value.key] == f.link.value.row)
      && (tx.third.Some? ==> f.second.Some? && tx.third.value.change.Swap?
                             && tx.third.value.change.key == f.second.value.key
                             && IsLive(t, f.second.value.key) && t.rows[f.second.value.key] == f.second.value.row)
  {
    var tx := Plan(f, id).value;
    PlanTidy(f, id);
    TxCurrent(t, tx, u);
    PlanVersions(f, id);
    if tx.first.change.Swap? {
      SwapSeesSnapshot(t, f.req.Subject(), f.req.expected, f.primary.value);
    }
    if tx.second.Some? {
      SwapSeesSnapshot(t, f.link.value.key, f.link.value.row.version, f.link.value.row);
    }
    if tx.third.Some? {
      SwapSeesSnapshot(t, f.second.value.key, f.second.value.row.version, f.second.value.row);
    }
  }

  /** The first row is swapped at the client's version, linked rows at the version read. */
  lemma PlanVersions(f: Flight, id: nat)
    requires Plan(f, id).Ok?
    ensures var tx := Plan(f, id).value;
      && (tx.first.change.Swap? ==>
            f.primary.Some? && f.req.verb != Create
            && tx.first.change.key == f.req.Subject() && tx.first.change.expected == f.req.expected)
      && (tx.second.Some? ==> f.link.Some? && tx.second.value.change.Swap?
                              && tx.second.value.change.key == f.link.value.key
                              && tx.second.value.change.expected == f.link.value.row.version)
      && (tx.third.Some? ==> f.second.Some? && tx.third.value.change.Swap?
                             && tx.third.value.change.key == f.second.value.key
                             && tx.third.value.change.expected == f.second.value.row.version)
  {
  }

  predicate LegalTx(t: Tables, tx: Tx) {
    && Legal(t, tx.first)
    && (tx.second.Some? ==> Legal(t, tx.second.value))
    && (tx.third.Some? ==> Legal(t, tx.third.value))
  }

  lemma DirectiveCommitLegal(t: Tables, f: Flight, id: nat, u: Tables)
    requires f.req.verb == Transition && f.req.kind == OperationDirective
    requires WellRead(f) && FreshFlight(t, f) && Honest(f)
    requires Plan(f, id).Ok? && ApplyTx(t, Plan(f, id).value) == Ok(u)
    ensures LegalTx(t, Plan(f, id).value)
  {
    CommitSeesSnapshots(t, f, id, u);
    var req, current, tx := f.req, f.primary.value, Plan(f, id).value;
    PlanTidy(f, id);
    TxCurrent(t, tx, u);
    TransitionDirectiveLegal(t, req, current, f.link);
    if tx.second.Some? {
      MoveGateLegal(t, req, DirectiveExecution, f.link.value, GateGoal(current, req.target, f.link.value.row).value);
    }
  }

  lemma ConfirmationCommitLegal(t: Tables, f: Flight, id: nat, u: Tables)
    requires f.req.verb == Transition && f.req.kind == ExecutionConfirmation
    requires WellRead(f) && FreshFlight(t, f) && Honest(f)
    requires Plan(f, id).Ok? && ApplyTx(t, Plan(f, id).value) == Ok(u)
    ensures LegalTx(t, Plan(f, id).value)
  {
    CommitSeesSnapshots(t, f, id, u);
    var req, current, tx := f.req, f.primary.value, Plan(f, id).value;
    PlanTidy(f, id);
    TxCurrent(t, tx, u);
    TransitionConfirmationLegal(t, req, current, f.link, f.second);
    if tx.third.Some? {
      MoveGateLegal(t, req, ExecutionOutcome, f.second.value, GateOutcome(req.target, f.link.value.row));
    }
  }

  lemma SinglePlan(f: Flight, id: nat)
    requires f.req.verb == Transition ==> !Linked(f.req.kind)
    requires Plan(f, id).Ok?
    ensures Plan(f, id).value == Single(Plan(f, id).value.first)
    ensures f.req.verb == Delete ==> Plan(f, id).value.first.change.Bury? && Plan(f, id).value.first.approval.None?
    ensures f.req.verb == Transition ==> StatusChange(f.req, f.primary.value) == Plan(f, id)
    ensures f.req.verb == Update || f.req.verb == Transition ==>
      Plan(f, id).value.first.change.Swap? && Plan(f, id).value.first.change.key == f.req.Subject()
  {
  }

  lemma SingleCommitLegal(t: Tables, f: Flight, id: nat, u: Tables)
    requires f.req.verb == Transition ==> !Linked(f.req.kind)
    requires Alive(t) && WellRead(f) && FreshFlight(t, f) && Honest(f)
    requires Plan(f, id).Ok? && ApplyTx(t, Plan(f, id).value) == Ok(u)
    ensures LegalTx(t, Plan(f, id).value)
  {
    CommitSeesSnapshots(t, f, id, u);
    SinglePlan(f, id);
    var first := Plan(f, id).value.first;
    assert Legal(t, first) by {
      match f.req.verb
      case Create => CreateLegal(t, f, id);
      case Delete =>
      case Update =>
        assert Current(t, first) by { PlanTidy(f, id); TxCurrent(t, Plan(f, id).value, u); }
        UpdateLegal(t, f, id);
      case Transition =>
        assert Current(t, first) by { PlanTidy(f, id); TxCurrent(t, Plan(f, id).value, u); }
        StatusChangeLegal(t, f.req, f.primary.value);
    }
  }

  lemma CommitLegal(t: Tables, f: Flight, id: nat, u: Tables)
    requires Alive(t) && WellRead(f) && FreshFlight(t, f) && Honest(f)
    requires Plan(f, id).Ok? && ApplyTx(t, Plan(f, id).value) == Ok(u)
    ensures LegalTx(t, Plan(f, id).value)
  {
    if f.req.verb == Transition && f.req.kind == OperationDirective {
      DirectiveCommitLegal(t, f, id, u);
    } else if f.req.verb == Transition && f.req.kind == ExecutionConfirmation {
      ConfirmationCommitLegal(t, f, id, u);
    } else {
      SingleCommitLegal(t, f, id, u);
    }
  }

  lemma TxAlive(t: Tables, tx: Tx, u: Tables)
    requires Lawful(t) && Alive(t) && Tidy(tx) && LegalTx(t, tx) && ApplyTx(t, tx) == Ok(u)
    ensures Alive(u) && Grows(t, u)
  {
    hide ApplyStep, ValidBlock, Alive, Grows, Indexed, Counted, Buried, AllProper, Move, Birth;
    TidyDistinct(tx);
    var t1 := ApplyStep(t, tx.first).value;
    StepEffect(t, tx.first, t1);
    StepLawful(t, tx.first, t1);
    StepAlive(t, tx.first, t1);
    if tx.second.Some? {
      var t2 := ApplyStep(t1, tx.second.value).value;
      StepEffect(t1, tx.second.value, t2);
      StepLawful(t1, tx.second.value, t2);
      StepAlive(t1, tx.second.value, t2);
      GrowsTransitive(t, t1, t2);
      if tx.third.Some? {
        StepAlive(t2, tx.third.value, u);
        GrowsTransitive(t, t2, u);
      }
    }
  }
}
