/** Directives, gates and confirmations agree with each other in every careful run, soft-deleted rows included. */
module Consistency {
  import opened Text
  import opened Model
  import opened Store
  import opened Planning
  import opened Journal
  import opened Protocol
  import opened Laws
  import opened Lives
  import opened Safety

  predicate IsDirective(t: Tables, d: Key) {
    d in t.rows && d.kind == OperationDirective
  }

  predicate IsConfirmation(t: Tables, c: Key) {
    c in t.rows && c.kind == ExecutionConfirmation
  }

  /** Confirmation `c` names directive `d`. */
  predicate Names(t: Tables, c: Key, d: Key) {
    IsConfirmation(t, c) && IsDirective(t, d) && t.rows[d].code == t.rows[c].related
  }

  /** Directive `d` acts on gate `g`. */
  predicate ActsOn(t: Tables, d: Key, g: Key) {
    IsDirective(t, d) && g in t.rows && g.kind == GateUnit && t.rows[g].code == t.rows[d].related
  }

  /** Which states of a confirmation and of the directive it names go together. */
  predicate StatesAgree(confirmation: Status, directive: Status) {
    match confirmation
    case Pending => directive == Executing || directive == Aborted
    case Confirmed => directive == Completed
    case Failed => directive == Aborted
    case Cancelled => directive == Aborted
    case _ => false
  }

  predicate Agree(c: Record, d: Record) {
    && StatesAgree(c.status, d.status)
    && c.facility == d.facility && c.category == d.category && c.riskLevel == d.riskLevel
  }

  ghost predicate Consistent(t: Tables) {
    && (forall c, d :: Names(t, c, d) ==> Agree(t.rows[c], t.rows[d]))
    && (forall c :: IsConfirmation(t, c) ==> exists d :: Names(t, c, d))
    && (forall d :: IsDirective(t, d) && t.rows[d].status == Completed ==> exists c :: Names(t, c, d))
    && (forall d :: IsDirective(t, d) ==> exists g :: ActsOn(t, d, g))
  }

  // ----- Frames -----

  /** Rows keep their codes and confirmations their directives, so who names whom does not change. */
  ghost predicate SameNames(t: Tables, u: Tables) {
    && (forall k :: k in u.rows <==> k in t.rows)
    && (forall k :: k in t.rows ==> u.rows[k].code == t.rows[k].code)
    && (forall k :: k in t.rows && k.kind == ExecutionConfirmation ==> u.rows[k].related == t.rows[k].related)
  }

  /** When a transaction inserts nothing, agreement is all that has to be shown. */
  lemma KeptConsistent(t: Tables, u: Tables)
    requires Consistent(t) && SameNames(t, u)
    requires forall c, d :: Names(t, c, d) ==> Agree(u.rows[c], u.rows[d])
    requires forall d :: IsDirective(u, d) && u.rows[d].status == Completed ==> exists c :: Names(t, c, d)
    requires forall d :: IsDirective(u, d) ==> u.rows[d].related == t.rows[d].related || exists g :: ActsOn(u, d, g)
    ensures Consistent(u)
  {
    assert forall c, d :: Names(u, c, d) <==> Names(t, c, d);
    forall c | IsConfirmation(u, c) ensures exists d :: Names(u, c, d) {
      assert IsConfirmation(t, c);
      var d :| Names(t, c, d);
      assert Names(u, c, d);
    }
    forall d | IsDirective(u, d) && u.rows[d].status == Completed ensures exists c :: Names(u, c, d) {
      var c :| Names(t, c, d);
      assert Names(u, c, d);
    }
    forall d | IsDirective(u, d) ensures exists g :: ActsOn(u, d, g) {
      if u.rows[d].related == t.rows[d].related {
        assert IsDirective(t, d);
        var g :| ActsOn(t, d, g);
        assert ActsOn(u, d, g);
      }
    }
  }

  /** One row was swapped or buried. */
  predicate OnlyAt(t: Tables, u: Tables, k: Key) {
    && k in t.rows && k in u.rows && u.rows == t.rows[k := u.rows[k]]
    && u.rows[k].code == t.rows[k].code
    && (k.kind == ExecutionConfirmation ==> u.rows[k].related == t.rows[k].related)
  }

  lemma OtherRowConsistent(t: Tables, u: Tables, k: Key)
    requires Consistent(t) && OnlyAt(t, u, k)
    requires !Linked(k.kind) || u.rows[k] == t.rows[k].(live := false)
    ensures Consistent(u)
  {
    hide Consistent, SameNames, StatesAgree;
    forall c, d | Names(t, c, d) ensures Agree(u.rows[c], u.rows[d]) {
      AgreeAt(t, c, d);
    }
    forall d | IsDirective(u, d) && u.rows[d].status == Completed ensures exists c :: Names(t, c, d) {
      CompletedIsNamed(t, d);
    }
    OnlyAtKeepsNames(t, u, k);
    KeptConsistent(t, u);
  }

  lemma DirectiveStillAgrees(t: Tables, u: Tables, k: Key, c: Key, d: Key)
    requires OnlyAt(t, u, k) && k.kind == OperationDirective && Names(t, c, d) && Agree(t.rows[c], t.rows[d])
    requires u.rows[k].status != Completed
    requires DirectiveStays(t.rows[k], u.rows[k]) || t.rows[k].status == Draft
    ensures Agree(u.rows[c], u.rows[d])
  {
  }

  lemma AgreeAt(t: Tables, c: Key, d: Key)
    requires Consistent(t) && Names(t, c, d)
    ensures Agree(t.rows[c], t.rows[d])
  {
    hide Agree;
  }

  lemma CompletedIsNamed(t: Tables, d: Key)
    requires Consistent(t) && IsDirective(t, d) && t.rows[d].status == Completed
    ensures exists c :: Names(t, c, d)
  {
    hide Agree;
  }

  lemma DirectiveConsistent(t: Tables, u: Tables, k: Key)
    requires Consistent(t) && OnlyAt(t, u, k) && k.kind == OperationDirective
    requires u.rows[k].status != Completed
    requires DirectiveStays(t.rows[k], u.rows[k]) || t.rows[k].status == Draft
    requires u.rows[k].related == t.rows[k].related || exists g :: ActsOn(u, k, g)
    ensures Consistent(u)
  {
    hide Agree, DirectiveStays, Consistent, SameNames;
    forall c, d | Names(t, c, d) ensures Agree(u.rows[c], u.rows[d]) {
      AgreeAt(t, c, d);
      DirectiveStillAgrees(t, u, k, c, d);
    }
    forall d | IsDirective(u, d) && u.rows[d].status == Completed ensures exists c :: Names(t, c, d) {
      CompletedIsNamed(t, d);
    }
    OnlyAtKeepsNames(t, u, k);
    KeptConsistent(t, u);
  }

  lemma OnlyAtKeepsNames(t: Tables, u: Tables, k: Key)
    requires OnlyAt(t, u, k)
    ensures SameNames(t, u)
  {
  }

  /** A submitted directive takes an edge of its graph and keeps what confirmations copied from it. */
  predicate DirectiveStays(r: Record, q: Record) {
    && CanTransition(OperationDirective, r.status, q.status)
    && q.facility == r.facility && q.category == r.category && q.riskLevel == r.riskLevel
  }

  lemma ConfirmationConsistent(t: Tables, u: Tables, k: Key)
    requires Consistent(t) && OnlyAt(t, u, k) && k.kind == ExecutionConfirmation
    requires forall d :: Names(t, k, d) ==> Agree(u.rows[k], t.rows[d])
    ensures Consistent(u)
  {
    hide Consistent, SameNames, StatesAgree;
    forall c, d | Names(t, c, d) ensures Agree(u.rows[c], u.rows[d]) {
      AgreeAt(t, c, d);
    }
    forall d | IsDirective(u, d) && u.rows[d].status == Completed ensures exists c :: Names(t, c, d) {
      CompletedIsNamed(t, d);
    }
    OnlyAtKeepsNames(t, u, k);
    KeptConsistent(t, u);
  }

  /** The commit of an outcome: confirmation `c` decides directive `d`, and possibly a gate moves. */
  lemma OnlyThisPair(t: Tables, c: Key, d: Key, c': Key, d': Key)
    requires Indexed(t) && Names(t, c, d) && Names(t, c', d')
    ensures c' == c <==> d' == d
  {
  }

  lemma OutcomeConsistent(t: Tables, u: Tables, c: Key, d: Key)
    requires Indexed(t) && Consistent(t) && SameNames(t, u) && Names(t, c, d)
    requires Agree(u.rows[c], u.rows[d]) && u.rows[d].related == t.rows[d].related
    requires forall k :: k in t.rows && k != c && k != d && k.kind != GateUnit ==> u.rows[k] == t.rows[k]
    ensures Consistent(u)
  {
    hide Agree, Indexed;
    forall c', d' | Names(t, c', d') ensures Agree(u.rows[c'], u.rows[d']) {
      assert Agree(t.rows[c'], t.rows[d']);
      OnlyThisPair(t, c, d, c', d');
    }
    forall d' | IsDirective(u, d') && u.rows[d'].status == Completed ensures exists c' :: Names(t, c', d') {
      assert IsDirective(t, d');
    }
    KeptConsistent(t, u);
  }

  predicate OneMore(t: Tables, u: Tables, k: Key) {
    k !in t.rows && k in u.rows && u.rows == t.rows[k := u.rows[k]]
  }

  lemma InsertAgrees(t: Tables, u: Tables, k: Key)
    requires Consistent(t) && OneMore(t, u, k) && Indexed(u)
    requires k.kind == OperationDirective ==> u.rows[k].status == Draft && exists g :: ActsOn(u, k, g)
    requires k.kind == ExecutionConfirmation ==> exists d :: Names(u, k, d) && Agree(u.rows[k], u.rows[d])
    ensures forall c, d :: Names(u, c, d) ==> Agree(u.rows[c], u.rows[d])
  {
    hide Agree;
    forall c, d | Names(u, c, d) ensures Agree(u.rows[c], u.rows[d]) {
      if c != k {
        assert IsConfirmation(t, c);
        var d' :| Names(t, c, d');
        assert Names(u, c, d');
        assert d' == d;
      }
    }
  }

  lemma StillNames(t: Tables, u: Tables, k: Key, c: Key)
    requires Consistent(t) && OneMore(t, u, k) && IsConfirmation(t, c)
    ensures exists d :: Names(u, c, d)
  {
    var d :| Names(t, c, d);
    assert Names(u, c, d);
  }

  lemma StillNamed(t: Tables, u: Tables, k: Key, d: Key)
    requires Consistent(t) && OneMore(t, u, k) && IsDirective(t, d) && t.rows[d].status == Completed
    ensures exists c :: Names(u, c, d)
  {
    var c :| Names(t, c, d);
    assert Names(u, c, d);
  }

  lemma StillActs(t: Tables, u: Tables, k: Key, d: Key)
    requires Consistent(t) && OneMore(t, u, k) && IsDirective(t, d)
    ensures exists g :: ActsOn(u, d, g)
  {
    var g :| ActsOn(t, d, g);
    assert ActsOn(u, d, g);
  }

  /** A new row that nobody can name yet, or a confirmation whose directive agrees. */
  lemma InsertConsistent(t: Tables, u: Tables, k: Key)
    requires Consistent(t) && OneMore(t, u, k) && Indexed(u)
    requires k.kind == OperationDirective ==> u.rows[k].status == Draft && exists g :: ActsOn(u, k, g)
    requires k.kind == ExecutionConfirmation ==> exists d :: Names(u, k, d) && Agree(u.rows[k], u.rows[d])
    ensures Consistent(u)
  {
    InsertAgrees(t, u, k);
    forall c | IsConfirmation(u, c) ensures exists d :: Names(u, c, d) {
      if c != k {
        StillNames(t, u, k, c);
      }
    }
    forall d | IsDirective(u, d) && u.rows[d].status == Completed ensures exists c :: Names(u, c, d) {
      StillNamed(t, u, k, d);
    }
    forall d | IsDirective(u, d) ensures exists g :: ActsOn(u, d, g) {
      if d != k {
        StillActs(t, u, k, d);
      }
    }
  }

  // ----- Commits -----

  ghost predicate SafeTables(t: Tables) {
    Lawful(t) && Alive(t) && Consistent(t)
  }

  ghost predicate SafeFlight(t: Tables, f: Flight) {
    WellRead(f) && FreshFlight(t, f)
  }

  ghost predicate SafeSystem(s: System) {
    SafeTables(s.db) && forall n :: n in s.flights ==> SafeFlight(s.db, s.flights[n])
  }

  lemma FinalIsStatus(t: Tables, k: Key)
    requires SafeTables(t) && k in t.rows
    ensures History(t.audits, k) != [] && Final(History(t.audits, k)) == t.rows[k].status
    ensures Unbroken(k.kind, History(t.audits, k))
  {
    assert Sound(k.kind, t.rows[k], History(t.audits, k), ApprovalsOf(t.approvals, k.id));
    SoundStarted(k.kind, t.rows[k], History(t.audits, k), ApprovalsOf(t.approvals, k.id));
  }

  lemma DirectiveKnown(t: Tables, d: Key)
    requires SafeTables(t) && IsDirective(t, d)
    ensures KnownStatus(OperationDirective, t.rows[d].status)
  {
    assert Sound(d.kind, t.rows[d], History(t.audits, d), ApprovalsOf(t.approvals, d.id));
  }

  lemma DirectiveAttested(t: Tables, d: Key)
    requires SafeTables(t) && IsDirective(t, d)
    ensures Attested(t.rows[d], ApprovalsOf(t.approvals, d.id))
  {
    assert Sound(d.kind, t.rows[d], History(t.audits, d), ApprovalsOf(t.approvals, d.id));
  }

  lemma SingleEffect(t: Tables, tx: Tx, u: Tables)
    requires tx == Single(tx.first) && WellShaped(tx.first) && Legal(t, tx.first) && ApplyTx(t, tx) == Ok(u)
    ensures match tx.first.change
            case Insert(k, row) => OneMore(t, u, k) && u.rows[k] == row
            case Swap(k, e, row) => OnlyAt(t, u, k) && u.rows[k] == row
            case Bury(k) => OnlyAt(t, u, k) && u.rows[k] == t.rows[k].(live := false)
  {
    SingleStep(t, tx.first);
    LegalKeeps(t, tx.first);
    hide ApplyStep, ApplyTx, Move, Birth, Proper;
    StepEffect(t, tx.first, u);
  }

  lemma SingleStep(t: Tables, s: Step)
    ensures ApplyTx(t, Single(s)) == ApplyStep(t, s)
  {
  }

  lemma LegalKeeps(t: Tables, s: Step)
    requires Legal(t, s)
    ensures match s.change
            case Insert(k, row) => row.live
            case Swap(k, _, row) =>
              && IsLive(t, k) && row.live && row.code == t.rows[k].code
              && (k.kind == ExecutionConfirmation ==> row.related == t.rows[k].related)
            case Bury(_) => true
  {
  }

  /** The linked row is still there, under the code it was found by. */
  lemma LinkStays(t: Tables, u: Tables, k: Key, g: Snap)
    requires Seen(t, g.key, g.row) && g.key.kind == GateUnit
    requires OnlyAt(t, u, k) || OneMore(t, u, k)
    requires k.kind == OperationDirective && k in u.rows && u.rows[k].related == g.row.code
    ensures ActsOn(u, k, g.key)
  {
  }

  /** A directive that was read while executing still says what it said, and has at most been decided since. */
  lemma SeenExecuting(t: Tables, l: Snap)
    requires Alive(t) && Seen(t, l.key, l.row) && l.key.kind == OperationDirective && l.row.status == Executing
    ensures IsDirective(t, l.key)
    ensures var d := t.rows[l.key];
      && (d.status == Executing || d.status == Completed || d.status == Aborted)
      && d.code == l.row.code && d.facility == l.row.facility && d.category == l.row.category
      && d.riskLevel == l.row.riskLevel
  {
    var k := l.key;
    assert Sound(k.kind, t.rows[k], History(t.audits, k), ApprovalsOf(t.approvals, k.id));
  }

  /** `row` copies what a confirmation takes from directive `d`. */
  predicate Copies(row: Record, d: Record) {
    row.facility == d.facility && row.category == d.category && row.riskLevel == d.riskLevel && row.related == d.code
  }

  lemma NotCompletedYet(t: Tables, u: Tables, k: Key, d: Key)
    requires Consistent(t) && OneMore(t, u, k) && UniqueRelated(u.rows) && k.kind == ExecutionConfirmation
    requires IsDirective(t, d) && u.rows[k].related == t.rows[d].code
    ensures t.rows[d].status != Completed
  {
    forall c | IsConfirmation(t, c) ensures t.rows[c].related != u.rows[k].related {
      assert u.rows[c] == t.rows[c];
    }
    assert forall c :: !Names(t, c, d);
  }

  /** Between the read of an executing directive and the insert it may have been aborted, but not completed: the
      confirmation that completed it would occupy the unique index. */
  lemma NewConfirmationAgrees(t: Tables, u: Tables, k: Key, l: Snap)
    requires Alive(t) && Consistent(t) && OneMore(t, u, k) && Indexed(u) && k.kind == ExecutionConfirmation
    requires Seen(t, l.key, l.row) && l.key.kind == OperationDirective && l.row.status == Executing
    requires Copies(u.rows[k], l.row) && u.rows[k].status == Pending
    ensures Names(u, k, l.key) && Agree(u.rows[k], u.rows[l.key])
  {
    SeenExecuting(t, l);
    NotCompletedYet(t, u, k, l.key);
  }

  /** An edit copies the directive again; since it was submitted long ago, it still says the same. */
  lemma EditedConfirmationAgrees(t: Tables, u: Tables, k: Key, l: Snap)
    requires Indexed(t) && Alive(t) && Consistent(t) && OnlyAt(t, u, k) && k.kind == ExecutionConfirmation
    requires Seen(t, l.key, l.row) && l.key.kind == OperationDirective && l.row.status == Executing
    requires Copies(u.rows[k], l.row) && u.rows[k].status == t.rows[k].status
    ensures forall d :: Names(t, k, d) ==> Agree(u.rows[k], t.rows[d])
  {
    forall d | Names(t, k, d) ensures Agree(u.rows[k], t.rows[d]) {
      assert Agree(t.rows[k], t.rows[d]);
      assert t.rows[l.key].code == t.rows[d].code;
      assert l.key == d;
    }
  }

  lemma CreatePlan(f: Flight, id: nat)
    requires WellRead(f) && f.req.verb == Create && Plan(f, id).Ok?
    ensures var k, tx := Key(f.req.kind, id), Plan(f, id).value;
      && tx == Single(tx.first) && tx.first.change.Insert? && tx.first.change.key == k
      && tx.first.change.row.status == Initial(f.req.kind)
      && (f.req.kind == OperationDirective ==>
            f.link.Some? && f.link.value.key.kind == GateUnit && f.link.value.row.code == tx.first.change.row.related)
      && (f.req.kind == ExecutionConfirmation ==>
            f.link.Some? && f.link.value.key.kind == OperationDirective && f.link.value.row.status == Executing
            && Copies(tx.first.change.row, f.link.value.row))
  {
    hide Norm, Trim, EqualFold, Filled;
  }

  lemma UpdatePlan(f: Flight, id: nat)
    requires WellRead(f) && f.req.verb == Update && Plan(f, id).Ok?
    ensures var k, tx := f.req.Subject(), Plan(f, id).value;
      && f.primary.Some? && tx == Single(tx.first) && tx.first.change.Swap? && tx.first.change.key == k
      && tx.first.change.row.status == f.primary.value.status
      && (f.req.kind == OperationDirective ==>
            f.primary.value.status == Draft
            && f.link.Some? && f.link.value.key.kind == GateUnit
            && f.link.value.row.code == tx.first.change.row.related)
      && (f.req.kind == ExecutionConfirmation ==>
            f.link.Some? && f.link.value.key.kind == OperationDirective && f.link.value.row.status == Executing
            && Copies(tx.first.change.row, f.link.value.row))
  {
    hide Trim, Norm, EqualFold, Proper;
  }

  lemma CreateConsistent(t: Tables, f: Flight, id: nat, u: Tables)
    requires SafeTables(t) && SafeFlight(t, f) && f.req.verb == Create && Plan(f, id).Ok?
    requires Tidy(Plan(f, id).value) && LegalTx(t, Plan(f, id).value)
    requires ApplyTx(t, Plan(f, id).value) == Ok(u) && Indexed(u)
    ensures Consistent(u)
  {
    hide Plan, ApplyTx, Alive, Consistent, Agree, Seen, ValidBlock, Legal, WellShaped, Indexed, Lawful;
    CreatePlan(f, id);
    SingleEffect(t, Plan(f, id).value, u);
    var k := Key(f.req.kind, id);
    if f.req.kind == OperationDirective {
      LinkStays(t, u, k, f.link.value);
    }
    if f.req.kind == ExecutionConfirmation {
      NewConfirmationAgrees(t, u, k, f.link.value);
    }
    InsertConsistent(t, u, k);
  }

  lemma UpdateConsistent(t: Tables, f: Flight, id: nat, u: Tables)
    requires SafeTables(t) && SafeFlight(t, f) && f.req.verb == Update && Plan(f, id).Ok?
    requires Tidy(Plan(f, id).value) && LegalTx(t, Plan(f, id).value)
    requires ApplyTx(t, Plan(f, id).value) == Ok(u)
    requires t.rows[f.req.Subject()] == f.primary.value
    ensures Consistent(u)
  {
    UpdatePlan(f, id);
    SingleEffect(t, Plan(f, id).value, u);
    var k := f.req.Subject();
    match f.req.kind
    case OperationDirective =>
      LinkStays(t, u, k, f.link.value);
      DirectiveConsistent(t, u, k);
    case ExecutionConfirmation =>
      EditedConfirmationAgrees(t, u, k, f.link.value);
      ConfirmationConsistent(t, u, k);
    case _ =>
      OtherRowConsistent(t, u, k);
  }

  lemma DeleteConsistent(t: Tables, f: Flight, id: nat, u: Tables)
    requires Consistent(t) && f.req.verb == Delete && Plan(f, id).Ok?
    requires Tidy(Plan(f, id).value) && LegalTx(t, Plan(f, id).value)
    requires ApplyTx(t, Plan(f, id).value) == Ok(u)
    ensures Consistent(u)
  {
    SinglePlan(f, id);
    SingleEffect(t, Plan(f, id).value, u);
    OtherRowConsistent(t, u, Plan(f, id).value.first.change.key);
  }

  lemma PlainConsistent(t: Tables, f: Flight, id: nat, u: Tables)
    requires Consistent(t) && f.req.verb == Transition && !Linked(f.req.kind) && Plan(f, id).Ok?
    requires Tidy(Plan(f, id).value) && LegalTx(t, Plan(f, id).value)
    requires ApplyTx(t, Plan(f, id).value) == Ok(u)
    ensures Consistent(u)
  {
    SinglePlan(f, id);
    SingleEffect(t, Plan(f, id).value, u);
    OtherRowConsistent(t, u, f.req.Subject());
  }

  /** A legal swap, seen on its own. */
  lemma SwapEffect(t: Tables, s: Step, u: Tables)
    requires s.change.Swap? && WellShaped(s) && Legal(t, s) && ApplyStep(t, s) == Ok(u)
    ensures OnlyAt(t, u, s.change.key) && u.rows[s.change.key] == s.change.row
  {
    StepEffect(t, s, u);
  }

  lemma DirectivePlan(f: Flight, id: nat)
    requires WellRead(f) && f.req.verb == Transition && f.req.kind == OperationDirective && Plan(f, id).Ok?
    ensures var tx := Plan(f, id).value;
      && f.primary.Some? && tx.first.change.Swap? && tx.first.change.key == f.req.Subject()
      && tx.first.change.row.status == f.req.target && f.req.target != Completed
      && tx.first.change.row.related == f.primary.value.related
      && DirectiveStays(f.primary.value, tx.first.change.row)
      && (tx.second.Some? ==> tx.second.value.change.Swap? && tx.second.value.change.key.kind == GateUnit)
      && tx.third.None?
  {
    hide Trim, Norm, EqualFold, Proper;
  }

  lemma DirectiveTransitionConsistent(t: Tables, f: Flight, id: nat, u: Tables)
    requires SafeTables(t) && SafeFlight(t, f) && f.req.verb == Transition && f.req.kind == OperationDirective
    requires Plan(f, id).Ok? && Tidy(Plan(f, id).value) && LegalTx(t, Plan(f, id).value)
    requires ApplyTx(t, Plan(f, id).value) == Ok(u)
    requires t.rows[f.req.Subject()] == f.primary.value
    ensures Consistent(u)
  {
    hide Plan, ApplyStep, Move, Alive, Consistent, ValidBlock;
    var k, tx := f.req.Subject(), Plan(f, id).value;
    DirectivePlan(f, id);
    var t1 := ApplyStep(t, tx.first).value;
    SwapEffect(t, tx.first, t1);
    DirectiveConsistent(t, t1, k);
    if tx.second.Some? {
      SwapEffect(t1, tx.second.value, u);
      OtherRowConsistent(t1, u, tx.second.value.change.key);
    }
  }

  lemma ConfirmationPlan(f: Flight, id: nat)
    requires WellRead(f) && f.req.verb == Transition && f.req.kind == ExecutionConfirmation && Plan(f, id).Ok?
    ensures var tx := Plan(f, id).value;
      && f.primary.Some? && tx.first.change.Swap? && tx.first.change.key == f.req.Subject()
      && tx.first.change.row.status == f.req.target
      && tx.first.change.row == f.primary.value.(status := tx.first.change.row.status,
           version := tx.first.change.row.version, confirmedBy := tx.first.change.row.confirmedBy)
      && (tx.second.None? ==> f.primary.value.status == Failed && f.req.target == Cancelled && tx.third.None?)
      && (tx.second.Some? ==>
            && f.primary.value.status == Pending && f.link.Some? && f.link.value.key.kind == OperationDirective
            && f.link.value.row.code == Norm(f.primary.value.related)
            && tx.second.value.change.Swap? && tx.second.value.change.key == f.link.value.key
            && tx.second.value.change.row == f.link.value.row.(status := DirectiveOutcome(f.req.target),
                 version := f.link.value.row.version + 1)
            && (f.req.target == Confirmed || f.req.target == Failed))
      && (tx.third.Some? ==> tx.third.value.change.Swap? && tx.third.value.change.key.kind == GateUnit)
  {
    hide Trim, Norm, EqualFold, Proper;
  }

  lemma CancelConsistent(t: Tables, f: Flight, id: nat, u: Tables)
    requires SafeTables(t) && SafeFlight(t, f) && f.req.verb == Transition && f.req.kind == ExecutionConfirmation
    requires Plan(f, id).Ok? && Tidy(Plan(f, id).value) && LegalTx(t, Plan(f, id).value)
    requires ApplyTx(t, Plan(f, id).value) == Ok(u) && Plan(f, id).value.second.None?
    requires t.rows[f.req.Subject()] == f.primary.value
    ensures Consistent(u)
  {
    var k := f.req.Subject();
    ConfirmationPlan(f, id);
    SingleEffect(t, Plan(f, id).value, u);
    forall d | Names(t, k, d) ensures Agree(u.rows[k], t.rows[d]) {
      assert Agree(t.rows[k], t.rows[d]);
    }
    ConfirmationConsistent(t, u, k);
  }

  lemma TwoSwaps(t: Tables, t1: Tables, t2: Tables, c: Key, d: Key)
    requires OnlyAt(t, t1, c) && OnlyAt(t1, t2, d)
    ensures SameNames(t, t2)
    ensures forall k :: k in t.rows && k != c && k != d ==> t2.rows[k] == t.rows[k]
  {
  }

  /** Confirmation and directive are decided together. */
  lemma DecisionConsistent(t: Tables, t2: Tables, first: Step, second: Step)
    requires Indexed(t) && Consistent(t) && Legal(t, first) && Legal(t, second)
    requires WellShaped(first) && WellShaped(second)
    requires first.change.Swap? && second.change.Swap? && Names(t, first.change.key, second.change.key)
    requires ApplyStep(t, first).Ok? && ApplyStep(ApplyStep(t, first).value, second) == Ok(t2)
    requires StatesAgree(first.change.row.status, second.change.row.status)
    requires first.change.row == t.rows[first.change.key].(status := first.change.row.status,
      version := first.change.row.version, confirmedBy := first.change.row.confirmedBy)
    requires second.change.row == t.rows[second.change.key].(status := second.change.row.status,
      version := second.change.row.version)
    ensures Consistent(t2)
  {
    var c, d := first.change.key, second.change.key;
    assert Agree(t.rows[c], t.rows[d]);
    var t1 := ApplyStep(t, first).value;
    SwapEffect(t, first, t1);
    SwapEffect(t1, second, t2);
    TwoSwaps(t, t1, t2, c, d);
    OutcomeConsistent(t, t2, c, d);
  }

  lemma OutcomePairConsistent(t: Tables, f: Flight, id: nat, tx: Tx, t2: Tables)
    requires SafeTables(t) && SafeFlight(t, f) && f.req.verb == Transition && f.req.kind == ExecutionConfirmation
    requires Plan(f, id) == Ok(tx) && Tidy(tx) && LegalTx(t, tx) && tx.second.Some?
    requires ApplyStep(t, tx.first).Ok? && ApplyStep(ApplyStep(t, tx.first).value, tx.second.value) == Ok(t2)
    requires t.rows[f.req.Subject()] == f.primary.value
    requires f.link.Some? && t.rows[f.link.value.key] == f.link.value.row
    ensures Consistent(t2)
  {
    hide Plan, ApplyStep, Move, Alive, Consistent, ValidBlock, Norm, Grown;
    ConfirmationPlan(f, id);
    NamesLink(t, f.req.Subject(), f.link.value.key);
    DecisionConsistent(t, t2, tx.first, tx.second.value);
  }

  lemma GateLastConsistent(t: Tables, tx: Tx, t2: Tables, u: Tables)
    requires Tidy(tx) && LegalTx(t, tx) && ApplyTx(t, tx) == Ok(u)
    requires tx.second.Some? && tx.first.change.Swap? && tx.second.value.change.Swap?
    requires tx.third.Some? ==> tx.third.value.change.Swap? && tx.third.value.change.key.kind == GateUnit
    requires Consistent(t2) && ApplyStep(ApplyStep(t, tx.first).value, tx.second.value) == Ok(t2)
    ensures Consistent(u)
  {
    hide ApplyStep, Consistent, Move, ValidBlock;
    TidyDistinct(tx);
    if tx.third.Some? {
      var t1 := ApplyStep(t, tx.first).value;
      SwapEffect(t, tx.first, t1);
      SwapEffect(t1, tx.second.value, t2);
      SwapEffect(t2, tx.third.value, u);
      OtherRowConsistent(t2, u, tx.third.value.change.key);
    }
  }

  lemma OutcomeCommitConsistent(t: Tables, f: Flight, id: nat, u: Tables)
    requires SafeTables(t) && SafeFlight(t, f) && f.req.verb == Transition && f.req.kind == ExecutionConfirmation
    requires Plan(f, id).Ok? && Tidy(Plan(f, id).value) && LegalTx(t, Plan(f, id).value)
    requires ApplyTx(t, Plan(f, id).value) == Ok(u) && Plan(f, id).value.second.Some?
    requires t.rows[f.req.Subject()] == f.primary.value
    requires f.link.Some? && t.rows[f.link.value.key] == f.link.value.row
    ensures Consistent(u)
  {
    hide Plan, ApplyStep, Move, Alive, Consistent, ValidBlock, Norm, Grown;
    var tx := Plan(f, id).value;
    ConfirmationPlan(f, id);
    var t2 := ApplyStep(ApplyStep(t, tx.first).value, tx.second.value).value;
    OutcomePairConsistent(t, f, id, tx, t2);
    GateLastConsistent(t, tx, t2, u);
  }

  /** Looking a confirmation's directive up by code leads to the directive it names. */
  lemma NamesLink(t: Tables, c: Key, d: Key)
    requires Alive(t) && IsConfirmation(t, c) && IsDirective(t, d) && t.rows[d].code == Norm(t.rows[c].related)
    ensures Names(t, c, d)
  {
    assert Sound(c.kind, t.rows[c], History(t.audits, c), ApprovalsOf(t.approvals, c.id));
  }

  lemma CommitConsistent(t: Tables, f: Flight, id: nat, u: Tables)
    requires SafeTables(t) && SafeFlight(t, f) && Honest(f) && Indexed(u)
    requires Plan(f, id).Ok? && Tidy(Plan(f, id).value) && LegalTx(t, Plan(f, id).value)
    requires ApplyTx(t, Plan(f, id).value) == Ok(u)
    ensures Consistent(u)
  {
    CommitSeesSnapshots(t, f, id, u);
    match f.req.verb
    case Create => CreateConsistent(t, f, id, u);
    case Update => UpdatePlan(f, id); UpdateConsistent(t, f, id, u);
    case Delete => DeleteConsistent(t, f, id, u);
    case Transition =>
      if f.req.kind == OperationDirective {
        DirectivePlan(f, id);
        DirectiveTransitionConsistent(t, f, id, u);
      } else if f.req.kind == ExecutionConfirmation {
        ConfirmationPlan(f, id);
        if Plan(f, id).value.second.Some? {
          OutcomeCommitConsistent(t, f, id, u);
        } else {
          CancelConsistent(t, f, id, u);
        }
      } else {
        PlainConsistent(t, f, id, u);
      }
  }

  // ----- Runs -----

  lemma FetchFresh(t: Tables, f: Flight, e: Event)
    requires FreshFlight(t, f)
    ensures FreshFlight(t, Fetch(t, f, e))
  {
  }

  lemma AttemptSafe(t: Tables, f: Flight, id: nat, u: Tables)
    requires SafeTables(t) && SafeFlight(t, f) && Honest(f) && Attempt(t, f, id) == Ok(u)
    ensures SafeTables(u) && Grows(t, u)
  {
    var tx := Plan(f, id).value;
    PlanTidy(f, id);
    CommitLegal(t, f, id, u);
    TxLawful(t, tx, u);
    TxAlive(t, tx, u);
    CommitConsistent(t, f, id, u);
  }

  lemma GrowsReflexive(t: Tables)
    ensures Grows(t, t)
  {
  }

  lemma FlightsLater(t: Tables, u: Tables, flights: map<nat, Flight>)
    requires Grows(t, u) && forall n :: n in flights ==> SafeFlight(t, flights[n])
    ensures forall n :: n in flights ==> SafeFlight(u, flights[n])
  {
    hide Grows, WellRead;
    forall n | n in flights ensures SafeFlight(u, flights[n]) {
      FreshLater(t, u, flights[n]);
    }
  }

  lemma CommitSafe(s: System, e: Event)
    requires SafeSystem(s) && e.Commit? && CarefulEvent(s, e)
    ensures SafeSystem(Next(s, e)) && Grows(s.db, Next(s, e).db)
  {
    hide Attempt, SafeTables, SafeFlight, Grows, Honest;
    GrowsReflexive(s.db);
    if e.n in s.flights && Attempt(s.db, s.flights[e.n], e.id).Ok? {
      var u := Attempt(s.db, s.flights[e.n], e.id).value;
      AttemptSafe(s.db, s.flights[e.n], e.id, u);
      FlightsLater(s.db, u, s.flights);
    }
  }

  lemma ReadSafe(s: System, e: Event)
    requires SafeSystem(s) && !e.Commit?
    ensures SafeSystem(Next(s, e)) && Next(s, e).db == s.db
  {
    hide SafeTables, Fetch;
    if !e.Start? && e.n in s.flights {
      FetchSafe(s.db, s.flights[e.n], e);
    }
  }

  lemma FetchSafe(t: Tables, f: Flight, e: Event)
    requires SafeTables(t) && SafeFlight(t, f)
    ensures SafeFlight(t, Fetch(t, f, e))
  {
    hide Fetch, Lawful, WellRead, FreshFlight;
    FetchWellRead(t, f, e);
    FetchFresh(t, f, e);
  }

  lemma NextSafe(s: System, e: Event)
    requires SafeSystem(s) && CarefulEvent(s, e)
    ensures SafeSystem(Next(s, e)) && Grows(s.db, Next(s, e).db)
  {
    hide SafeSystem, Next, Grows;
    if e.Commit? {
      CommitSafe(s, e);
    } else {
      ReadSafe(s, e);
      GrowsReflexive(s.db);
    }
  }

  lemma {:induction false} RunSafe(es: seq<Event>)
    requires Careful(es)
    ensures SafeSystem(Run(es))
  {
    hide Next, CarefulEvent;
    if es != [] {
      RunSafe(es[..|es| - 1]);
      NextSafe(Run(es[..|es| - 1]), es[|es| - 1]);
    }
  }

  lemma CarefulPrefix(es: seq<Event>, more: seq<Event>)
    requires Careful(es + more)
    ensures Careful(es)
    decreases |more|
  {
    if more == [] {
      assert es + more == es;
    } else {
      assert (es + more)[..|es + more| - 1] == es + more[..|more| - 1];
      CarefulPrefix(es, more[..|more| - 1]);
    }
  }

  lemma {:induction false} RunGrows(es: seq<Event>, more: seq<Event>)
    requires Careful(es + more)
    ensures Grows(Run(es).db, Run(es + more).db)
  {
    hide Next, SafeSystem, Grows, Extends, CarefulEvent;
    if more == [] {
      assert es + more == es;
      GrowsReflexive(Run(es).db);
    } else {
      var part, e := es + more[..|more| - 1], more[|more| - 1];
      assert (es + more)[..|es + more| - 1] == part;
      RunGrows(es, more[..|more| - 1]);
      RunSafe(part);
      NextSafe(Run(part), e);
      GrowsTransitive(Run(es).db, Run(part).db, Run(es + more).db);
    }
  }

  lemma {:induction false} RunIsSafe(es: seq<Event>)
    requires Careful(es)
    ensures SafeTables(Run(es).db)
  {
    RunSafe(es);
  }
}
