/** What holds in every run, however stale or wrong the versions that clients send: unique indexes, version counting,
    append-only evidence, and the grammar of the audit log. */
module Laws {
  import opened Text
  import opened Model
  import opened Store
  import opened Planning
  import opened Journal
  import opened Protocol

  /** A row's version is the number of entries its history holds. */
  ghost predicate Counted(t: Tables) {
    forall k :: |History(t.audits, k)| == if k in t.rows then t.rows[k].version else 0
  }

  /** The log tells which rows are live: a row is deleted exactly if there is an entry that deletes it, and no entry
      of that row follows it. */
  ghost predicate Buried(t: Tables) {
    && (forall k :: k in t.rows && !t.rows[k].live <==> exists i :: 0 <= i < |t.audits| && Deletes(t.audits[i], k))
    && (forall i, j :: 0 <= i < j < |t.audits| && t.audits[i].action == Did(Delete) ==>
                         t.audits[j].key != t.audits[i].key)
  }

  /** What every row of its kind has, as the checks on input make sure. */
  predicate Proper(kind: Kind, row: Record) {
    && row.code != "" && Trim(row.code) == row.code
    && row.facility != "" && Trim(row.facility) == row.facility
    && (kind == OperationDirective ==> Settled(row.gateState))
  }

  ghost predicate AllProper(t: Tables) {
    forall k :: k in t.rows ==> Proper(k.kind, t.rows[k])
  }

  ghost predicate Lawful(t: Tables) {
    Indexed(t) && Counted(t) && Buried(t) && AllProper(t) && Grammatical(t.audits)
  }

  /** What has been read is consistent with how it was looked up. */
  ghost predicate WellRead(f: Flight) {
    && Bound(f.req)
    && (f.primary.Some? ==> f.req.verb != Create && Proper(f.req.kind, f.primary.value))
    && (f.link.Some? ==> Led(LinkTarget(f.req, f.primary), f.link.value))
    && (f.second.Some? ==> Led(SecondTarget(f.req, f.link), f.second.value))
  }

  ghost predicate Led(target: Option<Target>, s: Snap) {
    && target.Some? && s.key.kind == target.value.kind && s.row.code == Norm(target.value.code)
    && Proper(s.key.kind, s.row)
  }

  ghost predicate LawfulSystem(s: System) {
    Lawful(s.db) && forall n :: n in s.flights ==> WellRead(s.flights[n])
  }

  // ----- How rows change -----

  /** `r` became `q`: the code stays, the version never falls, a version stands for one content, and a deleted row
      never changes again. */
  predicate Newer(r: Record, q: Record) {
    && q.code == r.code
    && r.version <= q.version
    && (r.version == q.version ==> q.(live := r.live) == r)
    && (!r.live ==> q == r)
  }

  ghost predicate Extends(t: Tables, u: Tables) {
    && (forall k :: k in t.rows ==> k in u.rows && Newer(t.rows[k], u.rows[k]))
    && t.audits <= u.audits
    && t.approvals <= u.approvals
  }

  lemma ExtendsTransitive(t: Tables, u: Tables, v: Tables)
    requires Extends(t, u) && Extends(u, v)
    ensures Extends(t, v)
  {
    forall k | k in t.rows ensures k in v.rows && Newer(t.rows[k], v.rows[k]) {
      assert Newer(t.rows[k], u.rows[k]) && Newer(u.rows[k], v.rows[k]);
    }
  }

  predicate WellShaped(s: Step) {
    match s.change
    case Insert(k, row) =>
      row.version == 1 && row.live && Concerns(s.audit, k) && Proper(k.kind, row)
    case Swap(k, e, row) =>
      row.version == e + 1 && Concerns(s.audit, k) && Proper(k.kind, row)
    case Bury(k) =>
      s.audit.key == k && s.audit.action == Did(Delete)
  }

  /** Each commit raises a written row's version by exactly one, and leaves every other row alone. */
  lemma StepEffect(t: Tables, s: Step, u: Tables)
    requires WellShaped(s) && ApplyStep(t, s) == Ok(u)
    ensures u.audits == t.audits + [s.audit]
    ensures u.approvals == t.approvals + (if s.approval.Some? then [s.approval.value] else [])
    ensures forall k :: k in u.rows <==> k in t.rows || k == s.change.key
    ensures forall k :: k in t.rows && k != s.change.key ==> u.rows[k] == t.rows[k]
    ensures match s.change
            case Insert(k, row) => k !in t.rows && u.rows[k] == row
            case Swap(k, e, row) =>
              IsLive(t, k) && t.rows[k].version == e && u.rows[k] == row.(code := t.rows[k].code, live := true)
            case Bury(k) => IsLive(t, k) && u.rows[k] == t.rows[k].(live := false)
  {
  }

  lemma StepCounted(t: Tables, s: Step, u: Tables)
    requires Counted(t) && WellShaped(s) && ApplyStep(t, s) == Ok(u)
    ensures Counted(u)
  {
    StepEffect(t, s, u);
    forall k ensures |History(u.audits, k)| == if k in u.rows then u.rows[k].version else 0 {
      HistoryAppend(t.audits, s.audit, k);
      assert |History(t.audits, k)| == if k in t.rows then t.rows[k].version else 0;
    }
  }

  lemma StepIndexed(t: Tables, s: Step, u: Tables)
    requires Indexed(t) && ApplyStep(t, s) == Ok(u)
    ensures Indexed(u)
  {
    var c := s.change;
    match c
    case Insert(k, row) => InsertIndexed(t.rows, k, row);
    case Swap(k, _, row) => SwapIndexed(t.rows, k, row);
    case Bury(k) =>
  }

  lemma StepExtends(t: Tables, s: Step, u: Tables)
    requires WellShaped(s) && ApplyStep(t, s) == Ok(u)
    ensures Extends(t, u)
  {
    StepEffect(t, s, u);
  }

  lemma DeletesAppend(log: seq<Audit>, e: Audit, k: Key)
    ensures (exists i :: 0 <= i < |log + [e]| && Deletes((log + [e])[i], k))
            <==> Deletes(e, k) || exists i :: 0 <= i < |log| && Deletes(log[i], k)
  {
    var all := log + [e];
    assert all[|log|] == e && forall i :: 0 <= i < |log| ==> all[i] == log[i];
    if i :| 0 <= i < |all| && Deletes(all[i], k) {
      assert i == |log| || Deletes(log[i], k);
    }
    if i :| 0 <= i < |log| && Deletes(log[i], k) {
      assert Deletes(all[i], k);
    }
  }

  lemma StepBuried(t: Tables, s: Step, u: Tables)
    requires Buried(t) && WellShaped(s) && ApplyStep(t, s) == Ok(u)
    ensures Buried(u)
  {
    StepEffect(t, s, u);
    hide ApplyStep, Proper;
    forall k ensures k in u.rows && !u.rows[k].live <==> exists i :: 0 <= i < |u.audits| && Deletes(u.audits[i], k) {
      DeletesAppend(t.audits, s.audit, k);
    }
    NothingFollows(t, s);
  }

  lemma NothingFollows(t: Tables, s: Step)
    requires Buried(t) && (s.audit.key in t.rows ==> t.rows[s.audit.key].live)
    ensures var log := t.audits + [s.audit];
      forall i, j :: 0 <= i < j < |log| && log[i].action == Did(Delete) ==> log[j].key != log[i].key
  {
    forall i | 0 <= i < |t.audits| && t.audits[i].action == Did(Delete) ensures t.audits[i].key != s.audit.key {
      assert Deletes(t.audits[i], t.audits[i].key);
    }
  }

  lemma StepProper(t: Tables, s: Step, u: Tables)
    requires AllProper(t) && WellShaped(s) && ApplyStep(t, s) == Ok(u)
    ensures AllProper(u)
  {
    StepEffect(t, s, u);
    hide Trim;
    forall k | k in u.rows ensures Proper(k.kind, u.rows[k]) {
      if k in t.rows {
        assert Proper(k.kind, t.rows[k]);
      }
    }
  }

  lemma StepLawful(t: Tables, s: Step, u: Tables)
    requires Indexed(t) && Counted(t) && Buried(t) && AllProper(t)
    requires WellShaped(s) && ApplyStep(t, s) == Ok(u)
    ensures Indexed(u) && Counted(u) && Buried(u) && AllProper(u) && Extends(t, u)
  {
    StepCounted(t, s, u);
    StepBuried(t, s, u);
    StepProper(t, s, u);
    StepIndexed(t, s, u);
    StepExtends(t, s, u);
    StepEffect(t, s, u);
  }

  predicate WellShapedTx(tx: Tx) {
    && WellShaped(tx.first)
    && (tx.second.Some? ==> WellShaped(tx.second.value))
    && (tx.third.Some? ==> WellShaped(tx.third.value))
  }

  predicate Tidy(tx: Tx) {
    && WellShapedTx(tx)
    && (tx.third.Some? ==> tx.second.Some?)
    && ValidBlock(Entries(tx))
  }

  function Entries(tx: Tx): seq<Audit> {
    [tx.first.audit]
    + (if tx.second.Some? then [tx.second.value.audit] else [])
    + (if tx.third.Some? then [tx.third.value.audit] else [])
  }

  lemma SingleTidy(s: Step)
    requires WellShaped(s) && s.audit.action.Did? && !DecidesOutcome(s.audit) && DeletesLawfully(s.audit)
    ensures Tidy(Single(s))
  {
  }

  lemma CreateTidy(req: Request, id: nat, row: Record)
    requires Proper(req.kind, row) && row.version == 1 && row.live
    ensures Tidy(Single(CreateStep(req, id, row)))
  {
    SingleTidy(CreateStep(req, id, row));
  }

  lemma UpdateTidy(req: Request, current: Record, row: Record)
    requires Proper(req.kind, row) && row.version == req.expected + 1
    ensures Tidy(Single(UpdateStep(req, current, row)))
  {
    SingleTidy(UpdateStep(req, current, row));
  }

  lemma StatusChangeTidy(req: Request, current: Record)
    requires !(req.kind == OperationDirective || req.kind == ExecutionConfirmation) && Proper(req.kind, current)
    requires StatusChange(req, current).Ok?
    ensures Tidy(StatusChange(req, current).value)
  {
    hide Trim;
    SingleTidy(StatusChange(req, current).value.first);
  }

  lemma DirectiveTxShaped(req: Request, current: Record, gate: Option<Snap>)
    requires req.kind == OperationDirective && Proper(OperationDirective, current)
    requires gate.Some? ==> gate.value.key.kind == GateUnit && Proper(GateUnit, gate.value.row)
    requires TransitionDirective(req, current, gate).Ok?
    ensures WellShapedTx(TransitionDirective(req, current, gate).value)
  {
    hide Trim, EqualFold, RoleAllowed;
  }

  lemma DirectiveTxBlock(req: Request, current: Record, gate: Option<Snap>)
    requires req.kind == OperationDirective && Proper(OperationDirective, current)
    requires gate.Some? ==> gate.value.key.kind == GateUnit && Proper(GateUnit, gate.value.row)
    requires TransitionDirective(req, current, gate).Ok?
    ensures var tx := TransitionDirective(req, current, gate).value; ValidBlock(Entries(tx)) && tx.third.None?
  {
    hide Trim, EqualFold, RoleAllowed, Evidence, Advanced, Proper;
  }

  lemma TransitionDirectiveTidy(req: Request, current: Record, gate: Option<Snap>)
    requires req.kind == OperationDirective && Proper(OperationDirective, current)
    requires gate.Some? ==> gate.value.key.kind == GateUnit && Proper(GateUnit, gate.value.row)
    requires TransitionDirective(req, current, gate).Ok?
    ensures Tidy(TransitionDirective(req, current, gate).value)
  {
    hide TransitionDirective, WellShapedTx, ValidBlock, Entries, Proper;
    DirectiveTxShaped(req, current, gate);
    DirectiveTxBlock(req, current, gate);
  }

  lemma ConfirmationTxShaped(req: Request, current: Record, directive: Option<Snap>, gate: Option<Snap>)
    requires req.kind == ExecutionConfirmation && Proper(ExecutionConfirmation, current)
    requires directive.Some? ==>
      directive.value.key.kind == OperationDirective && Proper(OperationDirective, directive.value.row)
    requires gate.Some? ==> gate.value.key.kind == GateUnit && Proper(GateUnit, gate.value.row)
    requires TransitionConfirmation(req, current, directive, gate).Ok?
    ensures WellShapedTx(TransitionConfirmation(req, current, directive, gate).value)
  {
    hide Trim, EqualFold;
    assert req.target == Confirmed || req.target == Failed || req.target == Cancelled;
  }

  lemma CancelBlock(req: Request, current: Record, directive: Option<Snap>, gate: Option<Snap>)
    requires req.kind == ExecutionConfirmation && current.status != Pending
    requires TransitionConfirmation(req, current, directive, gate).Ok?
    ensures var tx := TransitionConfirmation(req, current, directive, gate).value;
      ValidBlock(Entries(tx)) && tx.second.None? && tx.third.None?
  {
    hide Trim, EqualFold;
  }

  /** What a decision writes besides the confirmation itself. */
  lemma DecisionEntries(req: Request, current: Record, directive: Option<Snap>, gate: Option<Snap>)
    requires req.kind == ExecutionConfirmation && current.status == Pending
    requires directive.Some? ==> directive.value.key.kind == OperationDirective
    requires gate.Some? ==> gate.value.key.kind == GateUnit
    requires TransitionConfirmation(req, current, directive, gate).Ok?
    ensures req.target == Confirmed || req.target == Failed
    ensures directive.Some? && gate.Some? && directive.value.row.status == Executing
    ensures var tx := TransitionConfirmation(req, current, directive, gate).value;
      && tx.first.audit == Entry(req, Did(Transition), req.Subject(), Pending, req.target)
      && tx.second == MoveStep(req, ExecutionOutcome, directive.value, DirectiveOutcome(req.target))
      && tx.third == MoveStep(req, ExecutionOutcome, gate.value, GateOutcome(req.target, directive.value.row))
  {
    hide MoveStep, EqualFold;
  }

  lemma ConfirmationTxBlock(req: Request, current: Record, directive: Option<Snap>, gate: Option<Snap>)
    requires req.kind == ExecutionConfirmation && Proper(ExecutionConfirmation, current)
    requires directive.Some? ==>
      directive.value.key.kind == OperationDirective && Proper(OperationDirective, directive.value.row)
    requires gate.Some? ==> gate.value.key.kind == GateUnit && Proper(GateUnit, gate.value.row)
    requires TransitionConfirmation(req, current, directive, gate).Ok?
    ensures var tx := TransitionConfirmation(req, current, directive, gate).value;
      ValidBlock(Entries(tx)) && (tx.third.Some? ==> tx.second.Some?)
  {
    hide TransitionConfirmation, Trim, Proper;
    if current.status == Pending {
      SettledGoal(directive);
      DecisionEntries(req, current, directive, gate);
    } else {
      CancelBlock(req, current, directive, gate);
    }
  }

  lemma SettledGoal(directive: Option<Snap>)
    requires directive.Some? ==> Proper(OperationDirective, directive.value.row)
    ensures directive.Some? ==> Settled(directive.value.row.gateState)
  {
  }

  lemma TransitionConfirmationTidy(req: Request, current: Record, directive: Option<Snap>, gate: Option<Snap>)
    requires req.kind == ExecutionConfirmation && Proper(ExecutionConfirmation, current)
    requires directive.Some? ==>
      directive.value.key.kind == OperationDirective && Proper(OperationDirective, directive.value.row)
    requires gate.Some? ==> gate.value.key.kind == GateUnit && Proper(GateUnit, gate.value.row)
    requires TransitionConfirmation(req, current, directive, gate).Ok?
    ensures Tidy(TransitionConfirmation(req, current, directive, gate).value)
  {
    hide TransitionConfirmation, WellShapedTx, ValidBlock, Entries, Proper;
    ConfirmationTxShaped(req, current, directive, gate);
    ConfirmationTxBlock(req, current, directive, gate);
  }

  lemma CreatedTidy(f: Flight, id: nat)
    requires WellRead(f) && f.req.verb == Create && Plan(f, id).Ok?
    ensures Tidy(Plan(f, id).value)
  {
    hide Norm, Trim, EqualFold, Tidy;
    NormIsTrimmed(f.req.input.code);
    TrimIdempotent(f.req.input.facility);
    CreateTidy(f.req, id, Plan(f, id).value.first.change.row);
  }

  lemma UpdatedTidy(f: Flight, id: nat)
    requires WellRead(f) && f.req.verb == Update && Plan(f, id).Ok?
    ensures Tidy(Plan(f, id).value)
  {
    hide Norm, Trim, EqualFold, Tidy;
    TrimIdempotent(f.req.input.facility);
    UpdateTidy(f.req, f.primary.value, Plan(f, id).value.first.change.row);
  }

  lemma PlanTidy(f: Flight, id: nat)
    requires WellRead(f) && Plan(f, id).Ok?
    ensures Tidy(Plan(f, id).value)
  {
    hide Proper, ValidBlock, Norm;
    var req, tx := f.req, Plan(f, id).value;
    match req.verb
    case Create => CreatedTidy(f, id);
    case Update => UpdatedTidy(f, id);
    case Delete => SingleTidy(tx.first);
    case Transition =>
      if req.kind == OperationDirective {
        TransitionDirectiveTidy(req, f.primary.value, f.link);
      } else if req.kind == ExecutionConfirmation {
        TransitionConfirmationTidy(req, f.primary.value, f.link, f.second);
      } else {
        StatusChangeTidy(req, f.primary.value);
      }
  }

  lemma TidyDistinct(tx: Tx)
    requires Tidy(tx)
    ensures tx.second.Some? ==> tx.second.value.change.key != tx.first.change.key
    ensures tx.third.Some? ==> tx.second.Some? && tx.third.value.change.key != tx.first.change.key
                               && tx.third.value.change.key != tx.second.value.change.key
  {
    assert tx.first.audit == Entries(tx)[0] && tx.first.change.key == tx.first.audit.key;
    if tx.second.Some? {
      assert tx.second.value.audit == Entries(tx)[1];
    }
    if tx.third.Some? {
      assert tx.third.value.audit == Entries(tx)[2];
    }
  }

  predicate Swaps(s: Step, k: Key) {
    s.change.Swap? && s.change.key == k
  }

  predicate Writes(tx: Tx, k: Key) {
    || Swaps(tx.first, k)
    || (tx.second.Some? && Swaps(tx.second.value, k))
    || (tx.third.Some? && Swaps(tx.third.value, k))
  }

  lemma StepVersion(t: Tables, s: Step, u: Tables, k: Key)
    requires WellShaped(s) && ApplyStep(t, s) == Ok(u) && k in t.rows
    ensures k in u.rows
    ensures u.rows[k].version == t.rows[k].version + if Swaps(s, k) then 1 else 0
    ensures !Swaps(s, k) ==> u.rows[k] == t.rows[k].(live := u.rows[k].live)
  {
    StepEffect(t, s, u);
  }

  /** The rows a transaction swaps are the ones that change, by one version each. */
  lemma TxVersions(t: Tables, tx: Tx, u: Tables, k: Key)
    requires Tidy(tx) && ApplyTx(t, tx) == Ok(u) && k in t.rows
    ensures k in u.rows
    ensures u.rows[k].version == t.rows[k].version + if Writes(tx, k) then 1 else 0
    ensures !Writes(tx, k) ==> u.rows[k] == t.rows[k].(live := u.rows[k].live)
  {
    TidyDistinct(tx);
    var t1 := ApplyStep(t, tx.first).value;
    StepVersion(t, tx.first, t1, k);
    if tx.second.Some? {
      var t2 := ApplyStep(t1, tx.second.value).value;
      StepVersion(t1, tx.second.value, t2, k);
      if tx.third.Some? {
        StepVersion(t2, tx.third.value, u, k);
      }
    }
  }

  // ----- Transactions and runs -----

  lemma EntriesMakeBlock(log: seq<Audit>, tx: Tx)
    requires Tidy(tx)
    ensures Blocks(log + Entries(tx)) == Blocks(log) + [Entries(tx)]
  {
    var b := Entries(tx);
    forall i | 0 < i < |b| ensures !IsHead(b[i]) {
      assert i == 1 || i == 2;
    }
    BlockAppended(log, b);
  }

  lemma BlockGrammatical(log: seq<Audit>, tx: Tx)
    requires Grammatical(log) && Tidy(tx)
    ensures Grammatical(log + Entries(tx))
  {
    EntriesMakeBlock(log, tx);
  }

  lemma StepEntry(t: Tables, s: Step, u: Tables)
    requires ApplyStep(t, s) == Ok(u)
    ensures u.audits == t.audits + [s.audit]
  {
  }

  lemma TxEntries(t: Tables, tx: Tx, u: Tables)
    requires ApplyTx(t, tx) == Ok(u)
    ensures u.audits == t.audits + Entries(tx)
  {
    hide ApplyStep;
    var t1 := ApplyStep(t, tx.first).value;
    StepEntry(t, tx.first, t1);
    var t2 := ApplyNext(t1, tx.second).value;
    if tx.second.Some? {
      StepEntry(t1, tx.second.value, t2);
    }
    if tx.third.Some? {
      StepEntry(t2, tx.third.value, u);
    }
  }

  lemma TxLawful(t: Tables, tx: Tx, u: Tables)
    requires Lawful(t) && Tidy(tx) && ApplyTx(t, tx) == Ok(u)
    ensures Lawful(u) && Extends(t, u)
  {
    hide Indexed, Counted, Buried, AllProper, Grammatical, Extends, ApplyStep, ValidBlock, WellShaped;
    var t1 := ApplyStep(t, tx.first).value;
    StepLawful(t, tx.first, t1);
    var t2 := ApplyNext(t1, tx.second).value;
    if tx.second.Some? {
      StepLawful(t1, tx.second.value, t2);
      ExtendsTransitive(t, t1, t2);
    }
    if tx.third.Some? {
      StepLawful(t2, tx.third.value, u);
      ExtendsTransitive(t, t2, u);
    }
    TxEntries(t, tx, u);
    BlockGrammatical(t.audits, tx);
  }

  lemma FetchWellRead(t: Tables, f: Flight, e: Event)
    requires Lawful(t) && WellRead(f)
    ensures WellRead(Fetch(t, f, e))
  {
    hide Indexed, Counted, Buried, Grammatical, Norm, Trim, Unclaimed;
  }

  lemma ExtendsReflexive(t: Tables)
    ensures Extends(t, t)
  {
  }

  lemma NextLawful(s: System, e: Event)
    requires LawfulSystem(s)
    ensures LawfulSystem(Next(s, e)) && Extends(s.db, Next(s, e).db)
  {
    hide Lawful, Plan, ApplyTx, Extends, Proper;
    ExtendsReflexive(s.db);
    if !e.Start? && e.n in s.flights {
      var f := s.flights[e.n];
      if e.Commit? {
        var r := Attempt(s.db, f, e.id);
        if r.Ok? {
          PlanTidy(f, e.id);
          TxLawful(s.db, Plan(f, e.id).value, r.value);
        }
      } else {
        FetchWellRead(s.db, f, e);
      }
    }
  }

  lemma {:induction false} RunLawful(es: seq<Event>)
    ensures LawfulSystem(Run(es))
  {
    if es != [] {
      RunLawful(es[..|es| - 1]);
      NextLawful(Run(es[..|es| - 1]), es[|es| - 1]);
    }
  }

  lemma {:induction false} RunAppend(es: seq<Event>, e: Event)
    ensures Run(es + [e]) == Next(Run(es), e)
  {
    assert (es + [e])[..|es|] == es;
  }

  lemma {:induction false} RunExtends(es: seq<Event>, more: seq<Event>)
    ensures Extends(Run(es).db, Run(es + more).db)
  {
    hide Run, Next, LawfulSystem, Extends;
    if more == [] {
      assert es + more == es;
      ExtendsReflexive(Run(es).db);
    } else {
      var part, e := es + more[..|more| - 1], more[|more| - 1];
      RunExtends(es, more[..|more| - 1]);
      RunLawful(part);
      NextLawful(Run(part), e);
      assert es + more == part + [e];
      RunAppend(part, e);
      ExtendsTransitive(Run(es).db, Run(part).db, Run(es + more).db);
    }
  }

  /** Which rows are live can be read from the log of any run: a row is deleted exactly if some entry deletes it, there
      is never a second such entry, and none of any kind follows it. */
  lemma {:induction false} LivenessIsLogged(es: seq<Event>, k: Key)
    ensures var t := Run(es).db;
      && (k in t.rows && !t.rows[k].live <==> exists i :: 0 <= i < |t.audits| && Deletes(t.audits[i], k))
      && (forall i, j :: 0 <= i < j < |t.audits| && Deletes(t.audits[i], k) ==> t.audits[j].key != k)
  {
    RunLawful(es);
  }

  /** A deleted row never changes again, in any run. */
  lemma {:induction false} DeadRowsAreFinal(es: seq<Event>, more: seq<Event>, k: Key)
    requires k in Run(es).db.rows && !Run(es).db.rows[k].live
    ensures k in Run(es + more).db.rows && Run(es + more).db.rows[k] == Run(es).db.rows[k]
  {
    RunExtends(es, more);
  }

  /** Conservation: in every run, with whatever versions clients send, a row's version is the number of non-delete
      audit entries of its entity. */
  lemma {:induction false} VersionCountsEntries(es: seq<Event>, k: Key)
    ensures var t := Run(es).db;
      |History(t.audits, k)| == if k in t.rows then t.rows[k].version else 0
  {
    RunLawful(es);
  }

  /** A version identifies the content of a row: whenever two moments of a run show the same version, they show the
      same row, up to its soft deletion. */
  lemma {:induction false} VersionIdentifiesContent(es: seq<Event>, more: seq<Event>, k: Key)
    requires k in Run(es).db.rows
    ensures k in Run(es + more).db.rows
    ensures var r, q := Run(es).db.rows[k], Run(es + more).db.rows[k];
      r.version <= q.version && (r.version == q.version ==> q.(live := r.live) == r) && (q.live ==> r.live)
  {
    RunExtends(es, more);
  }

  /** The audit log of every run parses into the blocks of its transactions, and nothing is left over. */
  lemma {:induction false} LogParses(es: seq<Event>)
    ensures var log := Run(es).db.audits;
      Flatten(Blocks(log)) == log && forall i :: 0 <= i < |Blocks(log)| ==> ValidBlock(Blocks(log)[i])
  {
    RunLawful(es);
    BlocksCoverLog(Run(es).db.audits);
  }
}
