/** What each request does when it is served alone, written out: when it is accepted, and what the tables hold
    afterwards, column by column and entry by entry. Nothing here uses the functions by which the services decide. */
module Reference {
  import opened Text
  import opened Model
  import opened Store
  import opened Planning
  import opened Journal
  import opened Lives
  import opened Consistency
  import opened Alone
  import opened Serving

  // ----- The graphs, as the web client lists them -----

  function Edges(kind: Kind): set<(Status, Status)> {
    match kind
    case Reservoir =>
      {(Normal, Warning), (Normal, Critical), (Warning, Critical), (Warning, Restricted), (Warning, Normal),
       (Critical, Restricted), (Critical, Warning), (Restricted, Critical)}
    case GateUnit =>
      {(Open, Moving), (Open, Locked), (Closed, Moving), (Closed, Locked), (Moving, Open), (Moving, Closed),
       (Moving, Locked), (Locked, Closed)}
    case OperationDirective =>
      {(Draft, Pending), (Pending, Approved), (Pending, Aborted), (Approved, Executing), (Approved, Aborted),
       (Executing, Completed), (Executing, Aborted)}
    case ExecutionConfirmation =>
      {(Pending, Confirmed), (Pending, Failed), (Failed, Cancelled)}
  }

  /** The services and the web client have the same graphs. */
  lemma GraphsAreMirrored(kind: Kind, from: Status, to: Status)
    ensures CanTransition(kind, from, to) <==> (from, to) in Edges(kind)
  {
    hide CanTransition, Edges;
    match kind
    case Reservoir => ReservoirsAreMirrored(from, to);
    case GateUnit => GatesAreMirrored(from, to);
    case OperationDirective => DirectivesAreMirrored(from, to);
    case ExecutionConfirmation => ConfirmationsAreMirrored(from, to);
  }

  lemma ReservoirsAreMirrored(from: Status, to: Status)
    ensures CanTransition(Reservoir, from, to) <==> (from, to) in Edges(Reservoir)
  {
  }

  lemma GatesAreMirrored(from: Status, to: Status)
    ensures CanTransition(GateUnit, from, to) <==> (from, to) in Edges(GateUnit)
  {
  }

  lemma DirectivesAreMirrored(from: Status, to: Status)
    ensures CanTransition(OperationDirective, from, to) <==> (from, to) in Edges(OperationDirective)
  {
  }

  lemma ConfirmationsAreMirrored(from: Status, to: Status)
    ensures CanTransition(ExecutionConfirmation, from, to) <==> (from, to) in Edges(ExecutionConfirmation)
  {
  }

  // ----- Words -----

  /** The entry a request leaves, with the person who sent it and its identifier. */
  function Signed(req: Request, action: Action, key: Key, before: Status, after: Status): Audit {
    Audit(actor := req.actor, requestId := req.requestId, action := action, key := key,
          before := before, after := after)
  }

  predicate Complete(code: string, input: Input) {
    !OnlyWhite(code) && !OnlyWhite(input.details.name) && !OnlyWhite(input.facility) && !OnlyWhite(input.details.owner)
  }

  /** The live row of this kind that a text leads to. */
  predicate Leads(t: Tables, kind: Kind, text: string, k: Key) {
    IsLive(t, k) && k.kind == kind && t.rows[k].code == Norm(text)
  }

  predicate Free(t: Tables, kind: Kind, id: nat, code: string) {
    Key(kind, id) !in t.rows && forall k :: k in t.rows && k.kind == kind ==> t.rows[k].code != code
  }

  function Cleaned(d: Details): Details {
    Details(name := Trim(d.name), owner := Trim(d.owner), notes := Trim(d.notes))
  }

  function Inserted(t: Tables, req: Request, id: nat, row: Record): Tables {
    Tables(t.rows[Key(req.kind, id) := row], t.approvals,
           t.audits + [Signed(req, Did(Create), Key(req.kind, id), Blank, row.status)])
  }

  function Rewritten(t: Tables, req: Request, row: Record): Tables {
    Tables(t.rows[Key(req.kind, req.id) := row], t.approvals,
           t.audits + [Signed(req, Did(Update), Key(req.kind, req.id), row.status, row.status)])
  }

  /** The row is live and has the version that was sent. */
  predicate AsSent(t: Tables, req: Request) {
    IsLive(t, Key(req.kind, req.id)) && t.rows[Key(req.kind, req.id)].version == req.expected
  }

  // ----- What the texts mean to the services -----

  lemma FilledIsComplete(code: string, input: Input)
    ensures Filled(code, input) <==> Complete(code, input)
  {
    hide Trim, OnlyWhite;
    TrimIsBlank(code);
    TrimIsBlank(input.details.name);
    TrimIsBlank(input.facility);
    TrimIsBlank(input.details.owner);
  }

  lemma FindsLed(t: Tables, kind: Kind, text: string)
    requires SafeTables(t)
    ensures FindByCode(t, kind, text).Some? <==> exists k :: Leads(t, kind, text, k)
    ensures forall k :: Leads(t, kind, text, k) ==> FindByCode(t, kind, text) == Some(Snap(k, t.rows[k]))
  {
    hide Norm, SafeTables;
    forall k | Leads(t, kind, text, k) ensures FindByCode(t, kind, text) == Some(Snap(k, t.rows[k])) {
      LedIsFound(t, kind, text, k);
    }
    if FindByCode(t, kind, text).Some? {
      assert Leads(t, kind, text, FindByCode(t, kind, text).value.key);
    }
  }

  lemma LedIsFound(t: Tables, kind: Kind, text: string, k: Key)
    requires SafeTables(t) && Leads(t, kind, text, k)
    ensures FindByCode(t, kind, text) == Some(Snap(k, t.rows[k]))
  {
    SafeIsUnique(t);
    hide Norm, SafeTables, UniqueRelated;
    assert Matches(t, kind, text, k);
  }

  /** No confirmation, live or deleted, names this code. */
  ghost predicate Unnamed(t: Tables, code: string) {
    forall k :: k in t.rows && k.kind == ExecutionConfirmation ==> t.rows[k].related != code
  }

  lemma InsertIs(t: Tables, req: Request, id: nat, row: Record)
    ensures var r := ApplyTx(t, Single(CreateStep(req, id, row)));
      && (r.Ok? <==>
            Free(t, req.kind, id, row.code) && (req.kind == ExecutionConfirmation ==> Unnamed(t, row.related)))
      && (r.Ok? ==> r.value == Inserted(t, req, id, row))
  {
    if Key(req.kind, id) !in t.rows {
      assert forall k :: k in t.rows ==> k != Key(req.kind, id);
    }
  }

  lemma RewriteIs(t: Tables, req: Request, current: Record, row: Record)
    requires SafeTables(t) && IsLive(t, req.Subject()) && t.rows[req.Subject()] == current
    requires row.code == current.code && row.live && row.status == current.status
    requires req.kind == ExecutionConfirmation ==> row.related == current.related
    ensures var r := ApplyTx(t, Single(UpdateStep(req, current, row)));
      && (r.Ok? <==> current.version == req.expected)
      && (r.Ok? ==> r.value == Rewritten(t, req, row))
  {
    hide SafeTables, RelatedTaken, ApplyChange, AddApproval;
    var s := UpdateStep(req, current, row);
    OwnNameIsFree(t, req.Subject());
    if current.version == req.expected {
      SwapApplies(t, s);
      assert t.approvals + [] == t.approvals;
    } else {
      StaleSwapFails(t, s);
    }
  }

  lemma OwnNameIsFree(t: Tables, k: Key)
    requires SafeTables(t) && k in t.rows
    ensures k.kind == ExecutionConfirmation ==> !RelatedTaken(t.rows, k, t.rows[k].related)
  {
    SafeIsUnique(t);
  }

  lemma StaleSwapFails(t: Tables, s: Step)
    requires s.change.Swap? && s.change.key in t.rows && t.rows[s.change.key].version != s.change.expected
    ensures ApplyStep(t, s) == Err(VersionConflict)
  {
  }

  // ----- Creates -----

  function ReservoirRow(input: Input): Record {
    Record(
      code := Norm(input.code), status := Normal, version := 1, live := true,
      facility := Trim(input.facility), category := Trim(input.category), riskLevel := input.riskLevel,
      related := Norm(input.related), gateState := Blank, submittedBy := "", approvedBy := "", confirmedBy := "",
      details := Cleaned(input.details))
  }

  /** A reservoir is created exactly if its texts are complete and its code is free. */
  lemma CreateReservoirIs(t: Tables, req: Request, id: nat)
    requires SafeTables(t) && req.kind == Reservoir && req.verb == Create
    ensures Serve(t, req, id).Ok? <==>
      Complete(req.input.code, req.input) && Free(t, Reservoir, id, Norm(req.input.code))
    ensures Serve(t, req, id).Ok? ==> Serve(t, req, id).value == Inserted(t, req, id, ReservoirRow(req.input))
  {
    hide Trim, Norm, Filled, Complete, SafeTables, Free;
    FilledIsComplete(req.input.code, req.input);
    InsertIs(t, req, id, ReservoirRow(req.input));
    if Filled(req.input.code, req.input) {
      ServesPlan(t, req, id, Single(CreateStep(req, id, ReservoirRow(req.input))));
    }
  }

  function GateRow(input: Input): Record {
    Record(
      code := Norm(input.code), status := Open, version := 1, live := true,
      facility := Trim(input.facility), category := Trim(input.category), riskLevel := input.riskLevel,
      related := Norm(input.related), gateState := Blank, submittedBy := "", approvedBy := "", confirmedBy := "",
      details := Cleaned(input.details))
  }

  /** The texts lead to a live reservoir of the same facility. */
  ghost predicate HasReservoir(t: Tables, related: string, facility: string) {
    exists r :: Leads(t, Reservoir, related, r) && SameName(Trim(facility), t.rows[r].facility)
  }

  /** A gate is created exactly if, besides, there is a live reservoir of the same facility under the related code. */
  lemma CreateGateIs(t: Tables, req: Request, id: nat)
    requires SafeTables(t) && req.kind == GateUnit && req.verb == Create
    ensures Serve(t, req, id).Ok? <==>
      && Complete(req.input.code, req.input) && Free(t, GateUnit, id, Norm(req.input.code))
      && HasReservoir(t, req.input.related, req.input.facility)
    ensures Serve(t, req, id).Ok? ==> Serve(t, req, id).value == Inserted(t, req, id, GateRow(req.input))
  {
    hide Trim, Norm, Filled, Complete, SafeTables, Free, SameName, EqualFold, FindByCode, Leads;
    FilledIsComplete(req.input.code, req.input);
    FindsLed(t, Reservoir, req.input.related);
    var found := FindByCode(t, Reservoir, req.input.related);
    if found.Some? {
      EqualFoldIsExact(Trim(req.input.facility), found.value.row.facility);
    }
    InsertIs(t, req, id, GateRow(req.input));
    CreatePlanIs(t, req, id, found);
  }

  /** A create follows its related code and nothing else. */
  lemma CreatePlanIs(t: Tables, req: Request, id: nat, found: Option<Snap>)
    requires req.verb == Create
    requires found == FindByCode(t, if req.kind == GateUnit then Reservoir
                                    else if req.kind == OperationDirective then GateUnit else OperationDirective,
                                 req.input.related)
    ensures req.kind != Reservoir ==>
      var plan := match req.kind
                        case GateUnit => CreateGate(req, found, id)
                        case OperationDirective => CreateDirective(req, found, id)
                        case ExecutionConfirmation =>
                          CreateConfirmation(req, found, found.Some? && Unclaimed(t, found.value.row.code), id)
                        case Reservoir => CreateReservoir(req, id);
      Serve(t, req, id) == if plan.Ok? then ApplyTx(t, plan.value) else Err(plan.error)
  {
    hide FindByCode, Unclaimed, CreateGate, CreateDirective, CreateConfirmation, ApplyTx;
  }

  function DirectiveRow(input: Input): Record {
    Record(
      code := Norm(input.code), status := Draft, version := 1, live := true,
      facility := Trim(input.facility), category := Trim(input.category), riskLevel := input.riskLevel,
      related := Norm(input.related), gateState := if input.gateState == Blank then Closed else input.gateState,
      submittedBy := "", approvedBy := "", confirmedBy := "", details := Cleaned(input.details))
  }

  /** The texts lead to a live gate of the same facility that is not locked. */
  ghost predicate HasUsableGate(t: Tables, related: string, facility: string) {
    exists g ::
      Leads(t, GateUnit, related, g) && SameName(Trim(facility), t.rows[g].facility) && t.rows[g].status != Locked
  }

  /** A directive is created exactly if, besides, there is a live gate of the same facility under the related code that
      is not locked. It asks for a closed gate unless told otherwise. */
  lemma CreateDirectiveIs(t: Tables, req: Request, id: nat)
    requires SafeTables(t) && req.kind == OperationDirective && req.verb == Create
    ensures Serve(t, req, id).Ok? <==>
      && Complete(req.input.code, req.input) && Free(t, OperationDirective, id, Norm(req.input.code))
      && HasUsableGate(t, req.input.related, req.input.facility)
    ensures Serve(t, req, id).Ok? ==> Serve(t, req, id).value == Inserted(t, req, id, DirectiveRow(req.input))
  {
    hide Trim, Norm, Filled, Complete, SafeTables, Free, SameName, EqualFold, FindByCode, Leads;
    FilledIsComplete(req.input.code, req.input);
    FindsLed(t, GateUnit, req.input.related);
    var found := FindByCode(t, GateUnit, req.input.related);
    if found.Some? {
      EqualFoldIsExact(Trim(req.input.facility), found.value.row.facility);
    }
    InsertIs(t, req, id, DirectiveRow(req.input));
    CreatePlanIs(t, req, id, found);
  }

  /** What a confirmation takes from its input, and what from the directive. */
  function ConfirmationRow(input: Input, d: Record): Record {
    Record(
      code := Norm(input.code), status := Pending, version := 1, live := true,
      facility := d.facility, category := d.category, riskLevel := d.riskLevel, related := d.code,
      gateState := Blank, submittedBy := "", approvedBy := "", confirmedBy := "", details := Cleaned(input.details))
  }

  /** `d` is a live directive in execution under this code that no confirmation has ever named. */
  ghost predicate Awaits(t: Tables, related: string, d: Key) {
    Leads(t, OperationDirective, related, d) && t.rows[d].status == Executing && Unnamed(t, t.rows[d].code)
  }

  /** A confirmation is created exactly if, besides, there is such a directive; it takes its columns. */
  lemma CreateConfirmationIs(t: Tables, req: Request, id: nat)
    requires SafeTables(t) && req.kind == ExecutionConfirmation && req.verb == Create
    ensures Serve(t, req, id).Ok? <==>
      && Complete(req.input.code, req.input) && Free(t, ExecutionConfirmation, id, Norm(req.input.code))
      && exists d :: Awaits(t, req.input.related, d)
    ensures forall d :: Serve(t, req, id).Ok? && Awaits(t, req.input.related, d) ==>
      Serve(t, req, id).value == Inserted(t, req, id, ConfirmationRow(req.input, t.rows[d]))
  {
    hide Trim, Norm, Filled, Complete, SafeTables, Free, FindByCode, Unclaimed;
    FilledIsComplete(req.input.code, req.input);
    FindsLed(t, OperationDirective, req.input.related);
    var found := FindByCode(t, OperationDirective, req.input.related);
    CreatePlanIs(t, req, id, found);
    if found.Some? {
      var d := found.value.key;
      FoundIsLed(t, OperationDirective, req.input.related);
      NobodyClaims(t, d);
      InsertIs(t, req, id, ConfirmationRow(req.input, t.rows[d]));
      assert forall e :: Awaits(t, req.input.related, e) ==> e == d;
      if Serve(t, req, id).Ok? {
        assert Awaits(t, req.input.related, d);
      }
    }
  }

  lemma FoundIsLed(t: Tables, kind: Kind, text: string)
    requires FindByCode(t, kind, text).Some?
    ensures var s := FindByCode(t, kind, text).value; Leads(t, kind, text, s.key) && s.row == t.rows[s.key]
  {
  }

  lemma NobodyClaims(t: Tables, d: Key)
    requires SafeTables(t) && IsDirective(t, d)
    ensures Unnamed(t, t.rows[d].code) ==> Unclaimed(t, t.rows[d].code)
  {
    hide Norm;
    assert Sound(d.kind, t.rows[d], History(t.audits, d), ApprovalsOf(t.approvals, d.id));
  }

  // ----- Updates -----

  lemma UpdatePlanIs(t: Tables, req: Request, id: nat)
    requires req.verb == Update
    ensures Serve(t, req, id).Ok? ==> IsLive(t, req.Subject())
    ensures IsLive(t, req.Subject()) ==>
      var current := t.rows[req.Subject()];
      var plan := match req.kind
                  case Reservoir => UpdateReservoir(req, current)
                  case GateUnit => UpdateGate(req, current, FindByCode(t, Reservoir, current.related))
                  case OperationDirective => UpdateDirective(req, current, FindByCode(t, GateUnit, req.input.related))
                  case ExecutionConfirmation =>
                    UpdateConfirmation(req, current, FindByCode(t, OperationDirective, current.related));
      Serve(t, req, id) == if plan.Ok? then ApplyTx(t, plan.value) else Err(plan.error)
  {
    hide FindByCode, UpdateReservoir, UpdateGate, UpdateDirective, UpdateConfirmation, ApplyTx;
  }

  function EditedReservoir(r: Record, input: Input): Record {
    r.(version := r.version + 1, facility := Trim(input.facility), category := Trim(input.category),
       riskLevel := input.riskLevel, related := Norm(input.related), details := Cleaned(input.details))
  }

  lemma UpdateReservoirIs(t: Tables, req: Request, id: nat)
    requires SafeTables(t) && req.kind == Reservoir && req.verb == Update
    ensures Serve(t, req, id).Ok? <==> AsSent(t, req) && Complete(t.rows[req.Subject()].code, req.input)
    ensures Serve(t, req, id).Ok? ==>
      Serve(t, req, id).value == Rewritten(t, req, EditedReservoir(t.rows[req.Subject()], req.input))
  {
    hide Trim, Norm, Filled, Complete, SafeTables, ApplyTx, Observe, Plan, Serve;
    UpdatePlanIs(t, req, id);
    if IsLive(t, req.Subject()) {
      var r := t.rows[req.Subject()];
      FilledIsComplete(r.code, req.input);
      RewriteIs(t, req, r, EditedReservoir(r, req.input).(version := req.expected + 1));
    }
  }

  function EditedGate(r: Record, input: Input): Record {
    r.(version := r.version + 1, facility := Trim(input.facility), category := Trim(input.category),
       riskLevel := input.riskLevel, details := Cleaned(input.details))
  }

  /** A gate is edited exactly if its reservoir is not changed, is live, and is of the facility given. */
  lemma UpdateGateIs(t: Tables, req: Request, id: nat)
    requires SafeTables(t) && req.kind == GateUnit && req.verb == Update
    ensures Serve(t, req, id).Ok? <==>
      && AsSent(t, req) && Complete(t.rows[req.Subject()].code, req.input)
      && SameName(Trim(req.input.related), t.rows[req.Subject()].related)
      && HasReservoir(t, t.rows[req.Subject()].related, req.input.facility)
    ensures Serve(t, req, id).Ok? ==>
      Serve(t, req, id).value == Rewritten(t, req, EditedGate(t.rows[req.Subject()], req.input))
  {
    hide Trim, Norm, Filled, Complete, SafeTables, ApplyTx, Observe, Plan, Serve, SameName, EqualFold, FindByCode;
    UpdatePlanIs(t, req, id);
    if IsLive(t, req.Subject()) {
      var r := t.rows[req.Subject()];
      FilledIsComplete(r.code, req.input);
      EqualFoldIsExact(Trim(req.input.related), r.related);
      RelatedIsNorm(t, req.Subject());
      FindsLed(t, Reservoir, r.related);
      var found := FindByCode(t, Reservoir, r.related);
      if found.Some? {
        FoundIsLed(t, Reservoir, r.related);
        EqualFoldIsExact(Trim(req.input.facility), found.value.row.facility);
      }
      RewriteIs(t, req, r, EditedGate(r, req.input).(version := req.expected + 1));
    }
  }

  function EditedDirective(r: Record, input: Input): Record {
    r.(version := r.version + 1, facility := Trim(input.facility), category := Trim(input.category),
       riskLevel := input.riskLevel, related := Norm(input.related),
       gateState := if input.gateState == Blank then r.gateState else input.gateState,
       details := Cleaned(input.details))
  }

  /** A directive is edited exactly as a draft, to act on a live gate of its facility that is not locked. */
  lemma UpdateDirectiveIs(t: Tables, req: Request, id: nat)
    requires SafeTables(t) && req.kind == OperationDirective && req.verb == Update
    ensures Serve(t, req, id).Ok? <==>
      && AsSent(t, req) && t.rows[req.Subject()].status == Draft && Complete(t.rows[req.Subject()].code, req.input)
      && HasUsableGate(t, req.input.related, req.input.facility)
    ensures Serve(t, req, id).Ok? ==>
      Serve(t, req, id).value == Rewritten(t, req, EditedDirective(t.rows[req.Subject()], req.input))
  {
    hide Trim, Norm, Filled, Complete, SafeTables, ApplyTx, Observe, Plan, Serve, SameName, EqualFold, FindByCode;
    UpdatePlanIs(t, req, id);
    if IsLive(t, req.Subject()) {
      var r := t.rows[req.Subject()];
      FilledIsComplete(r.code, req.input);
      FindsLed(t, GateUnit, req.input.related);
      var found := FindByCode(t, GateUnit, req.input.related);
      if found.Some? {
        FoundIsLed(t, GateUnit, req.input.related);
        EqualFoldIsExact(Trim(req.input.facility), found.value.row.facility);
      }
      RewriteIs(t, req, r, EditedDirective(r, req.input).(version := req.expected + 1));
    }
  }

  function EditedClaim(r: Record, input: Input, d: Record): Record {
    r.(version := r.version + 1, facility := d.facility, category := d.category, riskLevel := d.riskLevel,
       details := Cleaned(input.details))
  }

  /** A confirmation is edited exactly while it is pending and its directive executes, which it keeps. */
  lemma UpdateConfirmationIs(t: Tables, req: Request, id: nat)
    requires SafeTables(t) && req.kind == ExecutionConfirmation && req.verb == Update
    ensures Serve(t, req, id).Ok? <==>
      && AsSent(t, req) && t.rows[req.Subject()].status == Pending && Complete(t.rows[req.Subject()].code, req.input)
      && SameName(Trim(req.input.related), t.rows[req.Subject()].related)
      && exists d :: Leads(t, OperationDirective, t.rows[req.Subject()].related, d) && t.rows[d].status == Executing
    ensures forall d :: Serve(t, req, id).Ok? && Leads(t, OperationDirective, t.rows[req.Subject()].related, d) ==>
      Serve(t, req, id).value == Rewritten(t, req, EditedClaim(t.rows[req.Subject()], req.input, t.rows[d]))
  {
    hide Trim, Norm, Filled, Complete, SafeTables, ApplyTx, Observe, Plan, Serve, SameName, EqualFold, FindByCode;
    UpdatePlanIs(t, req, id);
    if IsLive(t, req.Subject()) {
      var r := t.rows[req.Subject()];
      FilledIsComplete(r.code, req.input);
      EqualFoldIsExact(Trim(req.input.related), r.related);
      FindsLed(t, OperationDirective, r.related);
      RelatedIsNorm(t, req.Subject());
      var found := FindByCode(t, OperationDirective, r.related);
      if found.Some? {
        FoundIsLed(t, OperationDirective, r.related);
        RewriteIs(t, req, r, EditedClaim(r, req.input, found.value.row).(version := req.expected + 1));
      }
    }
  }

  lemma RelatedIsNorm(t: Tables, k: Key)
    requires SafeTables(t) && k in t.rows
    ensures Norm(t.rows[k].related) == t.rows[k].related
  {
    hide Norm;
    assert Sound(k.kind, t.rows[k], History(t.audits, k), ApprovalsOf(t.approvals, k.id));
  }

  // ----- Deletes -----

  function Buried(t: Tables, req: Request): Tables
    requires Key(req.kind, req.id) in t.rows
  {
    var k := Key(req.kind, req.id);
    Tables(t.rows[k := t.rows[k].(live := false)], t.approvals,
           t.audits + [Signed(req, Did(Delete), k, t.rows[k].status, Deleted)])
  }

  /** Reservoirs and gates can be deleted at any time, directives exactly as drafts and confirmations while pending. */
  lemma DeleteIs(t: Tables, req: Request, id: nat)
    requires req.verb == Delete
    ensures Serve(t, req, id).Ok? <==>
      && IsLive(t, req.Subject())
      && (req.kind == OperationDirective ==> t.rows[req.Subject()].status == Draft)
      && (req.kind == ExecutionConfirmation ==> t.rows[req.Subject()].status == Pending)
    ensures Serve(t, req, id).Ok? ==> Serve(t, req, id).value == Buried(t, req)
  {
  }
}
