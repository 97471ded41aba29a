/** Who did it: every entry and every approval of every run belongs to a request that was made. */
module Attribution {
  import opened Text
  import opened Model
  import opened Store
  import opened Planning
  import opened Journal
  import opened Protocol
  import opened Laws
  import opened Lives
  import opened Consistency

  // ----- One request -----

  /** The entry names the person who made this request and its identifier, and tells what was asked for. */
  predicate Tells(req: Request, e: Audit) {
    && e.actor == req.actor && e.requestId == req.requestId
    && match e.action
       case Did(verb) =>
         && verb == req.verb && e.key.kind == req.kind
         && (verb != Create ==> e.key == Key(req.kind, req.id))
         && (verb == Transition ==> e.after == req.target)
       case DirectiveExecution =>
         && req.verb == Transition && req.kind == OperationDirective && e.key.kind == GateUnit
       case ExecutionOutcome =>
         && req.verb == Transition && req.kind == ExecutionConfirmation
         && (e.key.kind == GateUnit || e.key.kind == OperationDirective)
  }

  /** The approval names the person, the role and the identifier of this request, and what it decided. */
  predicate Attests(req: Request, a: Approval) {
    && req.kind == OperationDirective && req.verb == Transition
    && a.directive == req.id && a.actor == req.actor && a.role == req.role && a.requestId == req.requestId
    && a.to == req.target && a.stage == StageOf(a.to) && (a.to == Pending || a.to == Approved)
  }

  function StageOf(s: Status): Stage {
    if s == Pending then SubmittedStage else ApprovedStage
  }

  /** The entry and the approval record the same act. */
  predicate SameAct(e: Audit, a: Approval) {
    && e.action == Did(Transition) && e.key == Key(OperationDirective, a.directive)
    && e.actor == a.actor && e.requestId == a.requestId && e.before == a.from && e.after == a.to
  }

  /** An entry of this kind comes with an approval. */
  predicate NeedsApproval(e: Audit) {
    && e.action == Did(Transition) && e.key.kind == OperationDirective && (e.after == Pending || e.after == Approved)
  }

  function ApprovalsOfTx(tx: Tx): seq<Approval> {
    if tx.first.approval.Some? then [tx.first.approval.value] else []
  }

  predicate Owned(req: Request, tx: Tx) {
    && Tells(req, tx.first.audit)
    && (tx.first.approval.Some? ==>
          Attests(req, tx.first.approval.value) && SameAct(tx.first.audit, tx.first.approval.value))
    && (NeedsApproval(tx.first.audit) ==> tx.first.approval.Some?)
    && (tx.second.Some? ==>
          && Tells(req, tx.second.value.audit) && tx.second.value.approval.None?
          && !NeedsApproval(tx.second.value.audit))
    && (tx.third.Some? ==>
          && Tells(req, tx.third.value.audit) && tx.third.value.approval.None?
          && !NeedsApproval(tx.third.value.audit))
  }

  lemma DirectivePlanOwned(req: Request, current: Record, gate: Option<Snap>)
    requires req.kind == OperationDirective && req.verb == Transition
    requires gate.Some? ==> gate.value.key.kind == GateUnit
    requires TransitionDirective(req, current, gate).Ok?
    ensures Owned(req, TransitionDirective(req, current, gate).value)
  {
    hide EqualFold, RoleAllowed;
  }

  lemma ConfirmationPlanOwned(req: Request, current: Record, directive: Option<Snap>, gate: Option<Snap>)
    requires req.kind == ExecutionConfirmation && req.verb == Transition
    requires directive.Some? ==> directive.value.key.kind == OperationDirective
    requires gate.Some? ==> gate.value.key.kind == GateUnit
    requires TransitionConfirmation(req, current, directive, gate).Ok?
    ensures Owned(req, TransitionConfirmation(req, current, directive, gate).value)
  {
  }

  lemma PlanOwned(f: Flight, id: nat)
    requires WellRead(f) && Plan(f, id).Ok?
    ensures Owned(f.req, Plan(f, id).value)
  {
    hide Norm, Trim, EqualFold, Proper, Filled, TransitionDirective, TransitionConfirmation;
    if f.req.verb == Transition && f.req.kind == OperationDirective {
      DirectivePlanOwned(f.req, f.primary.value, f.link);
    } else if f.req.verb == Transition && f.req.kind == ExecutionConfirmation {
      ConfirmationPlanOwned(f.req, f.primary.value, f.link, f.second);
    }
  }

  lemma StepApproval(t: Tables, s: Step, u: Tables)
    requires ApplyStep(t, s) == Ok(u)
    ensures u.approvals == t.approvals + (if s.approval.Some? then [s.approval.value] else [])
    ensures s.approval.Some? ==> !StageTaken(t.approvals, s.approval.value)
  {
  }

  lemma TxApprovals(t: Tables, tx: Tx, u: Tables, req: Request)
    requires Owned(req, tx) && ApplyTx(t, tx) == Ok(u)
    ensures u.approvals == t.approvals + ApprovalsOfTx(tx)
    ensures tx.first.approval.Some? ==> !StageTaken(t.approvals, tx.first.approval.value)
  {
    hide ApplyStep, Tells, StageTaken;
    var t1 := ApplyStep(t, tx.first).value;
    StepApproval(t, tx.first, t1);
    var t2 := ApplyNext(t1, tx.second).value;
    if tx.second.Some? {
      StepApproval(t1, tx.second.value, t2);
    }
    if tx.third.Some? {
      StepApproval(t2, tx.third.value, u);
    }
  }

  /** Everything a commit adds to the two logs names the person who made the request, and the request. */
  lemma CommitIsSigned(t: Tables, f: Flight, id: nat)
    requires WellRead(f) && Attempt(t, f, id).Ok?
    ensures var u := Attempt(t, f, id).value;
      && t.audits <= u.audits && t.approvals <= u.approvals
      && (forall i :: |t.audits| <= i < |u.audits| ==>
            u.audits[i].actor == f.req.actor && u.audits[i].requestId == f.req.requestId && Tells(f.req, u.audits[i]))
      && (forall i :: |t.approvals| <= i < |u.approvals| ==>
            && u.approvals[i].actor == f.req.actor && u.approvals[i].requestId == f.req.requestId
            && u.approvals[i].role == f.req.role && Attests(f.req, u.approvals[i]))
  {
    hide Plan, ApplyTx, WellRead;
    var tx, u := Plan(f, id).value, Attempt(t, f, id).value;
    PlanOwned(f, id);
    TxEntries(t, tx, u);
    TxApprovals(t, tx, u, f.req);
  }

  // ----- Requests of a run -----

  /** The event of this run that started the request under way with number `n`. */
  ghost function Origin(es: seq<Event>, n: nat): (i: nat)
    requires n in Run(es).flights
    ensures i < |es| && es[i].Start? && es[i].n == n && es[i].req == Run(es).flights[n].req
  {
    var part, e := es[..|es| - 1], es[|es| - 1];
    if n in Run(part).flights then Origin(part, n) else |part|
  }

  ghost predicate Starts(es: seq<Event>, i: nat) {
    i < |es| && es[i].Start?
  }

  /** All entries of the block belong to the request that event `i` starts. */
  ghost predicate BlockOf(es: seq<Event>, i: nat, b: seq<Audit>) {
    Starts(es, i) && forall j :: 0 <= j < |b| ==> Tells(es[i].req, b[j])
  }

  /** `via` gives each block of the log an event that started a request, no event twice, and none of a request that is
      still under way. */
  ghost predicate Accounted(es: seq<Event>, via: seq<nat>) {
    var bs := Blocks(Run(es).db.audits);
    && |via| == |bs|
    && (forall j :: 0 <= j < |bs| ==> BlockOf(es, via[j], bs[j]))
    && (forall i, j :: 0 <= i < j < |via| ==> via[i] != via[j])
    && (forall n, j :: n in Run(es).flights && 0 <= j < |via| ==> via[j] != Origin(es, n))
  }

  lemma {:induction false} BlockOfLater(es: seq<Event>, e: Event, i: nat, b: seq<Audit>)
    requires BlockOf(es, i, b)
    ensures BlockOf(es + [e], i, b)
  {
  }

  lemma {:induction false} OriginLater(es: seq<Event>, e: Event, n: nat)
    requires n in Run(es).flights && n in Run(es + [e]).flights
    ensures Origin(es + [e], n) == Origin(es, n)
  {
    assert (es + [e])[..|es|] == es;
  }

  /** The commit that writes a block closes the account of its request. */
  lemma {:induction false} CommitAccounted(es: seq<Event>, e: Event, via: seq<nat>) returns (next: seq<nat>)
    requires Accounted(es, via) && e.Commit? && e.n in Run(es).flights
    requires e.healthy && Attempt(Run(es).db, Run(es).flights[e.n], e.id).Ok?
    ensures Accounted(es + [e], next)
  {
    hide Run, Blocks, Origin, Attempt, Tidy, Tells;
    var s, all := Run(es), es + [e];
    var f := s.flights[e.n];
    var u := Attempt(s.db, f, e.id).value;
    RunLawful(es);
    RunAppend(es, e);
    var b := CommitIsBlock(s.db, f, e.id);
    next := via + [Origin(es, e.n)];
    assert Blocks(u.audits) == Blocks(s.db.audits) + [b];
    assert Run(all) == System(u, s.flights - {e.n});
    forall j | 0 <= j < |via| ensures BlockOf(all, next[j], Blocks(u.audits)[j]) {
      BlockOfLater(es, e, via[j], Blocks(s.db.audits)[j]);
    }
    assert BlockOf(es, Origin(es, e.n), b);
    BlockOfLater(es, e, Origin(es, e.n), b);
    forall n, j | n in Run(all).flights && 0 <= j < |next| ensures next[j] != Origin(all, n) {
      OriginLater(es, e, n);
    }
  }

  lemma CommitIsBlock(t: Tables, f: Flight, id: nat) returns (b: seq<Audit>)
    requires WellRead(f) && Attempt(t, f, id).Ok?
    ensures Blocks(Attempt(t, f, id).value.audits) == Blocks(t.audits) + [b]
    ensures forall j :: 0 <= j < |b| ==> Tells(f.req, b[j])
  {
    hide Plan, ApplyTx, WellRead, Tidy, Blocks, Entries, Owned;
    var tx := Plan(f, id).value;
    PlanTidy(f, id);
    PlanOwned(f, id);
    TxEntries(t, tx, Attempt(t, f, id).value);
    EntriesMakeBlock(t.audits, tx);
    OwnedTells(f.req, tx);
    b := Entries(tx);
  }

  lemma OwnedTells(req: Request, tx: Tx)
    requires Owned(req, tx)
    ensures forall j :: 0 <= j < |Entries(tx)| ==> Tells(req, Entries(tx)[j])
  {
    hide Tells, Attests, SameAct, NeedsApproval;
  }

  /** Whatever else happens leaves the log alone. */
  lemma {:induction false} OtherAccounted(es: seq<Event>, e: Event, via: seq<nat>)
    requires Accounted(es, via) && Run(es + [e]).db.audits == Run(es).db.audits
    ensures Accounted(es + [e], via)
  {
    hide Run, Blocks, BlockOf;
    var all := es + [e];
    RunAppend(es, e);
    assert all[..|es|] == es;
    forall j | 0 <= j < |via| ensures BlockOf(all, via[j], Blocks(Run(all).db.audits)[j]) {
      BlockOfLater(es, e, via[j], Blocks(Run(es).db.audits)[j]);
    }
    forall n, j | n in Run(all).flights && 0 <= j < |via| ensures via[j] != Origin(all, n) {
      if n in Run(es).flights {
        OriginLater(es, e, n);
      } else {
        assert BlockOf(es, via[j], Blocks(Run(es).db.audits)[j]);
        StartsEarlier(es, via[j], Blocks(Run(es).db.audits)[j]);
      }
    }
  }

  lemma StartsEarlier(es: seq<Event>, i: nat, b: seq<Audit>)
    requires BlockOf(es, i, b)
    ensures i < |es|
  {
  }

  lemma {:induction false} RunAccounted(es: seq<Event>) returns (via: seq<nat>)
    ensures Accounted(es, via)
  {
    hide Run, Accounted, Attempt;
    if es == [] {
      via := [];
      assert Accounted(es, via) by { NothingToAccount(); }
    } else {
      var part, e := es[..|es| - 1], es[|es| - 1];
      via := RunAccounted(part);
      assert es == part + [e];
      RunAppend(part, e);
      if e.Commit? && e.n in Run(part).flights && e.healthy && Attempt(Run(part).db, Run(part).flights[e.n], e.id).Ok? {
        via := CommitAccounted(part, e, via);
      } else {
        OtherAccounted(part, e, via);
      }
    }
  }

  lemma NothingToAccount()
    ensures Accounted([], [])
  {
  }

  /** In every run the log is an account of the requests: each of its blocks was written by one request that started in
      the run, whose actor, identifier, subject and target its entries tell, and no request wrote two. */
  lemma {:induction false} EveryBlockHasItsRequest(es: seq<Event>)
    ensures exists via: seq<nat> ::
      && |via| == |Blocks(Run(es).db.audits)|
      && (forall j :: 0 <= j < |via| ==> BlockOf(es, via[j], Blocks(Run(es).db.audits)[j]))
      && (forall i, j :: 0 <= i < j < |via| ==> via[i] != via[j])
  {
    hide Run, Blocks, BlockOf;
    var via := RunAccounted(es);
  }

  /** In every run each entry names the actor and the identifier of a request that started before. */
  lemma {:induction false} EveryEntryHasItsRequest(es: seq<Event>, i: nat)
    requires i < |Run(es).db.audits|
    ensures exists k :: 0 <= k < |es| && es[k].Start? && Tells(es[k].req, Run(es).db.audits[i])
  {
    hide Run, Blocks, Flatten, Tells;
    var log := Run(es).db.audits;
    var via := RunAccounted(es);
    BlocksCoverLog(log);
    FlattenMember(Blocks(log), log[i]);
    var j :| 0 <= j < |Blocks(log)| && log[i] in Blocks(log)[j];
    assert BlockOf(es, via[j], Blocks(log)[j]);
  }

  // ----- Approvals of a run -----

  /** A request that started in the run gave this approval. */
  ghost predicate ApprovedByRequest(es: seq<Event>, a: Approval) {
    exists k :: 0 <= k < |es| && es[k].Start? && Attests(es[k].req, a)
  }

  /** An entry of the log records the same act. */
  ghost predicate Logged(log: seq<Audit>, a: Approval) {
    exists i :: 0 <= i < |log| && SameAct(log[i], a)
  }

  /** An approval records the same act. */
  ghost predicate Backed(e: Audit, approvals: seq<Approval>) {
    exists i :: 0 <= i < |approvals| && SameAct(e, approvals[i])
  }

  /** Approvals and the entries that call for one belong together, and no directive has two approvals of a stage. */
  ghost predicate Booked(t: Tables) {
    && (forall i :: 0 <= i < |t.approvals| ==> Logged(t.audits, t.approvals[i]))
    && (forall i :: 0 <= i < |t.audits| && NeedsApproval(t.audits[i]) ==> Backed(t.audits[i], t.approvals))
    && (forall i, j :: 0 <= i < j < |t.approvals| ==>
          t.approvals[i].directive != t.approvals[j].directive || t.approvals[i].stage != t.approvals[j].stage)
  }

  lemma LoggedLater(log: seq<Audit>, more: seq<Audit>, a: Approval)
    requires Logged(log, a) || Logged(more, a)
    ensures Logged(log + more, a)
  {
    if Logged(log, a) {
      var i :| 0 <= i < |log| && SameAct(log[i], a);
      assert SameAct((log + more)[i], a);
    } else {
      var i :| 0 <= i < |more| && SameAct(more[i], a);
      assert SameAct((log + more)[|log| + i], a);
    }
  }

  lemma BackedLater(e: Audit, approvals: seq<Approval>, more: seq<Approval>)
    requires Backed(e, approvals) || Backed(e, more)
    ensures Backed(e, approvals + more)
  {
    if Backed(e, approvals) {
      var i :| 0 <= i < |approvals| && SameAct(e, approvals[i]);
      assert SameAct(e, (approvals + more)[i]);
    } else {
      var i :| 0 <= i < |more| && SameAct(e, more[i]);
      assert SameAct(e, (approvals + more)[|approvals| + i]);
    }
  }

  lemma OwnedBooks(req: Request, tx: Tx)
    requires Owned(req, tx)
    ensures forall i :: 0 <= i < |ApprovalsOfTx(tx)| ==> Logged(Entries(tx), ApprovalsOfTx(tx)[i])
    ensures forall i :: 0 <= i < |Entries(tx)| && NeedsApproval(Entries(tx)[i]) ==>
      Backed(Entries(tx)[i], ApprovalsOfTx(tx))
  {
    hide Tells, Attests, NeedsApproval, SameAct;
    assert Entries(tx)[0] == tx.first.audit;
    if tx.first.approval.Some? {
      assert ApprovalsOfTx(tx)[0] == tx.first.approval.value;
      assert SameAct(Entries(tx)[0], ApprovalsOfTx(tx)[0]);
    }
  }

  lemma CommitBooked(t: Tables, f: Flight, id: nat, u: Tables)
    requires Booked(t) && WellRead(f) && Attempt(t, f, id) == Ok(u)
    ensures Booked(u)
  {
    hide Plan, ApplyTx, WellRead, Tells, Attests, NeedsApproval, SameAct, Logged, Backed;
    var tx := Plan(f, id).value;
    PlanOwned(f, id);
    TxEntries(t, tx, u);
    TxApprovals(t, tx, u, f.req);
    OwnedBooks(f.req, tx);
    var b, more := Entries(tx), ApprovalsOfTx(tx);
    hide Owned, Entries;
    forall i | 0 <= i < |u.approvals| ensures Logged(u.audits, u.approvals[i]) {
      LoggedLater(t.audits, b, u.approvals[i]);
    }
    forall i | 0 <= i < |u.audits| && NeedsApproval(u.audits[i]) ensures Backed(u.audits[i], u.approvals) {
      BackedLater(u.audits[i], t.approvals, more);
    }
  }

  lemma {:induction false} RunBooked(es: seq<Event>)
    ensures Booked(Run(es).db)
  {
    hide Booked, Attempt, WellRead;
    if es == [] {
      assert Booked(EMPTY) by { NothingBooked(); }
    } else {
      var part, e := es[..|es| - 1], es[|es| - 1];
      RunBooked(part);
      RunLawful(part);
      if e.Commit? && e.n in Run(part).flights && e.healthy && Attempt(Run(part).db, Run(part).flights[e.n], e.id).Ok? {
        CommitBooked(Run(part).db, Run(part).flights[e.n], e.id, Run(es).db);
      }
    }
  }

  lemma NothingBooked()
    ensures Booked(EMPTY)
  {
  }

  lemma {:induction false} ApprovalRequests(es: seq<Event>, i: nat)
    requires i < |Run(es).db.approvals|
    ensures ApprovedByRequest(es, Run(es).db.approvals[i])
  {
    hide Attempt, WellRead, Attests;
    var part, e := es[..|es| - 1], es[|es| - 1];
    var a, was := Run(es).db.approvals[i], Run(part).db;
    if i < |was.approvals| && was.approvals[i] == a {
      ApprovalRequests(part, i);
      var k :| 0 <= k < |part| && part[k].Start? && Attests(part[k].req, a);
      assert es[k] == part[k];
    } else {
      RunLawful(part);
      var f := Run(part).flights[e.n];
      CommitIsSigned(was, f, e.id);
      var k := Origin(part, e.n);
      assert es[k] == part[k] && Attests(es[k].req, a);
    }
  }

  /** In every run each approval was given in a request that started before, which it tells, and stands beside the entry
      of the same act; every submission or approval that the log tells of has its approval row; and no directive has two
      of one stage. */
  lemma {:induction false} ApprovalsAreLogged(es: seq<Event>)
    ensures var t := Run(es).db;
      && (forall i :: 0 <= i < |t.approvals| ==>
            ApprovedByRequest(es, t.approvals[i]) && Logged(t.audits, t.approvals[i]))
      && (forall j :: 0 <= j < |t.audits| && NeedsApproval(t.audits[j]) ==> Backed(t.audits[j], t.approvals))
      && (forall i, j :: 0 <= i < j < |t.approvals| ==>
            t.approvals[i].directive != t.approvals[j].directive || t.approvals[i].stage != t.approvals[j].stage)
  {
    hide Run, NeedsApproval, ApprovedByRequest, Logged, Backed;
    var t := Run(es).db;
    RunBooked(es);
    forall i | 0 <= i < |t.approvals| ensures ApprovedByRequest(es, t.approvals[i]) {
      ApprovalRequests(es, i);
    }
  }

  // ----- Confirmations -----

  lemma SignedTells(t: Tables, c: Key)
    requires SafeTables(t) && IsConfirmation(t, c)
    ensures SignedOff(t.rows[c], History(t.audits, c))
  {
    assert Sound(c.kind, t.rows[c], History(t.audits, c), ApprovalsOf(t.approvals, c.id));
  }

  /** In careful runs a confirmation is confirmed exactly if it names somebody, and that is the actor of the entry that
      took it from pending to confirmed, its last one. */
  lemma {:induction false} ConfirmedByTheOneWho(es: seq<Event>, c: Key)
    requires Careful(es) && IsConfirmation(Run(es).db, c)
    ensures var row, h := Run(es).db.rows[c], History(Run(es).db.audits, c);
      && (row.status == Confirmed <==> row.confirmedBy != "")
      && (row.status == Confirmed ==>
            && h != [] && h[|h| - 1].before == Pending && h[|h| - 1].after == Confirmed
            && row.confirmedBy == h[|h| - 1].actor)
  {
    hide Run, Careful, SafeTables;
    RunIsSafe(es);
    SignedTells(Run(es).db, c);
  }
}
