/** What the version guard protects, exactly. */
module Guards {
  import opened Text
  import opened Model
  import opened Store
  import opened Planning
  import opened Journal
  import opened Protocol
  import opened Laws
  import opened Lives
  import opened Safety
  import opened Consistency
  import opened Alone
  import opened Serving
  import opened Progress
  import opened Creations
  import opened Exits
  import opened Completion

  // ----- How far a row can still go -----

  ghost predicate HasLiveGate(t: Tables, d: Key) {
    exists g :: ActsOn(t, d, g) && IsLive(t, g)
  }

  ghost predicate MayLeave(s: System, d: Key) {
    exists g :: ActsOn(s.db, d, g) && CanLeave(s, d, g)
  }

  /** The directive of a confirmation is live and executes. */
  ghost predicate HasRunningDirective(t: Tables, c: Key) {
    exists d :: Running(t, c, d)
  }

  predicate Running(t: Tables, c: Key, d: Key) {
    Names(t, c, d) && IsLive(t, d) && t.rows[d].status == Executing
  }

  /** An edit under way of confirmation `c` that read its directive in execution and is up to date. */
  predicate Editing(t: Tables, f: Flight, c: Key) {
    && f.req.kind == ExecutionConfirmation && f.req.verb == Update && f.req.Subject() == c && IsLive(t, c)
    && f.primary == Some(t.rows[c]) && f.req.expected == t.rows[c].version
    && f.link.Some? && f.link.value.row.status == Executing
    && Filled(t.rows[c].code, f.req.input) && EqualFold(Trim(f.req.input.related), t.rows[c].related)
  }

  ghost predicate BeingEdited(s: System, c: Key) {
    exists n :: n in s.flights && Editing(s.db, s.flights[n], c)
  }

  /** Can row `k` take `m` further versions, and be live? Reservoirs, gates and drafts can be changed any number of
      times, and so can a pending confirmation while its directive executes. A submitted directive takes as many
      versions as its graph has steps, less those for which its gate would be needed. */
  ghost predicate Reachable(s: System, k: Key, m: nat)
    requires k in s.db.rows
  {
    var status := s.db.rows[k].status;
    match k.kind
    case OperationDirective =>
      (match status
       case Draft => true
       case Pending => m <= 2 || (m == 3 && HasLiveGate(s.db, k))
       case Approved => m == 1 || (m == 2 && HasLiveGate(s.db, k))
       case Executing => m == 1 && MayLeave(s, k)
       case _ => false)
    case ExecutionConfirmation =>
      (match status
       case Pending => HasRunningDirective(s.db, k) || (m == 1 && BeingEdited(s, k))
       case Failed => m == 1
       case _ => false)
    case _ => true
  }

  // ----- Interference -----

  /** The next status of a reservoir or gate that keeps away from `avoid`. */
  function Away(kind: Kind, avoid: Status, s: Status): Status {
    match s
    case Open => if avoid == Moving then Locked else Moving
    case Closed => if avoid == Moving then Locked else Moving
    case Moving => if avoid == Closed then Open else Closed
    case Locked => Closed
    case Normal => if avoid == Warning then Critical else Warning
    case Warning => if avoid == Critical then Normal else Critical
    case Critical => if avoid == Warning then Restricted else Warning
    case _ => Critical
  }

  predicate Cornered(avoid: Status, s: Status) {
    (avoid == Closed && s == Locked) || (avoid == Critical && s == Restricted)
  }

  lemma AwayWorks(kind: Kind, avoid: Status, s: Status)
    requires !Linked(kind) && KnownStatus(kind, s) && !Cornered(avoid, s)
    ensures var q := Away(kind, avoid, s); CanTransition(kind, s, q) && q != avoid && !Cornered(avoid, q)
  {
  }

  lemma RowKnown(t: Tables, k: Key)
    requires SafeTables(t) && k in t.rows
    ensures KnownStatus(k.kind, t.rows[k].status)
  {
    assert Sound(k.kind, t.rows[k], History(t.audits, k), ApprovalsOf(t.approvals, k.id));
  }

  /** Row `k` has taken `m` versions and is in status `s`. */
  predicate Went(t: Tables, u: Tables, k: Key, m: nat, s: Status) {
    IsLive(u, k) && k in t.rows && u.rows[k].version == t.rows[k].version + m && u.rows[k].status == s
  }

  lemma ChangeStatus(t: Tables, k: Key, target: Status) returns (asks: seq<Ask>, u: Tables)
    requires SafeTables(t) && IsLive(t, k) && !Linked(k.kind) && CanTransition(k.kind, t.rows[k].status, target)
    ensures Reaches(t, asks, u) && SafeTables(u) && Went(t, u, k, 1, target)
  {
    hide Serve, SafeTables;
    var req := Order(t, k, target, "operator", Operator);
    StatusServes(t, k, req);
    asks, u := AlsoAsk(t, [], t, req, 0);
  }

  /** A reservoir or gate takes any number of transitions and ends elsewhere. */
  lemma {:induction false} Wander(t: Tables, k: Key, avoid: Status, m: nat) returns (asks: seq<Ask>, u: Tables)
    requires SafeTables(t) && IsLive(t, k) && !Linked(k.kind) && m > 0 && !Cornered(avoid, t.rows[k].status)
    ensures Reaches(t, asks, u) && k in u.rows && Went(t, u, k, m, u.rows[k].status) && u.rows[k].status != avoid
    decreases m
  {
    hide SafeTables, Away, Cornered;
    var next := Away(k.kind, avoid, t.rows[k].status);
    RowKnown(t, k);
    AwayWorks(k.kind, avoid, t.rows[k].status);
    asks, u := ChangeStatus(t, k, next);
    if m > 1 {
      var more, v := Wander(u, k, avoid, m - 1);
      ReachesThen(t, asks, u, more, v);
      asks, u := asks + more, v;
    }
  }

  lemma NewUsableGate(t: Tables, d: Key) returns (asks: seq<Ask>, u: Tables, g: Key)
    requires SafeTables(t) && IsLive(t, d)
    ensures Reaches(t, asks, u) && SafeTables(u) && IsLive(u, d) && u.rows[d] == t.rows[d]
    ensures IsLive(u, g) && g.kind == GateUnit && u.rows[g].status != Locked
  {
    hide SafeTables, Reaches;
    var a, t1, r := NewReservoir(t);
    var b, t2, gate := NewGate(t1, r);
    ReachesThen(t, a, t1, b, t2);
    asks, u, g := a + b, t2, gate;
  }

  /** A draft can always be edited: if need be, to act on a new gate. */
  lemma EditDraft(t: Tables, d: Key) returns (asks: seq<Ask>, u: Tables)
    requires SafeTables(t) && IsLive(t, d) && d.kind == OperationDirective && t.rows[d].status == Draft
    ensures Reaches(t, asks, u) && SafeTables(u) && Went(t, u, d, 1, Draft)
  {
    hide Serve, SafeTables;
    var a, v, g := NewUsableGate(t, d);
    EditDraftServes(v, d, g, "operator");
    asks, u := AlsoAsk(t, a, v, Edit(v, d, DraftInput(v, d, g), "operator"), 0);
  }

  lemma {:induction false} MoveDraft(t: Tables, d: Key, m: nat) returns (asks: seq<Ask>, u: Tables)
    requires SafeTables(t) && IsLive(t, d) && d.kind == OperationDirective && t.rows[d].status == Draft && m > 0
    ensures Reaches(t, asks, u) && Went(t, u, d, m, Pending)
    decreases m
  {
    hide SafeTables, Reaches;
    if m == 1 {
      asks, u := Submit(t, d);
    } else {
      asks, u := EditDraft(t, d);
      var more, v := MoveDraft(u, d, m - 1);
      ReachesThen(t, asks, u, more, v);
      asks, u := asks + more, v;
    }
  }

  lemma AbortEarly(t: Tables, d: Key) returns (asks: seq<Ask>, u: Tables)
    requires SafeTables(t) && IsLive(t, d) && d.kind == OperationDirective
    requires t.rows[d].status == Pending || t.rows[d].status == Approved
    ensures Reaches(t, asks, u) && Went(t, u, d, 1, Aborted)
  {
    hide Serve, SafeTables;
    var req := Order(t, d, Aborted, "operator", Operator);
    EarlyAbortServes(t, d, req);
    asks, u := AlsoAsk(t, [], t, req, 0);
  }

  lemma ExecuteAndAbort(t: Tables, d: Key, g: Key) returns (asks: seq<Ask>, u: Tables)
    requires SafeTables(t) && Ready(t, d, g) && t.rows[d].status == Approved
    ensures Reaches(t, asks, u) && Went(t, u, d, 2, Aborted)
  {
    hide Serve, SafeTables;
    var a, v := Execute(t, d, g);
    ReachesSafe(t, a, v);
    var req := Order(v, d, Aborted, "operator", Operator);
    AbortServes(v, d, g, req);
    asks, u := AlsoAsk(t, a, v, req, 0);
  }

  lemma MoveApproved(t: Tables, d: Key, m: nat) returns (asks: seq<Ask>, u: Tables)
    requires SafeTables(t) && IsLive(t, d) && d.kind == OperationDirective && t.rows[d].status == Approved
    requires m == 1 || (m == 2 && HasLiveGate(t, d))
    ensures Reaches(t, asks, u) && Went(t, u, d, m, Aborted)
  {
    hide SafeTables, Reaches;
    if m == 1 {
      asks, u := AbortEarly(t, d);
    } else {
      var g :| ActsOn(t, d, g) && IsLive(t, g);
      asks, u := ExecuteAndAbort(t, d, g);
    }
  }

  lemma GateKept(t: Tables, u: Tables, d: Key, row: Record)
    requires d in t.rows && d.kind == OperationDirective && u.rows == t.rows[d := row]
    requires row.related == t.rows[d].related && HasLiveGate(t, d)
    ensures HasLiveGate(u, d)
  {
    var g :| ActsOn(t, d, g) && IsLive(t, g);
    assert ActsOn(u, d, g) && IsLive(u, g);
  }

  lemma MovePending(t: Tables, d: Key, m: nat) returns (asks: seq<Ask>, u: Tables)
    requires SafeTables(t) && IsLive(t, d) && d.kind == OperationDirective && t.rows[d].status == Pending && m > 0
    requires m <= 2 || (m == 3 && HasLiveGate(t, d))
    ensures Reaches(t, asks, u) && Went(t, u, d, m, Aborted)
  {
    hide SafeTables, Reaches, HasLiveGate;
    if m == 1 {
      asks, u := AbortEarly(t, d);
    } else {
      asks, u := Approve(t, d);
      if m == 3 {
        GateKept(t, u, d, u.rows[d]);
      }
      var more, v := MoveApproved(u, d, m - 1);
      ReachesThen(t, asks, u, more, v);
      asks, u := asks + more, v;
    }
  }

  lemma EditClaim(t: Tables, c: Key, d: Key) returns (asks: seq<Ask>, u: Tables)
    requires SafeTables(t) && IsLive(t, c) && Running(t, c, d) && t.rows[c].status == Pending
    ensures Reaches(t, asks, u) && SafeTables(u) && Running(u, c, d) && Went(t, u, c, 1, Pending)
  {
    hide Serve, SafeTables;
    EditConfirmationServes(t, c, d, "operator");
    asks, u := AlsoAsk(t, [], t, Edit(t, c, ConfirmationInput(t, c), "operator"), 0);
  }

  lemma {:induction false} MoveClaim(t: Tables, c: Key, d: Key, m: nat) returns (asks: seq<Ask>, u: Tables)
    requires SafeTables(t) && IsLive(t, c) && Running(t, c, d) && t.rows[c].status == Pending && m > 0
    ensures Reaches(t, asks, u) && Went(t, u, c, m, Pending)
    decreases m
  {
    hide SafeTables, Reaches;
    asks, u := EditClaim(t, c, d);
    if m > 1 {
      var more, v := MoveClaim(u, c, d, m - 1);
      ReachesThen(t, asks, u, more, v);
      asks, u := asks + more, v;
    }
  }

  lemma Cancel(t: Tables, c: Key) returns (asks: seq<Ask>, u: Tables)
    requires SafeTables(t) && IsLive(t, c) && c.kind == ExecutionConfirmation && t.rows[c].status == Failed
    ensures Reaches(t, asks, u) && Went(t, u, c, 1, Cancelled)
  {
    hide Serve, SafeTables;
    var req := Order(t, c, Cancelled, "operator", Operator);
    CancelServes(t, c, req);
    asks, u := AlsoAsk(t, [], t, req, 0);
  }

  /** The versions that others can bring about without help from requests under way. */
  ghost predicate Walkable(s: System, k: Key, m: nat)
    requires k in s.db.rows
  {
    && Reachable(s, k, m)
    && !(k.kind == OperationDirective && s.db.rows[k].status == Executing)
    && (k.kind == ExecutionConfirmation && s.db.rows[k].status == Pending ==> HasRunningDirective(s.db, k))
  }

  lemma GoElsewhere(s: System, k: Key, m: nat) returns (asks: seq<Ask>, u: Tables)
    requires SafeTables(s.db) && IsLive(s.db, k) && m > 0 && Walkable(s, k, m)
    ensures Reaches(s.db, asks, u) && IsLive(u, k) && u.rows[k].version == s.db.rows[k].version + m
    ensures k.kind != ExecutionConfirmation ==> u.rows[k].status != s.db.rows[k].status
  {
    hide SafeTables, Reaches, HasLiveGate, Running, BeingEdited;
    var t := s.db;
    RowKnown(t, k);
    match k.kind
    case OperationDirective =>
      if t.rows[k].status == Draft {
        asks, u := MoveDraft(t, k, m);
      } else if t.rows[k].status == Pending {
        asks, u := MovePending(t, k, m);
      } else {
        asks, u := MoveApproved(t, k, m);
      }
    case ExecutionConfirmation =>
      if t.rows[k].status == Pending {
        var d :| Running(t, k, d);
        asks, u := MoveClaim(t, k, d, m);
      } else {
        asks, u := Cancel(t, k);
      }
    case _ =>
      asks, u := Wander(t, k, t.rows[k].status, m);
  }

  // ----- Requests that update one row -----

  /** A request that updates its own row only, and records no approval. */
  predicate Lone(f: Flight, id: nat) {
    && SendsVersion(f.req) && Plan(f, id).Ok? && Plan(f, id).value == Single(Plan(f, id).value.first)
    && Plan(f, id).value.first.approval.None?
  }

  /** The condition under which the optimistic update writes. */
  predicate GuardPasses(t: Tables, k: Key, expected: nat) {
    IsLive(t, k) && t.rows[k].version == expected
  }

  lemma LoneSwap(f: Flight, id: nat)
    requires Lone(f, id) && WellRead(f)
    ensures f.primary.Some?
    ensures var c := Plan(f, id).value.first.change;
      && c.Swap? && c.key == f.req.Subject() && c.expected == f.req.expected
      && (f.req.kind == ExecutionConfirmation ==>
            c.row.related == f.primary.value.related || c.row.related == Norm(f.primary.value.related))
  {
    hide Trim, EqualFold, Filled, Norm, Proper;
  }

  lemma RelatedKept(t: Tables, k: Key, r: Record)
    requires SafeTables(t) && k.kind == ExecutionConfirmation && Seen(t, k, r)
    ensures r.related == t.rows[k].related && Norm(r.related) == r.related && !RelatedTaken(t.rows, k, r.related)
  {
    hide Norm;
    assert Sound(k.kind, t.rows[k], History(t.audits, k), ApprovalsOf(t.approvals, k.id));
  }

  /** Such a request commits exactly if the guard lets it. */
  lemma LoneCommits(t: Tables, f: Flight, id: nat)
    requires SafeTables(t) && SafeFlight(t, f) && Lone(f, id)
    ensures Attempt(t, f, id).Ok? <==> GuardPasses(t, f.req.Subject(), f.req.expected)
  {
    hide SafeTables, Plan, Norm;
    LoneSwap(f, id);
    if f.req.kind == ExecutionConfirmation {
      RelatedKept(t, f.req.Subject(), f.primary.value);
    }
  }

  lemma EditingIsLone(t: Tables, f: Flight, c: Key)
    requires Editing(t, f, c) && t.rows[c].status == Pending
    ensures Lone(f, 0) && Plan(f, 0).value.first.change.Swap? && Plan(f, 0).value.first.change.row.version
                                                                 == t.rows[c].version + 1
  {
    EditConfirmationPlan(f, 0);
  }

  lemma EditingCommits(t: Tables, f: Flight, c: Key)
    requires SafeTables(t) && SafeFlight(t, f) && Editing(t, f, c) && t.rows[c].status == Pending
    ensures var r := Attempt(t, f, 0); r.Ok? && GuardPasses(r.value, c, t.rows[c].version + 1)
  {
    hide SafeTables, SafeFlight, Plan, Lone, Norm, Trim, EqualFold, Filled;
    EditingIsLone(t, f, c);
    LoneCommits(t, f, 0);
    LoneEffect(t, f);
  }

  lemma LoneEffect(t: Tables, f: Flight)
    requires Lone(f, 0) && SafeFlight(t, f) && Attempt(t, f, 0).Ok?
    ensures IsLive(Attempt(t, f, 0).value, f.req.Subject())
    ensures Plan(f, 0).value.first.change.Swap?
    ensures Attempt(t, f, 0).value.rows[f.req.Subject()].version == Plan(f, 0).value.first.change.row.version
  {
    hide Plan;
    LoneSwap(f, 0);
  }

  // ----- What cannot be reached -----

  lemma RankBound(kind: Kind, s: Status)
    ensures Rank(kind, s) <= if kind == OperationDirective then 4 else 2
  {
  }

  /** A submitted directive without a gate: its steps are numbered, and once it executes it is stranded. */
  ghost predicate Grounded(s: System, d: Key, g: Key, bound: nat) {
    && ActsOn(s.db, d, g) && !s.db.rows[g].live
    && (match Rank(OperationDirective, s.db.rows[d].status)
        case 1 => s.db.rows[d].version + 2 <= bound
        case 2 => s.db.rows[d].version + 1 <= bound
        case 3 => s.db.rows[d].version <= bound && Stranded(s, d, g)
        case 4 => s.db.rows[d].version <= bound
        case _ => false)
  }

  lemma NotDecisiveYet(t: Tables, u: Tables, f: Flight, d: Key, g: Key)
    requires FreshFlight(t, f) && IsDirective(t, d) && Rank(OperationDirective, t.rows[d].status) < 3
    requires d in u.rows && u.rows[d].status == Executing
    ensures !Decisive(u, f, d, g)
  {
  }

  /** One commit, seen from one directive: at most one version, and never a lower rank. */
  lemma CommitSteps(t: Tables, f: Flight, id: nat, u: Tables, d: Key)
    requires SafeTables(t) && SafeFlight(t, f) && Honest(f) && Attempt(t, f, id) == Ok(u) && d in t.rows
    ensures SafeTables(u) && Grows(t, u) && d in u.rows && u.rows[d].version <= t.rows[d].version + 1
  {
    hide Plan, ApplyTx, Grows, SafeTables, SafeFlight, Honest, Tidy;
    AttemptSafe(t, f, id, u);
    SafeFlightIsFresh(t, f);
    PlanTidy(f, id);
    TxVersions(t, Plan(f, id).value, u, d);
  }

  lemma StepsUp(t: Tables, u: Tables, d: Key)
    requires SafeTables(u) && Grows(t, u) && IsDirective(t, d) && t.rows[d].status != Draft
    ensures IsDirective(u, d)
    ensures Rank(OperationDirective, t.rows[d].status) <= Rank(OperationDirective, u.rows[d].status)
    ensures Rank(OperationDirective, t.rows[d].status) == Rank(OperationDirective, u.rows[d].status) ==>
      u.rows[d].version == t.rows[d].version
    ensures KnownStatus(OperationDirective, u.rows[d].status)
  {
    hide SafeTables;
    assert Grown(d.kind, t.rows[d], u.rows[d]);
    RowKnown(u, d);
  }

  lemma GroundedByCommit(s: System, n: nat, id: nat, u: Tables, d: Key, g: Key, bound: nat)
    requires SafeSystem(s) && Grounded(s, d, g, bound) && n in s.flights && Honest(s.flights[n])
    requires Attempt(s.db, s.flights[n], id) == Ok(u)
    ensures Grounded(System(u, s.flights - {n}), d, g, bound)
  {
    hide SafeTables, SafeFlight, Attempt, Honest, Grows, Stranded, CanLeave;
    var t := s.db;
    CommitSteps(t, s.flights[n], id, u, d);
    GroundedIsSubmitted(s, d, g, bound);
    StepsUp(t, u, d);
    GateStaysDead(t, u, d, g);
    if t.rows[d].status == Executing {
      CommitStaysStranded(s, n, id, u, d, g);
      StrandedIsExecuting(System(u, s.flights - {n}), d, g);
    } else if u.rows[d].status == Executing {
      BecomesStranded(s, n, u, d, g);
    }
    RankTells(u.rows[d].status);
  }

  lemma StrandedIsExecuting(s: System, d: Key, g: Key)
    requires Stranded(s, d, g)
    ensures ActsOn(s.db, d, g) && s.db.rows[d].status == Executing
  {
  }

  lemma RankTells(s: Status)
    ensures Rank(OperationDirective, s) == 3 <==> s == Executing
    ensures Rank(OperationDirective, s) <= 4
  {
  }

  lemma GroundedIsSubmitted(s: System, d: Key, g: Key, bound: nat)
    requires Grounded(s, d, g, bound)
    ensures IsDirective(s.db, d) && s.db.rows[d].status != Draft
    ensures s.db.rows[d].status == Executing ==> Stranded(s, d, g)
    ensures s.db.rows[d].status != Executing ==> Rank(OperationDirective, s.db.rows[d].status) in {1, 2, 4}
  {
  }

  lemma GateStaysDead(t: Tables, u: Tables, d: Key, g: Key)
    requires Grows(t, u) && ActsOn(t, d, g) && !t.rows[g].live && t.rows[d].status != Draft
    ensures ActsOn(u, d, g) && !u.rows[g].live
  {
    assert Grown(d.kind, t.rows[d], u.rows[d]) && Grown(g.kind, t.rows[g], u.rows[g]);
  }

  lemma BecomesStranded(s: System, n: nat, u: Tables, d: Key, g: Key)
    requires SafeSystem(s) && ActsOn(s.db, d, g) && Rank(OperationDirective, s.db.rows[d].status) < 3
    requires ActsOn(u, d, g) && !u.rows[g].live && u.rows[d].status == Executing
    ensures Stranded(System(u, s.flights - {n}), d, g)
  {
    hide SafeTables, SafeFlight, Decisive, Rank;
    forall m | m in s.flights ensures !Decisive(u, s.flights[m], d, g) {
      SafeFlightIsFresh(s.db, s.flights[m]);
      NotDecisiveYet(s.db, u, s.flights[m], d, g);
    }
  }

  lemma GroundedByRead(s: System, e: Event, d: Key, g: Key, bound: nat)
    requires SafeSystem(s) && !e.Commit? && Grounded(s, d, g, bound)
    ensures Grounded(Next(s, e), d, g, bound)
  {
    hide SafeSystem, Stranded, Rank;
    GroundedIsSubmitted(s, d, g, bound);
    RankTells(s.db.rows[d].status);
    if s.db.rows[d].status == Executing {
      NextStaysStranded(s, e, d, g);
    }
    assert Next(s, e).db == s.db;
  }

  lemma NextGrounded(s: System, e: Event, d: Key, g: Key, bound: nat)
    requires SafeSystem(s) && CarefulEvent(s, e) && Grounded(s, d, g, bound)
    ensures Grounded(Next(s, e), d, g, bound)
  {
    hide SafeSystem, Grounded, Attempt, Honest;
    if !e.Commit? {
      GroundedByRead(s, e, d, g, bound);
    } else if e.n in s.flights {
      var r := Attempt(s.db, s.flights[e.n], e.id);
      if e.healthy && r.Ok? {
        GroundedByCommit(s, e.n, e.id, r.value, d, g, bound);
      } else {
        GroundedWithout(s, e.n, d, g, bound);
      }
    }
  }

  lemma GroundedWithout(s: System, n: nat, d: Key, g: Key, bound: nat)
    requires Grounded(s, d, g, bound)
    ensures Grounded(System(s.db, s.flights - {n}), d, g, bound)
  {
    hide Stranded, Rank;
    GroundedIsSubmitted(s, d, g, bound);
    RankTells(s.db.rows[d].status);
    if s.db.rows[d].status == Executing {
      StrandedWithout(s, n, d, g);
    }
  }

  lemma {:induction false} GroundedForever(es: seq<Event>, more: seq<Event>, d: Key, g: Key, bound: nat)
    requires Careful(es + more) && Grounded(Run(es), d, g, bound)
    ensures Grounded(Run(es + more), d, g, bound)
  {
    hide Grounded, SafeSystem, Next, CarefulEvent;
    if more == [] {
      assert es + more == es;
    } else {
      var part := es + more[..|more| - 1];
      assert (es + more)[..|es + more| - 1] == part;
      GroundedForever(es, more[..|more| - 1], d, g, bound);
      RunSafe(part);
      NextGrounded(Run(part), more[|more| - 1], d, g, bound);
    }
  }

  lemma GroundedBound(s: System, d: Key, g: Key, bound: nat)
    requires Grounded(s, d, g, bound)
    ensures d in s.db.rows && s.db.rows[d].version <= bound
  {
  }

  /** A pending confirmation whose directive does not execute any more: only an edit under way can still change it. */
  ghost predicate Idle(s: System, c: Key, d: Key, bound: nat) {
    && Names(s.db, c, d) && s.db.rows[c].status == Pending && !Running(s.db, c, d)
    && s.db.rows[c].version + (if BeingEdited(s, c) then 1 else 0) <= bound
  }

  lemma OneDirective(t: Tables, c: Key, d: Key, l: Key)
    requires SafeTables(t) && Names(t, c, d) && IsDirective(t, l) && t.rows[l].code == Norm(t.rows[c].related)
    ensures l == d
  {
    hide Norm;
    assert Sound(c.kind, t.rows[c], History(t.audits, c), ApprovalsOf(t.approvals, c.id));
  }

  lemma WritesClaim(f: Flight, id: nat, c: Key)
    requires WellRead(f) && Plan(f, id).Ok? && c.kind == ExecutionConfirmation && Writes(Plan(f, id).value, c)
    ensures Swaps(Plan(f, id).value.first, c) && f.req.Subject() == c
    ensures f.req.verb == Update || f.req.verb == Transition
  {
    hide Norm, Trim, EqualFold, Filled, Proper;
  }

  lemma TransitionDecides(f: Flight, id: nat)
    requires WellRead(f) && Plan(f, id).Ok? && f.req.kind == ExecutionConfirmation && f.req.verb == Transition
    requires f.primary.Some? && f.primary.value.status == Pending
    ensures Plan(f, id).value.second.Some? && f.link.Some? && f.link.value.key.kind == OperationDirective
    ensures f.link.value.row.status == Executing && f.link.value.row.code == Norm(f.primary.value.related)
  {
    hide Norm, Trim, EqualFold, Filled, Proper;
  }

  lemma UpdateEdits(t: Tables, f: Flight, id: nat)
    requires WellRead(f) && Plan(f, id).Ok? && f.req.kind == ExecutionConfirmation && f.req.verb == Update
    requires IsLive(t, f.req.Subject()) && f.primary == Some(t.rows[f.req.Subject()])
    requires f.req.expected == t.rows[f.req.Subject()].version
    ensures Editing(t, f, f.req.Subject()) && Plan(f, id).value.first.change.Swap?
    ensures Plan(f, id).value.first.change.row.status == f.primary.value.status
  {
    hide Norm, Trim, EqualFold, Filled, Proper;
  }

  /** Without a directive in execution, a commit that changes the confirmation is an edit under way. */
  lemma WriterEdits(t: Tables, f: Flight, id: nat, tx: Tx, u: Tables, c: Key, d: Key)
    requires SafeTables(t) && SafeFlight(t, f) && Honest(f)
    requires Plan(f, id) == Ok(tx) && ApplyTx(t, tx) == Ok(u) && Writes(tx, c)
    requires Names(t, c, d) && t.rows[c].status == Pending && !Running(t, c, d)
    ensures Editing(t, f, c) && Swaps(tx.first, c) && tx.first.change.row.status == Pending
  {
    hide SafeTables, Plan, ApplyTx, Writes, Norm, EqualFold, Filled, Proper;
    SafeFlightIsFresh(t, f);
    PlanTidy(f, id);
    WritesClaim(f, id, c);
    CommitSeesSnapshots(t, f, id, u);
    TxCurrent(t, tx, u);
    PlanVersions(f, id);
    if f.req.verb == Transition {
      TransitionDecides(f, id);
      OneDirective(t, c, d, f.link.value.key);
    } else {
      UpdateEdits(t, f, id);
    }
  }

  lemma NotRunningStays(t: Tables, u: Tables, c: Key, d: Key)
    requires SafeTables(t) && SafeTables(u) && Grows(t, u) && Names(t, c, d)
    requires t.rows[c].status == Pending && !Running(t, c, d)
    ensures Names(u, c, d) && !Running(u, c, d)
  {
    hide SafeTables, Grows;
    NamesStay(t, u, c, d);
    if !t.rows[d].live {
      DeadStays(t, u, d);
    } else {
      PendingClaimTells(t, c, d);
      AbortedStays(t, u, d);
    }
  }

  lemma PendingClaimTells(t: Tables, c: Key, d: Key)
    requires SafeTables(t) && Names(t, c, d) && t.rows[c].status == Pending
    ensures t.rows[d].status == Executing || t.rows[d].status == Aborted
  {
    assert Agree(t.rows[c], t.rows[d]);
  }

  lemma EditingEarlier(t: Tables, u: Tables, f: Flight, c: Key)
    requires FreshFlight(t, f) && Grows(t, u) && c in t.rows && Editing(u, f, c)
    ensures u.rows[c].version <= t.rows[c].version && Editing(t, f, c)
  {
    hide Filled, EqualFold, Trim;
    assert Grown(c.kind, t.rows[c], u.rows[c]);
  }

  /** What a commit makes of the row of the confirmation. */
  lemma ClaimAfter(t: Tables, f: Flight, id: nat, u: Tables, c: Key, d: Key)
    requires SafeTables(t) && SafeFlight(t, f) && Honest(f) && Attempt(t, f, id) == Ok(u)
    requires Names(t, c, d) && t.rows[c].status == Pending && !Running(t, c, d)
    ensures c in u.rows && u.rows[c].status == Pending
    ensures u.rows[c].version == t.rows[c].version
            || (u.rows[c].version == t.rows[c].version + 1 && Editing(t, f, c))
  {
    hide SafeTables, SafeFlight, Plan, Writes, Editing, Tidy, WellShaped;
    SafeFlightIsFresh(t, f);
    PlanTidy(f, id);
    TxVersions(t, Plan(f, id).value, u, c);
    var tx := Plan(f, id).value;
    if Writes(tx, c) {
      WriterEdits(t, f, id, tx, u, c, d);
      FirstRowStands(t, tx, u, c);
    }
  }

  /** The row that the first step writes keeps what that step wrote. */
  lemma FirstRowStands(t: Tables, tx: Tx, u: Tables, c: Key)
    requires Tidy(tx) && ApplyTx(t, tx) == Ok(u) && Swaps(tx.first, c)
    ensures c in u.rows && u.rows[c].status == tx.first.change.row.status
  {
    hide ApplyStep, ValidBlock;
    TidyDistinct(tx);
    var t1 := ApplyStep(t, tx.first).value;
    StepEffect(t, tx.first, t1);
    if tx.second.Some? {
      var t2 := ApplyStep(t1, tx.second.value).value;
      StepEffect(t1, tx.second.value, t2);
      if tx.third.Some? {
        StepEffect(t2, tx.third.value, u);
      }
    }
  }

  lemma IdleByCommit(s: System, n: nat, id: nat, u: Tables, c: Key, d: Key, bound: nat)
    requires SafeSystem(s) && Idle(s, c, d, bound) && n in s.flights && Honest(s.flights[n])
    requires Attempt(s.db, s.flights[n], id) == Ok(u)
    ensures Idle(System(u, s.flights - {n}), c, d, bound)
  {
    hide SafeTables, SafeFlight, Attempt, Honest, Grows, Running, Editing;
    var t := s.db;
    CommitSteps(t, s.flights[n], id, u, c);
    ClaimAfter(t, s.flights[n], id, u, c, d);
    NotRunningStays(t, u, c, d);
    forall m | m in s.flights
      ensures Editing(u, s.flights[m], c) ==>
        Editing(t, s.flights[m], c) && u.rows[c].version <= t.rows[c].version
    {
      SafeFlightIsFresh(t, s.flights[m]);
      if Editing(u, s.flights[m], c) {
        EditingEarlier(t, u, s.flights[m], c);
      }
    }
  }

  lemma IdleWith(s: System, flights: map<nat, Flight>, c: Key, d: Key, bound: nat)
    requires Idle(s, c, d, bound)
    requires forall n :: n in flights && Editing(s.db, flights[n], c) ==> BeingEdited(s, c)
    ensures Idle(System(s.db, flights), c, d, bound)
  {
    hide Running, Editing;
  }

  lemma FetchEditsNothing(t: Tables, f: Flight, e: Event, c: Key, d: Key)
    requires SafeTables(t) && WellRead(f) && Names(t, c, d) && t.rows[c].status == Pending && !Running(t, c, d)
    requires Editing(t, Fetch(t, f, e), c)
    ensures Editing(t, f, c)
  {
    hide SafeTables, Norm, Filled, EqualFold, Trim, Proper, Unclaimed;
    if e.ReadLink? && f.link.None? {
      var l := FindByCode(t, OperationDirective, t.rows[c].related).value;
      OneDirective(t, c, d, l.key);
    }
  }

  lemma IdleByRead(s: System, e: Event, c: Key, d: Key, bound: nat)
    requires SafeSystem(s) && !e.Commit? && Idle(s, c, d, bound)
    ensures Idle(Next(s, e), c, d, bound)
  {
    hide SafeTables, SafeFlight, Fetch, Running, Editing;
    if e.Start? {
      BegunEditsNothing(s.db, e.req, c);
    } else if e.n in s.flights {
      SafeFlightIsFresh(s.db, s.flights[e.n]);
      if Editing(s.db, Fetch(s.db, s.flights[e.n], e), c) {
        FetchEditsNothing(s.db, s.flights[e.n], e, c, d);
      }
    }
    IdleWith(s, Next(s, e).flights, c, d, bound);
  }

  lemma BegunEditsNothing(t: Tables, req: Request, c: Key)
    ensures !Editing(t, Begun(req), c)
  {
  }

  lemma NextIdle(s: System, e: Event, c: Key, d: Key, bound: nat)
    requires SafeSystem(s) && CarefulEvent(s, e) && Idle(s, c, d, bound)
    ensures Idle(Next(s, e), c, d, bound)
  {
    hide SafeSystem, Idle, Attempt, Honest, Editing;
    if !e.Commit? {
      IdleByRead(s, e, c, d, bound);
    } else if e.n in s.flights {
      var r := Attempt(s.db, s.flights[e.n], e.id);
      if e.healthy && r.Ok? {
        IdleByCommit(s, e.n, e.id, r.value, c, d, bound);
      } else {
        IdleWith(s, s.flights - {e.n}, c, d, bound);
      }
    }
  }

  lemma {:induction false} IdleForever(es: seq<Event>, more: seq<Event>, c: Key, d: Key, bound: nat)
    requires Careful(es + more) && Idle(Run(es), c, d, bound)
    ensures Idle(Run(es + more), c, d, bound)
  {
    hide Idle, SafeSystem, Next, CarefulEvent;
    if more == [] {
      assert es + more == es;
    } else {
      var part := es + more[..|more| - 1];
      assert (es + more)[..|es + more| - 1] == part;
      IdleForever(es, more[..|more| - 1], c, d, bound);
      RunSafe(part);
      NextIdle(Run(part), more[|more| - 1], c, d, bound);
    }
  }

  // ----- The guard -----

  /** Whatever others do, an update guarded by `expected` overwrites nothing but `r`. */
  ghost predicate Protected(es: seq<Event>, k: Key, expected: nat, r: Record) {
    forall more :: Careful(es + more) && GuardPasses(Run(es + more).db, k, expected) ==> Run(es + more).db.rows[k] == r
  }

  /** Whatever others do, an update guarded by `expected` overwrites a row in status `s`. */
  ghost predicate StatusProtected(es: seq<Event>, k: Key, expected: nat, s: Status) {
    forall more :: Careful(es + more) && GuardPasses(Run(es + more).db, k, expected) ==>
      Run(es + more).db.rows[k].status == s
  }

  /** The version is not ahead of the row, or out of its reach. */
  ghost predicate Guarding(s: System, k: Key, expected: nat)
    requires k in s.db.rows
  {
    expected <= s.db.rows[k].version || !Reachable(s, k, expected - s.db.rows[k].version)
  }

  lemma DirectiveOutOfReach(t: Tables, u: Tables, d: Key)
    requires SafeTables(t) && SafeTables(u) && Grows(t, u) && IsDirective(t, d) && t.rows[d].status != Draft
    ensures IsDirective(u, d)
    ensures u.rows[d].version - t.rows[d].version
            <= Rank(OperationDirective, u.rows[d].status) - Rank(OperationDirective, t.rows[d].status)
    ensures Rank(OperationDirective, u.rows[d].status) <= 4
    ensures KnownStatus(OperationDirective, t.rows[d].status)
  {
    hide SafeTables;
    RowKnown(t, d);
    assert Grown(d.kind, t.rows[d], u.rows[d]);
  }

  lemma ActsOnSome(t: Tables, d: Key) returns (g: Key)
    requires SafeTables(t) && IsDirective(t, d)
    ensures ActsOn(t, d, g)
  {
    g :| ActsOn(t, d, g);
  }

  lemma NamesSome(t: Tables, c: Key) returns (d: Key)
    requires SafeTables(t) && IsConfirmation(t, c)
    ensures Names(t, c, d)
  {
    d :| Names(t, c, d);
  }

  lemma {:induction false} DirectiveStops(es: seq<Event>, more: seq<Event>, d: Key, m: nat)
    requires Careful(es + more) && IsDirective(Run(es).db, d) && m > 0 && !Reachable(Run(es), d, m)
    ensures d in Run(es + more).db.rows && Run(es + more).db.rows[d].version != Run(es).db.rows[d].version + m
  {
    hide Run, Careful, SafeTables, Grows, Rank, CanLeave;
    CarefulPrefix(es, more);
    RunIsSafe(es);
    RunIsSafe(es + more);
    RunGrows(es, more);
    var s, t, u := Run(es), Run(es).db, Run(es + more).db;
    DirectiveOutOfReach(t, u, d);
    RanksAre(t.rows[d].status);
    var g := ActsOnSome(t, d);
    if t.rows[d].status == Executing {
      if !CanLeave(s, d, g) {
        StrandedForever(es, more, d, g);
        StepsUp(t, u, d);
      }
    } else if (t.rows[d].status == Pending || t.rows[d].status == Approved) && !IsLive(t, g) {
      var bound := t.rows[d].version + if t.rows[d].status == Pending then 2 else 1;
      StartsGrounded(s, d, g, bound);
      GroundedForever(es, more, d, g, bound);
      GroundedBound(Run(es + more), d, g, bound);
    }
  }

  lemma RanksAre(s: Status)
    ensures Rank(OperationDirective, Pending) == 1 && Rank(OperationDirective, Approved) == 2
    ensures Rank(OperationDirective, Executing) == 3
    ensures Rank(OperationDirective, Completed) == Rank(OperationDirective, Aborted) == 4
  {
  }

  lemma StartsGrounded(s: System, d: Key, g: Key, bound: nat)
    requires ActsOn(s.db, d, g) && !s.db.rows[g].live
    requires s.db.rows[d].status == Pending || s.db.rows[d].status == Approved
    requires bound == s.db.rows[d].version + if s.db.rows[d].status == Pending then 2 else 1
    ensures Grounded(s, d, g, bound)
  {
  }

  lemma ConfirmationOutOfReach(t: Tables, u: Tables, c: Key)
    requires SafeTables(t) && Grows(t, u) && IsConfirmation(t, c) && t.rows[c].status != Pending
    ensures c in u.rows && KnownStatus(ExecutionConfirmation, t.rows[c].status)
    ensures u.rows[c].version - t.rows[c].version <= if t.rows[c].status == Failed then 1 else 0
  {
    hide SafeTables;
    RowKnown(t, c);
    assert Grown(c.kind, t.rows[c], u.rows[c]);
    RankBound(ExecutionConfirmation, u.rows[c].status);
  }

  lemma {:induction false} ConfirmationStops(es: seq<Event>, more: seq<Event>, c: Key, m: nat)
    requires Careful(es + more) && IsConfirmation(Run(es).db, c) && m > 0 && !Reachable(Run(es), c, m)
    ensures c in Run(es + more).db.rows && Run(es + more).db.rows[c].version != Run(es).db.rows[c].version + m
  {
    hide Run, Careful, SafeTables, Grows, Rank, Running, BeingEdited;
    CarefulPrefix(es, more);
    RunIsSafe(es);
    RunGrows(es, more);
    var t := Run(es).db;
    if t.rows[c].status == Pending {
      var d := NamesSome(t, c);
      var bound := t.rows[c].version + if BeingEdited(Run(es), c) then 1 else 0;
      assert Idle(Run(es), c, d, bound);
      IdleForever(es, more, c, d, bound);
    } else {
      ConfirmationOutOfReach(t, Run(es + more).db, c);
    }
  }

  lemma {:induction false} GuardHolds(es: seq<Event>, k: Key, expected: nat)
    requires IsLive(Run(es).db, k) && Guarding(Run(es), k, expected)
    ensures Protected(es, k, expected, Run(es).db.rows[k])
  {
    hide Run, Careful, SafeTables, Rank, Reachable;
    var r := Run(es).db.rows[k];
    forall more | Careful(es + more) && GuardPasses(Run(es + more).db, k, expected)
      ensures Run(es + more).db.rows[k] == r
    {
      RunGrows(es, more);
      assert Grown(k.kind, r, Run(es + more).db.rows[k]);
      if expected > r.version {
        if k.kind == OperationDirective {
          DirectiveStops(es, more, k, expected - r.version);
        } else if k.kind == ExecutionConfirmation {
          ConfirmationStops(es, more, k, expected - r.version);
        } else {
          OthersMove(Run(es), k, expected - r.version);
        }
      }
    }
  }

  lemma OthersMove(s: System, k: Key, m: nat)
    requires k in s.db.rows && !Linked(k.kind)
    ensures Reachable(s, k, m)
  {
  }

  /** Some careful continuation brings the row to this version, and in another status unless it is a confirmation. */
  ghost predicate Arrives(es: seq<Event>, more: seq<Event>, k: Key, expected: nat)
    requires k in Run(es).db.rows
  {
    && Careful(es + more) && GuardPasses(Run(es + more).db, k, expected)
    && (k.kind != ExecutionConfirmation ==> Run(es + more).db.rows[k].status != Run(es).db.rows[k].status)
  }

  lemma {:induction false} WalkArrives(es: seq<Event>, k: Key, expected: nat)
    requires Careful(es) && IsLive(Run(es).db, k) && expected > Run(es).db.rows[k].version
    requires Walkable(Run(es), k, expected - Run(es).db.rows[k].version)
    ensures exists more :: Arrives(es, more, k, expected)
  {
    hide Run, Careful, SafeTables, Reaches, Walkable, Solos;
    RunIsSafe(es);
    var asks, u := GoElsewhere(Run(es), k, expected - Run(es).db.rows[k].version);
    var n := Above(Run(es).flights.Keys);
    SolosReach(es, n, asks, u);
    assert Arrives(es, Solos(n, asks), k, expected);
  }

  lemma {:induction false} LeaveArrives(es: seq<Event>, d: Key, expected: nat)
    requires Careful(es) && IsDirective(Run(es).db, d) && Run(es).db.rows[d].status == Executing
    requires MayLeave(Run(es), d) && expected == Run(es).db.rows[d].version + 1
    ensures exists more :: Arrives(es, more, d, expected)
  {
    hide Run, Careful, SafeTables, Grows, Decisive, Rank;
    var g :| ActsOn(Run(es).db, d, g) && CanLeave(Run(es), d, g);
    LeavesAlive(es, d, g);
    var more :| Careful(es + more) && Left(es + more, d) && IsLive(Run(es + more).db, d);
    RunIsSafe(es);
    RunIsSafe(es + more);
    RunGrows(es, more);
    DirectiveOutOfReach(Run(es).db, Run(es + more).db, d);
    RanksAre(Executing);
    GrownRow(Run(es).db, Run(es + more).db, d);
    assert Arrives(es, more, d, expected);
  }

  lemma GrownRow(t: Tables, u: Tables, k: Key)
    requires Grows(t, u) && k in t.rows
    ensures k in u.rows && Grown(k.kind, t.rows[k], u.rows[k])
  {
  }

  lemma {:induction false} LeavesAlive(es: seq<Event>, d: Key, g: Key)
    requires Careful(es) && ActsOn(Run(es).db, d, g) && Run(es).db.rows[d].status == Executing
    requires CanLeave(Run(es), d, g)
    ensures exists more :: Careful(es + more) && Left(es + more, d) && IsLive(Run(es + more).db, d)
  {
    hide Run, Careful, Decisive;
    if Run(es).db.rows[g].live {
      LiveGateLetsLeave(es, d, g);
    } else {
      var n :| n in Run(es).flights && Decisive(Run(es).db, Run(es).flights[n], d, g);
      DecisiveLetsLeave(es, n, d, g);
    }
  }

  lemma {:induction false} EditArrives(es: seq<Event>, c: Key, expected: nat)
    requires Careful(es) && IsConfirmation(Run(es).db, c) && Run(es).db.rows[c].status == Pending
    requires BeingEdited(Run(es), c) && expected == Run(es).db.rows[c].version + 1
    ensures exists more :: Arrives(es, more, c, expected)
  {
    hide Run, Careful, SafeTables, SafeFlight, Attempt, Editing;
    var n :| n in Run(es).flights && Editing(Run(es).db, Run(es).flights[n], c);
    RunSafe(es);
    EditingCommits(Run(es).db, Run(es).flights[n], c);
    EditingIsHonest(Run(es).db, Run(es).flights[n], c);
    RunAppend(es, Commit(n, 0, true));
    CommitNext(Run(es), n, 0);
    CarefulAppend(es, Commit(n, 0, true));
    assert Arrives(es, [Commit(n, 0, true)], c, expected);
  }

  lemma EditingIsHonest(t: Tables, f: Flight, c: Key)
    requires Editing(t, f, c)
    ensures Honest(f)
  {
  }

  lemma {:induction false} GuardFails(es: seq<Event>, k: Key, expected: nat)
    requires Careful(es) && IsLive(Run(es).db, k) && !Guarding(Run(es), k, expected)
    ensures exists more :: Arrives(es, more, k, expected)
  {
    hide Run, Careful, HasLiveGate, HasRunningDirective, MayLeave, BeingEdited;
    var s := Run(es);
    if Walkable(s, k, expected - s.db.rows[k].version) {
      WalkArrives(es, k, expected);
    } else if k.kind == OperationDirective {
      LeaveArrives(es, k, expected);
    } else {
      EditArrives(es, k, expected);
    }
  }

  /** The versions a client may send, exactly. Take a live row at the moment it is read. An update that is guarded by
      version `expected` overwrites only the row that was read, whatever the other requests of careful runs do before it
      commits, if and only if `expected` is not ahead of the version read, or so far ahead that the row cannot get
      there. Otherwise a run brings a reservoir, gate or directive to that version in another status. */
  lemma {:induction false} GuardIsExact(es: seq<Event>, k: Key, expected: nat)
    requires Careful(es) && IsLive(Run(es).db, k)
    ensures Guarding(Run(es), k, expected) <==> Protected(es, k, expected, Run(es).db.rows[k])
    ensures k.kind != ExecutionConfirmation ==>
      (Guarding(Run(es), k, expected) <==> StatusProtected(es, k, expected, Run(es).db.rows[k].status))
  {
    hide Run, Careful, Reachable;
    if Guarding(Run(es), k, expected) {
      GuardHolds(es, k, expected);
    } else {
      GuardFails(es, k, expected);
      var more :| Arrives(es, more, k, expected);
      assert Run(es + more).db.rows[k] != Run(es).db.rows[k];
    }
  }

  predicate Holds(t: Tables, k: Key, r: Record) {
    k in t.rows && t.rows[k] == r
  }

  /** For requests that update one row and record no approval the condition decides the whole commit: it overwrites
      nothing but the row it validated if and only if the version it sends is not ahead of the one it read, or out of
      reach. */
  lemma {:induction false} CommitGuardIsExact(es: seq<Event>, n: nat, id: nat)
    requires Careful(es) && n in Run(es).flights
    requires var t, f := Run(es).db, Run(es).flights[n];
      IsLive(t, f.req.Subject()) && f.primary == Some(t.rows[f.req.Subject()]) && Lone(f, id)
    ensures var f := Run(es).flights[n];
      Guarding(Run(es), f.req.Subject(), f.req.expected)
      <==> forall more :: Careful(es + more) && Attempt(Run(es + more).db, f, id).Ok? ==>
                            Holds(Run(es + more).db, f.req.Subject(), f.primary.value)
  {
    hide Run, Careful, SafeTables, SafeFlight, Reachable, Lone, Attempt;
    var f := Run(es).flights[n];
    var k := f.req.Subject();
    forall more | Careful(es + more)
      ensures Attempt(Run(es + more).db, f, id).Ok? <==> GuardPasses(Run(es + more).db, k, f.req.expected)
    {
      FlightLater(es, more, n);
      RunIsSafe(es + more);
      LoneCommits(Run(es + more).db, f, id);
    }
    GuardIsExact(es, k, f.req.expected);
  }

  lemma {:induction false} FlightLater(es: seq<Event>, more: seq<Event>, n: nat)
    requires Careful(es + more) && n in Run(es).flights
    ensures SafeFlight(Run(es + more).db, Run(es).flights[n])
  {
    hide Run, Careful, SafeTables;
    CarefulPrefix(es, more);
    RunSafe(es);
    RunGrows(es, more);
    FreshLater(Run(es).db, Run(es + more).db, Run(es).flights[n]);
  }
}
