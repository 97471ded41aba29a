/** What can always still be done: from every state of a careful run, a few requests lead a directive forward. */
module Progress {
  import opened Text
  import opened Model
  import opened Store
  import opened Planning
  import opened Protocol
  import opened Lives
  import opened Consistency
  import opened Alone
  import opened Serving

  lemma AlsoAsk(t: Tables, asks: seq<Ask>, u: Tables, req: Request, id: nat) returns (all: seq<Ask>, v: Tables)
    requires SafeTables(t) && Reaches(t, asks, u) && Bound(req) && Serve(u, req, id).Ok?
    ensures all == asks + [Ask(req, id)] && v == Serve(u, req, id).value
    ensures Reaches(t, all, v) && SafeTables(v)
  {
    hide Serve, SafeTables;
    all, v := asks + [Ask(req, id)], Serve(u, req, id).value;
    ReachesOne(u, req, id);
    ReachesThen(t, asks, u, [Ask(req, id)], v);
    ReachesSafe(t, all, v);
  }

  // ----- From draft to execution -----

  function Freed(rows: map<Key, Record>, g: Key): map<Key, Record>
    requires g in rows
  {
    if rows[g].status == Locked then rows[g := rows[g].(status := Closed, version := rows[g].version + 1)] else rows
  }

  /** A locked gate can be closed. */
  lemma Unlock(t: Tables, g: Key) returns (asks: seq<Ask>, u: Tables)
    requires SafeTables(t) && IsLive(t, g) && g.kind == GateUnit
    ensures Reaches(t, asks, u) && SafeTables(u) && |asks| <= 1 && u.rows == Freed(t.rows, g)
  {
    hide Serve, SafeTables;
    if t.rows[g].status == Locked {
      var req := Order(t, g, Closed, "operator", Operator);
      StatusServes(t, g, req);
      asks, u := AlsoAsk(t, [], t, req, 0);
    } else {
      asks, u := [], t;
    }
  }

  /** Somebody else can always be found. */
  function Another(name: string): (actor: string)
    ensures actor != "" && !EqualFold(name, actor)
  {
    assert |Upper(name + "x")| == |Upper(name)| + 1;
    name + "x"
  }

  lemma Submit(t: Tables, d: Key) returns (asks: seq<Ask>, u: Tables)
    requires SafeTables(t) && IsLive(t, d) && d.kind == OperationDirective && t.rows[d].status == Draft
    ensures Reaches(t, asks, u) && SafeTables(u) && |asks| == 1
    ensures var r := t.rows[d];
      u.rows == t.rows[d := r.(status := Pending, version := r.version + 1, submittedBy := "operator")]
  {
    hide Serve, SafeTables;
    var req := Order(t, d, Pending, "operator", Operator);
    SubmitServes(t, d, req);
    asks, u := AlsoAsk(t, [], t, req, 0);
  }

  lemma Approve(t: Tables, d: Key) returns (asks: seq<Ask>, u: Tables)
    requires SafeTables(t) && IsLive(t, d) && d.kind == OperationDirective && t.rows[d].status == Pending
    ensures Reaches(t, asks, u) && SafeTables(u) && |asks| == 1
    ensures var r := t.rows[d];
      u.rows == t.rows[d := r.(status := Approved, version := r.version + 1, approvedBy := Another(r.submittedBy))]
  {
    hide Serve, SafeTables;
    var req := Order(t, d, Approved, Another(t.rows[d].submittedBy), Reviewer);
    ApproveServes(t, d, req);
    asks, u := AlsoAsk(t, [], t, req, 0);
  }

  predicate Ready(t: Tables, d: Key, g: Key) {
    ActsOn(t, d, g) && IsLive(t, d) && IsLive(t, g)
  }

  lemma Execute(t: Tables, d: Key, g: Key) returns (asks: seq<Ask>, u: Tables)
    requires SafeTables(t) && Ready(t, d, g) && t.rows[d].status == Approved
    ensures Reaches(t, asks, u) && SafeTables(u) && |asks| <= 2 && Stuck(u, d, g)
    ensures u.rows[d] == t.rows[d].(status := Executing, version := t.rows[d].version + 1)
    ensures u.rows[g].status != Locked && u.rows.Keys == t.rows.Keys
  {
    hide Serve, SafeTables;
    var free, v := Unlock(t, g);
    var req := Order(v, d, Executing, "operator", Operator);
    ExecuteServes(v, d, g, req);
    asks, u := AlsoAsk(t, free, v, req, 0);
  }

  /** A draft whose gate is live can be brought to execution by four requests at most, one of which may have to unlock
      the gate. */
  lemma Dispatch(t: Tables, d: Key, g: Key) returns (asks: seq<Ask>, u: Tables)
    requires SafeTables(t) && Ready(t, d, g) && t.rows[d].status == Draft
    ensures Reaches(t, asks, u) && SafeTables(u) && |asks| <= 4 && Stuck(u, d, g)
    ensures u.rows.Keys == t.rows.Keys && u.rows[d].code == t.rows[d].code
  {
    hide Serve, SafeTables;
    var a, t1 := Submit(t, d);
    var b, t2 := Approve(t1, d);
    var c, t3 := Execute(t2, d, g);
    ReachesThen(t, a, t1, b, t2);
    ReachesThen(t, a + b, t2, c, t3);
    asks, u := a + b + c, t3;
  }

  /** From every state of a careful run, a live draft with a live gate can be brought to execution. */
  lemma {:induction false} CanExecute(es: seq<Event>, n: nat, d: Key, g: Key)
    requires Careful(es) && n !in Run(es).flights && Ready(Run(es).db, d, g) && Run(es).db.rows[d].status == Draft
    ensures exists asks :: |asks| <= 4 && Careful(es + Solos(n, asks)) && Stuck(Run(es + Solos(n, asks)).db, d, g)
  {
    hide Run, Careful, SafeTables, Reaches, Solos;
    RunIsSafe(es);
    var asks, u := Dispatch(Run(es).db, d, g);
    SolosReach(es, n, asks, u);
  }

  // ----- Abort -----

  /** From every state of a careful run, one request of an operator, reviewer or admin aborts an executing directive
      whose row and gate are live, and locks the gate. */
  lemma {:induction false} CanAbort(es: seq<Event>, n: nat, d: Key, g: Key, req: Request)
    requires Careful(es) && n !in Run(es).flights && Stuck(Run(es).db, d, g)
    requires Orders(Run(es).db, d, Aborted, req)
    requires req.role == Operator || req.role == Reviewer || req.role == Admin
    ensures Careful(es + Solo(n, req, 0))
    ensures var u := Run(es + Solo(n, req, 0)).db;
      IsLive(u, d) && IsLive(u, g) && u.rows[d].status == Aborted && u.rows[g].status == Locked
  {
    hide Run, Careful, SafeTables, Serve, Solo, Observe;
    RunIsSafe(es);
    AbortServes(Run(es).db, d, g, req);
    ServedIsHonest(Run(es).db, req, 0);
    SoloServes(es, n, req, 0);
  }

  // ----- Completion -----

  /** The next position of a gate on its way to a place from which its goal is one move away. */
  function Towards(from: Status): Status {
    if from == Locked then Closed else Moving
  }

  function Distance(from: Status, goal: Status): (n: nat)
    ensures n <= 2
  {
    if from == goal || CanTransition(GateUnit, from, goal) then 0
    else if from == Locked then 2
    else 1
  }

  lemma TowardsGoal(from: Status, goal: Status)
    requires KnownStatus(GateUnit, from) && Settled(goal) && Distance(from, goal) > 0
    ensures CanTransition(GateUnit, from, Towards(from)) && Distance(Towards(from), goal) < Distance(from, goal)
  {
  }

  predicate Confirms(req: Request, c: Key) {
    req.kind == ExecutionConfirmation && req.verb == Transition && req.Subject() == c && req.target == Confirmed
  }

  predicate MovesGate(req: Request, g: Key) {
    req.kind == GateUnit && req.verb == Transition && req.Subject() == g
  }

  /** At most two gate transitions, and then the confirmation. */
  predicate ByTheBook(asks: seq<Ask>, c: Key, g: Key) {
    && 1 <= |asks| <= 3 && Confirms(asks[|asks| - 1].req, c)
    && forall i :: 0 <= i < |asks| - 1 ==> MovesGate(asks[i].req, g)
  }

  predicate Done(t: Tables, u: Tables, c: Key, d: Key, g: Key) {
    && c in u.rows && d in t.rows && d in u.rows && g in u.rows
    && u.rows[c].status == Confirmed && u.rows[d].status == Completed && u.rows[g].status == t.rows[d].gateState
  }

  lemma GateKnown(t: Tables, d: Key, g: Key)
    requires SafeTables(t) && Stuck(t, d, g)
    ensures KnownStatus(GateUnit, t.rows[g].status) && Settled(t.rows[d].gateState)
  {
    FindsGate(t, d, g);
    RowProper(t, d);
  }

  lemma Confirm(t: Tables, c: Key, d: Key, g: Key) returns (asks: seq<Ask>, u: Tables)
    requires SafeTables(t) && Confirmable(t, c, d, g) && CanReach(t.rows[g], t.rows[d].gateState)
    ensures Reaches(t, asks, u) && ByTheBook(asks, c, g) && |asks| == 1 && Done(t, u, c, d, g)
  {
    hide Serve, SafeTables;
    var req := Order(t, c, Confirmed, "operator", Operator);
    DecisionServes(t, c, d, g, req);
    asks, u := AlsoAsk(t, [], t, req, 0);
  }

  lemma MoveGate(t: Tables, g: Key, target: Status) returns (asks: seq<Ask>, u: Tables)
    requires SafeTables(t) && IsLive(t, g) && g.kind == GateUnit && CanTransition(GateUnit, t.rows[g].status, target)
    ensures Reaches(t, asks, u) && SafeTables(u) && |asks| == 1 && MovesGate(asks[0].req, g)
    ensures u.rows == t.rows[g := t.rows[g].(status := target, version := t.rows[g].version + 1)]
  {
    hide Serve, SafeTables;
    var req := Order(t, g, target, "operator", Operator);
    StatusServes(t, g, req);
    asks, u := AlsoAsk(t, [], t, req, 0);
  }

  lemma {:induction false} Complete(t: Tables, c: Key, d: Key, g: Key) returns (asks: seq<Ask>, u: Tables)
    requires SafeTables(t) && Confirmable(t, c, d, g)
    ensures Reaches(t, asks, u) && ByTheBook(asks, c, g) && Done(t, u, c, d, g)
    ensures |asks| == Distance(t.rows[g].status, t.rows[d].gateState) + 1
    decreases Distance(t.rows[g].status, t.rows[d].gateState)
  {
    hide Serve, SafeTables;
    var from, goal := t.rows[g].status, t.rows[d].gateState;
    GateKnown(t, d, g);
    if Distance(from, goal) == 0 {
      asks, u := Confirm(t, c, d, g);
    } else {
      TowardsGoal(from, goal);
      var move, v := MoveGate(t, g, Towards(from));
      var rest, w := Complete(v, c, d, g);
      ReachesThen(t, move, v, rest, w);
      asks, u := move + rest, w;
    }
  }

  /** From every state of a careful run, an executing directive with a live gate and a live pending confirmation is
      completed by at most two transitions of its gate and the confirmation, and the gate ends where it was to go. */
  lemma {:induction false} CanComplete(es: seq<Event>, n: nat, c: Key, d: Key, g: Key)
    requires Careful(es) && n !in Run(es).flights && Confirmable(Run(es).db, c, d, g)
    ensures exists asks :: ByTheBook(asks, c, g) && Careful(es + Solos(n, asks))
                           && Done(Run(es).db, Run(es + Solos(n, asks)).db, c, d, g)
  {
    hide Run, Careful, SafeTables, Reaches, Solos;
    RunIsSafe(es);
    var asks, u := Complete(Run(es).db, c, d, g);
    SolosReach(es, n, asks, u);
  }
}
