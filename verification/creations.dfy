/** New rows can always be created: there is always a free identifier and a free code. */
module Creations {
  import opened Text
  import opened Model
  import opened Store
  import opened Planning
  import opened Consistency
  import opened Alone
  import opened Serving
  import opened Progress

  // ----- Free codes -----

  /** A code of `n` letters. */
  function Letters(n: nat): (s: string)
    ensures |s| == n
  {
    seq(n, i => 'X')
  }

  lemma LettersArePlain(n: nat)
    requires n > 0
    ensures Trim(Letters(n)) == Letters(n) && Norm(Letters(n)) == Letters(n)
  {
    assert TrimLeft(Letters(n)) == Letters(n) && TrimRight(Letters(n)) == Letters(n);
  }

  /** No code of these rows is longer. */
  ghost function Longest(rows: map<Key, Record>, keys: set<Key>): (n: nat)
    requires keys <= rows.Keys
    ensures forall k :: k in keys ==> |rows[k].code| <= n
  {
    if keys == {} then 0
    else
      var k :| k in keys;
      var rest := Longest(rows, keys - {k});
      assert forall j :: j in keys ==> j == k || j in keys - {k};
      if rest > |rows[k].code| then rest else |rows[k].code|
  }

  ghost function FreeCode(t: Tables): string {
    Letters(Longest(t.rows, t.rows.Keys) + 1)
  }

  ghost function FreeId(t: Tables): nat {
    Above(set k | k in t.rows :: k.id)
  }

  lemma FreeIsFree(t: Tables, kind: Kind)
    ensures Key(kind, FreeId(t)) !in t.rows && !CodeTaken(t.rows, kind, FreeCode(t))
    ensures Trim(FreeCode(t)) == FreeCode(t) != "" && Norm(FreeCode(t)) == FreeCode(t)
  {
    LettersArePlain(Longest(t.rows, t.rows.Keys) + 1);
    var ids := set k | k in t.rows :: k.id;
    forall k | k in t.rows ensures k.id < FreeId(t) && |t.rows[k].code| < |FreeCode(t)| {
      assert k.id in ids && k in t.rows.Keys;
    }
  }

  // ----- Inserting -----

  /** `k` is the one new row. */
  predicate Added(t: Tables, u: Tables, k: Key) {
    k !in t.rows && k in u.rows && u.rows == t.rows[k := u.rows[k]]
  }

  lemma InsertApplies(t: Tables, req: Request, row: Record)
    requires row.code == FreeCode(t)
    requires req.kind == ExecutionConfirmation ==> !RelatedTaken(t.rows, Key(req.kind, FreeId(t)), row.related)
    ensures var r := ApplyTx(t, Single(CreateStep(req, FreeId(t), row)));
      r.Ok? && r.value.rows == t.rows[Key(req.kind, FreeId(t)) := row]
  {
    FreeIsFree(t, req.kind);
  }

  ghost function Creation(t: Tables, kind: Kind, facility: string, related: string): Request {
    Request(kind, Create, 0, 0, Blank, Input(FreeCode(t), facility, "", "", related, Blank, Details("n", "o", "")),
            "operator", Operator, "")
  }

  lemma CreationFilled(t: Tables, kind: Kind, facility: string, related: string)
    requires facility != "" && Trim(facility) == facility
    ensures var input := Creation(t, kind, facility, related).input;
      Filled(input.code, input) && Norm(input.code) == FreeCode(t)
  {
    hide Trim, Norm;
    FreeIsFree(t, kind);
    PlainDetails();
  }

  lemma Insert(t: Tables, req: Request, row: Record) returns (asks: seq<Ask>, u: Tables)
    requires SafeTables(t) && Bound(req) && row.code == FreeCode(t)
    requires req.kind == ExecutionConfirmation ==> !RelatedTaken(t.rows, Key(req.kind, FreeId(t)), row.related)
    requires Plan(Observe(t, req), FreeId(t)) == Ok(Single(CreateStep(req, FreeId(t), row)))
    ensures Reaches(t, asks, u) && SafeTables(u) && |asks| == 1
    ensures Key(req.kind, FreeId(t)) !in t.rows && u.rows == t.rows[Key(req.kind, FreeId(t)) := row]
  {
    hide SafeTables, Plan, ApplyTx, Observe, Serve;
    FreeIsFree(t, req.kind);
    ServesPlan(t, req, FreeId(t), Single(CreateStep(req, FreeId(t), row)));
    InsertApplies(t, req, row);
    asks, u := AlsoAsk(t, [], t, req, FreeId(t));
  }

  lemma NewReservoir(t: Tables) returns (asks: seq<Ask>, u: Tables, r: Key)
    requires SafeTables(t)
    ensures Reaches(t, asks, u) && SafeTables(u) && |asks| == 1
    ensures Added(t, u, r) && IsLive(u, r) && r.kind == Reservoir
  {
    hide SafeTables, Trim, Norm;
    var req := Creation(t, Reservoir, "n", "");
    PlainName();
    CreationFilled(t, Reservoir, "n", "");
    asks, u := Insert(t, req, NewRecord(Reservoir, req.input));
    r := Key(Reservoir, FreeId(t));
  }

  lemma PlainName()
    ensures Trim("n") == "n"
  {
    assert TrimLeft("n") == "n" && TrimRight("n") == "n";
  }

  lemma NewGate(t: Tables, r: Key) returns (asks: seq<Ask>, u: Tables, g: Key)
    requires SafeTables(t) && IsLive(t, r) && r.kind == Reservoir
    ensures Reaches(t, asks, u) && SafeTables(u) && |asks| == 1
    ensures Added(t, u, g) && IsLive(u, g) && g.kind == GateUnit && u.rows[g].status == Open
  {
    hide SafeTables, Trim, Norm, FindByCode;
    var req := Creation(t, GateUnit, t.rows[r].facility, t.rows[r].code);
    RowProper(t, r);
    FindsOwn(t, r);
    CreationFilled(t, GateUnit, t.rows[r].facility, t.rows[r].code);
    asks, u := Insert(t, req, NewRecord(GateUnit, req.input));
    g := Key(GateUnit, FreeId(t));
  }

  lemma NewDirective(t: Tables, g: Key) returns (asks: seq<Ask>, u: Tables, d: Key)
    requires SafeTables(t) && IsLive(t, g) && g.kind == GateUnit && t.rows[g].status != Locked
    ensures Reaches(t, asks, u) && SafeTables(u) && |asks| == 1
    ensures Added(t, u, d) && Ready(u, d, g) && u.rows[d].status == Draft
  {
    hide SafeTables, Trim, Norm, FindByCode;
    var req := Creation(t, OperationDirective, t.rows[g].facility, t.rows[g].code);
    RowProper(t, g);
    FindsOwn(t, g);
    CreationFilled(t, OperationDirective, t.rows[g].facility, t.rows[g].code);
    asks, u := Insert(t, req, NewRecord(OperationDirective, req.input).(gateState := Closed));
    d := Key(OperationDirective, FreeId(t));
  }

  /** A directive in execution that no confirmation names can be given one. */
  lemma NewConfirmation(t: Tables, d: Key, g: Key) returns (asks: seq<Ask>, u: Tables, c: Key)
    requires SafeTables(t) && Stuck(t, d, g) && forall c :: !Names(t, c, d)
    ensures Reaches(t, asks, u) && SafeTables(u) && |asks| == 1
    ensures Added(t, u, c) && Confirmable(u, c, d, g)
  {
    hide SafeTables, Trim, Norm, FindByCode;
    var l := t.rows[d];
    var req := Creation(t, ExecutionConfirmation, "n", l.code);
    PlainName();
    FindsOwn(t, d);
    CreationFilled(t, ExecutionConfirmation, "n", l.code);
    forall c | c in t.rows && c.kind == ExecutionConfirmation ensures t.rows[c].related != l.code {
      assert !Names(t, c, d);
    }
    asks, u := Insert(t, req, NewRecord(ExecutionConfirmation, req.input).(
      facility := l.facility, category := l.category, riskLevel := l.riskLevel, related := l.code));
    c := Key(ExecutionConfirmation, FreeId(t));
  }
}
