/** The linked entries of the audit log concern the rows that are linked. */
module Links {
  import opened Text
  import opened Model
  import opened Store
  import opened Planning
  import opened Journal
  import opened Protocol
  import opened Laws
  import opened Lives
  import opened Safety
  import opened Consistency
  import opened Exits
  import opened Completion

  /** Directive `d` has been submitted and acts on gate `g`. */
  predicate Commands(t: Tables, d: Key, g: Key) {
    ActsOn(t, d, g) && t.rows[d].status != Draft
  }

  /** The entries of a block that follow the first one belong to the directive that the confirmation names, and to the
      gate that the directive acts on. */
  predicate Tied(t: Tables, b: seq<Audit>) {
    && (|b| >= 2 && DecidesOutcome(b[0]) ==> Names(t, b[0].key, b[1].key))
    && (|b| >= 2 && !DecidesOutcome(b[0]) ==> Commands(t, b[0].key, b[1].key))
    && (|b| == 3 ==> Commands(t, b[1].key, b[2].key))
  }

  ghost predicate AllTied(t: Tables) {
    forall i :: 0 <= i < |Blocks(t.audits)| ==> Tied(t, Blocks(t.audits)[i])
  }

  lemma CommandsStays(t: Tables, u: Tables, d: Key, g: Key)
    requires Grows(t, u) && Commands(t, d, g)
    ensures Commands(u, d, g)
  {
    ActsOnStays(t, u, d, g);
    assert Grown(d.kind, t.rows[d], u.rows[d]);
  }

  lemma TiedLater(t: Tables, u: Tables, b: seq<Audit>)
    requires Grows(t, u) && Tied(t, b)
    ensures Tied(u, b)
  {
    hide Grows, Names, Commands, DecidesOutcome;
    if |b| >= 2 && DecidesOutcome(b[0]) {
      NamesStay(t, u, b[0].key, b[1].key);
    }
    if |b| >= 2 && !DecidesOutcome(b[0]) {
      CommandsStays(t, u, b[0].key, b[1].key);
    }
    if |b| == 3 {
      CommandsStays(t, u, b[1].key, b[2].key);
    }
  }

  // ----- One commit -----

  /** A gate that was found by the code a directive names is the gate it acts on. */
  lemma CommandsFound(t: Tables, d: Key, g: Key)
    requires SafeTables(t) && IsDirective(t, d) && t.rows[d].status != Draft && g in t.rows && g.kind == GateUnit
    requires t.rows[g].code == Text.Norm(t.rows[d].related)
    ensures Commands(t, d, g)
  {
    assert Sound(d.kind, t.rows[d], History(t.audits, d), ApprovalsOf(t.approvals, d.id));
  }

  lemma DirectiveTied(t: Tables, f: Flight, id: nat, u: Tables)
    requires SafeTables(t) && SafeFlight(t, f) && Honest(f) && f.req.kind == OperationDirective
    requires Plan(f, id).Ok? && ApplyTx(t, Plan(f, id).value) == Ok(u) && Tidy(Plan(f, id).value)
    requires Plan(f, id).value.second.Some?
    ensures Commands(t, f.req.Subject(), Plan(f, id).value.second.value.change.key)
    ensures Plan(f, id).value.first.change.key == f.req.Subject()
  {
    hide SafeTables, Plan, ApplyTx, Tidy;
    CommitSeesSnapshots(t, f, id, u);
    PlanVersions(f, id);
    GatedShape(f, id);
    TxCurrent(t, Plan(f, id).value, u);
    CommandsFound(t, f.req.Subject(), f.link.value.key);
  }

  lemma GatedShape(f: Flight, id: nat)
    requires WellRead(f) && Plan(f, id).Ok? && f.req.kind == OperationDirective && Plan(f, id).value.second.Some?
    ensures f.primary.Some? && f.primary.value.status != Draft && Plan(f, id).value.first.change.Swap?
    ensures f.link.Some? && f.link.value.key.kind == GateUnit
    ensures f.link.value.row.code == Text.Norm(f.primary.value.related)
  {
    hide Text.Norm, Text.Trim, Text.EqualFold, Proper;
  }

  lemma ConfirmationTied(t: Tables, f: Flight, id: nat, tx: Tx, u: Tables)
    requires SafeTables(t) && SafeFlight(t, f) && Honest(f) && f.req.kind == ExecutionConfirmation
    requires Plan(f, id) == Ok(tx) && ApplyTx(t, tx) == Ok(u) && Tidy(tx) && tx.second.Some?
    ensures tx.first.change.key == f.req.Subject() && Names(t, tx.first.change.key, tx.second.value.change.key)
    ensures tx.third.Some? ==> Commands(t, tx.second.value.change.key, tx.third.value.change.key)
  {
    hide SafeTables, Plan, ApplyTx, Tidy, Norm;
    SafeFlightIsFresh(t, f);
    CommitSeesSnapshots(t, f, id, u);
    DecisionShape(f, id);
    ConfirmationPlan(f, id);
    TxCurrent(t, tx, u);
    AliveIsSafe(t);
    NamesLink(t, f.req.Subject(), f.link.value.key);
    if tx.third.Some? {
      CommandsFound(t, f.link.value.key, f.second.value.key);
    }
  }

  lemma AliveIsSafe(t: Tables)
    requires SafeTables(t)
    ensures Alive(t)
  {
  }

  lemma OnlyThese(f: Flight, id: nat)
    requires Plan(f, id).Ok? && Plan(f, id).value.second.Some?
    ensures f.req.kind == OperationDirective || f.req.kind == ExecutionConfirmation
    ensures f.req.kind == OperationDirective ==> Plan(f, id).value.third.None?
  {
  }

  lemma EntriesTied(t: Tables, f: Flight, id: nat, u: Tables)
    requires SafeTables(t) && SafeFlight(t, f) && Honest(f)
    requires Plan(f, id).Ok? && ApplyTx(t, Plan(f, id).value) == Ok(u) && Tidy(Plan(f, id).value)
    ensures Tied(t, Entries(Plan(f, id).value))
  {
    hide SafeTables, Plan, ApplyTx, SafeFlight, Names, Commands;
    var tx := Plan(f, id).value;
    if tx.second.Some? {
      OnlyThese(f, id);
      EntryKeys(tx);
      if f.req.kind == OperationDirective {
        DirectiveTied(t, f, id, u);
      } else {
        ConfirmationTied(t, f, id, tx, u);
        DecisionHead(f, id);
      }
    }
  }

  lemma EntryKeys(tx: Tx)
    requires Tidy(tx) && tx.second.Some?
    ensures Entries(tx)[0].key == tx.first.change.key && Entries(tx)[1].key == tx.second.value.change.key
    ensures tx.third.Some? ==> |Entries(tx)| == 3 && Entries(tx)[2].key == tx.third.value.change.key
    ensures tx.third.None? ==> |Entries(tx)| == 2
    ensures Entries(tx)[0] == tx.first.audit
  {
  }

  lemma DecisionHead(f: Flight, id: nat)
    requires Plan(f, id).Ok? && f.req.kind == ExecutionConfirmation && Plan(f, id).value.second.Some?
    ensures DecidesOutcome(Plan(f, id).value.first.audit)
  {
  }

  lemma CommitTied(t: Tables, f: Flight, id: nat, u: Tables)
    requires SafeTables(t) && AllTied(t) && SafeFlight(t, f) && Honest(f) && Attempt(t, f, id) == Ok(u)
    ensures AllTied(u)
  {
    hide SafeTables, Plan, ApplyTx, SafeFlight, Tied, Tidy, Grows, Blocks;
    var tx := Plan(f, id).value;
    SafeFlightIsFresh(t, f);
    PlanTidy(f, id);
    AttemptSafe(t, f, id, u);
    EntriesTied(t, f, id, u);
    TxEntries(t, tx, u);
    EntriesMakeBlock(t.audits, tx);
    forall i | 0 <= i < |Blocks(u.audits)| ensures Tied(u, Blocks(u.audits)[i]) {
      TiedLater(t, u, Blocks(u.audits)[i]);
    }
  }

  // ----- Runs -----

  lemma NextTied(s: System, e: Event)
    requires SafeSystem(s) && CarefulEvent(s, e) && AllTied(s.db)
    ensures AllTied(Next(s, e).db)
  {
    hide SafeTables, SafeFlight, AllTied, Attempt, Honest;
    if e.Commit? && e.n in s.flights && e.healthy && Attempt(s.db, s.flights[e.n], e.id).Ok? {
      CommitTied(s.db, s.flights[e.n], e.id, Attempt(s.db, s.flights[e.n], e.id).value);
    }
  }

  lemma {:induction false} RunTied(es: seq<Event>)
    requires Careful(es)
    ensures AllTied(Run(es).db)
  {
    hide Next, SafeSystem, CarefulEvent;
    if es != [] {
      RunTied(es[..|es| - 1]);
      RunSafe(es[..|es| - 1]);
      NextTied(Run(es[..|es| - 1]), es[|es| - 1]);
    }
  }

  /** In every block of the log of a careful run, the entries that follow the first one belong to the rows that are
      linked to it: to the directive that the confirmation names, and to the gate that the directive acts on. */
  lemma {:induction false} LinkedEntriesMatch(es: seq<Event>, i: nat)
    requires Careful(es) && i < |Blocks(Run(es).db.audits)|
    ensures var t := Run(es).db;
      var b := Blocks(t.audits)[i];
      && ValidBlock(b)
      && (|b| >= 2 && DecidesOutcome(b[0]) ==> Names(t, b[0].key, b[1].key))
      && (|b| >= 2 && !DecidesOutcome(b[0]) ==> ActsOn(t, b[0].key, b[1].key))
      && (|b| == 3 ==> ActsOn(t, b[1].key, b[2].key))
  {
    hide Run, Careful, ValidBlock, Blocks;
    RunTied(es);
    LogParses(es);
    assert Tied(Run(es).db, Blocks(Run(es).db.audits)[i]);
  }
}
