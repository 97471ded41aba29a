/** The tables and what one transaction does to them. */
module Store {
  import opened Text
  import opened Model

  datatype Tables = Tables(rows: map<Key, Record>, approvals: seq<Approval>, audits: seq<Audit>)

  const EMPTY := Tables(map[], [], [])

  /** One row write. `Swap` is the optimistic update: it touches the row only at the expected version. */
  datatype Change =
    | Insert(key: Key, row: Record)
    | Swap(key: Key, expected: nat, row: Record)
    | Bury(key: Key)

  /** A row write with its evidence, in the order the database sees them: row, approval, audit entry. */
  datatype Step = Step(change: Change, approval: Option<Approval>, audit: Audit)

  /** The services write at most three rows in one transaction. */
  datatype Tx = Tx(first: Step, second: Option<Step>, third: Option<Step>)

  function Single(s: Step): Tx {
    Tx(s, None, None)
  }

  // ----- Unique indexes; they cover soft-deleted rows too -----

  ghost predicate CodeTaken(rows: map<Key, Record>, kind: Kind, code: string) {
    exists k :: k in rows && k.kind == kind && rows[k].code == code
  }

  ghost predicate RelatedTaken(rows: map<Key, Record>, self: Key, related: string) {
    exists k :: k in rows && k != self && k.kind == ExecutionConfirmation && rows[k].related == related
  }

  ghost predicate StageTaken(approvals: seq<Approval>, a: Approval) {
    exists i :: 0 <= i < |approvals| && approvals[i].directive == a.directive && approvals[i].stage == a.stage
  }

  ghost predicate UniqueCodes(rows: map<Key, Record>) {
    forall j, k :: j in rows && k in rows && j.kind == k.kind && rows[j].code == rows[k].code ==> j == k
  }

  ghost predicate UniqueRelated(rows: map<Key, Record>) {
    forall j, k | j in rows && k in rows && j.kind == ExecutionConfirmation && k.kind == ExecutionConfirmation ::
      rows[j].related == rows[k].related ==> j == k
  }

  ghost predicate Indexed(t: Tables) {
    UniqueCodes(t.rows) && UniqueRelated(t.rows)
  }

  lemma InsertIndexed(rows: map<Key, Record>, k: Key, row: Record)
    requires UniqueCodes(rows) && UniqueRelated(rows) && k !in rows && !CodeTaken(rows, k.kind, row.code)
    requires k.kind == ExecutionConfirmation ==> !RelatedTaken(rows, k, row.related)
    ensures UniqueCodes(rows[k := row]) && UniqueRelated(rows[k := row])
  {
  }

  lemma SwapIndexed(rows: map<Key, Record>, k: Key, row: Record)
    requires UniqueCodes(rows) && UniqueRelated(rows) && k in rows
    requires k.kind == ExecutionConfirmation ==> !RelatedTaken(rows, k, row.related)
    ensures var next := rows[k := row.(code := rows[k].code, live := true)]; UniqueCodes(next) && UniqueRelated(next)
  {
  }

  // ----- Writes -----

  predicate IsLive(t: Tables, k: Key) {
    k in t.rows && t.rows[k].live
  }

  ghost function ApplyChange(t: Tables, c: Change): Result<Tables> {
    match c
    case Insert(k, row) =>
      if k in t.rows || CodeTaken(t.rows, k.kind, row.code)
         || (k.kind == ExecutionConfirmation && RelatedTaken(t.rows, k, row.related))
      then Err(Duplicate)
      else Ok(t.(rows := t.rows[k := row]))
    case Swap(k, expected, row) =>
      if !IsLive(t, k) || t.rows[k].version != expected then Err(VersionConflict)
      else if k.kind == ExecutionConfirmation && RelatedTaken(t.rows, k, row.related) then Err(Duplicate)
      else Ok(t.(rows := t.rows[k := row.(code := t.rows[k].code, live := true)]))
    case Bury(k) =>
      if !IsLive(t, k) then Err(NotFound) else Ok(t.(rows := t.rows[k := t.rows[k].(live := false)]))
  }

  ghost function AddApproval(t: Tables, a: Option<Approval>): Result<Tables> {
    match a
    case None => Ok(t)
    case Some(v) =>
      if StageTaken(t.approvals, v) then Err(Duplicate) else Ok(t.(approvals := t.approvals + [v]))
  }

  function AddAudit(t: Tables, e: Audit): Tables {
    t.(audits := t.audits + [e])
  }

  ghost function ApplyStep(t: Tables, s: Step): Result<Tables> {
    var t1 :- ApplyChange(t, s.change);
    var t2 :- AddApproval(t1, s.approval);
    Ok(AddAudit(t2, s.audit))
  }

  ghost function ApplyNext(t: Tables, s: Option<Step>): Result<Tables> {
    if s.None? then Ok(t) else ApplyStep(t, s.value)
  }

  ghost function ApplyTx(t: Tables, tx: Tx): Result<Tables> {
    var t1 :- ApplyStep(t, tx.first);
    var t2 :- ApplyNext(t1, tx.second);
    ApplyNext(t2, tx.third)
  }

  // ----- Reads; they see live rows only -----

  function Find(t: Tables, k: Key): Option<Record> {
    if IsLive(t, k) then Some(t.rows[k]) else None
  }

  predicate Matches(t: Tables, kind: Kind, code: string, k: Key) {
    IsLive(t, k) && k.kind == kind && t.rows[k].code == Norm(code)
  }

  ghost function FindByCode(t: Tables, kind: Kind, code: string): (r: Option<Snap>)
    ensures r.Some? ==> Matches(t, kind, code, r.value.key) && r.value.row == t.rows[r.value.key]
    ensures r.None? ==> forall k :: !Matches(t, kind, code, k)
  {
    if exists k :: Matches(t, kind, code, k)
    then var k :| Matches(t, kind, code, k); Some(Snap(k, t.rows[k]))
    else None
  }

  /** The live confirmations that name this directive code. */
  function Claims(t: Tables, code: string): set<Key> {
    set k | k in t.rows && t.rows[k].live && k.kind == ExecutionConfirmation && t.rows[k].related == Norm(code)
  }

  /** Does no live confirmation name this directive code? */
  ghost predicate Unclaimed(t: Tables, code: string) {
    forall k :: IsLive(t, k) && k.kind == ExecutionConfirmation ==> t.rows[k].related != Norm(code)
  }
}
