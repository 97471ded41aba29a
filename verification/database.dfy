/** The database as the repositories drive it: tables changed in place, transactions with savepoints, and a fault
    oracle that may fail any write and any commit. */
module Databases {
  import opened Text
  import opened Model
  import opened Store

  class Database {
    var rows: map<Key, Record>
    var approvals: seq<Approval>
    var audits: seq<Audit>
    var saved: seq<Tables>       // what to return to, for each open transaction, outermost first
    var lastId: nat
    var writes: nat              // writes attempted so far
    const fault: nat -> bool     // does the n-th write fail?

    constructor (fault: nat -> bool)
      ensures Valid() && Contents() == EMPTY && saved == []
    {
      rows, approvals, audits, saved := map[], [], [], [];
      lastId, writes := 0, 0;
      this.fault := fault;
    }

    function Contents(): Tables
      reads this
    {
      Tables(rows, approvals, audits)
    }

    ghost predicate Kept(t: Tables)
      reads this
    {
      Indexed(t) && forall k :: k in t.rows ==> k.id <= lastId
    }

    ghost predicate Valid()
      reads this
    {
      Kept(Contents()) && forall i :: 0 <= i < |saved| ==> Kept(saved[i])
    }

    ghost predicate Faulted(from: nat)
      reads this
    {
      exists i :: from <= i < writes && fault(i)
    }

    /** What every write promises: it ends as `expected` says, or fails and changes nothing. */
    ghost predicate Wrote(before: Tables, from: nat, expected: Result<Tables>, failure: Option<Error>)
      reads this
    {
      && from <= writes
      && (failure.None? ==> expected == Ok(Contents()))
      && (failure.Some? ==> Contents() == before)
      && (failure.Some? && failure.value != Storage ==> expected == Err(failure.value))
      && (failure == Some(Storage) ==> Faulted(from))
    }

    method Fails() returns (bad: bool)
      modifies this`writes
      ensures writes == old(writes) + 1 && (bad ==> Faulted(old(writes)))
    {
      bad := fault(writes);
      writes := writes + 1;
      assert bad ==> fault(writes - 1);
    }

    /** Other requests have committed in the meantime. */
    method Interfere(t: Tables)
      requires Valid() && saved == [] && Kept(t)
      modifies this`rows, this`approvals, this`audits
      ensures Valid() && Contents() == t
    {
      rows, approvals, audits := t.rows, t.approvals, t.audits;
    }

    // ----- Reads -----

    method Get(k: Key) returns (r: Option<Record>)
      ensures r == Find(Contents(), k)
    {
      r := if k in rows && rows[k].live then Some(rows[k]) else None;
    }

    method GetByCode(kind: Kind, code: string) returns (r: Option<Snap>)
      requires Valid()
      ensures r == FindByCode(Contents(), kind, code)
      ensures r.Some? ==>
        && IsLive(Contents(), r.value.key) && r.value.key.kind == kind && r.value.row == rows[r.value.key]
        && Stores(code, r.value.row.code)
      ensures r.None? ==> forall k :: IsLive(Contents(), k) && k.kind == kind ==> !Stores(code, rows[k].code)
    {
      hide Stores, Norm;
      NormIsExact(code, Norm(code));
      forall k | k in rows ensures rows[k].code == Norm(code) <==> Stores(code, rows[k].code) {
        NormIsExact(code, rows[k].code);
      }
      if k :| k in rows && Matches(Contents(), kind, code, k) {
        r := Some(Snap(k, rows[k]));
        assert FindByCode(Contents(), kind, code).Some?;
      } else {
        r := None;
      }
    }

    method CountByDirectiveCode(code: string) returns (count: nat)
      ensures count == |Claims(Contents(), code)|
      ensures count == 0 <==> Unclaimed(Contents(), code)
    {
      var found := set k | k in rows && rows[k].live && k.kind == ExecutionConfirmation
                           && rows[k].related == Norm(code);
      assert found == Claims(Contents(), code);
      count := |found|;
      if count != 0 {
        var k :| k in found;
        assert IsLive(Contents(), k);
      } else {
        forall k | IsLive(Contents(), k) && k.kind == ExecutionConfirmation ensures rows[k].related != Norm(code) {
          assert k !in found;
        }
      }
    }

    // ----- Writes -----

    method Create(kind: Kind, row: Record) returns (failure: Option<Error>)
      requires Valid()
      modifies this
      ensures Valid() && saved == old(saved) && lastId == old(lastId) + 1
      ensures Wrote(old(Contents()), old(writes),
                    ApplyChange(old(Contents()), Insert(Key(kind, old(lastId) + 1), row)), failure)
    {
      lastId := lastId + 1;
      var bad := Fails();
      if bad {
        return Some(Storage);
      }
      var k := Key(kind, lastId);
      if (exists j :: j in rows && j.kind == kind && rows[j].code == row.code)
         || (kind == ExecutionConfirmation
             && exists j :: j in rows && j != k && j.kind == ExecutionConfirmation && rows[j].related == row.related)
      {
        return Some(Duplicate);
      }
      InsertIndexed(rows, k, row);
      rows := rows[k := row];
      return None;
    }

    /** The optimistic update: every column but the identifier, the code and the deletion mark. */
    method Update(k: Key, expected: nat, row: Record) returns (failure: Option<Error>)
      requires Valid()
      modifies this`rows, this`writes
      ensures Valid()
      ensures Wrote(old(Contents()), old(writes), ApplyChange(old(Contents()), Swap(k, expected, row)), failure)
    {
      var bad := Fails();
      if bad {
        return Some(Storage);
      }
      if k !in rows || !rows[k].live || rows[k].version != expected {
        return Some(VersionConflict);
      }
      if k.kind == ExecutionConfirmation
         && exists j :: j in rows && j != k && j.kind == ExecutionConfirmation && rows[j].related == row.related
      {
        return Some(Duplicate);
      }
      SwapIndexed(rows, k, row);
      rows := rows[k := row.(code := rows[k].code, live := true)];
      return None;
    }

    method Remove(k: Key) returns (failure: Option<Error>)
      requires Valid()
      modifies this`rows, this`writes
      ensures Valid()
      ensures Wrote(old(Contents()), old(writes), ApplyChange(old(Contents()), Bury(k)), failure)
    {
      var bad := Fails();
      if bad {
        return Some(Storage);
      }
      if k !in rows || !rows[k].live {
        return Some(NotFound);
      }
      rows := rows[k := rows[k].(live := false)];
      return None;
    }

    method AppendAudit(e: Audit) returns (failure: Option<Error>)
      requires Valid()
      modifies this`audits, this`writes
      ensures Valid()
      ensures Wrote(old(Contents()), old(writes), Ok(AddAudit(old(Contents()), e)), failure)
    {
      var bad := Fails();
      if bad {
        return Some(Storage);
      }
      audits := audits + [e];
      return None;
    }

    method AppendApproval(a: Approval) returns (failure: Option<Error>)
      requires Valid()
      modifies this`approvals, this`writes
      ensures Valid()
      ensures Wrote(old(Contents()), old(writes), AddApproval(old(Contents()), Some(a)), failure)
    {
      var bad := Fails();
      if bad {
        return Some(Storage);
      }
      if exists i :: 0 <= i < |approvals| && approvals[i].directive == a.directive && approvals[i].stage == a.stage {
        return Some(Duplicate);
      }
      approvals := approvals + [a];
      return None;
    }

    // ----- Transactions -----

    /** Open a transaction; inside another one this is a savepoint. */
    method Begin()
      requires Valid()
      modifies this`saved
      ensures Valid() && saved == old(saved) + [Contents()]
    {
      saved := saved + [Contents()];
    }

    /** Close the innermost transaction: keep its writes, or return to where it began. Only the outermost one has
        something to commit, and that may fail too. */
    method Finish(failure: Option<Error>) returns (outcome: Option<Error>)
      requires Valid() && saved != []
      modifies this
      ensures Valid() && lastId == old(lastId) && old(writes) <= writes
      ensures saved == old(saved)[..|old(saved)| - 1]
      ensures outcome.None? ==> failure.None? && Contents() == old(Contents())
      ensures outcome.Some? ==> Contents() == old(saved)[|old(saved)| - 1]
      ensures failure.Some? ==> outcome == failure
      ensures failure.None? && outcome.Some? ==> outcome == Some(Storage) && Faulted(old(writes))
    {
      outcome := failure;
      if outcome.None? && |saved| == 1 {
        var bad := Fails();
        if bad {
          outcome := Some(Storage);
        }
      }
      var back := saved[|saved| - 1];
      saved := saved[..|saved| - 1];
      if outcome.Some? {
        rows, approvals, audits := back.rows, back.approvals, back.audits;
      }
    }

    /** Row, approval and audit entry of a directive, in a transaction of their own. */
    method TransitionWithApproval(k: Key, expected: nat, row: Record, approval: Option<Approval>, audit: Audit)
      returns (failure: Option<Error>)
      requires Valid()
      modifies this
      ensures Valid() && saved == old(saved) && lastId == old(lastId)
      ensures Wrote(old(Contents()), old(writes),
                    ApplyStep(old(Contents()), Step(Swap(k, expected, row), approval, audit)), failure)
      ensures failure.None? ==> IsLive(Contents(), k)
    {
      Begin();
      failure := Update(k, expected, row);
      if failure.None? && approval.Some? {
        failure := AppendApproval(approval.value);
      }
      if failure.None? {
        failure := AppendAudit(audit);
      }
      failure := Finish(failure);
    }

    /** Row and audit entry, in a transaction of their own. */
    method TransitionWithAudit(k: Key, expected: nat, row: Record, audit: Audit) returns (failure: Option<Error>)
      requires Valid()
      modifies this
      ensures Valid() && saved == old(saved) && lastId == old(lastId)
      ensures Wrote(old(Contents()), old(writes),
                    ApplyStep(old(Contents()), Step(Swap(k, expected, row), None, audit)), failure)
    {
      Begin();
      failure := Update(k, expected, row);
      if failure.None? {
        failure := AppendAudit(audit);
      }
      failure := Finish(failure);
    }
  }
}
