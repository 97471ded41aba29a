/** The audit log read back: the history of one entity, the path of its statuses, and the transactions the whole
    log consists of. */
module Journal {
  import opened Model

  // ----- One entity -----

  predicate Concerns(e: Audit, k: Key) {
    e.key == k && e.action != Did(Delete)
  }

  /** The non-delete entries of one entity, oldest first. */
  function History(log: seq<Audit>, k: Key): seq<Audit> {
    if log == [] then []
    else
      var e, rest := log[|log| - 1], History(log[..|log| - 1], k);
      if Concerns(e, k) then rest + [e] else rest
  }

  lemma HistoryAppend(log: seq<Audit>, e: Audit, k: Key)
    ensures History(log + [e], k) == if Concerns(e, k) then History(log, k) + [e] else History(log, k)
  {
    assert (log + [e])[..|log|] == log;
  }

  /** May one entry of this kind lead from `from` to `to`: a creation, a graph edge, or an edit that keeps the
      status. Directives are edited as drafts only and confirmations while pending only. */
  predicate Edge(kind: Kind, from: Status, to: Status) {
    || (from == Blank && to == Initial(kind))
    || CanTransition(kind, from, to)
    || (from == to && from != Blank && Editable(kind, from))
  }

  predicate Editable(kind: Kind, s: Status) {
    match kind
    case Reservoir => true
    case GateUnit => true
    case OperationDirective => s == Draft
    case ExecutionConfirmation => s == Pending
  }

  /** Each entry starts where the one before it ended, the first one starts from nothing, and all of them are
      edges. */
  ghost predicate Unbroken(kind: Kind, h: seq<Audit>) {
    && (h != [] ==> h[0].before == Blank)
    && (forall i :: 0 < i < |h| ==> h[i].before == h[i - 1].after)
    && (forall i :: 0 <= i < |h| ==> Edge(kind, h[i].before, h[i].after))
  }

  function Final(h: seq<Audit>): Status {
    if h == [] then Blank else h[|h| - 1].after
  }

  lemma UnbrokenAppend(kind: Kind, h: seq<Audit>, e: Audit)
    requires Unbroken(kind, h) && e.before == Final(h) && Edge(kind, e.before, e.after)
    ensures Unbroken(kind, h + [e]) && Final(h + [e]) == e.after
  {
  }

  /** The statuses an entity went through, edits left out. */
  function Path(h: seq<Audit>): seq<Status> {
    if h == [] then []
    else
      var e, rest := h[|h| - 1], Path(h[..|h| - 1]);
      if e.before == e.after then rest else rest + [e.after]
  }

  /** The number of entries that take the entity out of `s`. */
  function Departures(h: seq<Audit>, s: Status): nat {
    if h == [] then 0
    else
      var e := h[|h| - 1];
      Departures(h[..|h| - 1], s) + if e.before == s && e.after != s then 1 else 0
  }

  lemma {:induction false} UnbrokenPrefix(kind: Kind, h: seq<Audit>)
    requires Unbroken(kind, h) && h != []
    ensures Unbroken(kind, h[..|h| - 1]) && Final(h[..|h| - 1]) == h[|h| - 1].before
  {
    var p := h[..|h| - 1];
    forall i | 0 <= i < |p| ensures p[i] == h[i] {}
  }

  lemma FirstEdge(kind: Kind, e: Audit)
    requires Edge(kind, e.before, e.after) && e.before == Blank
    ensures e.after == Initial(kind) && e.after != Blank
  {
  }

  lemma LaterEdge(kind: Kind, e: Audit)
    requires Edge(kind, e.before, e.after) && e.before != Blank
    ensures e.after != Blank && (e.before != e.after ==> CanTransition(kind, e.before, e.after))
  {
  }

  lemma {:induction false} PathEnds(kind: Kind, h: seq<Audit>)
    requires Unbroken(kind, h) && h != []
    ensures Path(h) != [] && Path(h)[|Path(h)| - 1] == Final(h) && Final(h) != Blank
    ensures Path(h)[0] == Initial(kind)
    ensures forall i :: 0 < i < |Path(h)| ==> CanTransition(kind, Path(h)[i - 1], Path(h)[i])
  {
    hide Edge, CanTransition, Initial;
    var e, rest := h[|h| - 1], h[..|h| - 1];
    assert Edge(kind, e.before, e.after);
    UnbrokenPrefix(kind, h);
    if rest == [] {
      assert Path(rest) == [];
      FirstEdge(kind, e);
    } else {
      PathEnds(kind, rest);
      LaterEdge(kind, e);
    }
  }

  // ----- Deletes -----

  predicate Deletes(e: Audit, k: Key) {
    e.key == k && e.action == Did(Delete)
  }

  /** All the entries of one entity, a delete included. */
  function Trail(log: seq<Audit>, k: Key): seq<Audit> {
    if log == [] then []
    else
      var e, rest := log[|log| - 1], Trail(log[..|log| - 1], k);
      if e.key == k then rest + [e] else rest
  }

  lemma TrailAppend(log: seq<Audit>, e: Audit, k: Key)
    ensures Trail(log + [e], k) == if e.key == k then Trail(log, k) + [e] else Trail(log, k)
  {
    assert (log + [e])[..|log|] == log;
  }

  /** Each entry starts where the one before it ended; entries are edges, or deletes, which end in `Deleted`. */
  ghost predicate Chained(kind: Kind, h: seq<Audit>) {
    && (h != [] ==> h[0].before == Blank)
    && (forall i :: 0 < i < |h| ==> h[i].before == h[i - 1].after)
    && (forall i :: 0 <= i < |h| ==>
          if h[i].action == Did(Delete) then h[i].after == Deleted else Edge(kind, h[i].before, h[i].after))
  }

  // ----- The whole log -----

  predicate IsHead(e: Audit) {
    e.action.Did?
  }

  /** Cut the log before every entry that a request wrote for its own entity. */
  function Blocks(log: seq<Audit>): seq<seq<Audit>> {
    if log == [] then []
    else
      var e, bs := log[|log| - 1], Blocks(log[..|log| - 1]);
      if IsHead(e) || bs == [] then bs + [[e]]
      else bs[..|bs| - 1] + [bs[|bs| - 1] + [e]]
  }

  function Flatten(bs: seq<seq<Audit>>): seq<Audit> {
    if bs == [] then [] else Flatten(bs[..|bs| - 1]) + bs[|bs| - 1]
  }

  /** Cutting loses nothing. */
  lemma {:induction false} BlocksCoverLog(log: seq<Audit>)
    ensures Flatten(Blocks(log)) == log
  {
    if log != [] {
      var e, rest := log[|log| - 1], log[..|log| - 1];
      var bs := Blocks(rest);
      BlocksCoverLog(rest);
      if IsHead(e) || bs == [] {
        assert (bs + [[e]])[..|bs|] == bs;
      } else {
        var cut := bs[..|bs| - 1];
        assert (cut + [bs[|bs| - 1] + [e]])[..|cut|] == cut;
        assert Flatten(cut) + (bs[|bs| - 1] + [e]) == Flatten(bs) + [e];
      }
      assert log == rest + [e];
    }
  }

  lemma {:induction false} FlattenMember(bs: seq<seq<Audit>>, e: Audit)
    requires e in Flatten(bs)
    ensures exists i :: 0 <= i < |bs| && e in bs[i]
  {
    if e !in bs[|bs| - 1] {
      FlattenMember(bs[..|bs| - 1], e);
    }
  }

  lemma BlocksHead(log: seq<Audit>, e: Audit)
    requires IsHead(e)
    ensures Blocks(log + [e]) == Blocks(log) + [[e]]
  {
    assert (log + [e])[..|log|] == log;
  }

  lemma BlocksNext(log: seq<Audit>, b: seq<Audit>, bs: seq<seq<Audit>>, e: Audit)
    requires !IsHead(e) && Blocks(log) == bs + [b]
    ensures Blocks(log + [e]) == bs + [b + [e]]
  {
    assert (log + [e])[..|log|] == log;
    assert (bs + [b])[..|bs|] == bs;
  }

  lemma {:induction false} BlockAppended(log: seq<Audit>, b: seq<Audit>)
    requires b != [] && IsHead(b[0]) && forall i :: 0 < i < |b| ==> !IsHead(b[i])
    ensures Blocks(log + b) == Blocks(log) + [b]
  {
    var head, e := b[..|b| - 1], b[|b| - 1];
    assert b == head + [e];
    if head == [] {
      BlocksHead(log, e);
    } else {
      BlockAppended(log, head);
      BlocksNext(log + head, head, Blocks(log), e);
      assert log + head + [e] == log + b;
    }
  }

  /** What one transaction may leave in the log. */
  predicate ValidBlock(b: seq<Audit>) {
    && 1 <= |b| <= 3
    && (forall i :: 0 <= i < |b| ==> b[i].actor == b[0].actor && b[i].requestId == b[0].requestId)
    && b[0].action.Did? && DeletesLawfully(b[0])
    && (|b| == 1 ==> !DecidesOutcome(b[0]))
    && (|b| >= 2 && !DecidesOutcome(b[0]) ==> |b| == 2 && DirectiveMovesGate(b[0], b[1]))
    && (|b| >= 2 && DecidesOutcome(b[0]) ==> OutcomeFollows(b[0], b[1]))
    && (|b| == 3 ==> GateFollows(b[0], b[2]))
  }

  predicate DeletesLawfully(e: Audit) {
    e.action == Did(Delete) ==>
      && e.after == Deleted
      && (e.key.kind == OperationDirective ==> e.before == Draft)
      && (e.key.kind == ExecutionConfirmation ==> e.before == Pending)
  }

  predicate DecidesOutcome(e: Audit) {
    e.action == Did(Transition) && e.key.kind == ExecutionConfirmation && e.before == Pending
  }

  predicate DirectiveMovesGate(d: Audit, g: Audit) {
    && d.action == Did(Transition) && d.key.kind == OperationDirective
    && g.action == DirectiveExecution && g.key.kind == GateUnit
    && ((d.before == Approved && d.after == Executing && g.after == Moving)
        || (d.before == Executing && d.after == Aborted && g.after == Locked))
  }

  predicate OutcomeFollows(c: Audit, d: Audit) {
    && d.action == ExecutionOutcome && d.key.kind == OperationDirective && d.before == Executing
    && ((c.after == Confirmed && d.after == Completed) || (c.after == Failed && d.after == Aborted))
  }

  predicate GateFollows(c: Audit, g: Audit) {
    && g.action == ExecutionOutcome && g.key.kind == GateUnit && g.before != g.after
    && (if c.after == Failed then g.after == Locked else Settled(g.after))
  }

  ghost predicate Grammatical(log: seq<Audit>) {
    forall i :: 0 <= i < |Blocks(log)| ==> ValidBlock(Blocks(log)[i])
  }
}
