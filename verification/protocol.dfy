/** Many requests at once. A request reads its rows one at a time, outside any transaction, and then commits in one
    atomic step, or fails to; anything may happen in between. */
module Protocol {
  import opened Model
  import opened Store
  import opened Planning

  datatype System = System(db: Tables, flights: map<nat, Flight>)

  datatype Event =
    | Start(n: nat, req: Request)
    | ReadPrimary(n: nat)
    | ReadLink(n: nat)
    | ReadSecond(n: nat)
    | CountClaims(n: nat)
    | Commit(n: nat, id: nat, healthy: bool)   // unhealthy: some write, or the commit itself, failed

  const INITIAL := System(EMPTY, map[])

  ghost function Begun(req: Request): Flight {
    Flight(req, None, None, None, false)
  }

  /** One read of a request; a part that was read already is not read again. */
  ghost function Fetch(t: Tables, f: Flight, e: Event): Flight {
    match e
    case ReadPrimary(_) =>
      if f.primary.None? && f.req.verb != Create then f.(primary := Find(t, f.req.Subject())) else f
    case ReadLink(_) =>
      if f.link.None? then f.(link := Follow(t, LinkTarget(f.req, f.primary))) else f
    case ReadSecond(_) =>
      if f.second.None? then f.(second := Follow(t, SecondTarget(f.req, f.link))) else f
    case CountClaims(_) =>
      if f.link.Some? then f.(unclaimed := Unclaimed(t, f.link.value.row.code)) else f
    case _ => f
  }

  /** The attempt to commit; a transaction that cannot apply all its writes applies none. */
  ghost function Attempt(t: Tables, f: Flight, id: nat): Result<Tables> {
    var tx :- Plan(f, id);
    ApplyTx(t, tx)
  }

  ghost function Next(s: System, e: Event): System {
    match e
    case Start(n, req) =>
      if n in s.flights || !Bound(req) then s else s.(flights := s.flights[n := Begun(req)])
    case Commit(n, id, healthy) =>
      if n !in s.flights then s
      else
        var r := Attempt(s.db, s.flights[n], id);
        System(if healthy && r.Ok? then r.value else s.db, s.flights - {n})
    case _ =>
      if e.n !in s.flights then s else s.(flights := s.flights[e.n := Fetch(s.db, s.flights[e.n], e)])
  }

  ghost function Run(es: seq<Event>): System {
    if es == [] then INITIAL else Next(Run(es[..|es| - 1]), es[|es| - 1])
  }

  /** The version a client sends is one it was shown, so it is not ahead of the row the request then reads. */
  predicate Honest(f: Flight) {
    SendsVersion(f.req) && f.primary.Some? ==> f.req.expected <= f.primary.value.version
  }

  predicate SendsVersion(req: Request) {
    req.verb == Update || req.verb == Transition
  }

  ghost predicate CarefulEvent(s: System, e: Event) {
    e.Commit? && e.n in s.flights ==> Honest(s.flights[e.n])
  }

  ghost predicate Careful(es: seq<Event>) {
    es != [] ==> Careful(es[..|es| - 1]) && CarefulEvent(Run(es[..|es| - 1]), es[|es| - 1])
  }
}
