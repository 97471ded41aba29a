/** A run from the empty tables to a directive in execution with a pending confirmation: the states the results speak
    of are reached. */
module Witness {
  import opened Store
  import opened Protocol
  import opened Consistency
  import opened Alone
  import opened Serving
  import opened Progress
  import opened Creations

  lemma EmptyRun()
    ensures Run([]) == INITIAL && Careful([]) && SafeTables(EMPTY)
  {
    RunIsSafe([]);
  }

  /** The states in which a directive waits in execution for its pending confirmation are reached from empty tables. */
  lemma ConfirmableIsReached()
    ensures exists es, c, d, g :: Careful(es) && Confirmable(Run(es).db, c, d, g)
  {
    EmptyRun();
    hide SafeTables, Reaches, Run, Careful, Solos;
    var a1, t1, r := NewReservoir(EMPTY);
    var a2, t2, g := NewGate(t1, r);
    var a3, t3, d := NewDirective(t2, g);
    var a4, t4 := Dispatch(t3, d, g);
    assert t4.rows.Keys == {r, g, d};
    var a5, t5, c := NewConfirmation(t4, d, g);
    ReachesThen(EMPTY, a1, t1, a2, t2);
    ReachesThen(EMPTY, a1 + a2, t2, a3, t3);
    ReachesThen(EMPTY, a1 + a2 + a3, t3, a4, t4);
    ReachesThen(EMPTY, a1 + a2 + a3 + a4, t4, a5, t5);
    SolosReach([], 0, a1 + a2 + a3 + a4 + a5, t5);
    assert Confirmable(Run([] + Solos(0, a1 + a2 + a3 + a4 + a5)).db, c, d, g);
  }
}
