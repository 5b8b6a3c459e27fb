/** The fleet loops of the three controllers' main functions: one that skips a
    failed switch and goes on (controller_db.py, controller_v2.py) and one that
    stops at the first failure (controller.py). */
module Fleet {
  import opened Wrappers

  /** A switch as the controllers list it: name, gRPC address, device id. */
  datatype SwitchAddr = SwitchAddr(name: string, address: string, deviceId: int)

  /** The switches of `order` whose programming returned, in order: a failed
      switch is skipped and the loop goes on with the next one. */
  function Isolated(order: seq<SwitchAddr>, succeeds: SwitchAddr -> bool): (r: seq<SwitchAddr>)
    ensures |r| <= |order|
    decreases |order|
  {
    if order == [] then []
    else
      var init := order[..|order| - 1];
      var last := order[|order| - 1];
      Isolated(init, succeeds) + (if succeeds(last) then [last] else [])
  }

  /** A switch is kept exactly when it is in `order` and succeeds: neither a
      failure before it nor one after it changes that. */
  lemma {:induction false} IsolatedMembers(order: seq<SwitchAddr>, succeeds: SwitchAddr -> bool)
    ensures forall x :: x in Isolated(order, succeeds) <==> x in order && succeeds(x)
    decreases |order|
  {
    if order != [] {
      var init := order[..|order| - 1];
      var last := order[|order| - 1];
      assert order == init + [last];
      IsolatedMembers(init, succeeds);
    }
  }

  /** Isolating one more switch of `order` appends it exactly when it
      succeeds. */
  lemma IsolatedStep(order: seq<SwitchAddr>, i: nat, succeeds: SwitchAddr -> bool)
    requires i < |order|
    ensures Isolated(order[..i + 1], succeeds) ==
      Isolated(order[..i], succeeds) + (if succeeds(order[i]) then [order[i]] else [])
  {
    assert order[..i + 1][..i] == order[..i];
  }

  /** How many switches of `order` a loop that stops at the first failure
      programs, and how it ends. */
  datatype FleetRun = FleetRun(programmed: nat, status: Status)

  function Aborting<T>(order: seq<T>, outcome: T -> Status): FleetRun
    decreases |order|
  {
    if order == [] then FleetRun(0, Success)
    else if outcome(order[0]).Failure? then FleetRun(0, outcome(order[0]))
    else
      var rest := Aborting(order[1..], outcome);
      FleetRun(rest.programmed + 1, rest.status)
  }

  /** The aborting loop programs a prefix of `order`, every switch of which
      succeeded; it ends normally exactly when that prefix is all of `order`,
      and otherwise raises the error of the first switch that failed, without
      attempting any switch after it. */
  lemma {:induction false} AbortingOutcome<T>(order: seq<T>, outcome: T -> Status)
    ensures Aborting(order, outcome).programmed <= |order|
    ensures forall i :: 0 <= i < Aborting(order, outcome).programmed ==> outcome(order[i]).Success?
    ensures Aborting(order, outcome).status.Success? <==> Aborting(order, outcome).programmed == |order|
    ensures Aborting(order, outcome).status.Failure? ==>
      Aborting(order, outcome).status == outcome(order[Aborting(order, outcome).programmed])
    decreases |order|
  {
    if order != [] && outcome(order[0]).Success? {
      AbortingOutcome(order[1..], outcome);
      var n := Aborting(order, outcome).programmed;
      forall i | 0 <= i < n ensures outcome(order[i]).Success? {
        if i > 0 { assert order[i] == order[1..][i - 1]; }
      }
    }
  }
}
