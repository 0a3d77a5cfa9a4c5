/** The claim table the driver works on is the one the files are proved to refine. */
module Coupling {
  import opened Types
  import opened Allocation
  import Driver
  import Refinement

  function TableOf(s: Driver.System): Refinement.Table {
    Refinement.Table(s.kubelet.claims)
  }

  // What a driver step does to the table.
  ghost function ActionAt(s: Driver.System, l: Driver.Label): Refinement.Action {
    match l
    case PrepareClaim(uid, devices) => Refinement.Prepare(uid, devices)
    case UnprepareClaim(id, uid, _) => if id in s.kubelet.calls then Refinement.Stutter else Refinement.Unprepare(uid)
    case _ => Refinement.Stutter
  }

  /** Every driver step is the same atomic action on the table that a call on the files
      refines, and steps of the loop and of the watcher are none. */
  lemma DriverSimulation(p: Plugin, s: Driver.System, l: Driver.Label)
    ensures TableOf(Driver.Step(p, s, l)) == Refinement.Act(TableOf(s), ActionAt(s, l))
  {
    if Driver.LoopEnabled(s, l) {
      Driver.LoopFrame(s, l);
    } else if Driver.CallsEnabled(s, l) {
      assert Driver.Step(p, s, l) == Driver.MoveCalls(s, l);
    } else if Driver.WatchEnabled(s, l) {
      assert Driver.Step(p, s, l) == Driver.MoveWatch(p, s, l);
    }
  }

  ghost function Actions(p: Plugin, s: Driver.System, labels: seq<Driver.Label>): seq<Refinement.Action> {
    if labels == [] then []
    else
      var before := labels[..|labels| - 1];
      Actions(p, s, before) + [ActionAt(Driver.Exec(p, s, before), labels[|labels| - 1])]
  }

  /** So a run of the driver is a run of the table, from whatever claims it starts with. */
  lemma {:induction false} DriverRefinesTable(p: Plugin, s: Driver.System, labels: seq<Driver.Label>)
    ensures TableOf(Driver.Exec(p, s, labels)) == Refinement.Replay(TableOf(s), Actions(p, s, labels))
  {
    if labels != [] {
      var before := labels[..|labels| - 1];
      DriverRefinesTable(p, s, before);
      DriverSimulation(p, Driver.Exec(p, s, before), labels[|labels| - 1]);
      var actions := Actions(p, s, labels);
      assert actions[..|actions| - 1] == Actions(p, s, before);
    }
  }
}
