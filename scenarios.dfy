/** The unit tests of tests/unit as verified client code: each method feeds the model the
    collaborator answers its tests script (tests whose effects cannot interfere share one
    service), and its postcondition is what those tests assert. */
module Scenarios {
  import opened Failures
  import opened Os
  import opened ProcessTree
  import opened ControlService

  method RootProcessScenario() returns (p: Process)
    ensures p.GetId() == 1234 && p.IsMaster() && p.GetParent() == null
    ensures p.children == map[]
  {
    p := new Process(1234);
  }

  method ChildProcessScenario() returns (master: Process, p: Process)
    ensures p.GetId() == 1234 && !p.IsMaster() && p.GetParent() == master && master.GetId() == 5678
  {
    master := new Process(5678);
    p := new Process(1234, master);
  }

  method ChildLookupScenario() returns (empty: Process, master: Process, child: Process)
    ensures empty.GetChildById(5678) == Failure(MissingChild)
    ensures master.GetChildById(5678) == Success(child)
    ensures master.GetChildById(4321) == Failure(MissingChild)
  {
    empty := new Process(1234);
    master := new Process(1234);
    child := new Process(5678, master);
    var _ := master.AddChild(child);
  }

  method RemoveChildScenario()
    returns (missing: Result<Process>, addedFound: bool, first: Result<Process>, removedFound: bool,
             second: Result<Process>)
    ensures missing == Failure(MissingChild)
    ensures addedFound && first.Success? && !removedFound
    ensures second == Failure(MissingChild)
  {
    var master := new Process(1234);
    var child := new Process(5678, master);
    missing := master.RemoveChild(child);
    var _ := master.AddChild(child);
    addedFound := master.HasChildById(child.GetId());
    first := master.RemoveChild(child);
    removedFound := master.HasChildById(child.GetId());
    second := master.RemoveChild(child);
  }

  method ParallelScenarios() returns (failed: Returned, spawned: Returned, svc: ProcessControlService)
    ensures failed == Raised(ForkFailure)
    ensures spawned.Node? && spawned.process.GetId() == 5678 && spawned.process.GetParent() == svc.GetMaster()
    ensures svc.GetMaster().HasChildById(5678) && svc.GetMaster().GetId() == 1234
    ensures svc.trace == []
  {
    svc := new ProcessControlService(1234);
    failed := svc.Parallel(FORK_FAILED, 1234, Completes);
    assert svc.master.children == map[];
    spawned := svc.Parallel(5678, 1234, Completes);
  }

  /** The completing closure runs where `getpid()` answers 1234 and then 5678; the throwing
      one on a fresh service where every `getpid()` answers 1234, so its node shares the
      master's id. */
  method ParallelChildSideScenario()
    returns (completed: Returned, svc: ProcessControlService, threw: Returned, thrower: ProcessControlService)
    ensures completed == Itself
    ensures svc.trace == [Invoked(5678, 1234), Kill(5678, SIGKILL)] && svc.GetMaster().children == map[]
    ensures threw == Raised(ClosureThrew)
    ensures thrower.trace == [Invoked(1234, 1234)] && thrower.GetMaster().HasChildById(1234)
  {
    svc := new ProcessControlService(1234);
    completed := svc.Parallel(0, 5678, Completes);
    thrower := new ProcessControlService(1234);
    threw := thrower.Parallel(0, 1234, Throws);
  }

  method DaemonizeScenarios()
    returns (failed: Returned, parentSide: Returned, threw: Returned, daemon: Returned,
             svc: ProcessControlService)
    ensures failed == Raised(ForkFailure) && parentSide == Itself && threw == Raised(ClosureThrew)
    ensures daemon.Node? && daemon.process.GetId() == 1234 && daemon.process.IsMaster()
    ensures svc.trace == [Invoked(5678, 1234), Invoked(5678, 1234), Kill(1234, SIGKILL), Setsid]
    ensures svc.GetMaster().GetId() == 1234 && svc.GetMaster().children == map[]
  {
    svc := new ProcessControlService(1234);
    failed := svc.Daemonize(FORK_FAILED, 1234);
    threw := svc.Daemonize(5678, 1234, Some(Throws));
    parentSide := svc.Daemonize(5678, 1234, Some(Completes));
    daemon := svc.Daemonize(0, 1234);
  }

  method TerminateScenario() returns (r: Returned, svc: ProcessControlService)
    ensures r == Itself && !svc.GetMaster().HasChildById(5678)
    ensures svc.trace == [Kill(5678, 9)]
  {
    svc := new ProcessControlService(1234);
    var _ := svc.Parallel(5678, 5678, Completes);
    var found := svc.GetMaster().GetChildById(5678);
    r := svc.TerminateProcess(found.value);
  }

  /** Terminating any node fetched from a tree the service keeps tracked succeeds, and
      takes that id out of the tree after signalling it. */
  method TerminateRegisteredChild(svc: ProcessControlService, pid: int) returns (r: Returned)
    requires svc.Valid() && svc.Tracked() && svc.master.HasChildById(pid)
    modifies svc, svc.master
    ensures r == Itself && !svc.master.HasChildById(pid)
    ensures svc.trace == old(svc.trace) + [Kill(pid, SIGKILL)]
    ensures svc.Tracked()
  {
    var found := svc.GetMaster().GetChildById(pid);
    r := svc.TerminateProcess(found.value);
  }
}
