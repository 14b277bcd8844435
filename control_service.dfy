/** `ProcessControlService` in src/ProcessControl/ProcessControlService.php: owns the
    master node and drives fork, daemonize and terminate.  The collaborators' answers
    (fork result, `getpid()`) are parameters; their side effects go to `trace`. */
module ControlService {
  import opened Failures
  import opened Os
  import opened ProcessTree
  import ServiceModel

  /** What a service method hands back: a node, the service itself, or an exception. */
  datatype Returned = Node(process: Process) | Itself | Raised(error: Error) {
    function Outcome(): (o: ServiceModel.Outcome) {
      if Raised? then ServiceModel.Raised(error) else ServiceModel.Normal
    }
  }

  class ProcessControlService {
    /** The master node, created by the constructor and never replaced. */
    const master: Process
    /** The `kill`/`setsid` calls and closure calls issued so far, oldest first. */
    var trace: seq<Event>

    /** The master is a root; it holds from construction on, as both fields are fixed. */
    ghost predicate Valid() {
      master.parent == null
    }

    /** Every entry of the master's tree is stored under its own id and has the master as
        its parent. */
    ghost predicate Tracked()
      reads master
    {
      forall pid :: pid in master.children ==>
        master.children[pid].id == pid && master.children[pid].parent == master
    }

    ghost function View(): (s: ServiceModel.State)
      reads this, master
    {
      ServiceModel.State(master.id, master.children.Keys, trace)
    }

    /** `masterPid` is what `getpid()` answers during construction. */
    constructor (masterPid: int)
      ensures Valid() && Tracked() && fresh(master)
      ensures master.id == masterPid && master.children == map[]
      ensures trace == []
      ensures View() == ServiceModel.Initial(masterPid)
    {
      master := new Process(masterPid);
      trace := [];
    }

    function GetMaster(): (r: Process)
      ensures r == master
    {
      master
    }

    /** `terminateProcess`: `signal` defaults to SIGKILL. */
    method TerminateProcess(process: Process, signal: int := SIGKILL) returns (r: Returned)
      requires Valid()
      modifies this, master
      ensures View() == ServiceModel.Terminate(old(View()), process.id, process.IsMaster(), signal).state
      ensures r.Outcome() == ServiceModel.Terminate(old(View()), process.id, process.IsMaster(), signal).outcome
      ensures trace == old(trace) + [Kill(process.id, signal)]
      ensures process.IsMaster() ==> r == Itself && master.children == old(master.children)
      ensures !process.IsMaster() && process.id in old(master.children) ==>
        r == Itself && master.children == old(master.children) - {process.id}
      ensures !process.IsMaster() && process.id !in old(master.children) ==>
        r == Raised(MissingChild) && master.children == old(master.children)
      ensures old(Tracked()) ==> Tracked()
    {
      trace := trace + [Kill(process.GetId(), signal)];
      if !process.IsMaster() {
        var removed := GetMaster().RemoveChild(process);
        if removed.Failure? {
          return Raised(removed.error);
        }
      }
      r := Itself;
    }

    /** `parallel`: `forkResult` is the fork collaborator's answer, `ownPid` what `getpid()`
        answers on the child side, `work` how the closure ends. */
    method Parallel(forkResult: int, ownPid: int, work: Work) returns (r: Returned)
      requires Valid()
      modifies this, master
      ensures View() == ServiceModel.Parallel(old(View()), forkResult, ownPid, work).state
      ensures r.Outcome() == ServiceModel.Parallel(old(View()), forkResult, ownPid, work).outcome
      ensures forkResult == FORK_FAILED ==>
        r == Raised(ForkFailure) && master.children == old(master.children) && trace == old(trace)
      ensures forkResult != FORK_FAILED && forkResult != 0 ==>
        r.Node? && fresh(r.process) &&
        r.process.id == forkResult && r.process.parent == master && r.process.children == map[] &&
        master.children == old(master.children)[forkResult := r.process] && trace == old(trace)
      ensures forkResult == 0 && work == Completes ==>
        r == Itself && master.children == old(master.children) - {ownPid} &&
        trace == old(trace) + [Invoked(ownPid, master.id), Kill(ownPid, SIGKILL)]
      ensures forkResult == 0 && work == Throws ==>
        r == Raised(ClosureThrew) && ownPid in master.children &&
        fresh(master.children[ownPid]) && master.children[ownPid].id == ownPid &&
        master.children[ownPid].parent == master && master.children[ownPid].children == map[] &&
        master.children == old(master.children)[ownPid := master.children[ownPid]] &&
        trace == old(trace) + [Invoked(ownPid, master.id)]
      ensures old(Tracked()) ==> Tracked()
    {
      var forked := ServiceModel.Fork(forkResult);
      if forked.Failure? {
        return Raised(forked.error);
      }
      var processId := forked.value;
      if processId != 0 {
        var process := new Process(processId, master);
        var _ := master.AddChild(process);
        return Node(process);
      }
      var process := new Process(ownPid, master);
      var _ := master.AddChild(process);
      trace := trace + [Invoked(process.GetId(), master.GetId())];
      if work == Throws {
        return Raised(ClosureThrew);
      }
      r := TerminateProcess(process);
    }

    /** `daemonize`: `closure` is absent when no closure is passed, and otherwise says how
        it ends; `ownPid` is what `getpid()` answers on the child side. */
    method Daemonize(forkResult: int, ownPid: int, closure: Option<Work> := None) returns (r: Returned)
      requires Valid()
      modifies this, master
      ensures View() == ServiceModel.Daemonize(old(View()), forkResult, closure).state
      ensures r.Outcome() == ServiceModel.Daemonize(old(View()), forkResult, closure).outcome
      ensures master.children == old(master.children)
      ensures forkResult == FORK_FAILED ==> r == Raised(ForkFailure) && trace == old(trace)
      ensures forkResult != FORK_FAILED && forkResult != 0 ==>
        trace == old(trace) + (if closure.Some? then [Invoked(forkResult, master.id)] else [])
                            + (if closure == Some(Throws) then [] else [Kill(master.id, SIGKILL)]) &&
        r == (if closure == Some(Throws) then Raised(ClosureThrew) else Itself)
      ensures forkResult == 0 ==>
        r.Node? && fresh(r.process) &&
        r.process.id == ownPid && r.process.parent == null && r.process.children == map[] &&
        trace == old(trace) + [Setsid]
      ensures old(Tracked()) ==> Tracked()
    {
      var forked := ServiceModel.Fork(forkResult);
      if forked.Failure? {
        return Raised(forked.error);
      }
      var processId := forked.value;
      if processId != 0 {
        if closure.Some? {
          var process := new Process(processId, master);
          trace := trace + [Invoked(process.GetId(), master.GetId())];
          if closure.value == Throws {
            return Raised(ClosureThrew);
          }
        }
        r := TerminateProcess(master);
        return;
      }
      trace := trace + [Setsid];
      var daemon := new Process(ownPid);
      r := Node(daemon);
    }
  }
}
