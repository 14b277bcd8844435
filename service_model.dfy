/** The observable behaviour of `ProcessControlService` as values: the ids registered in the
    master's tree and the side effects so far.  Each service method's new state is one of
    the step functions below, and the lemmas say what any sequence of calls does. */
module ServiceModel {
  import opened Failures
  import opened Os

  /** `master` is the master's id, `registered` the keys of its child map, `trace` every
      side effect issued so far, oldest first. */
  datatype State = State(master: int, registered: set<int>, trace: seq<Event>)

  /** Whether a call returned normally or raised. */
  datatype Outcome = Normal | Raised(error: Error)

  datatype Step = Step(outcome: Outcome, state: State)

  /** The state right after construction, when `getpid()` answered `masterPid`. */
  function Initial(masterPid: int): (s: State)
    ensures s.master == masterPid && s.registered == {} && s.trace == []
  {
    State(masterPid, {}, [])
  }

  /** The protected `fork`: turns the collaborator's answer into a result, raising on -1. */
  function Fork(forkResult: int): (r: Result<int>)
    ensures r.Failure? <==> forkResult == FORK_FAILED
    ensures r.Failure? ==> r.error == ForkFailure
    ensures r.Success? ==> r.value == forkResult
  {
    if forkResult == FORK_FAILED then Failure(ForkFailure) else Success(forkResult)
  }

  /** `terminateProcess` on a node of id `pid`: the kill is always issued first; a non-master
      node is then removed from the master's tree, which raises when it is not there. */
  function Terminate(s: State, pid: int, isMaster: bool, signal: int := SIGKILL): (r: Step)
    ensures r.state.trace == s.trace + [Kill(pid, signal)]
    ensures r.state.master == s.master
    ensures r.outcome == Raised(MissingChild) <==> !isMaster && pid !in s.registered
    ensures r.outcome.Raised? ==> r.outcome == Raised(MissingChild)
    ensures r.state.registered == if isMaster then s.registered else s.registered - {pid}
  {
    var signalled := s.(trace := s.trace + [Kill(pid, signal)]);
    if isMaster then Step(Normal, signalled)
    else if pid in s.registered then Step(Normal, signalled.(registered := s.registered - {pid}))
    else Step(Raised(MissingChild), signalled)
  }

  /** `parallel`: on the parent side the forked id is registered; on the child side the
      node for the own id is registered, handed to the closure and then terminated. */
  function Parallel(s: State, forkResult: int, ownPid: int, work: Work): (r: Step)
    ensures r.state.master == s.master
    ensures forkResult == FORK_FAILED ==> r == Step(Raised(ForkFailure), s)
    ensures forkResult != FORK_FAILED && forkResult != 0 ==>
      r == Step(Normal, s.(registered := s.registered + {forkResult}))
    ensures forkResult == 0 && work == Completes ==>
      r.outcome == Normal &&
      r.state.registered == s.registered - {ownPid} &&
      r.state.trace == s.trace + [Invoked(ownPid, s.master), Kill(ownPid, SIGKILL)]
    ensures forkResult == 0 && work == Throws ==>
      r.outcome == Raised(ClosureThrew) &&
      r.state.registered == s.registered + {ownPid} &&
      r.state.trace == s.trace + [Invoked(ownPid, s.master)]
  {
    match Fork(forkResult)
    case Failure(e) => Step(Raised(e), s)
    case Success(pid) =>
      if pid != 0 then Step(Normal, s.(registered := s.registered + {pid}))
      else
        var added := State(s.master, s.registered + {ownPid}, s.trace + [Invoked(ownPid, s.master)]);
        if work == Throws then Step(Raised(ClosureThrew), added)
        else Terminate(added, ownPid, false)
  }

  /** `daemonize`: the parent side optionally shows the closure the forked node and then
      kills the master; the child side starts a new session.  The tree is never touched. */
  function Daemonize(s: State, forkResult: int, work: Option<Work>): (r: Step)
    ensures r.state.master == s.master && r.state.registered == s.registered
    ensures forkResult == FORK_FAILED ==> r == Step(Raised(ForkFailure), s)
    ensures forkResult == 0 ==> r == Step(Normal, s.(trace := s.trace + [Setsid]))
    ensures forkResult != FORK_FAILED && forkResult != 0 ==>
      r.state.trace == s.trace + (if work.Some? then [Invoked(forkResult, s.master)] else [])
                               + (if work == Some(Throws) then [] else [Kill(s.master, SIGKILL)]) &&
      r.outcome == (if work == Some(Throws) then Raised(ClosureThrew) else Normal)
  {
    match Fork(forkResult)
    case Failure(e) => Step(Raised(e), s)
    case Success(pid) =>
      if pid != 0 then
        var shown := if work.Some? then s.(trace := s.trace + [Invoked(pid, s.master)]) else s;
        if work == Some(Throws) then Step(Raised(ClosureThrew), shown)
        else Terminate(shown, s.master, true)
      else Step(Normal, s.(trace := s.trace + [Setsid]))
  }

  /** One call a client makes on the service, with the collaborators' answers to it. */
  datatype Call =
    | ParallelCall(forkResult: int, ownPid: int, work: Work)
    | DaemonizeCall(forkResult: int, closure: Option<Work>)
    | TerminateCall(pid: int, isMaster: bool, signal: int)

  function Apply(s: State, c: Call): (r: Step)
  {
    match c
    case ParallelCall(f, own, w) => Parallel(s, f, own, w)
    case DaemonizeCall(f, w) => Daemonize(s, f, w)
    case TerminateCall(pid, m, sig) => Terminate(s, pid, m, sig)
  }

  /** The state after the calls, one after the other; a call that raises is caught by the
      client, which goes on with the next. */
  function Run(s: State, calls: seq<Call>): (final: State)
    decreases |calls|
  {
    if calls == [] then s else Run(Apply(s, calls[0]).state, calls[1..])
  }

  /** The ids some `Kill` event in `trace` is addressed to. */
  function Signalled(trace: seq<Event>): (r: set<int>)
    ensures forall pid :: pid in r <==> exists signal :: Kill(pid, signal) in trace
  {
    if trace == [] then {}
    else (if trace[0].Kill? then {trace[0].pid} else {}) + Signalled(trace[1..])
  }

  /** The id one call hears for a new node in `parallel`: the fork result on the parent
      side, the `getpid()` answer on the child side, none after a failed fork. */
  function AnnouncedBy(c: Call): (ids: set<int>)
  {
    if !c.ParallelCall? || c.forkResult == FORK_FAILED then {}
    else if c.forkResult != 0 then {c.forkResult}
    else {c.ownPid}
  }

  /** The ids a sequence of calls heard for new nodes in `parallel`. */
  function Announced(calls: seq<Call>): (ids: set<int>)
    decreases |calls|
  {
    if calls == [] then {} else AnnouncedBy(calls[0]) + Announced(calls[1..])
  }

  lemma SignalledConcat(a: seq<Event>, b: seq<Event>)
    ensures Signalled(a + b) == Signalled(a) + Signalled(b)
  {
  }

  /** A single call keeps the master, only appends to the trace, and signals every id it
      takes out of the tree. */
  lemma ApplyStep(s: State, c: Call)
    ensures Apply(s, c).state.master == s.master
    ensures s.trace <= Apply(s, c).state.trace
    ensures s.registered - Apply(s, c).state.registered
            <= Signalled(Apply(s, c).state.trace[|s.trace|..])
    ensures Apply(s, c).state.registered <= s.registered + AnnouncedBy(c)
  {
  }

  /** The trace of a run extends the trace it started from. */
  lemma {:induction false} RunExtendsTrace(s: State, calls: seq<Call>)
    ensures s.trace <= Run(s, calls).trace
    ensures Run(s, calls).master == s.master
    decreases |calls|
  {
    if calls != [] {
      ApplyStep(s, calls[0]);
      RunExtendsTrace(Apply(s, calls[0]).state, calls[1..]);
    }
  }

  /** No id leaves the master's tree without a kill addressed to it: whatever a sequence of
      calls removes from the tree, the events it issued include a `Kill` for it. */
  lemma {:induction false} DetachedOnlyAfterKill(s: State, calls: seq<Call>)
    ensures |s.trace| <= |Run(s, calls).trace|
    ensures s.registered - Run(s, calls).registered <= Signalled(Run(s, calls).trace[|s.trace|..])
    decreases |calls|
  {
    RunExtendsTrace(s, calls);
    if calls != [] {
      var s1 := Apply(s, calls[0]).state;
      ApplyStep(s, calls[0]);
      DetachedOnlyAfterKill(s1, calls[1..]);
      RunExtendsTrace(s1, calls[1..]);
      var t := Run(s, calls).trace;
      assert t[|s.trace|..] == s1.trace[|s.trace|..] + t[|s1.trace|..];
      SignalledConcat(s1.trace[|s.trace|..], t[|s1.trace|..]);
    }
  }

  /** The tree only ever gains ids the collaborators reported to `parallel`: neither
      `daemonize` nor `terminateProcess` registers anything. */
  lemma {:induction false} RegisteredOnlyFromParallel(s: State, calls: seq<Call>)
    ensures Run(s, calls).registered <= s.registered + Announced(calls)
    decreases |calls|
  {
    if calls != [] {
      ApplyStep(s, calls[0]);
      RegisteredOnlyFromParallel(Apply(s, calls[0]).state, calls[1..]);
    }
  }

  /** A child registered by the parent side of `parallel` and then terminated leaves the
      tree as it was, with one kill for it. */
  lemma SpawnThenTerminate(s: State, pid: int, ownPid: int, work: Work, signal: int)
    requires pid != FORK_FAILED && pid != 0 && pid !in s.registered
    ensures Parallel(s, pid, ownPid, work).outcome == Normal
    ensures Terminate(Parallel(s, pid, ownPid, work).state, pid, false, signal)
            == Step(Normal, s.(trace := s.trace + [Kill(pid, signal)]))
  {
  }

  /** A second termination of the same non-master node raises `MissingChild`, yet still
      issues its kill first. */
  lemma TerminateTwice(s: State, pid: int, signal: int)
    requires pid in s.registered
    ensures Terminate(s, pid, false, signal).outcome == Normal
    ensures Terminate(Terminate(s, pid, false, signal).state, pid, false, signal)
            == Step(Raised(MissingChild),
                    State(s.master, s.registered - {pid}, s.trace + [Kill(pid, signal), Kill(pid, signal)]))
  {
  }

  /** The child side of `parallel` registers and then removes its own node, so an entry
      the tree already held under that id is lost: the net effect is a deletion. */
  lemma ChildSideTreeEffect(s: State, ownPid: int)
    ensures ownPid !in s.registered ==> Parallel(s, 0, ownPid, Completes).state.registered == s.registered
    ensures ownPid in s.registered ==> ownPid !in Parallel(s, 0, ownPid, Completes).state.registered
  {
  }
}
