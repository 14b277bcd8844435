# ProcessControl in Dafny

A model of the two classes that make up the ProcessControl library: `Process`, a node of a
process tree (an id, an optional parent fixed at construction, and a child map keyed by
id), and `ProcessControlService`, which owns the master node and implements `parallel`
(fork and run a closure in the child), `daemonize` (fork, detach the child into a new
session, kill the launching process) and `terminateProcess` (signal a node and drop it from
the master's tree).

Layout:

- `failures.dfy` (`Failures`): the raised conditions `ForkFailure`, `MissingChild` and
  `ClosureThrew`, which stands for an exception thrown by a user closure. Also `Option`
  and `Result`.
- `os.dfy` (`Os`): `SIGKILL` (9), the fork failure value (-1), the side-effect events
  `Kill(pid, signal)`, `Setsid` and `Invoked(pid, parent)` (a closure call), and how a
  closure ends (`Completes` or `Throws`).
- `process.dfy` (`ProcessTree`): class `Process`. `id` and `parent` are `const`, so no
  operation can change them. `children` is a `map<int, Process>` that `AddChild` and
  `RemoveChild` reassign. Methods that throw in PHP return a `Result`.
- `service_model.dfy` (`ServiceModel`): the service's observable behaviour as values. A
  state holds the master id, the ids registered in the master's tree and the trace of
  side effects. There is one step function per service method, plus lemmas about any
  sequence of calls.
- `control_service.dfy` (`ControlService`): class `ProcessControlService`. The fork
  collaborator's answer and the `getpid()` answers are method parameters. `kill`,
  `setsid` and closure calls are appended to the `trace` field. Each method's postcondition
  ties `View()` (master id, keys of the master's child map, trace) to the matching
  `ServiceModel` step. It also states the new child map and the returned node outright.
- `scenarios.dfy` (`Scenarios`): the unit tests, written as verified client methods.

The model follows the code, including where it does something a reader might not expect:

- On the child side, `parallel` registers its own node in the master's tree, calls the
  closure, and then removes the node again through `terminateProcess`. An alternative
  would build that node without registering it; the code registers it.
- If the tree already held an entry under the child's own id, this add-then-remove
  deletes that entry (`ChildSideTreeEffect`).
- If the closure throws, nothing guarantees the self-kill. The exception propagates, no
  kill is sent, and the node stays registered.
- Any nonzero fork result other than -1 counts as the parent side, negatives included,
  since the code tests `if ($processId)`.
- The closure `parallel` takes is a non-nullable `Closure` parameter, so the model always
  has one. The `is_null` test at src/ProcessControl/ProcessControlService.php:78 can never
  fail.

## Model

| member | source | states |
|---|---|---|
| `ProcessTree.Process.constructor` | src/ProcessControl/Process.php:34-41 | the new node has the given id and parent (none by default) and an empty child map |
| `ProcessTree.Process.GetId` | src/ProcessControl/Process.php:48-51 | returns the id fixed at construction |
| `ProcessTree.Process.IsMaster` | src/ProcessControl/Process.php:58-61 | true exactly when the node has no parent |
| `ProcessTree.Process.GetParent` | src/ProcessControl/Process.php:68-71 | returns the parent given at construction; null exactly for a master |
| `ProcessTree.Process.AddChild` | src/ProcessControl/Process.php:80-85 | the child is stored under its id, replacing an earlier entry with that id; every other entry is unchanged; the receiver is returned |
| `ProcessTree.Process.HasChildById` | src/ProcessControl/Process.php:112-115 | true exactly when the id is a key of the child map |
| `ProcessTree.Process.GetChildById` | src/ProcessControl/Process.php:96-103 | succeeds exactly when the id is a key, and then returns the stored node; otherwise raises `MissingChild`; never changes the map |
| `ProcessTree.Process.RemoveChild` | src/ProcessControl/Process.php:126-135 | a present id is deleted and all other entries are kept, returning the receiver; an absent id raises `MissingChild` and leaves the map unchanged; afterwards the id is absent either way |
| `ServiceModel.Initial` | src/ProcessControl/ProcessControlService.php:38-44 | after construction the master has the first `getpid()` answer as its id, nothing is registered and no side effect was issued |
| `ServiceModel.Fork` | src/ProcessControl/ProcessControlService.php:135-144 | raises `ForkFailure` exactly when the collaborator answers -1; otherwise yields that answer |
| `ServiceModel.Terminate` | src/ProcessControl/ProcessControlService.php:119-127 | a kill with the given signal is always issued first; a master node is not removed; a non-master id is removed, and raises `MissingChild` (after the kill) exactly when it was not registered |
| `ServiceModel.Parallel` | src/ProcessControl/ProcessControlService.php:65-84 | fork failure raises with no state change; the parent side registers the forked id and issues nothing; the child side calls the closure with its own node, then kills itself with SIGKILL and ends with that id out of the tree; a throwing closure leaves the id registered and sends no kill |
| `ServiceModel.Daemonize` | src/ProcessControl/ProcessControlService.php:93-109 | never changes the tree; fork failure raises with nothing issued; the parent side calls the closure, when given, with the forked id and then kills the master with SIGKILL (no kill if the closure throws); the child side issues exactly one `setsid` |
| `ServiceModel.ApplyStep` | src/ProcessControl/ProcessControlService.php:65-127 | every service call keeps the master, only appends to the trace, signals every id it removes, and registers at most the id `parallel` heard: the fork result on the parent side, the `getpid()` answer on the child side, nothing after a failed fork |
| `ServiceModel.RunExtendsTrace` | src/ProcessControl/ProcessControlService.php:65-127 | over any sequence of calls the trace only grows and the master stays the same |
| `ServiceModel.DetachedOnlyAfterKill` | src/ProcessControl/ProcessControlService.php:119-127 | over any sequence of calls, every id that left the master's tree had a kill addressed to it among the events issued |
| `ServiceModel.RegisteredOnlyFromParallel` | src/ProcessControl/ProcessControlService.php:65-109 | over any sequence of calls, the tree gains only the ids `parallel` heard for new nodes: non-failure, nonzero fork results and, after a zero fork result, the `getpid()` answer (`daemonize` and `terminateProcess` never register anything) |
| `ServiceModel.SpawnThenTerminate` | src/ProcessControl/ProcessControlService.php:69-127 | terminating a child that `parallel` just registered on the parent side restores the tree exactly and adds one kill |
| `ServiceModel.TerminateTwice` | src/ProcessControl/ProcessControlService.php:119-127 | terminating the same registered child twice: the second call raises `MissingChild` but still sends its kill |
| `ServiceModel.ChildSideTreeEffect` | src/ProcessControl/ProcessControlService.php:76-83 | the child side of `parallel` leaves a tree without its own id as it was, and deletes an entry already held under that id |
| `ControlService.ProcessControlService.constructor` | src/ProcessControl/ProcessControlService.php:38-44 | the master is a fresh root node with the `getpid()` answer as id and no children; the trace is empty |
| `ControlService.ProcessControlService.GetMaster` | src/ProcessControl/ProcessControlService.php:51-54 | returns the master node |
| `ControlService.ProcessControlService.TerminateProcess` | src/ProcessControl/ProcessControlService.php:119-127 | follows `ServiceModel.Terminate`: appends `Kill(id, signal)` (SIGKILL by default), removes a non-master node's entry or raises `MissingChild`, and leaves the master's map alone for a master; returns the service |
| `ControlService.ProcessControlService.Parallel` | src/ProcessControl/ProcessControlService.php:65-84 | follows `ServiceModel.Parallel`; the parent side returns a fresh node whose id is the fork result and whose parent is the master, stored under that id; fork failure changes nothing; the child side returns the service with its own id out of the tree, or, when the closure throws, leaves a fresh childless node with the `getpid()` id and the master as parent stored under that id |
| `ControlService.ProcessControlService.Daemonize` | src/ProcessControl/ProcessControlService.php:93-109 | follows `ServiceModel.Daemonize`; the master's map is unchanged in every case; the parent side returns the service after killing the master; the child side returns a fresh root node whose id is the `getpid()` answer |
| `Scenarios.RootProcessScenario` | tests/unit/ProcessTest.php:9-37 | a root node has its id, is master, has no parent and no children |
| `Scenarios.ChildProcessScenario` | tests/unit/ProcessTest.php:25-45 | a node built with a parent is not master and returns that parent |
| `Scenarios.ChildLookupScenario` | tests/unit/ProcessTest.php:47-63 | on an empty node and on one with a child, an unknown id raises `MissingChild`; an added child is found by id |
| `Scenarios.RemoveChildScenario` | tests/unit/ProcessTest.php:65-86 | removing a missing child raises; an added child is present, its removal succeeds and makes it absent, and a second removal raises |
| `Scenarios.ParallelScenarios` | tests/unit/ProcessControlServiceTest.php:34-71 | fork failure raises `ForkFailure`; the parent side returns node 5678 under master 1234 and registers it, with no side effect |
| `Scenarios.ParallelChildSideScenario` | tests/unit/ProcessControlServiceTest.php:73-102 | the child side calls the closure with node 5678 and then kills 5678 with signal 9, leaving the tree empty; on a fresh service whose `getpid()` always answers 1234, a throwing closure gets node 1234, the exception propagates, no kill is sent and 1234 stays registered |
| `Scenarios.DaemonizeScenarios` | tests/unit/ProcessControlServiceTest.php:107-160 | fork failure raises; the parent side calls the closure and then kills master 1234 with SIGKILL; the child side calls `setsid` once and returns root node 1234 (every `getpid()` answers 1234); the master's tree stays empty |
| `Scenarios.TerminateScenario` | tests/unit/ProcessControlServiceTest.php:162-178 | terminating a registered child kills it with signal 9, drops it from the tree and returns the service |
| `Scenarios.TerminateRegisteredChild` | src/ProcessControl/ProcessControlService.php:119-127 | in a tracked tree, terminating a node fetched by id from the master with the default signal succeeds, sends `Kill(pid, SIGKILL)`, removes that id and keeps the tree tracked |

## Left out

- The real OS calls `pcntl_fork`, `posix_kill`, `posix_setsid` and `posix_getpid`, and the
  default construction of the `Posix` and `Pcntl` collaborators. Their answers are
  parameters and their effects are `trace` events.
- Fork's "one call, two returns" and the separate address spaces that follow. OS-level
  concurrency is out of scope, so each fork is one given answer, and the model continues
  in the same state after a self-kill.
- The return value of a `kill`: it is fire-and-forget and nothing observes it.
- What user closures do inside. Only the call (with the node's id and its parent's id)
  and whether the closure completes or throws are modelled. The model assumes a closure
  does not touch the master's tree.
- The insertion order of the `PhpCollection\Map` child map, which no operation here
  observes. A Dafny `map` is used instead.
- `getChildCount`: the tests call it, but `Process` does not define it. The empty map after
  construction is stated instead.
- `ServiceModel.Parallel`: states the child map only as the set of its keys. The stored
  node objects are stated by `ControlService.ProcessControlService.Parallel`.
