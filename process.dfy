/** A node of the process tree: `Process` in src/ProcessControl/Process.php. */
module ProcessTree {
  import opened Failures

  class Process {
    /** The OS process id; fixed at construction. */
    const id: int
    /** The parent node, or null for the master (root) of a tree; fixed at construction. */
    const parent: Process?
    /** The children of this node, keyed by process id. */
    var children: map<int, Process>

    constructor (processId: int, parent: Process? := null)
      ensures id == processId && this.parent == parent
      ensures children == map[]
    {
      id := processId;
      this.parent := parent;
      children := map[];
    }

    function GetId(): (r: int)
      ensures r == id
    {
      id
    }

    /** A node is the master exactly when it has no parent. */
    function IsMaster(): (r: bool)
      ensures r <==> parent == null
    {
      if parent != null then false else true
    }

    function GetParent(): (r: Process?)
      ensures r == parent
      ensures r == null <==> IsMaster()
    {
      parent
    }

    /** Registers `child` under its id, replacing any node already stored under that id. */
    method AddChild(child: Process) returns (self: Process)
      modifies this
      ensures children == old(children)[child.id := child]
      ensures HasChildById(child.id) && children[child.id] == child
      ensures forall k :: k != child.id ==>
        (k in children <==> k in old(children)) && (k in children ==> children[k] == old(children)[k])
      ensures self == this
    {
      children := children[child.GetId() := child];
      self := this;
    }

    function HasChildById(processId: int): (r: bool)
      reads this
      ensures r <==> processId in children
    {
      processId in children.Keys
    }

    /** The child stored under `processId`, or `MissingChild` when there is none. */
    function GetChildById(processId: int): (r: Result<Process>)
      reads this
      ensures r.Success? <==> processId in children
      ensures r.Success? ==> r.value == children[processId]
      ensures r.Failure? ==> r.error == MissingChild
    {
      if !HasChildById(processId) then Failure(MissingChild)
      else Success(children[processId])
    }

    /** Deletes the entry under `child`'s id; a missing entry is an error, not a no-op. */
    method RemoveChild(child: Process) returns (r: Result<Process>)
      modifies this
      ensures old(child.id in children) ==> r == Success(this) && children == old(children) - {child.id}
      ensures old(child.id !in children) ==> r == Failure(MissingChild) && children == old(children)
      ensures !HasChildById(child.id)
    {
      if !HasChildById(child.GetId()) {
        return Failure(MissingChild);
      }
      children := children - {child.GetId()};
      r := Success(this);
    }
  }
}
