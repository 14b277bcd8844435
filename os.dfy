/** What the core sees of the operating system and of the user closures. */
module Os {

  /** The signal `terminateProcess` sends when none is given (SIGKILL on POSIX). */
  const SIGKILL: int := 9

  /** The value the fork collaborator answers when it cannot duplicate the process. */
  const FORK_FAILED: int := -1

  /** One side effect the service causes, in the order it causes them:
      a `kill` or `setsid` call on the POSIX collaborator, or a call of the user closure
      with a node of id `pid` whose parent has id `parent`. */
  datatype Event =
    | Kill(pid: int, signal: int)
    | Setsid
    | Invoked(pid: int, parent: int)

  /** How a user closure ends once it has been called. */
  datatype Work = Completes | Throws
}
