/** Shared result shapes for the runtime guards: an optional value (a C pointer
    that may be null) and the three ways a guarded call can end. */
module Outcomes {

  datatype Option<+T> = None | Some(value: T)

  /** How a call into the runtime ends: it returns normally, a C `assert` fails
      (carrying the stringified expression that `assert` hands to
      `__assert_func`), or the system halts through `chSysHalt` with a cause. */
  datatype Outcome<+T> =
    | Return(value: T)
    | AssertFailed(expr: string)
    | Halted(cause: string)
}
