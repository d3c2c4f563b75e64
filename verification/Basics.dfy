/** Small types shared by every module of the project. */
module Basics {

  datatype Option<+T> = None | Some(value: T)

  /** An error value, kept only as far as the runtime looks into it. */
  datatype Error =
    | Private(id: int)          // an application error; its text is not inspected
    | LoopCleanup(id: int)      // a loop-cleanup error, told apart by its type
    | ContextDone               // the error of a cancelled or expired context
    | WrongState                // an operation met a worker in the wrong lifecycle state
    | RecoveredPanic(id: int)   // the error made from a recovered panic

  /** A context: it may become cancelled, and then stays so. */
  class Context {
    var cancelled: bool

    constructor ()
      ensures !cancelled
    {
      cancelled := false;
    }
  }
}
