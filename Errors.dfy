/**
 * The exceptions the host raises (QIREE_VALIDATE and QIREE_NOT_IMPLEMENTED
 * failures), and the outcome of an operation that may raise one.
 */
module Errors {

  /** One constructor per raising site; the comment gives the message text. */
  datatype Error =
      /** "failed to read QIR input at '<filename>'" */
    | ReadFailed(filename: string)
      /** "no function with QIR 'entry_point' attribute exists in '<filename>'" */
    | NoEntryPointAttribute(filename: string)
      /** "no entrypoint function '<name>' exists" */
    | NoEntryPointNamed(name: string)
      /** QIREE_NOT_IMPLEMENTED(<what>) */
    | NotImplemented(what: string)
      /** "failed to create execution engine: <diagnostic>" */
    | EngineCreationFailed(diagnostic: string)
      /** "cannot call unknown function '<name>'" */
    | UnknownFunction(name: string)
      /** "could not bind to already-defined function '<name>'" */
    | AlreadyDefined(name: string)
      /** "cannot call LLVM executor recursively or in MT environment (for now)" */
    | Reentered
      /** "invalid number of shots 0" (only zero shots reach it) */
    | InvalidShots
      /** "failed to create accelerator" */
    | AcceleratorCreationFailed
      /** "input is not a quantum program" */
    | NotQuantumProgram

  /** A call that either returns a value or throws. */
  datatype Outcome<+T> = Returned(value: T) | Threw(error: Error)

  /** The outcome of a call returning void. */
  type Status = Outcome<()>
}
