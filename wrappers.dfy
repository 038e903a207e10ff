/** Option and Result wrappers shared by every module, plus the errors the engine throws. */
module Wrappers {

  datatype Option<T> = None | Some(value: T)

  /** The exceptions the source raises, one constructor per distinct `throw`. */
  datatype Error =
    | FramebufferCreationFailed   // "Failed to create framebuffer"
    | FramebufferIncomplete       // "Framebuffer is not complete"
    | SocketTypeMismatch          // "Socket types do not match"
    | GraphContainsCycle          // "Graph contains a cycle"
    | SliderNameRequired          // "Slider name is required"

  datatype Result<T> = Success(value: T) | Failure(error: Error) {
    predicate IsFailure() { Failure? }
    function PropagateFailure<U>(): Result<U>
      requires Failure?
    { Failure(error) }
    function Extract(): T
      requires Success?
    { value }
  }
}
