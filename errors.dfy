/** The error values the worker builds and inspects. */
module Errors {

  /**
   * An error: an AMQP exception with its reply code (*amqp.Error), a plain error (errors.New),
   * an error wrapped with a message (errors.Wrap / errors.WithMessage, unwrappable), or an error
   * rendered into a new message with fmt.Errorf's %s (not unwrappable).
   */
  datatype Error =
    | AmqpError(code: int, reason: string)
    | Failure(message: string)
    | Wrapped(message: string, cause: Error)
    | Formatted(prefix: string, cause: Error)

  /** Reply code 504, channel-error (section 1.9 of the AMQP 0-9-1 specification). */
  const ChannelError: int := 504
}
