/** The remote-then-local rule of the command-line commands: a command is first
    sent to the running server through the control client, and is executed
    locally only when the server is unavailable. */
module Dispatch {
  import opened Base

  /** gRPC status codes the rule depends on. */
  const Unknown := 2
  const Unavailable := 14

  /** An error as the commands see it: its gRPC status code (`status.Code`) and
      its text. */
  datatype CallError = CallError(code: int, text: string)

  /** The reply of a call: its content, or an error. */
  datatype Reply = Reply(content: string) | Failure(error: CallError)

  /** What a command prints: `println` writes to standard error, `fmt.Printf` and
      the writers given to the commands to standard output. */
  datatype Output = Stdout(text: string) | Stderr(text: string)

  /** A call a command made, in order: to the running server or locally. */
  datatype Call = Remote(command: string, args: seq<string>) | Local(command: string, args: seq<string>)

  /** `status.Code` of an error that is not a gRPC status is Unknown. */
  function PlainError(text: string): (r: CallError)
    ensures r.code != Unavailable && r.text == text
  {
    CallError(Unknown, text)
  }

  /** The fallback condition: the remote call failed with code Unavailable. */
  predicate FallsBack(reply: Reply) {
    reply.Failure? && reply.error.code == Unavailable
  }

  /** A plain error, such as a wrong count of control clients, never leads to local
      execution. */
  lemma PlainErrorNeverFallsBack(text: string)
    ensures !FallsBack(Failure(PlainError(text)))
  {
  }

  /** `println(content)`. */
  function Println(content: string): Output {
    Stderr(content + "\n")
  }

  /** The error text a command returns for a failed reply. */
  function ErrorOf(reply: Reply): Option<string> {
    if reply.Failure? then Some(reply.error.text) else None
  }
}
