/**
 * The console buffer the in-browser sandbox writes to
 * (src/contexts/SandpackContext.tsx).
 */
module SandpackContext {
  /** The four levels a console message can carry. */
  datatype MessageType = Log | Error | Warn | Info

  datatype ConsoleMessage = ConsoleMessage(kind: MessageType, message: string, timestamp: string)

  /** The provider's `consoleMessages` state. */
  class ConsoleBuffer {
    var consoleMessages: seq<ConsoleMessage>

    constructor ()
      ensures consoleMessages == []
    {
      consoleMessages := [];
    }

    /** Appends one message after all earlier ones, which keep their values and order. */
    method AddConsoleMessage(msg: ConsoleMessage)
      modifies this
      ensures consoleMessages == old(consoleMessages) + [msg]
      ensures |consoleMessages| == |old(consoleMessages)| + 1
      ensures consoleMessages[..|old(consoleMessages)|] == old(consoleMessages)
    {
      consoleMessages := consoleMessages + [msg];
    }

    /** Empties the buffer; doing it twice leaves it just as empty. */
    method ClearConsoleMessages()
      modifies this
      ensures consoleMessages == []
    {
      consoleMessages := [];
    }
  }
}
