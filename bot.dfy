/** What the dispatcher can observe of the Slack client: the messages it
    sends and the log lines it writes, as a trace of effects. */
module Bot {
  import opened Js

  datatype Level = Info | Error

  datatype Effect =
    | Said(channel: Value, text: Value)          // a message posted to a channel
    | Logged(level: Level, message: Value)       // a line of the dispatcher's logger
    | Failed(command: string, fault: Fault)      // "Failed to process command <name>: <error>"
    | Performed(command: string)                 // an action whose work is not modelled

  const ErrorReply := "Something went wrong. Please try again or contact @yenbekbay"

  /** `sayMessage({channel, text})`: nothing is sent, and the stream is
      empty, unless both the text and the channel are truthy. */
  function Send(channel: Value, text: Value): (r: seq<Effect>)
    ensures r != [] <==> Truthy(channel) && Truthy(text)
    ensures r == [] || r == [Said(channel, text)]
  {
    if Truthy(channel) && Truthy(text) then [Said(channel, text)] else []
  }

  /** `sayError(channel)` sends the fixed apology to any truthy channel and
      nothing at all to a missing one. */
  lemma SayErrorReachesOnlyAChannel(channel: Value)
    ensures Send(channel, Str(ErrorReply)) == (if Truthy(channel) then [Said(channel, Str(ErrorReply))] else [])
  {
  }
}
