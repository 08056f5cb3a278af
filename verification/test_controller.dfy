/** The test controller's `POST echo` action: echoes the body's `Message`, or its `Text` when
    `Message` is empty. Either field may be null in a posted body; both default to "". */
module Controllers {
  import opened Wrappers

  const EchoPrefix: string := "Echo: "

  datatype TestMessage = TestMessage(message: Option<string>, text: Option<string>)

  /** The body that binds when no field is given. */
  const DefaultTestMessage: TestMessage := TestMessage(Some(""), Some(""))

  /** The anonymous object the action returns. */
  datatype EchoResponse = EchoResponse(echo: string, originalMessage: Option<string>)

  /** `Echo`: the chosen text is `Message` unless it is null or empty, then `Text`; `echo` is
      "Echo: " and the chosen text (null reads as empty), `originalMessage` the chosen text. */
  function Echo(body: TestMessage): (r: EchoResponse)
    ensures body.message.Some? && body.message.value != "" ==> r.originalMessage == body.message
    ensures !(body.message.Some? && body.message.value != "") ==> r.originalMessage == body.text
    ensures EchoPrefix <= r.echo
    ensures r.echo[|EchoPrefix|..] == r.originalMessage.OrElse("")
  {
    var text := if body.message.Some? && body.message.value != "" then body.message else body.text;
    EchoResponse(EchoPrefix + text.OrElse(""), text)
  }

  /** An empty body echoes "Echo: " with an empty original message. */
  lemma EmptyBodyEchoesPrefix()
    ensures Echo(DefaultTestMessage) == EchoResponse("Echo: ", Some(""))
  {
  }
}
