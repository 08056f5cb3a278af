/** The plain echo bot: echoes messages, welcomes added members, answers activities it does
    not know with a fixed reply. A failed send is rethrown, never swallowed. */
module Echo {
  import opened Wrappers
  import opened Activities

  const EchoReplyPrefix: string := "Echo: "
  const WelcomeText: string :=
    "Hello and welcome! I'm an Echo Bot. Send me a message and I'll echo it back to you."
  const NotUnderstoodText: string :=
    "I received an activity I don't understand. Please send me a text message."

  /** The reply to a message: "Echo: " and the text (a missing text reads as empty). */
  function EchoReply(text: Option<string>): (reply: string)
    ensures EchoReplyPrefix <= reply
    ensures reply[|EchoReplyPrefix|..] == text.OrElse("")
  {
    EchoReplyPrefix + text.OrElse("")
  }

  /** Sending one message whose failure is rethrown: the replies delivered, and the failure. */
  function SendOnce(reply: string, outcome: SendResult): (r: (seq<string>, Option<string>))
    ensures outcome.Delivered? ==> r == ([reply], None)
    ensures outcome.SendFailed? ==> r == ([], Some(outcome.message))
  {
    match outcome
    case Delivered => ([reply], None)
    case SendFailed(m) => ([], Some(m))
  }

  /** One turn: the base handler's dispatch to the overridden handlers. `send(j)` is the
      outcome of the turn's j-th send. */
  method OnTurn(activity: Activity, send: nat -> SendResult)
    returns (sent: seq<string>, failure: Option<string>)
    ensures activity.MessageActivity? ==> (sent, failure) == SendOnce(EchoReply(activity.text), send(0))
    ensures activity.ConversationUpdate? ==>
      var n := |Newcomers(activity.membersAdded, activity.recipient)|;
      && sent == Repeat(WelcomeText, DeliveredRun(n, send))
      && (failure.None? <==> DeliveredRun(n, send) == n)
      && (failure.Some? ==> send(|sent|) == SendFailed(failure.value))
    ensures activity.UnrecognizedActivity? ==> (sent, failure) == SendOnce(NotUnderstoodText, send(0))
    ensures activity.EventActivity? || activity.OtherKnownActivity? ==> sent == [] && failure.None?
  {
    match activity
    case MessageActivity(text) =>
      var r := SendOnce(EchoReply(text), send(0));
      sent, failure := r.0, r.1;
    case ConversationUpdate(members, recipient) =>
      sent, failure := SendWelcomes(members, recipient, WelcomeText, send);
    case UnrecognizedActivity =>
      var r := SendOnce(NotUnderstoodText, send(0));
      sent, failure := r.0, r.1;
    case _ =>
      sent, failure := [], None;
  }
}
