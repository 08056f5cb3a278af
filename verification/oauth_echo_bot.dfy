/** The OAuth echo bot: routes message and token-response activities into the main dialog,
    welcomes added members, and saves both state partitions at the end of every turn that
    completes. Everything the bot does to the outside world is one ordered event log. */
module OAuthEcho {
  import opened Wrappers
  import opened Activities
  import Dialogs

  const WelcomeText: string :=
    "Hello and welcome! I am an OAuth-enabled Echo Bot. \n\n**Available Commands:**\n- Type **'login'** to authenticate with your Microsoft credentials\n- Type **'logout'** to sign out  \n- Type **'profile'** to see your profile information (requires login)\n- Send any other message to get an echo response\n\nTry typing 'login' to get started with authentication!"

  datatype Partition = ConversationPartition | UserPartition

  /** One observable effect of the bot, in the order it happens. */
  datatype Event =
    | Sent(text: string)
    | Called(call: Dialogs.Call)
    | Saved(partition: Partition, force: bool)

  /** The two non-forced saves that close a completed turn: conversation, then user. */
  const SaveEvents: seq<Event> := [Saved(ConversationPartition, false), Saved(UserPartition, false)]

  function SentEvents(replies: seq<string>): (r: seq<Event>)
    ensures |r| == |replies|
    ensures forall i :: 0 <= i < |r| ==> r[i] == Sent(replies[i])
  {
    seq(|replies|, i requires 0 <= i < |replies| => Sent(replies[i]))
  }

  function CallEvents(calls: seq<Dialogs.Call>): (r: seq<Event>)
    ensures |r| == |calls|
    ensures forall i :: 0 <= i < |r| ==> r[i] == Called(calls[i])
  {
    seq(|calls|, i requires 0 <= i < |calls| => Called(calls[i]))
  }

  /** The argument whose null check fails first, if any: the constructor checks the
      conversation state, the user state, the dialog and the logger, in that order. */
  function FirstNullDependency(conversationState: bool, userState: bool, dialog: bool, logger: bool)
    : (missing: Option<string>)
    ensures missing.None? <==> conversationState && userState && dialog && logger
    ensures missing == Some("conversationState") <==> !conversationState
    ensures missing == Some("userState") <==> conversationState && !userState
    ensures missing == Some("dialog") <==> conversationState && userState && !dialog
    ensures missing == Some("logger") <==> conversationState && userState && dialog && !logger
  {
    if !conversationState then Some("conversationState")
    else if !userState then Some("userState")
    else if !dialog then Some("dialog")
    else if !logger then Some("logger")
    else None
  }

  /** The exception the constructor throws, naming the parameter that was null. */
  datatype ArgumentNullException = ArgumentNullException(paramName: string)

  /** The result of one turn: the dialog state afterwards, the events of the turn, and the
      failure that escaped the turn, if any. */
  datatype TurnOutcome = TurnOutcome(state: Dialogs.DialogState, events: seq<Event>, failure: Option<string>)

  /** What running the main dialog on this turn adds. */
  function DialogTurn(connection: string, state: Dialogs.DialogState, text: Option<string>,
                      s: Dialogs.Services, prompt: Dialogs.PromptOutcome): (r: TurnOutcome)
    ensures var d := Dialogs.RunTurn(connection, state, text, s, prompt);
      r.state == d.state && r.events == CallEvents(d.calls) + SentEvents(d.replies)
    ensures r.failure.None?
    ensures forall e :: e in r.events ==> !e.Saved?
  {
    var d := Dialogs.RunTurn(connection, state, text, s, prompt);
    TurnOutcome(d.state, CallEvents(d.calls) + SentEvents(d.replies), None)
  }

  /** The base handler's dispatch of one activity, specified: message and token-response
      activities run the dialog, added members are welcomed, every other kind does nothing. */
  function Dispatch(connection: string, state: Dialogs.DialogState, activity: Activity,
                    s: Dialogs.Services, prompt: Dialogs.PromptOutcome, send: nat -> SendResult): (r: TurnOutcome)
    ensures forall e :: e in r.events ==> !e.Saved?
    ensures r.failure.Some? ==> activity.ConversationUpdate?
    ensures !(activity.MessageActivity? || activity == EventActivity(TokenResponseEventName)) ==>
      r.state == state
    ensures activity.MessageActivity? ==> r == DialogTurn(connection, state, activity.text, s, prompt)
    ensures activity == EventActivity(TokenResponseEventName) ==> r == DialogTurn(connection, state, None, s, prompt)
    ensures activity.ConversationUpdate? ==>
      var n := |Newcomers(activity.membersAdded, activity.recipient)|;
      var k := DeliveredRun(n, send);
      && r.events == SentEvents(Repeat(WelcomeText, k))
      && (r.failure.None? <==> k == n)
      && (r.failure.Some? ==> send(k) == SendFailed(r.failure.value))
    ensures (activity.EventActivity? && activity.name != TokenResponseEventName)
            || activity.OtherKnownActivity? || activity.UnrecognizedActivity? ==>
      r == TurnOutcome(state, [], None)
  {
    match activity
    case MessageActivity(text) => DialogTurn(connection, state, text, s, prompt)
    case EventActivity(name) =>
      if name == TokenResponseEventName then DialogTurn(connection, state, None, s, prompt)
      else TurnOutcome(state, [], None)
    case ConversationUpdate(members, recipient) =>
      var n := |Newcomers(members, recipient)|;
      var k := DeliveredRun(n, send);
      TurnOutcome(state, SentEvents(Repeat(WelcomeText, k)), if k < n then Some(send(k).message) else None)
    case _ => TurnOutcome(state, [], None)
  }

  /** A turn of the OAuth echo bot, specified: the dispatch, then (when nothing escaped it)
      the two saves, conversation first. */
  function Turn(connection: string, state: Dialogs.DialogState, activity: Activity,
                s: Dialogs.Services, prompt: Dialogs.PromptOutcome, send: nat -> SendResult): (r: TurnOutcome)
    ensures r.failure.None? ==>
      |r.events| >= 2 && r.events[|r.events| - 2..] == SaveEvents
      && forall i :: 0 <= i < |r.events| - 2 ==> !r.events[i].Saved?
    ensures r.failure.Some? ==> activity.ConversationUpdate? && forall e :: e in r.events ==> !e.Saved?
    ensures var d := Dispatch(connection, state, activity, s, prompt, send);
      && r.state == d.state && r.failure == d.failure
      && r.events == d.events + (if d.failure.None? then SaveEvents else [])
    ensures !(activity.MessageActivity? || activity == EventActivity(TokenResponseEventName)) ==>
      r.state == state
  {
    var d := Dispatch(connection, state, activity, s, prompt, send);
    if d.failure.Some? then d
    else
      var events := d.events + SaveEvents;
      assert forall i :: 0 <= i < |events| - 2 ==> events[i] in d.events;
      TurnOutcome(d.state, events, None)
  }

  /** Message turns and token-response turns run the same dialog against the same dialog
      state: a token-response event is the dialog turn of a message without text. */
  lemma TokenResponseRunsDialog(connection: string, state: Dialogs.DialogState,
                                s: Dialogs.Services, prompt: Dialogs.PromptOutcome, send: nat -> SendResult)
    ensures Turn(connection, state, EventActivity(TokenResponseEventName), s, prompt, send)
         == Turn(connection, state, MessageActivity(None), s, prompt, send)
    ensures Turn(connection, state, EventActivity(TokenResponseEventName), s, prompt, send).state
         == Dialogs.RunTurn(connection, state, None, s, prompt).state
  {
  }

  class OAuthEchoBot {
    const dialog: Dialogs.MainDialog
    /** The dialog's "DialogState" property, kept in conversation state between turns. */
    var dialogState: Dialogs.DialogState
    /** Everything the bot has done, in order. */
    var log: seq<Event>

    constructor (dialog: Dialogs.MainDialog)
      ensures this.dialog == dialog && dialogState == Dialogs.Idle && log == []
    {
      this.dialog := dialog;
      dialogState := Dialogs.Idle;
      log := [];
    }

    /** `RunAsync` of the main dialog on this turn's text. */
    method RunDialog(text: Option<string>, s: Dialogs.Services, prompt: Dialogs.PromptOutcome)
      modifies this
      ensures var r := DialogTurn(dialog.connectionName, old(dialogState), text, s, prompt);
        dialogState == r.state && log == old(log) + r.events
    {
      var d := Dialogs.RunTurn(dialog.connectionName, dialogState, text, s, prompt);
      dialogState := d.state;
      log := log + CallEvents(d.calls) + SentEvents(d.replies);
    }

    /** `OnMembersAddedAsync`: the welcome loop; a failed send escapes. */
    method OnMembersAdded(members: seq<string>, recipient: string, send: nat -> SendResult)
      returns (failure: Option<string>)
      modifies this
      ensures dialogState == old(dialogState)
      ensures var n := |Newcomers(members, recipient)|;
        log == old(log) + SentEvents(Repeat(WelcomeText, DeliveredRun(n, send)))
        && (failure.None? <==> DeliveredRun(n, send) == n)
      ensures failure.Some? ==> failure.value == send(DeliveredRun(|Newcomers(members, recipient)|, send)).message
    {
      var sent;
      sent, failure := SendWelcomes(members, recipient, WelcomeText, send);
      log := log + SentEvents(sent);
    }

    /** The base handler's dispatch (`base.OnTurnAsync`) to the overridden handlers. */
    method DispatchActivity(activity: Activity, s: Dialogs.Services, prompt: Dialogs.PromptOutcome,
                            send: nat -> SendResult)
      returns (failure: Option<string>)
      modifies this
      ensures var r := Dispatch(dialog.connectionName, old(dialogState), activity, s, prompt, send);
        dialogState == r.state && log == old(log) + r.events && failure == r.failure
    {
      failure := None;
      match activity {
        case MessageActivity(text) =>
          RunDialog(text, s, prompt);
        case EventActivity(name) =>
          if name == TokenResponseEventName {
            RunDialog(None, s, prompt);
          }
        case ConversationUpdate(members, recipient) =>
          failure := OnMembersAdded(members, recipient, send);
        case _ =>
      }
    }

    /** `OnTurnAsync`: the base dispatch, then the conversation save, then the user save.
        A failure escaping the dispatch skips both saves. */
    method OnTurn(activity: Activity, s: Dialogs.Services, prompt: Dialogs.PromptOutcome, send: nat -> SendResult)
      returns (failure: Option<string>)
      modifies this
      ensures var r := Turn(dialog.connectionName, old(dialogState), activity, s, prompt, send);
        dialogState == r.state && log == old(log) + r.events && failure == r.failure
    {
      ghost var d := Dispatch(dialog.connectionName, dialogState, activity, s, prompt, send);
      failure := DispatchActivity(activity, s, prompt, send);
      if failure.Some? {
        return;
      }
      log := log + SaveEvents;
      assert log == old(log) + (d.events + SaveEvents);
    }
  }

  /** Construction: the null checks, then a bot at the start of the dialog with nothing done. */
  method Create(conversationState: bool, userState: bool, dialog: Dialogs.MainDialog?, logger: bool)
    returns (r: Result<OAuthEchoBot, ArgumentNullException>)
    ensures r.Failure? <==> FirstNullDependency(conversationState, userState, dialog != null, logger).Some?
    ensures r.Failure? ==>
      Some(r.error.paramName) == FirstNullDependency(conversationState, userState, dialog != null, logger)
    ensures r.Success? ==>
      fresh(r.value) && r.value.dialog == dialog && r.value.dialogState == Dialogs.Idle && r.value.log == []
  {
    var missing := FirstNullDependency(conversationState, userState, dialog != null, logger);
    if missing.Some? {
      return Failure(ArgumentNullException(missing.value));
    }
    var bot := new OAuthEchoBot(dialog);
    r := Success(bot);
  }
}
